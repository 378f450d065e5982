/** What every run of forward transactions keeps, and what one sync achieves. */
module ForwardInvariants {
  import opened Prelude
  import opened ControlForwards

  /** Every row holds a proxy slot and no two rows hold the same one. */
  predicate SlotsDistinct(rows: Rows) {
    && (forall p :: p in rows ==> rows[p].slot.Some? && rows[p].slot.value in PROXY_SLOTS)
    && (forall p, q :: p in rows && q in rows && rows[p].slot == rows[q].slot ==> p == q)
  }

  predicate Good(db: Db) {
    SlotsDistinct(db.rows) && forall p :: p in db.rows ==> p !in db.muted
  }

  // ---------------------------------------------------------------- the listening ports

  predicate Ascending(s: seq<int>) { forall i, j :: 0 <= i < j < |s| ==> s[i] < s[j] }

  lemma AscendingCons(x: int, s: seq<int>)
    requires Ascending(s) && forall y :: y in s ==> x < y
    ensures Ascending([x] + s)
  {
    forall i, j | 0 <= i < j < |[x] + s|
      ensures ([x] + s)[i] < ([x] + s)[j]
    {
      assert ([x] + s)[j] == s[j - 1] && s[j - 1] in s;
    }
  }

  lemma {:induction false} InsertPortSorts(sorted: seq<int>, p: int)
    requires Ascending(sorted)
    ensures Ascending(InsertPort(sorted, p))
    ensures forall x :: x in InsertPort(sorted, p) <==> x == p || x in sorted
  {
    if sorted == [] || p < sorted[0] {
      forall y | y in sorted
        ensures p < y
      {
        assert sorted[0] <= y;
      }
      AscendingCons(p, sorted);
    } else if p > sorted[0] {
      InsertPortSorts(sorted[1..], p);
      assert sorted == [sorted[0]] + sorted[1..];
      assert forall y :: y in sorted[1..] ==> sorted[0] < y;
      AscendingCons(sorted[0], InsertPort(sorted[1..], p));
    }
  }

  /** The sync walks exactly the reported ports that are not infrastructure, each once, ascending. */
  lemma {:induction false} ListeningSorts(env: Env, report: seq<int>)
    ensures Ascending(Listening(env, report))
    ensures forall x :: x in Listening(env, report) <==> x in report && !IsInfraPort(env, x)
  {
    if report != [] {
      ListeningSorts(env, report[1..]);
      InsertPortSorts(Listening(env, report[1..]), report[0]);
      assert report == [report[0]] + report[1..];
    }
  }

  // ---------------------------------------------------------------- the loop

  predicate Distinct(s: seq<int>) { forall i, j :: 0 <= i < j < |s| ==> s[i] != s[j] }

  lemma {:induction false} AvailableIsFree(slots: seq<int>, rows: Rows)
    requires Distinct(slots)
    ensures Distinct(Available(slots, rows))
    ensures forall s :: s in Available(slots, rows) <==> s in slots && !SlotTaken(rows, s)
  {
    if slots != [] {
      AvailableIsFree(slots[1..], rows);
      assert slots == [slots[0]] + slots[1..];
    }
  }

  /** No slot still on offer is held by a row, and only proxy slots are on offer. */
  predicate Offered(w: Progress) {
    Distinct(w.available) && forall s :: s in w.available ==> s in PROXY_SLOTS && !SlotTaken(w.rows, s)
  }

  /** The rows the loop started from survive with visibility and slot; private ones are untouched. */
  predicate Preserved(kept: Rows, rows: Rows) {
    forall p :: p in kept ==>
      && p in rows && rows[p].visibility == kept[p].visibility && rows[p].slot == kept[p].slot && rows[p].title == kept[p].title
      && (kept[p].visibility == Private ==> rows[p] == kept[p])
  }

  /** Rows the loop added are public ones on reported, unmuted ports. */
  predicate AddedOnly(kept: Rows, rows: Rows, muted: set<int>, ports: seq<int>) {
    forall p :: p in rows && p !in kept ==> p in ports && p !in muted && rows[p].visibility == Public && rows[p].title.None?
  }

  predicate LoopInv(kept: Rows, w: Progress, muted: set<int>, ports: seq<int>) {
    SlotsDistinct(w.rows) && Offered(w) && Preserved(kept, w.rows) && AddedOnly(kept, w.rows, muted, ports)
  }

  lemma SyncPortKeeps(env: Env, kept: Rows, w: Progress, muted: set<int>, ports: seq<int>, port: int)
    requires SlotsDistinct(kept) && LoopInv(kept, w, muted, ports) && port in ports && port !in muted
    requires port in w.rows ==> port in kept
    ensures LoopInv(kept, SyncPort(env, kept, w, port), muted, ports)
    ensures forall p :: p in SyncPort(env, kept, w, port).rows ==> p in w.rows || p == port
  {
    var w' := SyncPort(env, kept, w, port);
    if port !in kept && w.available != [] {
      var slot := w.available[0];
      assert !SlotTaken(w.rows, slot);
      assert forall s :: s in w.available[1..] ==> s in w.available && s != slot;
      forall s | s in w'.available ensures !SlotTaken(w'.rows, s) {
        assert !SlotTaken(w.rows, s);
      }
    } else if port in kept && w'.rows != w.rows {
      forall s | s in w'.available ensures !SlotTaken(w'.rows, s) {
        assert !SlotTaken(w.rows, s);
      }
    }
  }

  lemma {:induction false} SyncLoopKeeps(env: Env, kept: Rows, muted: set<int>, w: Progress, ports: seq<int>, all: seq<int>)
    requires SlotsDistinct(kept) && LoopInv(kept, w, muted, all) && Ascending(ports)
    requires forall p :: p in ports ==> p in all && (p in w.rows ==> p in kept)
    ensures LoopInv(kept, SyncLoop(env, kept, muted, w, ports), muted, all)
    decreases |ports|
  {
    if ports != [] {
      var port := ports[0];
      assert port in ports && forall p :: p in ports[1..] ==> p in ports && p != port;
      if port in muted {
        SyncLoopKeeps(env, kept, muted, w, ports[1..], all);
      } else {
        SyncPortKeeps(env, kept, w, muted, all, port);
        SyncLoopKeeps(env, kept, muted, SyncPort(env, kept, w, port), ports[1..], all);
      }
    }
  }

  // ---------------------------------------------------------------- completeness

  predicate AllHostsKnown(env: Env) { forall s :: s in PROXY_SLOTS ==> PublicSlotUrl(env, s).Some? }

  /** No slot is lost: each is on offer or held by a row. */
  predicate NoSlotLost(w: Progress) { forall s :: s in PROXY_SLOTS ==> s in w.available || SlotTaken(w.rows, s) }

  predicate Exhausted(rows: Rows) { forall s :: s in PROXY_SLOTS ==> SlotTaken(rows, s) }

  lemma SyncPortServes(env: Env, kept: Rows, w: Progress, port: int)
    requires AllHostsKnown(env) && SlotsDistinct(kept) && NoSlotLost(w) && Preserved(kept, w.rows)
    requires forall s :: s in w.available ==> s in PROXY_SLOTS
    requires port in w.rows ==> port in kept
    ensures var w' := SyncPort(env, kept, w, port);
      && NoSlotLost(w') && (forall p :: p in w.rows ==> p in w'.rows)
      && (forall s :: s in w'.available ==> s in w.available)
      && (port in w'.rows || w'.available == [])
  {
    var w' := SyncPort(env, kept, w, port);
    forall s | s in PROXY_SLOTS ensures s in w'.available || SlotTaken(w'.rows, s) {
      if s in w.available {
        if s !in w'.available {
          assert s == w.available[0] && w'.rows[port].slot == Some(s);
        }
      } else {
        var p :| p in w.rows && w.rows[p].slot == Some(s);
        assert p in w'.rows && w'.rows[p].slot == Some(s);
      }
    }
  }

  lemma {:induction false} SyncLoopServes(env: Env, kept: Rows, muted: set<int>, w: Progress, ports: seq<int>, all: seq<int>)
    requires AllHostsKnown(env) && SlotsDistinct(kept) && NoSlotLost(w) && LoopInv(kept, w, muted, all) && Ascending(ports)
    requires forall p :: p in ports ==> p in all && (p in w.rows ==> p in kept)
    ensures var w' := SyncLoop(env, kept, muted, w, ports);
      && (forall p :: p in w.rows ==> p in w'.rows)
      && NoSlotLost(w') && (forall s :: s in w'.available ==> s in w.available)
      && (forall p :: p in ports && p !in muted ==> p in w'.rows || w'.available == [])
    decreases |ports|
  {
    if ports != [] {
      var port := ports[0];
      assert port in ports && forall p :: p in ports[1..] ==> p in ports && p != port;
      assert forall p :: p in ports ==> p == port || p in ports[1..];
      var w1 := if port in muted then w else SyncPort(env, kept, w, port);
      if port !in muted {
        SyncPortKeeps(env, kept, w, muted, all, port);
        SyncPortServes(env, kept, w, port);
      }
      SyncLoopServes(env, kept, muted, w1, ports[1..], all);
      var w' := SyncLoop(env, kept, muted, w1, ports[1..]);
      assert w'.available != [] ==> w'.available[0] in w'.available;
    }
  }

  // ---------------------------------------------------------------- one sync

  lemma ProxySlotsDistinct()
    ensures Distinct(PROXY_SLOTS)
  {
  }

  lemma SyncStart(db: Db, ports: seq<int>, muted: set<int>)
    requires Good(db)
    ensures var kept := Kept(db.rows, ports);
      var w := Progress(kept, Available(PROXY_SLOTS, kept));
      SlotsDistinct(kept) && LoopInv(kept, w, muted, ports) && NoSlotLost(w)
  {
    ProxySlotsDistinct();
    AvailableIsFree(PROXY_SLOTS, Kept(db.rows, ports));
  }

  /** Private rows are exactly as before, and none is added. */
  predicate PrivateUntouched(before: Rows, after: Rows) {
    && (forall p :: p in before && before[p].visibility == Private ==> p in after && after[p] == before[p])
    && (forall p :: p in after && after[p].visibility == Private ==> p in before && after[p] == before[p])
  }

  /** Public rows are on listening ports only; the surviving ones keep slot and title, new ones have none. */
  predicate PublicFollow(before: Rows, after: Rows, ports: seq<int>) {
    && (forall p :: p in after && after[p].visibility == Public ==> p in ports)
    && (forall p :: p in before && before[p].visibility == Public && p in ports ==>
          p in after && after[p].visibility == Public && after[p].slot == before[p].slot && after[p].title == before[p].title)
    && (forall p :: p in after && p !in before ==> after[p].title.None?)
  }

  lemma LoopOutcome(before: Rows, w: Progress, muted: set<int>, ports: seq<int>)
    requires LoopInv(Kept(before, ports), w, muted, ports)
    ensures PrivateUntouched(before, w.rows) && PublicFollow(before, w.rows, ports)
  {
  }

  lemma LoopAvoidsMuted(db: Db, w: Progress, muted: set<int>, ports: seq<int>)
    requires Good(db) && muted <= db.muted && LoopInv(Kept(db.rows, ports), w, muted, ports)
    ensures Good(Db(w.rows, muted))
  {
  }

  /** A sync keeps the invariant, leaves private rows alone and never moves a surviving public slot. */
  lemma SyncKeeps(db: Db, env: Env, report: seq<int>)
    requires Good(db)
    ensures var db' := Synced(db, env, report);
      && Good(db')
      && PrivateUntouched(db.rows, db'.rows)
      && PublicFollow(db.rows, db'.rows, Listening(env, report))
      && db'.muted == set p | p in db.muted && p in Listening(env, report)
  {
    var ports := Listening(env, report);
    var muted := set p | p in db.muted && p in ports;
    var kept := Kept(db.rows, ports);
    var start := Progress(kept, Available(PROXY_SLOTS, kept));
    ListeningSorts(env, report);
    SyncStart(db, ports, muted);
    SyncLoopKeeps(env, kept, muted, start, ports, ports);
    LoopOutcome(db.rows, SyncLoop(env, kept, muted, start, ports), muted, ports);
    LoopAvoidsMuted(db, SyncLoop(env, kept, muted, start, ports), muted, ports);
  }

  /** With every slot host known, a listening port stays unforwarded only when all slots are taken. */
  lemma SyncServesEveryone(db: Db, env: Env, report: seq<int>, port: int)
    requires Good(db) && AllHostsKnown(env) && port in Listening(env, report) && port !in db.muted
    ensures port in Synced(db, env, report).rows || Exhausted(Synced(db, env, report).rows)
  {
    var ports := Listening(env, report);
    var muted := set p | p in db.muted && p in ports;
    var kept := Kept(db.rows, ports);
    ListeningSorts(env, report);
    SyncStart(db, ports, muted);
    SyncLoopServes(env, kept, muted, Progress(kept, Available(PROXY_SLOTS, kept)), ports, ports);
  }

  // ---------------------------------------------------------------- every run

  datatype Event =
    | CreateForward(env: Env, request: Create)
    | RemoveForward(env: Env, port: int)
    | Sync(env: Env, report: seq<int>)

  function Step(db: Db, ev: Event): Db {
    match ev
    case CreateForward(env, req) => var r := Created(db, env, req); if r.Ok? then r.value else db
    case RemoveForward(env, port) => var r := Removed(db, env, port); if r.Ok? then r.value else db
    case Sync(env, report) => Synced(db, env, report)
  }

  function Run(db: Db, evs: seq<Event>): Db
    decreases |evs|
  {
    if evs == [] then db else Run(Step(db, evs[0]), evs[1..])
  }

  /** A create fails for want of a slot exactly when the port is new and every slot is taken. */
  lemma CreateKeeps(db: Db, env: Env, req: Create)
    requires Good(db)
    ensures Created(db, env, req) == Err(NoFreeSlot) <==>
      (ForwardableError(env, req.port).None? && req.port !in db.rows && Exhausted(db.rows))
    ensures Created(db, env, req).Ok? ==> Good(Created(db, env, req).value)
    ensures Created(db, env, req).Ok? ==> forall p :: p in db.rows ==>
      p in Created(db, env, req).value.rows && Created(db, env, req).value.rows[p].slot == db.rows[p].slot
  {
    var slot := AllocateSlot(db.rows, req.port);
    if slot.Some? && req.port !in db.rows {
      assert !SlotTaken(db.rows, slot.value);
    }
  }

  lemma StepGood(db: Db, ev: Event)
    requires Good(db)
    ensures Good(Step(db, ev))
  {
    match ev
    case CreateForward(env, req) => CreateKeeps(db, env, req);
    case RemoveForward(_, _) =>
    case Sync(env, report) => SyncKeeps(db, env, report);
  }

  /** Slots are distinct proxy slots and muted ports have no row, in every reachable state. */
  lemma {:induction false} RunGood(db: Db, evs: seq<Event>)
    requires Good(db)
    ensures Good(Run(db, evs))
    decreases |evs|
  {
    if evs != [] {
      StepGood(db, evs[0]);
      RunGood(Step(db, evs[0]), evs[1..]);
    }
  }

  /** A create that succeeds unmutes the port, links it to its slot and touches no other row. */
  lemma CreateTakesEffect(db: Db, env: Env, req: Create)
    requires Good(db) && Created(db, env, req).Ok?
    ensures var db' := Created(db, env, req).value;
      && db'.rows - {req.port} == db.rows - {req.port} && req.port !in db'.muted && db'.muted + {req.port} == db.muted + {req.port}
      && req.port in db'.rows && db'.rows[req.port].visibility == req.visibility && db'.rows[req.port].title == req.title
      && (req.port in db.rows ==> db'.rows[req.port].slot == db.rows[req.port].slot)
      && (req.port !in db.rows ==> forall p :: p in db.rows ==> db.rows[p].slot != db'.rows[req.port].slot)
      && db'.rows[req.port].url ==
           if req.visibility == Private then Some(PrivateForwardUrl(env, req.port)) else PublicSlotUrl(env, db'.rows[req.port].slot.value)
  {
    if req.port !in db.rows {
      assert !SlotTaken(db.rows, AllocateSlot(db.rows, req.port).value);
    }
  }

  /** The port keeps listening in every report, and nobody forwards it again. */
  predicate KeepsListening(evs: seq<Event>, port: int) {
    forall i :: 0 <= i < |evs| ==>
      && (evs[i].Sync? ==> port in Listening(evs[i].env, evs[i].report))
      && !(evs[i].CreateForward? && evs[i].request.port == port)
  }

  /** A muted port stays off while it keeps listening and nobody forwards it. */
  lemma {:induction false} MutedStaysOff(db: Db, port: int, evs: seq<Event>)
    requires Good(db) && port in db.muted && KeepsListening(evs, port)
    ensures port in Run(db, evs).muted && port !in Run(db, evs).rows
    decreases |evs|
  {
    if evs != [] {
      StepGood(db, evs[0]);
      assert evs[0] == evs[..1][0];
      if evs[0].Sync? {
        SyncKeeps(db, evs[0].env, evs[0].report);
      }
      MutedStaysOff(Step(db, evs[0]), port, evs[1..]);
    }
  }

  /** Who may be forwarded: a port number that is none of the platform's own. */
  lemma ForwardableExactly(env: Env, port: int)
    ensures ForwardableError(env, port) == Some(InvalidPort) <==> port < 1 || 65535 < port
    ensures ForwardableError(env, port).None? <==>
      && 1 <= port <= 65535 && port !in {22, 53, 111, 23456} && !(8443 <= port <= 8460)
      && port != env.rpcPort && port != env.healthPort
  {
    assert forall s :: s in PROXY_SLOTS ==> 8443 <= s <= 8460;
  }

  /** A removal succeeds exactly for a forwardable port: it loses its row, is muted, and nothing else changes. */
  lemma RemoveTakesEffect(db: Db, env: Env, port: int)
    ensures var db', ok := Step(db, RemoveForward(env, port)), Removed(db, env, port).Ok?;
      && (ok <==> ForwardableError(env, port).None?)
      && (!ok ==> db' == db && Removed(db, env, port).error == ForwardableError(env, port).value)
      && (ok ==> port in db'.muted && port !in db'.rows)
      && (forall p :: p != port ==> (p in db'.muted <==> p in db.muted) && (p in db'.rows <==> p in db.rows))
      && (forall p :: p != port && p in db.rows ==> db'.rows[p] == db.rows[p])
  {
  }

  /** An accepted unforward stays off until the listener closes or the user forwards the port again. */
  lemma RemovedStaysOff(db: Db, env: Env, port: int, evs: seq<Event>)
    requires Good(db) && ForwardableError(env, port).None? && KeepsListening(evs, port)
    ensures var db' := Run(Step(db, RemoveForward(env, port)), evs); port in db'.muted && port !in db'.rows
  {
    RemoveTakesEffect(db, env, port);
    StepGood(db, RemoveForward(env, port));
    MutedStaysOff(Step(db, RemoveForward(env, port)), port, evs);
  }

  /** All events meet the same deployment, and the supervisor reports port numbers. */
  predicate OneDeployment(env: Env, evs: seq<Event>) {
    forall i :: 0 <= i < |evs| ==>
      && evs[i].env.rpcPort == env.rpcPort && evs[i].env.healthPort == env.healthPort
      && (evs[i].Sync? ==> forall j :: 0 <= j < |evs[i].report| ==> 1 <= evs[i].report[j] <= 65535)
  }

  /** No row ever names a port that may not be forwarded. */
  predicate RowsForwardable(env: Env, db: Db) { forall p :: p in db.rows ==> ForwardableError(env, p).None? }

  lemma StepForwardable(env: Env, db: Db, ev: Event)
    requires Good(db) && RowsForwardable(env, db) && OneDeployment(env, [ev])
    ensures RowsForwardable(env, Step(db, ev))
  {
    assert [ev][0] == ev;
    match ev
    case CreateForward(e, req) =>
      ForwardableExactly(e, req.port);
      ForwardableExactly(env, req.port);
    case RemoveForward(_, _) =>
    case Sync(e, report) =>
      SyncKeeps(db, e, report);
      ListeningSorts(e, report);
      forall p | p in Step(db, ev).rows
        ensures ForwardableError(env, p).None?
      {
        if p !in db.rows {
          assert p in report && !IsInfraPort(e, p);
        }
      }
  }

  lemma {:induction false} RunForwardable(env: Env, db: Db, evs: seq<Event>)
    requires Good(db) && RowsForwardable(env, db) && OneDeployment(env, evs)
    ensures RowsForwardable(env, Run(db, evs))
    decreases |evs|
  {
    if evs != [] {
      assert [evs[0]][0] == evs[0];
      StepForwardable(env, db, evs[0]);
      StepGood(db, evs[0]);
      RunForwardable(env, Step(db, evs[0]), evs[1..]);
    }
  }
}
