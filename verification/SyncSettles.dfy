/** One reconcile is enough: it leaves every preview link current, and repeating it changes nothing. */
module SyncSettles {
  import opened Prelude
  import opened ControlForwards
  import opened ForwardInvariants

  /** The row shows the link of its slot, when the session has one. */
  predicate LinkCurrent(env: Env, row: Row) {
    row.slot.Some? && PublicSlotUrl(env, row.slot.value).Some? ==> row.url == PublicSlotUrl(env, row.slot.value)
  }

  function Turn(env: Env, kept: Rows, muted: set<int>, w: Progress, port: int): Progress {
    if port in muted then w else SyncPort(env, kept, w, port)
  }

  /** What the loop needs of its position: the invariant, and later ports not yet served. */
  predicate AtPorts(kept: Rows, muted: set<int>, w: Progress, ports: seq<int>, all: seq<int>) {
    && SlotsDistinct(kept) && LoopInv(kept, w, muted, all) && Ascending(ports)
    && forall p :: p in ports ==> p in all && (p in w.rows ==> p in kept)
  }

  lemma TurnKeeps(env: Env, kept: Rows, muted: set<int>, w: Progress, ports: seq<int>, all: seq<int>)
    requires AtPorts(kept, muted, w, ports, all) && ports != []
    ensures AtPorts(kept, muted, Turn(env, kept, muted, w, ports[0]), ports[1..], all)
    ensures ports[0] !in ports[1..]
  {
    assert ports[0] in ports && forall p :: p in ports[1..] ==> p in ports && p != ports[0];
    if ports[0] !in muted {
      SyncPortKeeps(env, kept, w, muted, all, ports[0]);
    }
  }

  /** A turn writes its own row only. */
  lemma TurnFrame(env: Env, kept: Rows, muted: set<int>, w: Progress, port: int, p: int)
    requires p != port
    ensures var w' := Turn(env, kept, muted, w, port); (p in w'.rows <==> p in w.rows) && (p in w.rows ==> w'.rows[p] == w.rows[p])
  {
  }

  lemma {:induction false} LoopFrame(env: Env, kept: Rows, muted: set<int>, w: Progress, ports: seq<int>, p: int)
    requires p !in ports
    ensures var r := SyncLoop(env, kept, muted, w, ports).rows; (p in r <==> p in w.rows) && (p in w.rows ==> r[p] == w.rows[p])
    decreases |ports|
  {
    if ports != [] {
      TurnFrame(env, kept, muted, w, ports[0], p);
      LoopFrame(env, kept, muted, Turn(env, kept, muted, w, ports[0]), ports[1..], p);
    }
  }

  /** A turn takes a slot only from those on offer, and gives none up. */
  lemma TurnSlots(env: Env, kept: Rows, muted: set<int>, w: Progress, ports: seq<int>, all: seq<int>, s: int)
    requires AtPorts(kept, muted, w, ports, all) && ports != []
    ensures var w' := Turn(env, kept, muted, w, ports[0]);
      && (SlotTaken(w.rows, s) ==> SlotTaken(w'.rows, s))
      && (SlotTaken(w'.rows, s) ==> SlotTaken(w.rows, s) || s in w.available)
      && (s in w'.available ==> s in w.available)
  {
    var w' := Turn(env, kept, muted, w, ports[0]);
    if SlotTaken(w.rows, s) {
      var p :| p in w.rows && w.rows[p].slot == Some(s);
      TurnFrame(env, kept, muted, w, ports[0], if p == ports[0] then p + 1 else p);
      assert p in w'.rows && w'.rows[p].slot == Some(s);
    }
  }

  lemma {:induction false} LoopSlots(env: Env, kept: Rows, muted: set<int>, w: Progress, ports: seq<int>, all: seq<int>, s: int)
    requires AtPorts(kept, muted, w, ports, all)
    ensures var r := SyncLoop(env, kept, muted, w, ports).rows;
      && (SlotTaken(w.rows, s) ==> SlotTaken(r, s))
      && (SlotTaken(r, s) ==> SlotTaken(w.rows, s) || s in w.available)
    decreases |ports|
  {
    if ports != [] {
      TurnKeeps(env, kept, muted, w, ports, all);
      TurnSlots(env, kept, muted, w, ports, all, s);
      LoopSlots(env, kept, muted, Turn(env, kept, muted, w, ports[0]), ports[1..], all, s);
    }
  }

  // ---------------------------------------------------------------- links

  lemma {:induction false} LoopLinks(env: Env, kept: Rows, muted: set<int>, w: Progress, ports: seq<int>, all: seq<int>, p: int)
    requires AtPorts(kept, muted, w, ports, all) && p in ports && p !in muted
    requires Unreached(kept, w, ports)
    ensures var r := SyncLoop(env, kept, muted, w, ports).rows; p in r && r[p].visibility == Public ==> LinkCurrent(env, r[p])
    decreases |ports|
  {
    var w' := Turn(env, kept, muted, w, ports[0]);
    TurnKeeps(env, kept, muted, w, ports, all);
    if p == ports[0] {
      LoopFrame(env, kept, muted, w', ports[1..], p);
    } else {
      forall q | q in ports[1..] && q in kept
        ensures q in w'.rows && kept[q] == w'.rows[q]
      {
        TurnFrame(env, kept, muted, w, ports[0], q);
      }
      LoopLinks(env, kept, muted, w', ports[1..], all, p);
    }
  }

  /** After a sync every public row shows the current link of its slot. */
  lemma SyncRefreshesLinks(db: Db, env: Env, report: seq<int>, port: int)
    requires Good(db) && port in Synced(db, env, report).rows && Synced(db, env, report).rows[port].visibility == Public
    ensures LinkCurrent(env, Synced(db, env, report).rows[port])
  {
    var ports := Listening(env, report);
    var muted := set p | p in db.muted && p in ports;
    var kept := Kept(db.rows, ports);
    ListeningSorts(env, report);
    SyncStart(db, ports, muted);
    SyncKeeps(db, env, report);
    LoopLinks(env, kept, muted, Progress(kept, Available(PROXY_SLOTS, kept)), ports, ports, port);
  }

  // ---------------------------------------------------------------- idempotence

  /** Filtering by the fuller table alone is filtering by both. */
  lemma {:induction false} AvailableTwice(slots: seq<int>, few: Rows, more: Rows)
    requires forall s :: SlotTaken(few, s) ==> SlotTaken(more, s)
    ensures Available(Available(slots, few), more) == Available(slots, more)
  {
    if slots != [] {
      AvailableTwice(slots[1..], few, more);
      if !SlotTaken(few, slots[0]) {
        var rest := Available(slots[1..], few);
        assert ([slots[0]] + rest)[1..] == rest && Available(slots, few) == [slots[0]] + rest;
      } else {
        assert Available(slots, few) == Available(slots[1..], few);
        assert Available(slots, more) == Available(slots[1..], more);
      }
    }
  }

  /** The rows the loop has not reached are those it started from. */
  predicate Unreached(kept: Rows, w: Progress, ports: seq<int>) {
    forall p :: p in ports && p in kept ==> p in w.rows && kept[p] == w.rows[p]
  }

  /** Replaying one turn against the final rows changes no row and uses up the same offers. */
  lemma ReplayTurn(env: Env, kept: Rows, muted: set<int>, w: Progress, ports: seq<int>, all: seq<int>, r: Rows)
    requires AtPorts(kept, muted, w, ports, all) && ports != []
    requires r == SyncLoop(env, kept, muted, w, ports).rows && Unreached(kept, w, ports)
    ensures Turn(env, r, muted, Progress(r, Available(w.available, r)), ports[0])
      == Progress(r, Available(Turn(env, kept, muted, w, ports[0]).available, r))
  {
    var port := ports[0];
    var w' := Turn(env, kept, muted, w, port);
    TurnKeeps(env, kept, muted, w, ports, all);
    LoopFrame(env, kept, muted, w', ports[1..], port);
    if port !in muted && port !in kept && w.available != [] {
      var slot := w.available[0];
      LoopSlots(env, kept, muted, w', ports[1..], all, slot);
      assert slot !in w.available[1..];
      if PublicSlotUrl(env, slot).Some? {
        assert r[port].slot == Some(slot);
      } else {
        assert !SlotTaken(w'.rows, slot);
      }
    }
  }

  lemma {:induction false} ReplayLoop(env: Env, kept: Rows, muted: set<int>, w: Progress, ports: seq<int>, all: seq<int>, r: Rows)
    requires AtPorts(kept, muted, w, ports, all) && Unreached(kept, w, ports)
    requires r == SyncLoop(env, kept, muted, w, ports).rows
    ensures SyncLoop(env, r, muted, Progress(r, Available(w.available, r)), ports).rows == r
    decreases |ports|
  {
    if ports != [] {
      var w' := Turn(env, kept, muted, w, ports[0]);
      assert ports[0] in ports;
      TurnKeeps(env, kept, muted, w, ports, all);
      forall p | p in ports[1..] && p in kept
        ensures p in w'.rows && kept[p] == w'.rows[p]
      {
        TurnFrame(env, kept, muted, w, ports[0], p);
      }
      ReplayTurn(env, kept, muted, w, ports, all, r);
      ReplayLoop(env, kept, muted, w', ports[1..], all, r);
    }
  }

  /** The loop run again on its own outcome, with what is then on offer. */
  lemma LoopSettles(env: Env, kept: Rows, muted: set<int>, ports: seq<int>, r: Rows)
    requires var start := Progress(kept, Available(PROXY_SLOTS, kept));
      AtPorts(kept, muted, start, ports, ports) && r == SyncLoop(env, kept, muted, start, ports).rows
    ensures SyncLoop(env, r, muted, Progress(r, Available(PROXY_SLOTS, r)), ports).rows == r
  {
    var start := Progress(kept, Available(PROXY_SLOTS, kept));
    forall s | SlotTaken(kept, s)
      ensures SlotTaken(r, s)
    {
      LoopSlots(env, kept, muted, start, ports, ports, s);
    }
    AvailableTwice(PROXY_SLOTS, kept, r);
    ReplayLoop(env, kept, muted, start, ports, ports, r);
  }

  /** After a sync nothing is left to close. */
  lemma NothingToClose(db: Db, env: Env, report: seq<int>)
    requires Good(db)
    ensures Kept(Synced(db, env, report).rows, Listening(env, report)) == Synced(db, env, report).rows
  {
    SyncKeeps(db, env, report);
    var r := Synced(db, env, report).rows;
    forall p | p in r
      ensures r[p].visibility == Private || p in Listening(env, report)
    {
      assert r[p].visibility == Public || r[p].visibility == Private;
    }
  }

  /** Syncing the same report again is a no-op, even when some slots have no host or have run out. */
  lemma SyncIsIdempotent(db: Db, env: Env, report: seq<int>)
    requires Good(db)
    ensures Synced(Synced(db, env, report), env, report) == Synced(db, env, report)
  {
    var ports := Listening(env, report);
    var muted := set p | p in db.muted && p in ports;
    ListeningSorts(env, report);
    SyncStart(db, ports, muted);
    LoopSettles(env, Kept(db.rows, ports), muted, ports, Synced(db, env, report).rows);
    NothingToClose(db, env, report);
    assert (set p | p in muted && p in ports) == muted;
  }
}
