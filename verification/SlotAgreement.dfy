/**
 * Both ends of the preview protocol agree: the list the control plane delivers, drawn from any
 * reachable database state, gives the supervisor exactly the database's slot-to-port map.
 */
module SlotAgreement {
  import opened Prelude
  import D = ControlForwards
  import I = ForwardInvariants
  import S = SupervisorForwards

  /** Ports of a reachable table are 16-bit numbers, because every row was created for such a port. */
  predicate WirePorts(rows: D.Rows) { forall p :: p in rows ==> 0 <= p < S.PORTS }

  function ToWire(p: int, row: D.Row): S.Forward
    requires 0 <= p < S.PORTS && row.slot.Some? && row.slot.value in D.PROXY_SLOTS
  {
    S.Forward(p, row.visibility, row.title, row.url, Some(row.slot.value))
  }

  /** `list` is a delivery of the whole table: one view per row, in some order. */
  predicate Delivers(list: seq<S.Forward>, rows: D.Rows)
    requires I.SlotsDistinct(rows) && WirePorts(rows)
  {
    && (forall i :: 0 <= i < |list| ==> list[i].port in rows && list[i] == ToWire(list[i].port, rows[list[i].port]))
    && (forall p :: p in rows ==> exists i :: 0 <= i < |list| && list[i].port == p)
  }

  predicate SameSlots(known: seq<S.u16>) { forall s: S.u16 :: s in known <==> s in D.PROXY_SLOTS }

  lemma {:induction false} ByPortOfDelivery(list: seq<S.Forward>, rows: D.Rows)
    requires I.SlotsDistinct(rows) && WirePorts(rows)
    requires forall i :: 0 <= i < |list| ==> list[i].port in rows && list[i] == ToWire(list[i].port, rows[list[i].port])
    ensures forall p :: p in S.ByPort(list) ==> p in rows && S.ByPort(list)[p] == ToWire(p, rows[p])
    ensures forall i :: 0 <= i < |list| ==> list[i].port in S.ByPort(list)
  {
    if list != [] {
      ByPortOfDelivery(list[..|list| - 1], rows);
      assert forall i :: 0 <= i < |list| - 1 ==> list[..|list| - 1][i] == list[i];
    }
  }

  /** The database's slot map: slot `s` serves port `p`. */
  predicate Serves(rows: D.Rows, s: int, p: int) { p in rows && rows[p].slot == Some(s) }

  /** Claims read off a delivered list are the database's bindings, one port per slot. */
  lemma ClaimsOfDelivery(next: S.Forwards, known: seq<S.u16>, rows: D.Rows)
    requires I.SlotsDistinct(rows) && WirePorts(rows) && SameSlots(known)
    requires forall p: S.u16 :: p in next <==> p in rows
    requires forall p :: p in next ==> next[p] == ToWire(p, rows[p])
    ensures var c := S.Claimed(next, known, S.PORTS);
      && (forall s: S.u16 :: s in c ==> Serves(rows, s, c[s]))
      && (forall s: S.u16, p: S.u16 :: Serves(rows, s, p) ==> s in c && c[s] == p)
  {
    S.ClaimedIsHighestClaim(next, known, S.PORTS);
    var c := S.Claimed(next, known, S.PORTS);
    forall s: S.u16, p: S.u16 | Serves(rows, s, p) ensures s in c && c[s] == p {
      assert S.Claims(next, known, p, s);
      assert Serves(rows, s, c[s]);
    }
  }

  lemma NextOfDelivery(list: seq<S.Forward>, rows: D.Rows)
    requires I.SlotsDistinct(rows) && WirePorts(rows) && Delivers(list, rows)
    ensures forall p: S.u16 :: p in S.ByPort(list) <==> p in rows
    ensures forall p :: p in S.ByPort(list) ==> S.ByPort(list)[p] == ToWire(p, rows[p])
  {
    ByPortOfDelivery(list, rows);
    forall p: S.u16 | p in rows ensures p in S.ByPort(list) {
      var i :| 0 <= i < |list| && list[i].port == p;
    }
  }

  /** Every delivered port is claimed by its own slot, so no learned binding survives. */
  lemma SlotsAfterDelivery(st: S.State, next: S.Forwards, rows: D.Rows)
    requires S.Consistent(st) && I.SlotsDistinct(rows) && WirePorts(rows) && SameSlots(st.known)
    requires forall p: S.u16 :: p in next <==> p in rows
    requires forall p :: p in next ==> next[p] == ToWire(p, rows[p])
    ensures S.NextSlots(st, next) == S.Claimed(next, st.known, S.PORTS)
  {
    var claimed := S.Claimed(next, st.known, S.PORTS);
    ClaimsOfDelivery(next, st.known, rows);
    S.NextSlotsClosedForm(st, next);
    forall s | s in st.slots ensures !S.Survives(st.slots, next, claimed, s) {
      var p := st.slots[s];
      if p in next {
        assert Serves(rows, rows[p].slot.value, p);
        assert claimed[rows[p].slot.value] == p;
      }
    }
    assert S.Survivors(st.slots, next, claimed) == map[];
  }

  /**
   * Whatever token-learned bindings the supervisor held, after an accepted delivery its slot map
   * is the database's, and a slot is public exactly when the database row is.
   */
  lemma DeliveryAgrees(st: S.State, list: seq<S.Forward>, rows: D.Rows)
    requires S.Consistent(st) && I.SlotsDistinct(rows) && WirePorts(rows) && SameSlots(st.known) && Delivers(list, rows)
    ensures Agrees(S.Replaced(st, list), rows)
  {
    var next := S.ByPort(list);
    NextOfDelivery(list, rows);
    SlotsAfterDelivery(st, next, rows);
    ClaimsOfDelivery(next, st.known, rows);
    S.NextSlotsClosedForm(st, next);
    S.AssignedNames(next, S.NextSlots(st, next), S.PORTS);
  }

  predicate Agrees(st: S.State, rows: D.Rows) {
    && (forall s: S.u16, p: S.u16 :: Serves(rows, s, p) <==> s in st.slots && st.slots[s] == p)
    && (forall s: S.u16, p: S.u16 ::
          S.PublicSlotPort(st, s) == Some(p) <==> Serves(rows, s, p) && rows[p].visibility == Public)
  }

  /** The supervisor reports 16-bit ports. */
  predicate WireReports(evs: seq<I.Event>) {
    forall i :: 0 <= i < |evs| ==> evs[i].Sync? ==>
      forall j :: 0 <= j < |evs[i].report| ==> 0 <= evs[i].report[j] < S.PORTS
  }

  lemma StepWirePorts(db: D.Db, ev: I.Event)
    requires I.Good(db) && WirePorts(db.rows) && WireReports([ev])
    ensures WirePorts(I.Step(db, ev).rows)
  {
    assert [ev][0] == ev;
    if ev.Sync? {
      I.ListeningSorts(ev.env, ev.report);
      I.SyncKeeps(db, ev.env, ev.report);
      forall p | p in I.Step(db, ev).rows ensures 0 <= p < S.PORTS {
        assert p in ev.report || p in db.rows;
      }
    }
  }

  lemma {:induction false} RunWirePorts(db: D.Db, evs: seq<I.Event>)
    requires I.Good(db) && WirePorts(db.rows) && WireReports(evs)
    ensures I.Good(I.Run(db, evs)) && WirePorts(I.Run(db, evs).rows)
    decreases |evs|
  {
    if evs != [] {
      I.StepGood(db, evs[0]);
      StepWirePorts(db, evs[0]);
      RunWirePorts(I.Step(db, evs[0]), evs[1..]);
    }
  }

  /** Over every pair of runs, one on each side, an accepted delivery makes the two agree. */
  lemma ReachableStatesAgree(evs: seq<I.Event>, known: seq<S.u16>, learned: seq<S.Event>, list: seq<S.Forward>)
    requires WireReports(evs) && SameSlots(known)
    requires var rows := I.Run(D.Db(map[], {}), evs).rows;
      I.SlotsDistinct(rows) && WirePorts(rows) ==> Delivers(list, rows)
    ensures Agrees(S.Replaced(S.Run(S.State(map[], map[], known, 0), learned), list), I.Run(D.Db(map[], {}), evs).rows)
  {
    RunWirePorts(D.Db(map[], {}), evs);
    S.RunConsistent(S.State(map[], map[], known, 0), learned);
    DeliveryAgrees(S.Run(S.State(map[], map[], known, 0), learned), list, I.Run(D.Db(map[], {}), evs).rows);
  }
}
