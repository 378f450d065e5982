/**
 * The supervisor's in-memory forward list (sandbox/supervisor/src/state.rs, ForwardsState). The
 * two ordered maps are maps over 16-bit ports, walked in ascending order; each operation and its
 * bump of the change counter is one step.
 */
module SupervisorForwards {
  import opened Prelude

  const PORTS: nat := 0x10000

  type u16 = x: int | 0 <= x < PORTS

  datatype Forward = Forward(port: u16, visibility: Visibility, title: Option<string>, url: Option<string>, slot: Option<u16>)

  type Forwards = map<u16, Forward>

  type Slots = map<u16, u16>

  datatype SlotError =
    | NotPrivateForward(port: u16)
    | SlotBusy(slot: u16, port: u16)
    | UnknownSlot(slot: u16)
    | PortBoundElsewhere(port: u16, slot: u16)

  /** `changed` counts the changes announced so far. */
  datatype State = State(forwards: Forwards, slots: Slots, known: seq<u16>, changed: nat)

  // ---------------------------------------------------------------- replace, as a function

  /** Collecting into an ordered map: the last entry for a port wins. */
  function ByPort(list: seq<Forward>): Forwards {
    if list == [] then map[] else ByPort(list[..|list| - 1])[list[|list| - 1].port := list[|list| - 1]]
  }

  predicate Claims(next: Forwards, known: seq<u16>, p: u16, s: u16) {
    p in next && next[p].slot == Some(s) && s in known
  }

  /** The slots claimed by ports below `n`; a higher port overrides a lower one. */
  function Claimed(next: Forwards, known: seq<u16>, n: nat): Slots
    requires n <= PORTS
  {
    if n == 0 then map[] else
    var c, p := Claimed(next, known, n - 1), n - 1;
    if p in next && next[p].slot.Some? && next[p].slot.value in known then c[next[p].slot.value := p] else c
  }

  predicate StillPrivate(next: Forwards, p: u16) { p in next && next[p].visibility == Private }

  /** One turn of the retention loop. */
  function RetainOne(slots: Slots, next: Forwards, s: u16, p: u16): Slots {
    if StillPrivate(next, p) && s !in slots && p !in slots.Values then slots[s := p] else slots
  }

  /** The learned bindings of slots below `n`, each kept when the loop reaches it and may keep it. */
  function Retained(prior: Slots, next: Forwards, claimed: Slots, n: nat): Slots
    requires n <= PORTS
  {
    if n == 0 then claimed else
    var c, s := Retained(prior, next, claimed, n - 1), n - 1;
    if s in prior then RetainOne(c, next, s, prior[s]) else c
  }

  /** Writing the live bindings of slots below `n` back into the list. */
  function Assigned(next: Forwards, slots: Slots, n: nat): Forwards
    requires n <= PORTS
  {
    if n == 0 then next else
    var f, s := Assigned(next, slots, n - 1), n - 1;
    if s in slots && slots[s] in f then f[slots[s] := f[slots[s]].(slot := Some(s))] else f
  }

  function NextSlots(st: State, next: Forwards): Slots {
    Retained(st.slots, next, Claimed(next, st.known, PORTS), PORTS)
  }

  function Replaced(st: State, list: seq<Forward>): State {
    var next := ByPort(list);
    var slots := NextSlots(st, next);
    var forwards := Assigned(next, slots, PORTS);
    if forwards == st.forwards && slots == st.slots then st
    else st.(forwards := forwards, slots := slots, changed := st.changed + 1)
  }

  // ---------------------------------------------------------------- the other operations

  function Unbound(slots: Slots, port: u16): Slots { map s | s in slots && slots[s] != port :: slots[s] }

  function Inserted(st: State, f: Forward): State {
    if f.port in st.forwards && st.forwards[f.port] == f then st else
    var kept := Unbound(st.slots, f.port);
    st.(slots := if f.slot.Some? then kept[f.slot.value := f.port] else kept,
        forwards := st.forwards[f.port := f], changed := st.changed + 1)
  }

  function Removed(st: State, port: u16): State {
    if port !in st.forwards && port !in st.slots.Values then st
    else st.(forwards := st.forwards - {port}, slots := Unbound(st.slots, port), changed := st.changed + 1)
  }

  /** Why binding `slot` to `port` is refused, if it is; `None` also when it is bound already. */
  function BindError(st: State, slot: u16, port: u16): Option<SlotError> {
    if slot !in st.known then Some(UnknownSlot(slot))
    else if !StillPrivate(st.forwards, port) then Some(NotPrivateForward(port))
    else if slot in st.slots && st.slots[slot] == port then None
    else if slot in st.slots && st.slots[slot] in st.forwards then Some(SlotBusy(slot, st.slots[slot]))
    else if Elsewhere(st.slots, slot, port, 0).Some? then Some(PortBoundElsewhere(port, Elsewhere(st.slots, slot, port, 0).value))
    else None
  }

  /** The lowest slot from `n` on, other than `slot`, that serves `port`. */
  function Elsewhere(slots: Slots, slot: u16, port: u16, n: nat): (r: Option<u16>)
    requires n <= PORTS
    ensures r.Some? ==> r.value != slot && r.value in slots && slots[r.value] == port
    ensures r.None? ==> forall s: u16 :: n <= s && s != slot && s in slots ==> slots[s] != port
    decreases PORTS - n
  {
    if n == PORTS then None
    else if n in slots && slots[n] == port && n != slot then Some(n)
    else Elsewhere(slots, slot, port, n + 1)
  }

  function Bound(st: State, slot: u16, port: u16): State {
    if BindError(st, slot, port).Some? || (slot in st.slots && st.slots[slot] == port) then st
    else st.(slots := st.slots[slot := port],
             forwards := if port in st.forwards then st.forwards[port := st.forwards[port].(slot := Some(slot))] else st.forwards,
             changed := st.changed + 1)
  }

  function PublicSlotPort(st: State, slot: u16): Option<u16> {
    if slot in st.slots && st.slots[slot] in st.forwards && st.forwards[st.slots[slot]].visibility == Public
    then Some(st.slots[slot]) else None
  }

  // ---------------------------------------------------------------- the class

  class ForwardsState {
    var forwards: Forwards
    var slots: Slots
    const known: seq<u16>
    var changed: nat

    ghost function Value(): State
      reads this
    {
      State(forwards, slots, known, changed)
    }

    constructor (known: seq<u16>)
      ensures Value() == State(map[], map[], known, 0)
    {
      forwards, slots, changed := map[], map[], 0;
      this.known := known;
    }

    /** `expected` is the counter the list was built from; a newer list is never undone by an older one. */
    method ReplaceIfUnchanged(list: seq<Forward>, expected: Option<nat>) returns (accepted: bool)
      modifies this
      ensures accepted <==> expected.None? || expected.value == old(changed)
      ensures Value() == if accepted then Replaced(old(Value()), list) else old(Value())
    {
      if expected.Some? && expected.value != changed {
        return false;
      }
      var next := ByPort(list);
      var live := ClaimSlots(next);
      live := RetainLearned(next, live);
      next := WriteBack(next, live);
      accepted := true;
      if next == forwards && live == slots {
        return;
      }
      forwards, slots, changed := next, live, changed + 1;
    }

    /** First loop of `replace_if_unchanged`: the slots the new list names. */
    method ClaimSlots(next: Forwards) returns (live: Slots)
      ensures live == Claimed(next, known, PORTS)
    {
      live := map[];
      for port := 0 to PORTS
        invariant live == Claimed(next, known, port)
      {
        if port in next && next[port].slot.Some? && next[port].slot.value in known {
          live := live[next[port].slot.value := port];
        }
      }
    }

    /** Second loop: token-learned bindings whose port is still a private forward. */
    method RetainLearned(next: Forwards, claimed: Slots) returns (live: Slots)
      ensures live == Retained(slots, next, claimed, PORTS)
    {
      live := claimed;
      for slot := 0 to PORTS
        invariant live == Retained(slots, next, claimed, slot)
      {
        if slot in slots {
          var port := slots[slot];
          if port in next && next[port].visibility == Private && slot !in live && port !in live.Values {
            live := live[slot := port];
          }
        }
      }
    }

    /** Third loop: the list shows the live bindings. */
    method WriteBack(next: Forwards, live: Slots) returns (written: Forwards)
      ensures written == Assigned(next, live, PORTS)
    {
      written := next;
      for slot := 0 to PORTS
        invariant written == Assigned(next, live, slot)
      {
        if slot in live && live[slot] in written {
          written := written[live[slot] := written[live[slot]].(slot := Some(slot))];
        }
      }
    }

    method Insert(forward: Forward)
      modifies this
      ensures Value() == Inserted(old(Value()), forward)
    {
      if forward.port in forwards && forwards[forward.port] == forward {
        return;
      }
      slots := Unbound(slots, forward.port);
      if forward.slot.Some? {
        slots := slots[forward.slot.value := forward.port];
      }
      forwards := forwards[forward.port := forward];
      changed := changed + 1;
    }

    method Remove(port: u16)
      modifies this
      ensures Value() == Removed(old(Value()), port)
    {
      var removed := port in forwards;
      var before := slots;
      forwards := forwards - {port};
      slots := Unbound(slots, port);
      var unbound := slots != before;
      assert unbound <==> port in before.Values by {
        if port in before.Values {
          var s :| s in before && before[s] == port;
          assert s !in slots;
        }
      }
      if removed || unbound {
        changed := changed + 1;
      }
    }

    method BindSlot(slot: u16, port: u16) returns (error: Option<SlotError>)
      modifies this
      ensures error == BindError(old(Value()), slot, port)
      ensures Value() == Bound(old(Value()), slot, port)
    {
      if slot !in known {
        return Some(UnknownSlot(slot));
      }
      if !(port in forwards && forwards[port].visibility == Private) {
        return Some(NotPrivateForward(port));
      }
      if slot in slots {
        if slots[slot] == port {
          return None;
        }
        if slots[slot] in forwards {
          return Some(SlotBusy(slot, slots[slot]));
        }
      }
      var other := Elsewhere(slots, slot, port, 0);
      if other.Some? {
        return Some(PortBoundElsewhere(port, other.value));
      }
      slots := slots[slot := port];
      forwards := forwards[port := forwards[port].(slot := Some(slot))];
      changed := changed + 1;
      error := None;
    }
  }

  // ---------------------------------------------------------------- closed forms

  lemma {:induction false} ClaimedIsHighestClaim(next: Forwards, known: seq<u16>, n: nat)
    requires n <= PORTS
    ensures forall s :: s in Claimed(next, known, n) ==>
      Claims(next, known, Claimed(next, known, n)[s], s) && Claimed(next, known, n)[s] < n
    ensures forall p: u16, s: u16 :: p < n && Claims(next, known, p, s) ==>
      s in Claimed(next, known, n) && p <= Claimed(next, known, n)[s]
  {
    if n > 0 {
      ClaimedIsHighestClaim(next, known, n - 1);
      var p: u16 := n - 1;
      forall s | s in Claimed(next, known, n)
        ensures Claims(next, known, Claimed(next, known, n)[s], s) && Claimed(next, known, n)[s] < n
      {
        if Claims(next, known, p, s) {
          assert Claimed(next, known, n)[s] == p;
        } else {
          assert Claimed(next, known, n)[s] == Claimed(next, known, n - 1)[s];
        }
      }
    }
  }

  /** A learned binding survives exactly when its port is still private and neither end is claimed. */
  predicate Survives(prior: Slots, next: Forwards, claimed: Slots, s: u16) {
    s in prior && StillPrivate(next, prior[s]) && s !in claimed && prior[s] !in claimed.Values
  }

  function Survivors(prior: Slots, next: Forwards, claimed: Slots): Slots {
    map s | s in prior && Survives(prior, next, claimed, s) :: prior[s]
  }

  /** What survives once survives again. */
  lemma SurvivorsSurvive(prior: Slots, next: Forwards, claimed: Slots)
    ensures Survivors(claimed + Survivors(prior, next, claimed), next, claimed) == Survivors(prior, next, claimed)
  {
  }

  predicate Injective(slots: Slots) { forall s, t :: s in slots && t in slots && slots[s] == slots[t] ==> s == t }

  /** The retention loop does not depend on its order: it adds exactly the surviving bindings. */
  lemma {:induction false} RetainedClosedForm(prior: Slots, next: Forwards, claimed: Slots, n: nat)
    requires n <= PORTS && Injective(prior)
    ensures Retained(prior, next, claimed, n) == claimed + map s | s in prior && s < n && Survives(prior, next, claimed, s) :: prior[s]
  {
    if n > 0 {
      RetainedClosedForm(prior, next, claimed, n - 1);
      if n - 1 in prior && StillPrivate(next, prior[n - 1]) && n - 1 !in claimed {
        RetainedTurn(prior, next, claimed, Retained(prior, next, claimed, n - 1), n - 1);
      }
    }
  }

  lemma RetainedTurn(prior: Slots, next: Forwards, claimed: Slots, c: Slots, s: u16)
    requires Injective(prior) && s in prior && StillPrivate(next, prior[s]) && s !in claimed
    requires c == claimed + map t | t in prior && t < s && Survives(prior, next, claimed, t) :: prior[t]
    ensures s !in c && (prior[s] in c.Values <==> prior[s] in claimed.Values)
  {
    if prior[s] in claimed.Values {
      var t :| t in claimed && claimed[t] == prior[s];
      assert t in c && c[t] == prior[s];
    }
  }

  /** Writing bindings back names each bound port's slot and touches nothing else. */
  lemma {:induction false} AssignedNames(next: Forwards, slots: Slots, n: nat)
    requires n <= PORTS && Injective(slots)
    ensures var f := Assigned(next, slots, n);
      && f.Keys == next.Keys
      && (forall p :: p in f ==> f[p] == next[p].(slot := f[p].slot))
      && (forall s: u16 :: s in slots && s < n && slots[s] in f ==> f[slots[s]].slot == Some(s))
      && (forall p :: p in f && (forall s :: s in slots && s < n ==> slots[s] != p) ==> f[p] == next[p])
  {
    if n > 0 {
      AssignedNames(next, slots, n - 1);
    }
  }

  // ---------------------------------------------------------------- every run

  /**
   * Every bound port is a forward that names its slot, so no port is bound twice. (The converse
   * is not promised: an insert may take over a slot another forward still names.)
   */
  predicate Consistent(st: State) {
    && (forall p :: p in st.forwards ==> st.forwards[p].port == p)
    && (forall s :: s in st.slots ==> st.slots[s] in st.forwards && st.forwards[st.slots[s]].slot == Some(s))
  }

  lemma ConsistentIsInjective(st: State)
    requires Consistent(st)
    ensures Injective(st.slots)
  {
  }

  lemma {:induction false} ByPortKeys(list: seq<Forward>)
    ensures forall p :: p in ByPort(list) ==> ByPort(list)[p].port == p
  {
    if list != [] {
      ByPortKeys(list[..|list| - 1]);
    }
  }

  /** The slot map a replace installs, order-free: claims first, then the surviving bindings. */
  lemma NextSlotsClosedForm(st: State, next: Forwards)
    requires Consistent(st)
    ensures var claimed := Claimed(next, st.known, PORTS);
      NextSlots(st, next) == claimed + Survivors(st.slots, next, claimed)
    ensures Injective(NextSlots(st, next))
    ensures forall s :: s in NextSlots(st, next) ==> NextSlots(st, next)[s] in next
  {
    var claimed := Claimed(next, st.known, PORTS);
    ConsistentIsInjective(st);
    RetainedClosedForm(st.slots, next, claimed, PORTS);
    assert (map s | s in st.slots && s < PORTS && Survives(st.slots, next, claimed, s) :: st.slots[s])
        == Survivors(st.slots, next, claimed);
    ClaimedIsHighestClaim(next, st.known, PORTS);
  }

  lemma ReplacedConsistent(st: State, list: seq<Forward>)
    requires Consistent(st)
    ensures Consistent(Replaced(st, list))
  {
    var next := ByPort(list);
    ByPortKeys(list);
    NextSlotsClosedForm(st, next);
    AssignedNames(next, NextSlots(st, next), PORTS);
  }

  datatype Event =
    | Replace(list: seq<Forward>, expected: Option<nat>)
    | Insert(forward: Forward)
    | Remove(port: u16)
    | Bind(slot: u16, target: u16)

  function Step(st: State, ev: Event): State {
    match ev
    case Replace(list, expected) => if expected.None? || expected.value == st.changed then Replaced(st, list) else st
    case Insert(f) => Inserted(st, f)
    case Remove(p) => Removed(st, p)
    case Bind(s, p) => Bound(st, s, p)
  }

  function Run(st: State, evs: seq<Event>): State
    decreases |evs|
  {
    if evs == [] then st else Run(Step(st, evs[0]), evs[1..])
  }

  lemma StepConsistent(st: State, ev: Event)
    requires Consistent(st)
    ensures Consistent(Step(st, ev)) && Step(st, ev).known == st.known
    // A watcher is woken exactly when the list or the slot map changed.
    ensures Step(st, ev).changed ==
      if (Step(st, ev).forwards, Step(st, ev).slots) == (st.forwards, st.slots) then st.changed else st.changed + 1
  {
    match ev
    case Replace(list, _) => ReplacedConsistent(st, list);
    case Insert(f) =>
    case Remove(p) =>
      if p in st.slots.Values {
        var s :| s in st.slots && st.slots[s] == p;
        assert s !in Removed(st, p).slots;
      }
    case Bind(s, p) =>
  }

  /** Whatever sequence of operations runs, bindings stay injective and named by their forwards. */
  lemma {:induction false} RunConsistent(st: State, evs: seq<Event>)
    requires Consistent(st)
    ensures Consistent(Run(st, evs)) && Injective(Run(st, evs).slots) && Run(st, evs).known == st.known
    ensures st.changed <= Run(st, evs).changed
    decreases |evs|
  {
    if evs == [] {
      ConsistentIsInjective(st);
    } else {
      StepConsistent(st, evs[0]);
      RunConsistent(Step(st, evs[0]), evs[1..]);
    }
  }

  /** A presented token never moves or drops a binding; at most it adds the one it asked for. */
  lemma BindNeverMoves(st: State, slot: u16, port: u16)
    requires Consistent(st)
    ensures var st' := Bound(st, slot, port);
      && (forall s :: s in st.slots ==> s in st'.slots && st'.slots[s] == st.slots[s])
      && (BindError(st, slot, port).None? <==>
           (slot in st.known && StillPrivate(st.forwards, port) && slot in st'.slots && st'.slots[slot] == port))
  {
  }

  /** Delivering the same list twice is a no-op without a bump. */
  lemma ReplaceIsIdempotent(st: State, list: seq<Forward>)
    requires Consistent(st)
    ensures Replaced(Replaced(st, list), list) == Replaced(st, list)
  {
    var next := ByPort(list);
    var st' := Replaced(st, list);
    var claimed := Claimed(next, st.known, PORTS);
    NextSlotsClosedForm(st, next);
    ReplacedConsistent(st, list);
    NextSlotsClosedForm(st', next);
    SurvivorsSurvive(st.slots, next, claimed);
    assert NextSlots(st', next) == NextSlots(st, next);
  }

  // ---------------------------------------------------------------- what one operation leaves behind

  /** The list names ports; the last entry for a port is the one that counts. */
  lemma {:induction false} LastEntryWins(list: seq<Forward>, p: u16)
    ensures p in ByPort(list) <==> exists i :: 0 <= i < |list| && list[i].port == p
    ensures p in ByPort(list) ==> exists i :: 0 <= i < |list| && list[i] == ByPort(list)[p] && list[i].port == p && forall j :: i < j < |list| ==> list[j].port != p
  {
    if list != [] {
      var n := |list| - 1;
      LastEntryWins(list[..n], p);
      if list[n].port != p && p in ByPort(list) {
        var i :| 0 <= i < n && list[..n][i] == ByPort(list[..n])[p] && list[..n][i].port == p && forall j :: i < j < n ==> list[..n][j].port != p;
        assert list[i] == ByPort(list)[p] && forall j :: i < j < |list| ==> list[j].port != p by {
          forall j | i < j < |list|
            ensures list[j].port != p
          {
            if j < n {
              assert list[..n][j].port != p;
            }
          }
        }
      }
      assert forall i :: 0 <= i < n ==> list[..n][i] == list[i];
    }
  }

  /** A delivery leaves exactly the listed forwards, as listed but for the slot of those that are bound. */
  lemma ReplaceTakesEffect(st: State, list: seq<Forward>)
    requires Consistent(st)
    ensures var st', next := Replaced(st, list), ByPort(list);
      && st'.forwards.Keys == next.Keys
      && (forall p :: p in next ==> st'.forwards[p] == next[p].(slot := st'.forwards[p].slot))
      && (forall p :: p in next && (forall s :: s in st'.slots ==> st'.slots[s] != p) ==> st'.forwards[p] == next[p])
      && (forall s :: s in st'.slots ==> st'.slots[s] in next)
  {
    NextSlotsClosedForm(st, ByPort(list));
    AssignedNames(ByPort(list), NextSlots(st, ByPort(list)), PORTS);
  }

  /** An insert puts the forward under its port, binds the slot it names and no other to it, and touches nothing else. */
  lemma InsertTakesEffect(st: State, f: Forward)
    requires Consistent(st)
    ensures var st' := Inserted(st, f);
      && f.port in st'.forwards && st'.forwards[f.port] == f
      && (forall p :: p != f.port ==> (p in st'.forwards <==> p in st.forwards) && (p in st.forwards ==> st'.forwards[p] == st.forwards[p]))
      && (forall s :: s in st'.slots && st'.slots[s] == f.port ==> f.slot == Some(s))
      && (forall s :: f.slot != Some(s) && s in st.slots && st.slots[s] != f.port ==> s in st'.slots && st'.slots[s] == st.slots[s])
      && (forall s :: s in st'.slots && st'.slots[s] != f.port ==> s in st.slots && st.slots[s] == st'.slots[s])
      && (st' != st && f.slot.Some? ==> f.slot.value in st'.slots && st'.slots[f.slot.value] == f.port)
      && (st' == st <==> f.port in st.forwards && st.forwards[f.port] == f)
  {
  }

  /** A removal takes the forward and its bindings, and nothing else. */
  lemma RemoveTakesEffect(st: State, port: u16)
    ensures var st' := Removed(st, port);
      && port !in st'.forwards && port !in st'.slots.Values
      && (forall p :: p != port ==> (p in st'.forwards <==> p in st.forwards) && (p in st.forwards ==> st'.forwards[p] == st.forwards[p]))
      && (forall s :: s in st'.slots <==> s in st.slots && st.slots[s] != port)
      && (forall s :: s in st'.slots ==> st'.slots[s] == st.slots[s])
      && (st' == st <==> port !in st.forwards && port !in st.slots.Values)
  {
    if port in st.slots.Values {
      var s :| s in st.slots && st.slots[s] == port;
      assert s !in Removed(st, port).slots;
    }
  }

  /** Each refusal has its cause, an accepted binding names its slot in the forward, and nothing else changes. */
  lemma BindTakesEffect(st: State, slot: u16, port: u16)
    ensures match BindError(st, slot, port)
      case Some(UnknownSlot(s)) => s == slot && slot !in st.known
      case Some(NotPrivateForward(p)) => p == port && !(port in st.forwards && st.forwards[port].visibility == Private)
      case Some(SlotBusy(s, p)) => s == slot && p != port && slot in st.slots && st.slots[slot] == p && p in st.forwards
      case Some(PortBoundElsewhere(p, s)) => p == port && s != slot && s in st.slots && st.slots[s] == port
      case None => var st' := Bound(st, slot, port);
        && slot in st'.slots && st'.slots[slot] == port
        && (forall s :: s != slot ==> (s in st'.slots <==> s in st.slots) && (s in st.slots ==> st'.slots[s] == st.slots[s]))
        && (st' != st ==> port in st'.forwards && st'.forwards == st.forwards[port := st.forwards[port].(slot := Some(slot))])
    ensures BindError(st, slot, port).Some? ==> Bound(st, slot, port) == st
  {
  }
}
