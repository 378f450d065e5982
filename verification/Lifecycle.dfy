/**
 * Admission of lifecycle runs (apps/web/lib/lifecycle.ts, `withLock` of apps/web/lib/kv.ts). Any number
 * of callers interleave at their awaits: take the lock, read the run id, ask for its status, reserve,
 * start, record, release. Runs finish or die on their own; callers crash; the clock advances.
 */
module Lifecycle {
  import opened Prelude
  import Decimal
  import KvStore

  const LOCK := "zs:lock:lifecycle"
  const LEASE_MS := 30_000

  /** `workspaces.workflow_run_id`: null, `admitting:<uuid>`, or a run. */
  datatype RunField = Null | Pending(caller: nat) | Run(id: nat)

  /** Where a caller of `startLifecycle` stands; a crashed caller has left without releasing. */
  datatype At = Reading | Checking(seen: RunField) | Reserving | Starting | Recording(run: nat) | Undoing | Releasing | Left

  /** `deadline`: when the lease taken at entry runs out. */
  datatype Caller = Caller(at: At, deadline: int)

  /** `active`: the run has neither executed its finishing step nor died. */
  datatype RunInfo = RunInfo(owner: nat, active: bool)

  datatype State = State(now: int, table: KvStore.Table, row: RunField, callers: map<nat, Caller>, runs: map<nat, RunInfo>)

  datatype Event =
    | Advance(ms: nat)
    | Enter(c: nat)
    | Read(c: nat)
    | Check(c: nat)
    | Reserve(c: nat, capacity: bool)
    | Start(c: nat, run: nat)
    | StartFails(c: nat)
    | Record(c: nat)
    | Undo(c: nat)
    | Release(c: nat)
    | Crash(c: nat)
    | Finish(run: nat)
    | FinishAgain(run: nat)
    | Die(run: nat)
    | Sweep
    | SweepKv

  function Token(c: nat): string { Decimal.IntText(c) }

  lemma TokensDiffer(c: nat, d: nat)
    requires Token(c) == Token(d)
    ensures c == d
  {
    KvStore.CastIntText(c);
    KvStore.CastIntText(d);
  }

  predicate Is(s: State, c: nat, at: At) { c in s.callers && s.callers[c].at == at }

  function Move(s: State, c: nat, at: At): State
    requires c in s.callers
  {
    s.(callers := s.callers[c := s.callers[c].(at := at)])
  }

  predicate Active(s: State, run: nat) { run in s.runs && s.runs[run].active }

  /** `isRunActive`: a reservation counts as active; a run by its status. */
  predicate IsRunActive(s: State, seen: RunField) {
    match seen
    case Null => false
    case Pending(_) => true
    case Run(id) => Active(s, id)
  }

  function Next(s: State, ev: Event): State {
    match ev
    case Advance(ms) => s.(now := s.now + ms)
    case Enter(c) =>
      if c in s.callers then s else
      var (table, acquired) := KvStore.SqlSet(s.table, LOCK, Token(c), Some(LEASE_MS), true, s.now);
      s.(table := table, callers := s.callers[c := Caller(if acquired then Reading else Left, s.now + LEASE_MS)])
    case Read(c) => if Is(s, c, Reading) then Move(s, c, Checking(s.row)) else s
    case Check(c) =>
      if c in s.callers && s.callers[c].at.Checking?
      then Move(s, c, if IsRunActive(s, s.callers[c].at.seen) then Releasing else Reserving) else s
    case Reserve(c, capacity) =>
      if !Is(s, c, Reserving) then s else if !capacity then Move(s, c, Releasing) else Move(s, c, Starting).(row := Pending(c))
    case Start(c, run) =>
      if Is(s, c, Starting) && run !in s.runs then Move(s, c, Recording(run)).(runs := s.runs[run := RunInfo(c, true)]) else s
    case StartFails(c) => if Is(s, c, Starting) then Move(s, c, Undoing) else s
    case Record(c) =>
      if c in s.callers && s.callers[c].at.Recording?
      then Move(s, c, Releasing).(row := if s.row == Pending(c) then Run(s.callers[c].at.run) else s.row) else s
    case Undo(c) => if Is(s, c, Undoing) then Move(s, c, Releasing).(row := if s.row == Pending(c) then Null else s.row) else s
    case Release(c) => if Is(s, c, Releasing) then Move(s, c, Left).(table := KvStore.SqlCompareDelete(s.table, LOCK, Token(c))) else s
    case Crash(c) => if c in s.callers then Move(s, c, Left) else s
    case Finish(run) => if Active(s, run) then s.(runs := s.runs[run := s.runs[run].(active := false)], row := Null) else s
    case FinishAgain(run) => if run in s.runs && !s.runs[run].active then s.(row := Null) else s
    case Die(run) => if Active(s, run) then s.(runs := s.runs[run := s.runs[run].(active := false)]) else s
    case Sweep => if s.row.Null? || (s.row.Run? && Active(s, s.row.id)) then s else s.(row := Null)
    case SweepKv => s.(table := KvStore.SqlSweep(s.table, s.now))
  }

  function RunAll(s: State, evs: seq<Event>): State
    decreases |evs|
  {
    if evs == [] then s else RunAll(Next(s, evs[0]), evs[1..])
  }

  function Initial(now: int): State { State(now, map[], Null, map[], map[]) }

  // ---------------------------------------------------------------- what the environment promises

  /** The caller is done with starting, and whatever it started is over. */
  ghost predicate Abandoned(s: State, c: nat) {
    && (c in s.callers ==> !s.callers[c].at.Starting?)
    && forall r :: r in s.runs && s.runs[r].owner == c ==> !s.runs[r].active
  }

  /** No run is in flight and no caller is about to start one. */
  ghost predicate Vacant(s: State) {
    (forall r :: r in s.runs ==> !s.runs[r].active) && forall c :: c in s.callers ==> !s.callers[c].at.Starting?
  }

  /** No other caller with an unexpired lease is on its way to reserve. */
  ghost predicate Undisputed(s: State, c: nat) {
    forall d :: d != c && Holds(s, d) ==> !Bound(s.callers[d].at)
  }

  /** Unless its run is found active, such a caller reserves next. */
  predicate Bound(at: At) { at.Reserving? || (at.Checking? && !at.seen.Pending?) }

  /**
   * A caller reserves within its lease, or late where nobody is in the way; a finishing step that
   * takes effect again finds nothing in flight; the sweep drops abandoned reservations only. No
   * other step of a caller need be in time.
   */
  ghost predicate Orderly(s: State, ev: Event) {
    && (ev.Reserve? && Is(s, ev.c, Reserving) && ev.capacity ==> s.now < s.callers[ev.c].deadline || (Vacant(s) && Undisputed(s, ev.c)))
    && (ev.FinishAgain? && ev.run in s.runs && !s.runs[ev.run].active ==> Vacant(s))
    && (ev.Sweep? && s.row.Pending? ==> Abandoned(s, s.row.caller))
  }

  ghost predicate AllOrderly(s: State, evs: seq<Event>)
    decreases |evs|
  {
    evs != [] ==> Orderly(s, evs[0]) && AllOrderly(Next(s, evs[0]), evs[1..])
  }

  // ---------------------------------------------------------------- the invariant

  predicate InSection(at: At) { at.Reading? || at.Checking? || at.Reserving? }

  predicate Unstarted(at: At) { InSection(at) || at.Starting? || at.Undoing? }

  /** A caller still deciding, with its lease unexpired. */
  predicate Holds(s: State, c: nat) { c in s.callers && InSection(s.callers[c].at) && s.now < s.callers[c].deadline }

  /** A live lease is in the table under its holder's token, and a lock always expires. */
  ghost predicate LeasesRecorded(s: State) {
    && (LOCK in s.table ==> s.table[LOCK].expiresAt.Some?)
    && forall c :: Holds(s, c) ==> LOCK in s.table && s.table[LOCK] == KvStore.Row(Token(c), Some(s.callers[c].deadline))
  }

  /** Nothing is in flight and nothing is being admitted. */
  predicate Quiet(s: State) { s.row.Null? || (s.row.Run? && !Active(s, s.row.id)) }

  /** What a live holder has seen is still so, but for a run that ended. */
  ghost predicate ReadsHold(s: State) {
    && (forall c :: Holds(s, c) && s.callers[c].at.Checking? && !s.callers[c].at.seen.Pending? ==> s.row.Null? || s.row == s.callers[c].at.seen)
    && forall c :: Holds(s, c) && s.callers[c].at.Reserving? ==> Quiet(s)
  }

  /** A caller about to start owns the reservation and has started nothing. */
  ghost predicate ReservationsHold(s: State) {
    && (forall c :: c in s.callers && s.callers[c].at.Starting? ==> s.row == Pending(c))
    && (forall r :: r in s.runs && s.runs[r].owner in s.callers ==> !Unstarted(s.callers[s.runs[r].owner].at))
    && (forall c :: c in s.callers && s.callers[c].at.Recording? ==> s.callers[c].at.run in s.runs && s.runs[s.callers[c].at.run].owner == c)
  }

  /** Each run has its own admitting caller, and a run in flight is the one the row names. */
  ghost predicate RunsNamed(s: State) {
    && (forall r :: r in s.runs ==> s.runs[r].owner in s.callers)
    && (forall r, q :: r in s.runs && q in s.runs && s.runs[r].owner == s.runs[q].owner ==> r == q)
    && (forall r :: Active(s, r) ==> s.row == Run(r) || s.row == Pending(s.runs[r].owner))
  }

  ghost predicate Inv(s: State) { LeasesRecorded(s) && ReadsHold(s) && ReservationsHold(s) && RunsNamed(s) }

  /** Two unexpired holders are the same caller. */
  lemma HoldersExclude(s: State, c: nat, d: nat)
    requires LeasesRecorded(s) && Holds(s, c) && Holds(s, d)
    ensures c == d
  {
    TokensDiffer(c, d);
  }

  // ---------------------------------------------------------------- preservation

  lemma MoveOutKeepsInv(s: State, c: nat, at: At)
    requires Inv(s) && c in s.callers && (at.Releasing? || at.Left? || (at.Undoing? && Unstarted(s.callers[c].at)))
    ensures Inv(Move(s, c, at))
  {
  }

  /** The run id may be cleared when nothing is in flight and nobody is about to start. */
  lemma ClearKeepsInv(s: State)
    requires Inv(s) && Vacant(s)
    ensures Inv(s.(row := Null))
  {
  }

  function Ended(s: State, run: nat): State
    requires run in s.runs
  {
    s.(runs := s.runs[run := s.runs[run].(active := false)])
  }

  lemma EndKeepsInv(s: State, run: nat)
    requires Inv(s) && run in s.runs
    ensures Inv(Ended(s, run))
  {
  }

  function Locked(s: State, c: nat): State {
    s.(table := s.table[LOCK := KvStore.Row(Token(c), Some(s.now + LEASE_MS))], callers := s.callers[c := Caller(Reading, s.now + LEASE_MS)])
  }

  lemma EnterOutcome(s: State, c: nat)
    requires c !in s.callers
    ensures Next(s, Enter(c)) ==
      if LOCK in s.table && KvStore.Live(s.table[LOCK], s.now) then s.(callers := s.callers[c := Caller(Left, s.now + LEASE_MS)]) else Locked(s, c)
  {
  }

  lemma EnterKeepsInv(s: State, c: nat)
    requires Inv(s)
    ensures Inv(Next(s, Enter(c)))
  {
    if c !in s.callers {
      EnterOutcome(s, c);
      if LOCK in s.table && KvStore.Live(s.table[LOCK], s.now) {
        AddKeepsInv(s, c, Caller(Left, s.now + LEASE_MS));
      } else {
        LockKeepsInv(s, c);
      }
    }
  }

  lemma AddKeepsInv(s: State, c: nat, caller: Caller)
    requires Inv(s) && c !in s.callers && caller.at.Left?
    ensures Inv(s.(callers := s.callers[c := caller]))
  {
  }

  /** A lock that is not live has no holder, so its new holder is the only one. */
  lemma LockKeepsInv(s: State, c: nat)
    requires Inv(s) && c !in s.callers && !(LOCK in s.table && KvStore.Live(s.table[LOCK], s.now))
    ensures Inv(Locked(s, c))
  {
    var s' := Locked(s, c);
    forall d | Holds(s', d)
      ensures d == c
    {
      if d != c {
        assert Holds(s, d);
      }
    }
  }

  lemma ReadKeepsInv(s: State, c: nat)
    requires Inv(s)
    ensures Inv(Next(s, Read(c)))
  {
    if Is(s, c, Reading) {
      var s' := Next(s, Read(c));
      assert forall d :: Holds(s', d) <==> Holds(s, d);
    }
  }

  lemma CheckKeepsInv(s: State, c: nat)
    requires Inv(s)
    ensures Inv(Next(s, Check(c)))
  {
    if c in s.callers && s.callers[c].at.Checking? && IsRunActive(s, s.callers[c].at.seen) {
      MoveOutKeepsInv(s, c, Releasing);
    }
  }

  /** A caller that may still reserve within its lease is alone. */
  lemma HolderIsUndisputed(s: State, c: nat)
    requires Inv(s) && Is(s, c, Reserving) && s.now < s.callers[c].deadline
    ensures Vacant(s) && Undisputed(s, c)
  {
    assert Holds(s, c);
    forall d | Holds(s, d)
      ensures d == c
    {
      HoldersExclude(s, c, d);
    }
  }

  lemma FreeReserveKeepsInv(s: State, c: nat)
    requires Inv(s) && Is(s, c, Reserving) && Vacant(s) && Undisputed(s, c)
    ensures Inv(Next(s, Reserve(c, true)))
  {
    var s' := Next(s, Reserve(c, true));
    assert forall d :: Holds(s', d) ==> d != c && Holds(s, d) && s'.callers[d] == s.callers[d];
  }

  lemma ReserveKeepsInv(s: State, c: nat, capacity: bool)
    requires Inv(s) && Orderly(s, Reserve(c, capacity))
    ensures Inv(Next(s, Reserve(c, capacity)))
  {
    if Is(s, c, Reserving) && !capacity {
      MoveOutKeepsInv(s, c, Releasing);
    } else if Is(s, c, Reserving) {
      if s.now < s.callers[c].deadline {
        HolderIsUndisputed(s, c);
      }
      FreeReserveKeepsInv(s, c);
    }
  }

  lemma StartKeepsRuns(s: State, c: nat, run: nat)
    requires Inv(s) && Is(s, c, Starting) && run !in s.runs
    ensures RunsNamed(Move(s, c, Recording(run)).(runs := s.runs[run := RunInfo(c, true)]))
  {
    assert forall r :: r in s.runs ==> s.runs[r].owner != c;
  }

  lemma StartKeepsCallers(s: State, c: nat, run: nat)
    requires Inv(s) && Is(s, c, Starting) && run !in s.runs
    ensures var s' := Move(s, c, Recording(run)).(runs := s.runs[run := RunInfo(c, true)]); LeasesRecorded(s') && ReadsHold(s') && ReservationsHold(s')
  {
    var s' := Move(s, c, Recording(run)).(runs := s.runs[run := RunInfo(c, true)]);
    assert forall d :: Holds(s', d) ==> d != c && Holds(s, d) && s'.callers[d] == s.callers[d];
  }

  lemma StartKeepsInv(s: State, c: nat, run: nat)
    requires Inv(s)
    ensures Inv(Next(s, Start(c, run)))
  {
    if Is(s, c, Starting) && run !in s.runs {
      StartKeepsRuns(s, c, run);
      StartKeepsCallers(s, c, run);
    }
  }

  lemma NameKeepsInv(s: State, c: nat, run: nat)
    requires Inv(s) && s.row == Pending(c) && run in s.runs && s.runs[run].owner == c && c in s.callers && !s.callers[c].at.Starting?
    ensures Inv(s.(row := Run(run)))
  {
  }

  lemma RecordKeepsInv(s: State, c: nat)
    requires Inv(s)
    ensures Inv(Next(s, Record(c)))
  {
    if c in s.callers && s.callers[c].at.Recording? {
      MoveOutKeepsInv(s, c, Releasing);
      if s.row == Pending(c) {
        NameKeepsInv(Move(s, c, Releasing), c, s.callers[c].at.run);
      }
    }
  }

  lemma UndoKeepsInv(s: State, c: nat)
    requires Inv(s)
    ensures Inv(Next(s, Undo(c)))
  {
    if Is(s, c, Undoing) {
      MoveOutKeepsInv(s, c, Releasing);
      if s.row == Pending(c) {
        ClearKeepsInv(Move(s, c, Releasing));
      }
    }
  }

  lemma ReleaseKeepsInv(s: State, c: nat)
    requires Inv(s)
    ensures Inv(Next(s, Release(c)))
  {
    if Is(s, c, Releasing) {
      MoveOutKeepsInv(s, c, Left);
      UnlockKeepsInv(Move(s, c, Left), c);
    }
  }

  /** Releasing by token spares every lease but the caller's own. */
  lemma UnlockKeepsLeases(s: State, c: nat)
    requires LeasesRecorded(s) && !Holds(s, c)
    ensures LeasesRecorded(s.(table := KvStore.SqlCompareDelete(s.table, LOCK, Token(c))))
  {
    forall d | Holds(s, d)
      ensures Token(c) != Token(d)
    {
      if Token(c) == Token(d) {
        TokensDiffer(c, d);
      }
    }
  }

  lemma UnlockKeepsInv(s: State, c: nat)
    requires Inv(s) && !Holds(s, c)
    ensures Inv(s.(table := KvStore.SqlCompareDelete(s.table, LOCK, Token(c))))
  {
    UnlockKeepsLeases(s, c);
  }

  lemma FinishKeepsInv(s: State, run: nat)
    requires Inv(s)
    ensures Inv(Next(s, Finish(run)))
  {
    if Active(s, run) {
      EndKeepsInv(s, run);
      ClearKeepsInv(Ended(s, run));
    }
  }

  lemma SweepKeepsInv(s: State)
    requires Inv(s) && Orderly(s, Sweep)
    ensures Inv(Next(s, Sweep))
  {
    if Next(s, Sweep) != s {
      ClearKeepsInv(s);
    }
  }

  lemma ClockKeepsInv(s: State, ev: Event)
    requires Inv(s) && (ev.Advance? || ev.SweepKv?)
    ensures Inv(Next(s, ev))
  {
  }

  lemma NextKeepsInv(s: State, ev: Event)
    requires Inv(s) && Orderly(s, ev)
    ensures Inv(Next(s, ev))
  {
    match ev
    case Advance(_) => ClockKeepsInv(s, ev);
    case SweepKv => ClockKeepsInv(s, ev);
    case Enter(c) => EnterKeepsInv(s, c);
    case Read(c) => ReadKeepsInv(s, c);
    case Check(c) => CheckKeepsInv(s, c);
    case Reserve(c, capacity) => ReserveKeepsInv(s, c, capacity);
    case Start(c, run) => StartKeepsInv(s, c, run);
    case StartFails(c) => if Is(s, c, Starting) { MoveOutKeepsInv(s, c, Undoing); }
    case Record(c) => RecordKeepsInv(s, c);
    case Undo(c) => UndoKeepsInv(s, c);
    case Release(c) => ReleaseKeepsInv(s, c);
    case Crash(c) => if c in s.callers { MoveOutKeepsInv(s, c, Left); }
    case Finish(run) => FinishKeepsInv(s, run);
    case Die(run) => if Active(s, run) { EndKeepsInv(s, run); }
    case Sweep => SweepKeepsInv(s);
    case FinishAgain(run) => if run in s.runs && !s.runs[run].active { ClearKeepsInv(s); }
  }

  // ---------------------------------------------------------------- the theorems

  lemma {:induction false} RunKeepsInv(s: State, evs: seq<Event>)
    requires Inv(s) && AllOrderly(s, evs)
    ensures Inv(RunAll(s, evs))
    decreases |evs|
  {
    if evs != [] {
      NextKeepsInv(s, evs[0]);
      RunKeepsInv(Next(s, evs[0]), evs[1..]);
    }
  }

  /** Over every interleaving, at most one admitted run is in flight, and the row names it. */
  lemma AtMostOneInFlight(now: int, evs: seq<Event>, r: nat, q: nat)
    requires AllOrderly(Initial(now), evs)
    requires Active(RunAll(Initial(now), evs), r) && Active(RunAll(Initial(now), evs), q)
    ensures r == q
    ensures var s := RunAll(Initial(now), evs); s.row == Run(r) || s.row == Pending(s.runs[r].owner)
  {
    RunKeepsInv(Initial(now), evs);
  }

  lemma EnterKeepsLeases(s: State, c: nat)
    requires LeasesRecorded(s)
    ensures LeasesRecorded(Next(s, Enter(c)))
  {
    if c !in s.callers {
      EnterOutcome(s, c);
    }
  }

  lemma ClockKeepsLeases(s: State, ev: Event)
    requires LeasesRecorded(s) && (ev.Advance? || ev.SweepKv?)
    ensures LeasesRecorded(Next(s, ev))
  {
  }

  /** Nobody becomes a holder by any other event. */
  lemma HoldersShrink(s: State, ev: Event, d: nat)
    requires !ev.Enter? && !ev.Advance? && !ev.SweepKv? && Holds(Next(s, ev), d)
    ensures Holds(s, d) && Next(s, ev).callers[d].deadline == s.callers[d].deadline
  {
  }

  lemma LeaseStep(s: State, ev: Event)
    requires LeasesRecorded(s)
    ensures LeasesRecorded(Next(s, ev))
  {
    if ev.Enter? {
      EnterKeepsLeases(s, ev.c);
    } else if ev.Advance? || ev.SweepKv? {
      ClockKeepsLeases(s, ev);
    } else if ev.Release? {
      if Is(s, ev.c, Releasing) {
        UnlockKeepsLeases(Move(s, ev.c, Left), ev.c);
      }
    } else {
      var s' := Next(s, ev);
      forall d | Holds(s', d)
        ensures LOCK in s'.table && s'.table[LOCK] == KvStore.Row(Token(d), Some(s'.callers[d].deadline))
      {
        HoldersShrink(s, ev, d);
      }
    }
  }

  lemma {:induction false} LeasesStay(s: State, evs: seq<Event>)
    requires LeasesRecorded(s)
    ensures LeasesRecorded(RunAll(s, evs))
    decreases |evs|
  {
    if evs != [] {
      LeaseStep(s, evs[0]);
      LeasesStay(Next(s, evs[0]), evs[1..]);
    }
  }

  /** While one caller decides within its lease, no other does, whatever else happens. */
  lemma OneCallerDecides(now: int, evs: seq<Event>, c: nat, d: nat)
    requires Holds(RunAll(Initial(now), evs), c) && Holds(RunAll(Initial(now), evs), d)
    ensures c == d
  {
    LeasesStay(Initial(now), evs);
    HoldersExclude(RunAll(Initial(now), evs), c, d);
  }

  /** Leaving late never unlocks a successor: the row of any other token stays as it was. */
  lemma LateReleaseSparesSuccessor(s: State, c: nat, d: nat)
    requires c != d && LOCK in s.table && s.table[LOCK].value == Token(d)
    ensures Next(s, Release(c)).table == s.table
  {
    if Token(c) == Token(d) {
      TokensDiffer(c, d);
    }
  }

  /** No event but its own admission puts a run's id in the row, and a finished run's never appears. */
  ghost predicate Unrecordable(s: State, c: nat, run: nat) {
    && run in s.runs && s.runs[run].owner == c && !s.runs[run].active && c in s.callers && !Unstarted(s.callers[c].at)
    && (forall d :: d in s.callers && s.callers[d].at == Recording(run) ==> d == c)
    && s.row != Pending(c) && s.row != Run(run)
  }

  lemma UnrecordableStep(s: State, c: nat, run: nat, ev: Event)
    requires Unrecordable(s, c, run)
    ensures Unrecordable(Next(s, ev), c, run)
  {
  }

  lemma {:induction false} UnrecordableStays(s: State, c: nat, run: nat, evs: seq<Event>)
    requires Unrecordable(s, c, run)
    ensures Unrecordable(RunAll(s, evs), c, run)
    decreases |evs|
  {
    if evs != [] {
      UnrecordableStep(s, c, run, evs[0]);
      UnrecordableStays(Next(s, evs[0]), c, run, evs[1..]);
    }
  }

  /** A run that ends before its id is recorded leaves null, and its id is never recorded afterwards. */
  lemma EarlyFinishLeavesNull(s: State, c: nat, run: nat, evs: seq<Event>)
    requires Inv(s) && Is(s, c, Recording(run)) && Active(s, run)
    ensures Next(s, Finish(run)).row.Null?
    ensures Next(Next(s, Finish(run)), Record(c)).row.Null?
    ensures RunAll(Next(s, Finish(run)), evs).row != Run(run)
  {
    UnrecordableStays(Next(s, Finish(run)), c, run, evs);
  }

  // ---------------------------------------------------------------- admission, and why the promises are needed

  function Admission(c: nat, run: nat): seq<Event> {
    [Enter(c), Read(c), Check(c), Reserve(c, true), Start(c, run), Record(c), Release(c)]
  }

  predicate LockFree(s: State) { LOCK in s.table ==> !KvStore.Live(s.table[LOCK], s.now) }

  /** The state an undisturbed admission leads to. */
  function Admitted(s: State, c: nat, run: nat): State {
    s.(table := s.table - {LOCK}, row := Run(run), runs := s.runs[run := RunInfo(c, true)],
       callers := s.callers[c := Caller(Left, s.now + LEASE_MS)])
  }

  lemma RunAllAppend(s: State, a: seq<Event>, b: seq<Event>)
    ensures RunAll(s, a + b) == RunAll(RunAll(s, a), b)
    decreases |a|
  {
    if a == [] {
      assert a + b == b;
    } else {
      assert (a + b)[0] == a[0] && (a + b)[1..] == a[1..] + b;
      RunAllAppend(Next(s, a[0]), a[1..], b);
    }
  }

  lemma Peel(s: State, e: Event, rest: seq<Event>)
    ensures RunAll(s, [e] + rest) == RunAll(Next(s, e), rest)
  {
    assert ([e] + rest)[1..] == rest;
  }

  /** The state an undisturbed reservation leads to. */
  function Reserved(s: State, c: nat): State {
    s.(table := s.table[LOCK := KvStore.Row(Token(c), Some(s.now + LEASE_MS))], row := Pending(c), callers := s.callers[c := Caller(Starting, s.now + LEASE_MS)])
  }

  /** Up to its reservation, an undisturbed caller that finds nothing in flight gets through. */
  lemma ReserveWorks(s: State, c: nat)
    requires Quiet(s) && LockFree(s) && c !in s.callers
    ensures Next(Next(Next(Next(s, Enter(c)), Read(c)), Check(c)), Reserve(c, true)) == Reserved(s, c)
  {
    var s1 := Next(s, Enter(c));
    assert s1.callers[c].at == Reading;
    var s2 := Next(s1, Read(c));
    assert s2.callers[c].at == Checking(s.row);
    var s3 := Next(s2, Check(c));
    assert s3.callers[c].at == Reserving;
  }

  /** From its own reservation on, a caller whose start succeeds records the run and frees the lock. */
  lemma RecordWorks(s: State, c: nat, run: nat)
    requires Is(s, c, Starting) && s.row == Pending(c) && run !in s.runs && LOCK in s.table && s.table[LOCK].value == Token(c)
    ensures Next(Next(Next(s, Start(c, run)), Record(c)), Release(c)) ==
      Move(s, c, Left).(table := s.table - {LOCK}, row := Run(run), runs := s.runs[run := RunInfo(c, true)])
  {
    var s5 := Next(s, Start(c, run));
    assert s5.callers[c].at == Recording(run);
    var s6 := Next(s5, Record(c));
    assert s6.callers[c].at == Releasing && s6.row == Run(run);
  }

  lemma ReservedThenAdmitted(s: State, c: nat, run: nat)
    ensures Admitted(s, c, run) ==
      Move(Reserved(s, c), c, Left).(table := Reserved(s, c).table - {LOCK}, row := Run(run), runs := s.runs[run := RunInfo(c, true)])
  {
    assert Reserved(s, c).table - {LOCK} == s.table - {LOCK};
    assert Reserved(s, c).callers[c := Caller(Left, s.now + LEASE_MS)] == s.callers[c := Caller(Left, s.now + LEASE_MS)];
  }

  lemma AdmissionUnrolled(s: State, c: nat, run: nat)
    ensures RunAll(s, Admission(c, run)) ==
      Next(Next(Next(Next(Next(Next(Next(s, Enter(c)), Read(c)), Check(c)), Reserve(c, true)), Start(c, run)), Record(c)), Release(c))
  {
    Peel(s, Enter(c), Admission(c, run)[1..]);
    var s1 := Next(s, Enter(c));
    Peel(s1, Read(c), Admission(c, run)[2..]);
    var s2 := Next(s1, Read(c));
    Peel(s2, Check(c), Admission(c, run)[3..]);
    var s3 := Next(s2, Check(c));
    Peel(s3, Reserve(c, true), Admission(c, run)[4..]);
    var s4 := Next(s3, Reserve(c, true));
    Peel(s4, Start(c, run), Admission(c, run)[5..]);
    var s5 := Next(s4, Start(c, run));
    Peel(s5, Record(c), [Release(c)]);
    Peel(Next(s5, Record(c)), Release(c), []);
  }

  /** The lock is free again and the run recorded: an admission nobody disturbs succeeds. */
  lemma AdmissionWorks(s: State, c: nat, run: nat)
    requires Quiet(s) && LockFree(s) && c !in s.callers && run !in s.runs
    ensures RunAll(s, Admission(c, run)) == Admitted(s, c, run)
  {
    AdmissionUnrolled(s, c, run);
    ReserveWorks(s, c);
    RecordWorks(Reserved(s, c), c, run);
    ReservedThenAdmitted(s, c, run);
  }

  /** A start that fails leaves the run id null, the runs as they were and the lock free. */
  lemma FailedStartWorks(s: State, c: nat)
    requires Quiet(s) && LockFree(s) && c !in s.callers
    ensures var t := Next(Next(Next(Reserved(s, c), StartFails(c)), Undo(c)), Release(c));
      t.row.Null? && t.runs == s.runs && LOCK !in t.table && t.callers[c].at.Left?
  {
    var t1 := Next(Reserved(s, c), StartFails(c));
    assert t1.callers[c].at == Undoing && t1.row == Pending(c);
    var t2 := Next(t1, Undo(c));
    assert t2.callers[c].at == Releasing;
  }

  /** A caller that finds something active leaves run id and runs alone and frees the lock. */
  lemma BusyCallerLeaves(s: State, c: nat)
    requires !Quiet(s) && LockFree(s) && c !in s.callers
    ensures var t := Next(Next(Next(Next(s, Enter(c)), Read(c)), Check(c)), Release(c));
      t.row == s.row && t.runs == s.runs && LOCK !in t.table && t.callers[c].at.Left?
  {
    EnterOutcome(s, c);
    var t1 := Locked(s, c);
    var t2 := Next(t1, Read(c));
    assert t1.callers[c].at == Reading && t2.callers[c].at == Checking(s.row);
    var t3 := Next(t2, Check(c));
    assert t3.callers[c].at == Releasing && t3.table == t1.table;
  }

  // ---------------------------------------------------------------- the promises are exactly what is needed

  predicate AtMostOne(s: State) { forall r, q :: r in s.runs && q in s.runs && s.runs[r].active && s.runs[q].active ==> r == q }

  /** Whatever an orderly environment does from here, never two runs are in flight. */
  ghost predicate SafeFrom(s: State) { forall evs :: AllOrderly(s, evs) ==> AtMostOne(RunAll(s, evs)) }

  lemma InvIsSafe(s: State)
    requires Inv(s)
    ensures SafeFrom(s)
  {
    forall evs | AllOrderly(s, evs)
      ensures AtMostOne(RunAll(s, evs))
    {
      RunKeepsInv(s, evs);
    }
  }

  /** Some caller or run id is still unused. */
  lemma {:induction false} Fresh(used: set<nat>) returns (n: nat)
    ensures n !in used && forall x :: x in used ==> x < n
    decreases used
  {
    if used == {} {
      n := 0;
    } else {
      var x :| x in used;
      var m := Fresh(used - {x});
      n := if x < m then m else x + 1;
      assert forall y :: y in used ==> y == x || y in used - {x};
    }
  }

  lemma OrderlyCons(s: State, e: Event, rest: seq<Event>)
    ensures AllOrderly(s, [e] + rest) <==> Orderly(s, e) && AllOrderly(Next(s, e), rest)
  {
    assert ([e] + rest)[1..] == rest;
  }

  lemma {:induction false} OrderlyAppend(s: State, a: seq<Event>, b: seq<Event>)
    requires AllOrderly(s, a) && AllOrderly(RunAll(s, a), b)
    ensures AllOrderly(s, a + b)
    decreases |a|
  {
    if a == [] {
      assert a + b == b;
    } else {
      assert (a + b)[0] == a[0] && (a + b)[1..] == a[1..] + b;
      OrderlyAppend(Next(s, a[0]), a[1..], b);
    }
  }

  /** An event no promise speaks of. */
  predicate Plain(ev: Event) { !ev.Reserve? && !ev.FinishAgain? && !ev.Sweep? }

  lemma {:induction false} PlainIsOrderly(s: State, evs: seq<Event>)
    requires forall i :: 0 <= i < |evs| ==> Plain(evs[i])
    ensures AllOrderly(s, evs)
    decreases |evs|
  {
    if evs != [] {
      PlainIsOrderly(Next(s, evs[0]), evs[1..]);
    }
  }

  lemma AdmissionOrderly(s: State, c: nat, run: nat)
    requires Quiet(s) && LockFree(s) && c !in s.callers
    ensures AllOrderly(s, Admission(c, run))
  {
    var early, late := [Enter(c), Read(c), Check(c)], [Start(c, run), Record(c), Release(c)];
    var s3 := RunAll(s, early);
    AboutToReserve(s, c);
    PlainIsOrderly(s, early);
    PlainIsOrderly(Next(s3, Reserve(c, true)), late);
    OrderlyCons(s3, Reserve(c, true), late);
    OrderlyAppend(s, early, [Reserve(c, true)] + late);
    assert Admission(c, run) == early + ([Reserve(c, true)] + late);
  }

  lemma AboutToReserve(s: State, c: nat)
    requires Quiet(s) && LockFree(s) && c !in s.callers
    ensures var t := RunAll(s, [Enter(c), Read(c), Check(c)]); Is(t, c, Reserving) && t.now < t.callers[c].deadline
  {
    EarlyUnrolled(s, c);
    EnterOutcome(s, c);
    var s1 := Locked(s, c);
    var s2 := Next(s1, Read(c));
    assert s1.callers[c].at == Reading && s2.callers[c].at == Checking(s.row);
  }

  lemma EarlyUnrolled(s: State, c: nat)
    ensures RunAll(s, [Enter(c), Read(c), Check(c)]) == Next(Next(Next(s, Enter(c)), Read(c)), Check(c))
  {
    Peel(s, Enter(c), [Read(c), Check(c)]);
    Peel(Next(s, Enter(c)), Read(c), [Check(c)]);
    Peel(Next(Next(s, Enter(c)), Read(c)), Check(c), []);
    assert [Enter(c), Read(c), Check(c)] == [Enter(c)] + [Read(c), Check(c)] && [Read(c), Check(c)] == [Read(c)] + [Check(c)];
    assert [Check(c)] == [Check(c)] + [];
  }

  /** After the lock's own expiry anyone may take it. */
  function Wait(s: State): nat {
    if LOCK in s.table && s.table[LOCK].expiresAt.Some? && s.table[LOCK].expiresAt.value > s.now
    then s.table[LOCK].expiresAt.value - s.now else 0
  }

  /** With the run id cleared, the lock's expiry awaited and an undisturbed admission, one more run is in flight. */
  lemma OneMoreGetsIn(s: State) returns (evs: seq<Event>, c: nat, run: nat)
    requires LeasesRecorded(s) && s.row.Null?
    ensures AllOrderly(s, evs) && c !in s.callers && run !in s.runs
    ensures RunAll(s, evs) == Admitted(s.(now := s.now + Wait(s)), c, run)
  {
    c := Fresh(s.callers.Keys);
    run := Fresh(s.runs.Keys);
    var later := Next(s, Advance(Wait(s)));
    AdmissionOrderly(later, c, run);
    AdmissionWorks(later, c, run);
    evs := [Advance(Wait(s))] + Admission(c, run);
    OrderlyCons(s, Advance(Wait(s)), Admission(c, run));
    Peel(s, Advance(Wait(s)), Admission(c, run));
  }

  /** A caller about to start can do so beside any other run. */
  lemma OneMoreStarts(s: State, c: nat, r: nat) returns (run: nat)
    requires Is(s, c, Starting) && Active(s, r)
    ensures AllOrderly(s, [Start(c, run)]) && !AtMostOne(RunAll(s, [Start(c, run)]))
  {
    run := Fresh(s.runs.Keys);
    PlainIsOrderly(s, [Start(c, run)]);
    Peel(s, Start(c, run), []);
    assert [Start(c, run)] == [Start(c, run)] + [];
    var s' := Next(s, Start(c, run));
    assert Active(s', r) && Active(s', run) && r != run;
  }

  /** What a later state cannot promise, an earlier one from which it is reached orderly cannot either. */
  lemma UnsafeBefore(s: State, evs: seq<Event>)
    requires AllOrderly(s, evs) && !SafeFrom(RunAll(s, evs))
    ensures !SafeFrom(s)
  {
    var more :| AllOrderly(RunAll(s, evs), more) && !AtMostOne(RunAll(RunAll(s, evs), more));
    OrderlyAppend(s, evs, more);
    RunAllAppend(s, evs, more);
  }

  lemma UnsafeNow(s: State)
    requires !AtMostOne(s)
    ensures !SafeFrom(s)
  {
    assert RunAll(s, []) == s && AllOrderly(s, []);
  }

  /** Clearing the run id is safe exactly while nothing is in flight and nobody is about to start. */
  lemma ClearIsSafeExactly(s: State)
    requires Inv(s)
    ensures SafeFrom(s.(row := Null)) <==> Vacant(s)
  {
    if Vacant(s) {
      ClearKeepsInv(s);
      InvIsSafe(s.(row := Null));
    } else {
      ClearAdmitsTwo(s);
    }
  }

  lemma ClearAdmitsTwo(s: State)
    requires Inv(s) && !Vacant(s)
    ensures !SafeFrom(s.(row := Null))
  {
    var s1 := s.(row := Null);
    assert forall d :: Holds(s1, d) <==> Holds(s, d);
    var evs, c, run := OneMoreGetsIn(s1);
    var s2 := RunAll(s1, evs);
    if r :| r in s.runs && s.runs[r].active {
      assert Active(s2, r) && Active(s2, run) && r != run;
      UnsafeNow(s2);
    } else {
      var d :| d in s.callers && s.callers[d].at.Starting?;
      assert Is(s2, d, Starting) && Active(s2, run);
      var second := OneMoreStarts(s2, d, run);
    }
    UnsafeBefore(s1, evs);
  }

  /** A finishing step may take effect again exactly while nothing is in flight or about to start. */
  lemma RepeatedFinishExactly(s: State, over: nat)
    requires Inv(s) && over in s.runs && !s.runs[over].active
    ensures SafeFrom(Next(s, FinishAgain(over))) <==> Vacant(s)
  {
    ClearIsSafeExactly(s);
  }

  /** Two callers about to start get two runs in flight. */
  lemma TwoStart(s: State, c: nat, d: nat)
    requires Is(s, c, Starting) && Is(s, d, Starting) && c != d
    ensures !SafeFrom(s)
  {
    var run := Fresh(s.runs.Keys);
    var s' := Next(s, Start(c, run));
    assert Is(s', d, Starting) && Active(s', run);
    var second := OneMoreStarts(s', d, run);
    PlainIsOrderly(s, [Start(c, run)]);
    assert [Start(c, run)] == [Start(c, run)] + [];
    Peel(s, Start(c, run), []);
    UnsafeBefore(s, [Start(c, run)]);
  }

  /** A reservation is safe exactly while nothing is in flight or about to start and nobody else is about to reserve. */
  lemma ReserveExactly(s: State, c: nat)
    requires Inv(s) && Is(s, c, Reserving)
    ensures SafeFrom(Next(s, Reserve(c, true))) <==> Vacant(s) && Undisputed(s, c)
  {
    if Vacant(s) && Undisputed(s, c) {
      FreeReserveKeepsInv(s, c);
      InvIsSafe(Next(s, Reserve(c, true)));
    } else {
      ReserveAdmitsTwo(s, c);
    }
  }

  lemma ReserveAdmitsTwo(s: State, c: nat)
    requires Is(s, c, Reserving) && !(Vacant(s) && Undisputed(s, c))
    ensures !SafeFrom(Next(s, Reserve(c, true)))
  {
    var s1 := Next(s, Reserve(c, true));
    if r :| r in s.runs && s.runs[r].active {
      var run := OneMoreStarts(s1, c, r);
    } else if d :| d in s.callers && s.callers[d].at.Starting? {
      TwoStart(s1, c, d);
    } else {
      var d :| d != c && Holds(s, d) && Bound(s.callers[d].at);
      RivalReserves(s1, c, d);
    }
  }

  /** An unexpired caller that found nothing in flight reserves too. */
  lemma RivalReserves(s: State, c: nat, d: nat)
    requires Is(s, c, Starting) && d != c && Holds(s, d) && Bound(s.callers[d].at)
    requires forall r :: r in s.runs ==> !s.runs[r].active
    ensures !SafeFrom(s)
  {
    var s1 := if s.callers[d].at.Reserving? then s else Next(s, Check(d));
    assert Is(s1, d, Reserving) && Is(s1, c, Starting) && s1.now < s1.callers[d].deadline;
    var s2 := Next(s1, Reserve(d, true));
    TwoStart(s2, c, d);
    OrderlyCons(s1, Reserve(d, true), []);
    Peel(s1, Reserve(d, true), []);
    assert [Reserve(d, true)] + [] == [Reserve(d, true)];
    UnsafeBefore(s1, [Reserve(d, true)]);
    if !s.callers[d].at.Reserving? {
      PlainIsOrderly(s, [Check(d)]);
      Peel(s, Check(d), []);
      assert [Check(d)] + [] == [Check(d)];
      UnsafeBefore(s, [Check(d)]);
    }
  }

  /** From any state the invariant allows, an event keeps mutual exclusion exactly when it is orderly. */
  lemma OrderlyExactly(s: State, ev: Event)
    requires Inv(s)
    ensures Orderly(s, ev) <==> SafeFrom(Next(s, ev))
  {
    if Orderly(s, ev) {
      NextKeepsInv(s, ev);
      InvIsSafe(Next(s, ev));
    } else if ev.Reserve? {
      ReserveExactly(s, ev.c);
    } else {
      assert ev.Sweep? ==> !Vacant(s);
      ClearIsSafeExactly(s);
    }
  }

  // ---------------------------------------------------------------- both failures can be reached

  lemma Chain(s: State, a: seq<Event>, e: Event, b: seq<Event>)
    requires AllOrderly(s, a) && Orderly(RunAll(s, a), e) && AllOrderly(Next(RunAll(s, a), e), b)
    ensures AllOrderly(s, a + ([e] + b)) && RunAll(s, a + ([e] + b)) == RunAll(Next(RunAll(s, a), e), b)
  {
    var mid := RunAll(s, a);
    OrderlyCons(mid, e, b);
    Peel(mid, e, b);
    OrderlyAppend(s, a, [e] + b);
    RunAllAppend(s, a, [e] + b);
  }

  lemma AdmissionGoes(s: State, c: nat, run: nat)
    requires Quiet(s) && LockFree(s) && c !in s.callers && run !in s.runs
    ensures AllOrderly(s, Admission(c, run)) && RunAll(s, Admission(c, run)) == Admitted(s, c, run)
  {
    AdmissionOrderly(s, c, run);
    AdmissionWorks(s, c, run);
  }

  lemma AdmittedThenFinished(s: State, c: nat, run: nat)
    ensures var t := Next(Admitted(s, c, run), Finish(run));
      t.row.Null? && LOCK !in t.table && t.callers.Keys == s.callers.Keys + {c} && t.runs.Keys == s.runs.Keys + {run} && !t.runs[run].active
  {
  }

  lemma AdmittedKeeps(s: State, c: nat, run: nat, q: nat)
    requires q in s.runs && q != run
    ensures Active(Admitted(s, c, run), run) && q in Admitted(s, c, run).runs && Admitted(s, c, run).runs[q] == s.runs[q]
  {
  }

  /** A run that ended and its successor in flight. */
  lemma RunAfterRun(s: State, c: nat, run: nat, d: nat, q: nat) returns (evs: seq<Event>)
    requires Quiet(s) && LockFree(s) && c !in s.callers && run !in s.runs && d !in s.callers && q !in s.runs && c != d && run != q
    ensures AllOrderly(s, evs)
    ensures var t := RunAll(s, evs); Active(t, q) && run in t.runs && !t.runs[run].active
  {
    AdmissionGoes(s, c, run);
    AdmittedThenFinished(s, c, run);
    var over := Next(Admitted(s, c, run), Finish(run));
    AdmissionGoes(over, d, q);
    AdmittedKeeps(over, d, q, run);
    Chain(s, Admission(c, run), Finish(run), Admission(d, q));
    evs := Admission(c, run) + ([Finish(run)] + Admission(d, q));
  }

  /** A finishing step that takes effect again clears its successor's id, and one more run gets in beside it. */
  lemma RepeatedFinishAdmitsTwo(now: int) returns (before: seq<Event>, after: seq<Event>, over: nat)
    ensures AllOrderly(Initial(now), before)
    ensures var s := RunAll(Initial(now), before);
      && over in s.runs && !s.runs[over].active
      && AllOrderly(Next(s, FinishAgain(over)), after) && !AtMostOne(RunAll(Next(s, FinishAgain(over)), after))
  {
    over := 10;
    before := RunAfterRun(Initial(now), 1, 10, 2, 20);
    RunKeepsInv(Initial(now), before);
    var s := RunAll(Initial(now), before);
    RepeatedFinishExactly(s, 10);
    after :| AllOrderly(Next(s, FinishAgain(10)), after) && !AtMostOne(RunAll(Next(s, FinishAgain(10)), after));
  }

  /** A caller that found nothing in flight, and whose lease then ran out before it reserved. */
  lemma LateCaller(s: State) returns (evs: seq<Event>)
    requires Quiet(s) && LockFree(s) && s.callers == map[]
    ensures AllOrderly(s, evs)
    ensures var t := RunAll(s, evs);
      Is(t, 1, Reserving) && t.callers.Keys == {1} && t.callers[1].deadline <= t.now && Quiet(t) && LockFree(t) && t.runs == s.runs
  {
    var early := [Enter(1), Read(1), Check(1)];
    EarlyUnrolled(s, 1);
    PlainIsOrderly(s, early);
    var s1 := RunAll(s, early);
    assert Next(Next(s, Enter(1)), Read(1)).callers[1].at == Checking(s.row);
    assert s1.callers[1] == Caller(Reserving, s.now + LEASE_MS) && s1.row == s.row;
    Chain(s, early, Advance(LEASE_MS), []);
    evs := early + ([Advance(LEASE_MS)] + []);
  }

  /** A caller that reserves after its lease ran out overwrites the run admitted meanwhile. */
  lemma LateReserveAdmitsTwo(now: int) returns (before: seq<Event>, after: seq<Event>, c: nat)
    ensures AllOrderly(Initial(now), before)
    ensures var s := RunAll(Initial(now), before);
      && Is(s, c, Reserving) && s.callers[c].deadline <= s.now
      && AllOrderly(Next(s, Reserve(c, true)), after) && !AtMostOne(RunAll(Next(s, Reserve(c, true)), after))
  {
    var late := LateCaller(Initial(now));
    var s1 := RunAll(Initial(now), late);
    AdmissionGoes(s1, 2, 20);
    OrderlyAppend(Initial(now), late, Admission(2, 20));
    RunAllAppend(Initial(now), late, Admission(2, 20));
    before, c := late + Admission(2, 20), 1;
    var s := Admitted(s1, 2, 20);
    assert s.runs[20].active && Is(s, 1, Reserving);
    ReserveAdmitsTwo(s, 1);
    after :| AllOrderly(Next(s, Reserve(1, true)), after) && !AtMostOne(RunAll(Next(s, Reserve(1, true)), after));
  }

  // ---------------------------------------------------------------- one call of startLifecycle, undisturbed

  datatype Denied = Busy | NoCapacity | NotStarted

  /** The stores `startLifecycle` works on. */
  class Admissions {
    const kv: KvStore.SqlKv
    var row: RunField
    var runs: map<nat, RunInfo>

    constructor (kv: KvStore.SqlKv)
      ensures this.kv == kv && row.Null? && runs == map[]
    {
      this.kv, row, runs := kv, Null, map[];
    }

    method IsActive(seen: RunField) returns (active: bool)
      ensures active <==> seen.Pending? || (seen.Run? && seen.id in runs && runs[seen.id].active)
    {
      match seen
      case Null => active := false;
      case Pending(_) => active := true;
      case Run(id) => active := id in runs && runs[id].active;
    }

    /** What the callback of `withLock` does while it holds the lock. */
    method Admit(c: nat, capacity: bool, started: Option<nat>) returns (r: Result<nat, Denied>)
      requires started.Some? ==> started.value !in runs
      modifies this
      ensures r.Ok? <==> (old(row).Null? || (old(row).Run? && !(old(row).id in old(runs) && old(runs)[old(row).id].active))) && capacity && started.Some?
      ensures r.Ok? ==> started == Some(r.value) && row == Run(r.value) && runs == old(runs)[r.value := RunInfo(c, true)]
      ensures r.Err? ==> runs == old(runs) && row == if r.error == NotStarted then Null else old(row)
    {
      var busy := IsActive(row);
      if busy {
        return Err(Busy);
      }
      if !capacity {
        return Err(NoCapacity);
      }
      row := Pending(c);
      if started.None? {
        if row == Pending(c) {
          row := Null;
        }
        return Err(NotStarted);
      }
      runs := runs[started.value := RunInfo(c, true)];
      if row == Pending(c) {
        row := Run(started.value);
      }
      r := Ok(started.value);
    }

    /** Admits exactly when the lock is free, nothing is active, capacity allows and the start succeeds. */
    method StartLifecycle(c: nat, now: int, capacity: bool, started: Option<nat>) returns (r: Result<nat, Denied>)
      requires started.Some? ==> started.value !in runs
      modifies this, kv
      ensures LOCK in old(kv.table) && KvStore.Live(old(kv.table)[LOCK], now) ==>
        r == Err(Busy) && row == old(row) && runs == old(runs) && kv.table == old(kv.table)
      ensures !(LOCK in old(kv.table) && KvStore.Live(old(kv.table)[LOCK], now)) ==>
        && kv.table == old(kv.table) - {LOCK}
        && (r.Ok? <==> (old(row).Null? || (old(row).Run? && !(old(row).id in old(runs) && old(runs)[old(row).id].active))) && capacity && started.Some?)
      ensures r.Ok? ==> started == Some(r.value) && row == Run(r.value) && runs == old(runs)[r.value := RunInfo(c, true)]
      ensures r.Err? ==> runs == old(runs) && row == if r.error == NotStarted then Null else old(row)
    {
      var acquired := kv.Set(LOCK, Token(c), Some(LEASE_MS), true, now);
      if !acquired {
        return Err(Busy);
      }
      r := Admit(c, capacity, started);
      kv.CompareDelete(LOCK, Token(c));
    }
  }
}
