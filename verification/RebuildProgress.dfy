/** A rebuild that meets no further fault finishes, from whatever earlier failures left behind. */
module RebuildProgress {
  import opened Prelude
  import opened WorkspaceSteps
  import opened RebuildMachine
  import opened RebuildSafety
  import opened RebuildGuarantees

  /** What the rebuild is to deliver: these files, in this generation and release, and nothing else when `exact`. */
  datatype Goal = Goal(files: Files, generation: nat, release: string, exact: bool)

  /** Something is there to rebuild from. */
  predicate Ready(w: World) { w.row.previous.Some? || w.row.sandboxName in w.sandboxes }

  /** An upgrade to the release the row already has is answered without a rebuild. */
  predicate NoOp(row: Row, upgrade: Option<string>) { upgrade == Some(row.release) && row.previous.None? }

  predicate HoldsGoal(files: Files, g: Goal) { g.files <= files && (g.exact ==> files == g.files) }

  predicate BeforeBump(w: World, g: Goal) {
    w.row.previous.None? && w.row.sandboxName in w.sandboxes && w.row.generation + 1 == g.generation && HoldsGoal(Contents(w, w.row.sandboxName), g)
  }

  predicate Retrying(w: World, g: Goal) { w.row.previous.Some? && w.row.generation == g.generation && HoldsGoal(Kept(w), g) }

  /** A retry has deleted what the failed create left. */
  predicate Cleared(w: World, g: Goal) {
    Retrying(w, g) && (Materialised(w) ==> HoldsGoal(Contents(w, w.row.sandboxName), g))
  }

  predicate AfterBump(w: World, g: Goal) {
    Retrying(w, g) && w.row.release == g.release && (Materialised(w) ==> HoldsGoal(Contents(w, w.row.sandboxName), g))
  }

  /** The new generation is up, holds the files, and no pointer is left. */
  predicate Delivered(w: World, g: Goal) {
    && w.row.previous.None? && w.row.restoreBlob.None? && w.row.state == Running && w.row.generation == g.generation && w.row.release == g.release
    && Materialised(w) && HoldsGoal(Contents(w, w.row.sandboxName), g)
  }

  predicate OnTrack(w: World, pc: Pc, g: Goal) {
    match pc
    case RebuildLoad(upgrade) => !NoOp(w.row, upgrade) && (upgrade.Some? ==> upgrade.value == g.release) && (if w.row.previous.Some? then Retrying(w, g) else BeforeBump(w, g))
    case RetryMark(_, release) => Retrying(w, g) && release == g.release
    case RetryDelete(_, release) => Retrying(w, g) && release == g.release
    case RetryRelease(_, release) => Cleared(w, g) && release == g.release
    case LaunchStop(_, release) => BeforeBump(w, g) && release == g.release
    case StopLoad(p) => p.RebuildStop? && p.release == g.release && BeforeBump(w, g)
    case StopMark(p) => p.RebuildStop? && p.release == g.release && BeforeBump(w, g)
    case StopVm(p) => p.RebuildStop? && p.release == g.release && BeforeBump(w, g)
    case StopMarked(p) => p.RebuildStop? && p.release == g.release && BeforeBump(w, g)
    case MarkArchive(_, release) => BeforeBump(w, g) && release == g.release
    case ResumeOld(_, release) => BeforeBump(w, g) && release == g.release
    case StartArchive(_, release) => BeforeBump(w, g) && release == g.release
    case Upload(_, release, _) => BeforeBump(w, g) && release == g.release
    case StopOld(_, release, _) => BeforeBump(w, g) && release == g.release
    case Bump(_, release, _) => BeforeBump(w, g) && release == g.release
    case LaunchCreate(_, _) => AfterBump(w, g)
    case CreateLoad(p) => p.RebuildCreate? && AfterBump(w, g)
    case CreateVm(p, _) => p.RebuildCreate? && AfterBump(w, g)
    case CreateRecord(p, _) => p.RebuildCreate? && AfterBump(w, g) && w.row.sandboxName in w.sandboxes
    case CreateBoot(p, _) => p.RebuildCreate? && AfterBump(w, g) && w.row.sandboxName in w.sandboxes
    case CreateReady(p, _) => p.RebuildCreate? && AfterBump(w, g)
    case DeleteOld(_, _) => AfterBump(w, g)
    case DropPointers(_) => AfterBump(w, g)
    case DropBlob(_) => Delivered(w, g)
    case Finish(ok, _) => ok && Delivered(w, g)
    case Idle => Delivered(w, g) && w.row.runId.None?
    case _ => false
  }

  /** Steps left at most. */
  function Remaining(pc: Pc): nat {
    match pc
    case Idle => 0
    case Finish(_, _) => 1
    case DropBlob(_) => 2
    case DropPointers(_) => 3
    case DeleteOld(_, _) => 4
    case CreateReady(_, _) => 5
    case CreateBoot(_, _) => 6
    case CreateRecord(_, _) => 7
    case CreateVm(_, _) => 8
    case CreateLoad(_) => 9
    case LaunchCreate(_, _) => 10
    case Bump(_, _, _) => 11
    case StopOld(_, _, _) => 12
    case Upload(_, _, _) => 13
    case StartArchive(_, _) => 14
    case ResumeOld(_, _) => 15
    case MarkArchive(_, _) => 16
    case StopMarked(_) => 17
    case StopVm(_) => 18
    case StopMark(_) => 19
    case StopLoad(_) => 20
    case LaunchStop(_, _) => 21
    case RetryRelease(_, _) => 11
    case RetryDelete(_, _) => 12
    case RetryMark(_, _) => 13
    case _ => 22
  }

  /** A rebuild without a pinned release takes the one its load step reads. */
  predicate Reads(pc: Pc, c: Choice, g: Goal) { pc.RebuildLoad? && pc.upgrade.None? ==> c.release == g.release }

  /** One fault-free step: nothing refuses, the rebuild stays on track and gets closer to its end. */
  predicate Advances(s: State, c: Choice, g: Goal) {
    && Refuses(s.w, s.pc) == NoReason
    && OnTrack(Effect(s.w, s.pc, c), Following(s.w, s.pc, c), g)
    && Remaining(Following(s.w, s.pc, c)) < Remaining(s.pc)
  }

  lemma RetryAdvances(s: State, c: Choice, g: Goal)
    requires Inv(s) && OnTrack(s.w, s.pc, g) && Reads(s.pc, c, g) && (g.exact ==> c.extent != Untouched) && InRetry(s.pc)
    ensures Advances(s, c, g)
  {
  }

  lemma StopAdvances(s: State, c: Choice, g: Goal)
    requires Inv(s) && OnTrack(s.w, s.pc, g) && InStop(s.pc)
    ensures Advances(s, c, g)
  {
  }

  lemma ArchiveAdvances(s: State, c: Choice, g: Goal)
    requires Inv(s) && OnTrack(s.w, s.pc, g) && InArchive(s.pc)
    ensures Advances(s, c, g)
  {
  }

  lemma CreateAdvances(s: State, c: Choice, g: Goal)
    requires Inv(s) && OnTrack(s.w, s.pc, g) && InCreate(s.pc)
    ensures Advances(s, c, g)
  {
  }

  lemma CleanupAdvances(s: State, c: Choice, g: Goal)
    requires Inv(s) && OnTrack(s.w, s.pc, g) && (s.pc.DeleteOld? || s.pc.DropPointers? || s.pc.DropBlob? || s.pc.Finish?)
    ensures Advances(s, c, g)
  {
  }

  lemma StepAdvances(s: State, c: Choice, g: Goal)
    requires Inv(s) && OnTrack(s.w, s.pc, g) && !s.pc.Idle? && Reads(s.pc, c, g) && (g.exact ==> c.extent != Untouched)
    ensures Advances(s, c, g)
  {
    if InRetry(s.pc) {
      RetryAdvances(s, c, g);
    } else if InStop(s.pc) {
      StopAdvances(s, c, g);
    } else if InArchive(s.pc) {
      ArchiveAdvances(s, c, g);
    } else if InCreate(s.pc) {
      CreateAdvances(s, c, g);
    } else {
      CleanupAdvances(s, c, g);
    }
  }

  /** Every step completes at once; what the platform answers is still arbitrary. */
  function Ticks(s: State, cs: seq<Choice>): State
    decreases |cs|
  {
    if cs == [] then s else Ticks(Next(s, Tick(Done, cs[0])), cs[1..])
  }

  predicate Thorough(cs: seq<Choice>) { forall i :: 0 <= i < |cs| ==> cs[i].extent != Untouched }

  /** No step leads back to the load. */
  lemma LoadIsFirst(w: World, pc: Pc, c: Choice)
    ensures !Following(w, pc, c).RebuildLoad?
  {
  }

  /** The release asked for: the upgrade's, or else the one the load step reads. */
  function Wanted(upgrade: Option<string>, read: string): string { if upgrade.Some? then upgrade.value else read }

  /** The goal of a rebuild started from `w`. */
  function GoalOf(w: World, release: string, exact: bool): Goal {
    Goal(Kept(w), w.row.generation + (if w.row.previous.None? then 1 else 0), release, exact)
  }

  lemma {:induction false} TicksDeliver(s: State, cs: seq<Choice>, g: Goal)
    requires Inv(s) && OnTrack(s.w, s.pc, g) && Remaining(s.pc) <= |cs| && (g.exact ==> Thorough(cs))
    requires cs != [] ==> Reads(s.pc, cs[0], g)
    ensures Ticks(s, cs).pc.Idle? && OnTrack(Ticks(s, cs).w, Idle, g)
    decreases |cs|
  {
    if cs != [] {
      NextKeepsInv(s, Tick(Done, cs[0]));
      if !s.pc.Idle? {
        StepAdvances(s, cs[0], g);
        LoadIsFirst(s.w, s.pc, cs[0]);
      }
      TicksDeliver(Next(s, Tick(Done, cs[0])), cs[1..], g);
    }
  }

  /**
   * Started after any history, a rebuild that meets no fault ends with the row running, both pointers
   * and the run id cleared, the wanted release recorded, and every vouched-for file in the current
   * sandbox.
   */
  lemma RebuildCompletes(s: State, upgrade: Option<string>, id: nat, cs: seq<Choice>)
    requires Inv(s) && s.pc.Idle? && Ready(s.w) && !NoOp(s.w.row, upgrade) && |cs| >= 22
    ensures var t := Ticks(Next(s, Admit(RebuildWorkspace(upgrade), id)), cs);
      && t.pc.Idle? && t.w.row.state == Running && t.w.row.runId.None? && t.w.row.previous.None? && t.w.row.restoreBlob.None?
      && t.w.row.generation == s.w.row.generation + (if s.w.row.previous.None? then 1 else 0)
      && t.w.row.release == Wanted(upgrade, cs[0].release)
      && Materialised(t.w) && Kept(s.w) <= Contents(t.w, t.w.row.sandboxName)
      && (Thorough(cs) ==> Contents(t.w, t.w.row.sandboxName) == Kept(s.w))
  {
    var s' := Next(s, Admit(RebuildWorkspace(upgrade), id));
    NextKeepsInv(s, Admit(RebuildWorkspace(upgrade), id));
    TicksDeliver(s', cs, GoalOf(s.w, Wanted(upgrade, cs[0].release), Thorough(cs)));
  }

  // ---------------------------------------------------------------- with edits in between

  /** Every step completes, and the user may edit between any two. */
  predicate FaultFree(evs: seq<Event>) { forall i :: 0 <= i < |evs| ==> (evs[i].Tick? && evs[i].outcome == Done) || evs[i].Edit? }

  function TickCount(evs: seq<Event>): nat {
    if evs == [] then 0 else (if evs[0].Tick? then 1 else 0) + TickCount(evs[1..])
  }

  /** What the first tick reads as the current release. */
  function FirstRead(evs: seq<Event>): string
    requires TickCount(evs) > 0
  {
    if evs[0].Tick? then evs[0].choice.release else FirstRead(evs[1..])
  }

  lemma EditKeepsTrack(s: State, edit: string, g: Goal)
    requires Inv(s) && OnTrack(s.w, s.pc, g) && !g.exact
    ensures OnTrack(EditFiles(s.w, edit), s.pc, g)
  {
    var w, w' := s.w, EditFiles(s.w, edit);
    assert w'.row == w.row && w'.blobs == w.blobs && (forall n :: n in w'.sandboxes <==> n in w.sandboxes);
    assert Contents(w, w.row.sandboxName) <= Contents(w', w'.row.sandboxName) && (Materialised(w) <==> Materialised(w'));
  }

  lemma {:induction false} FaultFreeDelivers(s: State, evs: seq<Event>, g: Goal)
    requires Inv(s) && OnTrack(s.w, s.pc, g) && !g.exact && FaultFree(evs) && Remaining(s.pc) <= TickCount(evs)
    requires s.pc.RebuildLoad? && s.pc.upgrade.None? ==> TickCount(evs) > 0 && FirstRead(evs) == g.release
    ensures Run(s, evs).pc.Idle? && OnTrack(Run(s, evs).w, Idle, g)
    decreases |evs|
  {
    if evs != [] {
      var s' := Next(s, evs[0]);
      NextKeepsInv(s, evs[0]);
      if evs[0].Edit? {
        EditKeepsTrack(s, evs[0].edit, g);
      } else if !s.pc.Idle? {
        StepAdvances(s, evs[0].choice, g);
        LoadIsFirst(s.w, s.pc, evs[0].choice);
      }
      FaultFreeDelivers(s', evs[1..], g);
    }
  }

  /** The same with edits at any moment: the rebuild still completes, with at least the vouched-for files. */
  lemma RebuildCompletesWhileEditing(s: State, upgrade: Option<string>, id: nat, evs: seq<Event>)
    requires Inv(s) && s.pc.Idle? && Ready(s.w) && !NoOp(s.w.row, upgrade) && FaultFree(evs) && TickCount(evs) >= 22
    ensures var t := Run(Next(s, Admit(RebuildWorkspace(upgrade), id)), evs);
      && t.pc.Idle? && t.w.row.state == Running && t.w.row.runId.None? && t.w.row.previous.None? && t.w.row.restoreBlob.None?
      && t.w.row.generation == s.w.row.generation + (if s.w.row.previous.None? then 1 else 0)
      && t.w.row.release == Wanted(upgrade, FirstRead(evs))
      && Materialised(t.w) && Kept(s.w) <= Contents(t.w, t.w.row.sandboxName)
  {
    NextKeepsInv(s, Admit(RebuildWorkspace(upgrade), id));
    FaultFreeDelivers(Next(s, Admit(RebuildWorkspace(upgrade), id)), evs,
                      GoalOf(s.w, Wanted(upgrade, FirstRead(evs)), false));
  }

  /** The edits not vouched for are those made while a bump is pending: a retry that cleans up drops them. */
  lemma UnclaimedEditIsDropped(s: State, edit: string, id: nat, cs: seq<Choice>)
    requires Inv(s) && s.pc.Idle? && s.w.row.previous.Some? && |cs| >= 22 && Thorough(cs)
    ensures var t := Ticks(Next(Next(s, Edit(edit)), Admit(RebuildWorkspace(None), id)), cs);
      Contents(t.w, t.w.row.sandboxName) == Kept(s.w)
  {
    NextKeepsInv(s, Edit(edit));
    RebuildCompletes(Next(s, Edit(edit)), None, id, cs);
  }
}
