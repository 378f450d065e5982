/** The promises of the rebuild and lifecycle workflows over every run of the step machine. */
module RebuildGuarantees {
  import opened Prelude
  import opened WorkspaceSteps
  import opened RebuildMachine
  import opened RebuildSafety

  // ---------------------------------------------------------------- the user's files

  /** The files the row vouches for: the current generation, or the archive while a bump is pending. */
  function Kept(w: World): Files {
    if w.row.previous.Some? && w.row.restoreBlob.Some? && w.row.restoreBlob.value in w.blobs
    then w.blobs[w.row.restoreBlob.value] else Contents(w, w.row.sandboxName)
  }

  /** An event leaves the world alone, runs the effect of the current step, edits, or touches state and run id only. */
  lemma NextWorld(s: State, ev: Event)
    ensures var w' := Next(s, ev).w;
      || w' == s.w
      || (ev.Tick? && Enabled(s) && w' == Effect(s.w, s.pc, ev.choice))
      || (ev.Edit? && w' == EditFiles(s.w, ev.edit))
      || (!ev.Tick? && !ev.Edit? && w' == s.w.(row := s.w.row.(state := w'.row.state, runId := w'.row.runId)))
  {
  }

  lemma EffectKeepsFiles(s: State, c: Choice)
    requires Inv(s) && Enabled(s)
    ensures Kept(s.w) <= Kept(Effect(s.w, s.pc, c))
  {
    if Bland(s.pc) {
      BlandEffect(s, c);
    }
  }

  lemma NextKeepsFiles(s: State, ev: Event)
    requires Inv(s)
    ensures Kept(s.w) <= Kept(Next(s, ev).w)
  {
    NextWorld(s, ev);
    if ev.Tick? && Enabled(s) {
      EffectKeepsFiles(s, ev.choice);
    }
  }

  /** Whatever fails, repeats or vanishes, the invariant stays and no vouched-for file is ever lost. */
  lemma {:induction false} NothingIsLost(s: State, evs: seq<Event>)
    requires Inv(s)
    ensures Inv(Run(s, evs)) && Kept(s.w) <= Kept(Run(s, evs).w)
    decreases |evs|
  {
    if evs != [] {
      NextKeepsInv(s, evs[0]);
      NextKeepsFiles(s, evs[0]);
      NothingIsLost(Next(s, evs[0]), evs[1..]);
    }
  }

  /** Every state a workspace can reach satisfies the invariant. */
  lemma ReachableIsSafe(release: string, evs: seq<Event>)
    ensures Inv(Run(Reserved(release), evs))
  {
    NothingIsLost(Reserved(release), evs);
  }

  /** Some holder that the row names has at least these files. */
  predicate HeldByName(w: World, files: Files) {
    || (w.row.previous.None? && files <= Contents(w, w.row.sandboxName))
    || (w.row.restoreBlob.Some? && w.row.restoreBlob.value in w.blobs && files <= w.blobs[w.row.restoreBlob.value])
  }

  /** Once an archive has been taken, its files are held under a name in the row for ever after. */
  lemma ArchiveStaysHeld(release: string, before: seq<Event>, after: seq<Event>)
    requires Run(Reserved(release), before).pc.Upload?
    ensures HeldByName(Run(Run(Reserved(release), before), after).w, Run(Reserved(release), before).pc.tar)
  {
    ReachableIsSafe(release, before);
    NothingIsLost(Run(Reserved(release), before), after);
  }

  /** An edit that reached a sandbox while no bump was pending survives every later failure. */
  lemma ClaimedEditSurvives(s: State, edit: string, evs: seq<Event>)
    requires Inv(s) && s.w.row.previous.None? && EditFiles(s.w, edit) != s.w
    ensures Kept(s.w) + [edit] <= Kept(Run(Next(s, Edit(edit)), evs).w)
  {
    NextKeepsInv(s, Edit(edit));
    NothingIsLost(Next(s, Edit(edit)), evs);
  }

  // ---------------------------------------------------------------- the old generation and the pointers

  lemma EffectSparesOld(s: State, c: Choice, gen: SandboxName)
    requires Inv(s) && Enabled(s) && !s.pc.DeleteOld? && s.w.row.previous == Some(gen) && gen in s.w.sandboxes
    ensures var w' := Effect(s.w, s.pc, c); gen in w'.sandboxes && w'.sandboxes[gen] == s.w.sandboxes[gen]
  {
    if Bland(s.pc) {
      BlandEffect(s, c);
    }
  }

  /** Only the cleanup touches the previous generation, and only once the new one holds the archive. */
  lemma OldGenerationOutlives(s: State, ev: Event, gen: SandboxName)
    requires Inv(s) && s.w.row.previous == Some(gen) && gen in s.w.sandboxes
    ensures var w' := Next(s, ev).w;
      || (gen in w'.sandboxes && w'.sandboxes[gen] == s.w.sandboxes[gen])
      || (s.pc.DeleteOld? && Materialised(s.w) && Kept(s.w) <= Contents(s.w, s.w.row.sandboxName))
  {
    NextWorld(s, ev);
    if ev.Tick? && Enabled(s) && !s.pc.DeleteOld? {
      EffectSparesOld(s, ev.choice, gen);
    }
  }

  predicate SamePointers(r: Row, r': Row) {
    r'.previous == r.previous && r'.restoreBlob == r.restoreBlob && r'.restoreKind == r.restoreKind
    && r'.sandboxName == r.sandboxName && r'.generation == r.generation
  }

  lemma EffectKeepsPointers(s: State, c: Choice)
    requires Inv(s) && s.w.row.previous.Some? && Enabled(s)
    ensures var w' := Effect(s.w, s.pc, c);
      || SamePointers(s.w.row, w'.row)
      || (s.pc.DropPointers? && w'.row.previous.None? && w'.row.restoreBlob.None? && Materialised(w'))
  {
    if Bland(s.pc) {
      BlandEffect(s, c);
    }
  }

  /** A pending bump is never overwritten: the pointers change only when both are cleared. */
  lemma PendingPointersStay(s: State, ev: Event)
    requires Inv(s) && s.w.row.previous.Some?
    ensures var w' := Next(s, ev).w;
      || SamePointers(s.w.row, w'.row)
      || (s.pc.DropPointers? && w'.row.previous.None? && w'.row.restoreBlob.None? && Materialised(w'))
  {
    NextWorld(s, ev);
    if ev.Tick? && Enabled(s) {
      EffectKeepsPointers(s, ev.choice);
    }
  }

  /** In every reachable row a pending bump has its archive, and the inconsistency error is never raised. */
  lemma PointersStayConsistent(release: string, evs: seq<Event>)
    ensures var s := Run(Reserved(release), evs);
      && (s.w.row.previous.Some? ==>
            && s.w.row.restoreKind == Tarball && s.w.row.restoreBlob.Some? && s.w.row.restoreBlob.value in s.w.blobs
            && s.w.row.previous.value != s.w.row.sandboxName)
      && Refuses(s.w, s.pc) != PointersInconsistent
      && (s.pc.Finish? ==> s.pc.reason != PointersInconsistent)
  {
    ReachableIsSafe(release, evs);
    NeverInconsistent(Run(Reserved(release), evs));
  }

  lemma EffectKeepsGeneration(s: State, c: Choice)
    requires Enabled(s)
    ensures s.w.row.generation <= Effect(s.w, s.pc, c).row.generation
  {
    if Bland(s.pc) {
      BlandEffect(s, c);
    }
  }

  lemma GenerationStep(s: State, ev: Event)
    ensures s.w.row.generation <= Next(s, ev).w.row.generation
  {
    NextWorld(s, ev);
    if ev.Tick? && Enabled(s) {
      EffectKeepsGeneration(s, ev.choice);
    }
  }

  /** Generations never go back, and a different sandbox name is always a later generation. */
  lemma {:induction false} GenerationsGrow(s: State, evs: seq<Event>)
    requires Inv(s)
    ensures var r, r' := s.w.row, Run(s, evs).w.row;
      r.generation <= r'.generation && (r.sandboxName != r'.sandboxName <==> r.generation < r'.generation)
    decreases |evs|
  {
    NothingIsLost(s, evs);
    if evs != [] {
      NextKeepsInv(s, evs[0]);
      GenerationStep(s, evs[0]);
      GenerationsGrow(Next(s, evs[0]), evs[1..]);
    }
  }

  // ---------------------------------------------------------------- the run id

  /** The row carries the id of the run in flight; once the run is over it carries none. */
  predicate Owned(s: State, id: nat) {
    if s.pc.Idle? then s.w.row.runId.None?
    else if s.pc.Finish? then s.w.row.runId.None? || s.w.row.runId == Some(id)
    else s.w.row.runId == Some(id)
  }

  /** The run is neither lost nor prevented from recording its own failure. */
  predicate Uninterrupted(s: State, evs: seq<Event>)
    decreases |evs|
  {
    evs != [] ==>
      && !evs[0].Admit? && !evs[0].Vanish?
      && !(s.pc.Finish? && !s.pc.ok && evs[0].Tick? && evs[0].outcome.Fails?)
      && Uninterrupted(Next(s, evs[0]), evs[1..])
  }

  lemma EffectKeepsRunId(s: State, c: Choice)
    requires Enabled(s)
    ensures Effect(s.w, s.pc, c).row.runId == if s.pc.Finish? then None else s.w.row.runId
  {
  }

  lemma OwnedStep(s: State, ev: Event, id: nat)
    requires Owned(s, id) && Uninterrupted(s, [ev])
    ensures Owned(Next(s, ev), id)
  {
    if ev.Tick? && Enabled(s) {
      EffectKeepsRunId(s, ev.choice);
    }
  }

  /** From admission to its last step, through every child, a run's id stays in the row; then it is gone. */
  lemma {:induction false} RunHoldsItsId(s: State, id: nat, evs: seq<Event>)
    requires Inv(s) && Owned(s, id) && Uninterrupted(s, evs)
    ensures Owned(Run(s, evs), id)
    decreases |evs|
  {
    if evs != [] {
      NextKeepsInv(s, evs[0]);
      OwnedStep(s, evs[0], id);
      RunHoldsItsId(Next(s, evs[0]), id, evs[1..]);
    }
  }

  lemma AdmittedRunHoldsItsId(s: State, wf: Workflow, id: nat, evs: seq<Event>)
    requires Inv(s) && s.pc.Idle? && Uninterrupted(Next(s, Admit(wf, id)), evs)
    ensures Owned(Run(Next(s, Admit(wf, id)), evs), id)
  {
    NextKeepsInv(s, Admit(wf, id));
    RunHoldsItsId(Next(s, Admit(wf, id)), id, evs);
  }

  /** The only ways a run ends with its id left in the row: it vanishes, or its failure record fails unapplied. */
  lemma IdIsLeftExactly(s: State, ev: Event, id: nat)
    requires Inv(s) && Owned(s, id) && !s.pc.Idle? && Next(s, ev).pc.Idle? && s.w.row.runId == Some(id)
    ensures Next(s, ev).w.row.runId == Some(id) <==>
      ev.Vanish? || (ev.Tick? && s.pc.Finish? && !s.pc.ok && ev.outcome == Fails(false))
    ensures Next(Next(s, ev), Reconcile(false)).w.row.runId.None?
  {
    if ev.Tick? && Enabled(s) {
      EffectKeepsRunId(s, ev.choice);
    }
  }

  // ---------------------------------------------------------------- the old VM is at rest

  /** Whoever finds the row already stopped while stopping for a rebuild finds the VM gone. */
  predicate AtRest(s: State) {
    match s.pc
    case LaunchStop(ws, _) => ws.state != Stopped && (s.w.row.state == Stopped ==> !s.vm)
    case StopLoad(p) => p.RebuildStop? ==> p.ws.state != Stopped && (s.w.row.state == Stopped ==> !s.vm)
    case StopMarked(_) => !s.vm
    case MarkArchive(ws, _) => ws.state == Stopped || !s.vm
    case Bump(_, _, _) => !s.vm
    case _ => true
  }

  lemma FollowingAtRest(s: State, c: Choice)
    requires Inv(s) && AtRest(s) && Enabled(s)
    ensures AtRest(State(Effect(s.w, s.pc, c), Following(s.w, s.pc, c), Retiring(s), VmAfter(s)))
  {
    if Bland(s.pc) {
      BlandEffect(s, c);
    }
  }

  lemma AtRestStep(s: State, ev: Event)
    requires Inv(s) && AtRest(s)
    ensures AtRest(Next(s, ev))
  {
    if ev.Tick? && Enabled(s) {
      FollowingAtRest(s, ev.choice);
    }
  }

  lemma {:induction false} AtRestRun(s: State, evs: seq<Event>)
    requires Inv(s) && AtRest(s)
    ensures AtRest(Run(s, evs))
    decreases |evs|
  {
    if evs != [] {
      NextKeepsInv(s, evs[0]);
      AtRestStep(s, evs[0]);
      AtRestRun(Next(s, evs[0]), evs[1..]);
    }
  }

  /** In every run the archive begins only once a workspace that was up has been stopped, and the bump only after the archive's own VM has. */
  lemma ArchiveAtRest(release: string, evs: seq<Event>)
    ensures var s := Run(Reserved(release), evs);
      && (s.pc.MarkArchive? && s.pc.ws.state != Stopped ==> !s.vm)
      && (s.pc.Bump? ==> !s.vm)
  {
    AtRestRun(Reserved(release), evs);
  }

  // ---------------------------------------------------------------- what the row shows meanwhile

  /** The state a reader of the row finds while the step at hand is still to come. */
  predicate Shows(s: State) {
    match s.pc
    case RetryDelete(_, _) => s.w.row.state == Rebuilding
    case RetryRelease(_, _) => s.w.row.state == Rebuilding
    case StopVm(_) => s.w.row.state == Stopping
    case CreateBoot(_, _) => s.w.row.state == Creating
    case ConnectResume(_, _) => s.w.row.state == Stopped
    case ConnectBoot(_, _) => s.w.row.state == Stopped
    case ResumeOld(_, _) => s.w.row.state == Rebuilding
    case StartArchive(_, _) => s.w.row.state == Rebuilding
    case Upload(_, _, _) => s.w.row.state == Rebuilding
    case StopOld(_, _, _) => s.w.row.state == Rebuilding
    case Bump(_, _, _) => s.w.row.state == Rebuilding
    case _ => true
  }

  lemma FollowingShows(s: State, c: Choice)
    requires Shows(s) && Enabled(s)
    ensures Shows(s.(w := Effect(s.w, s.pc, c), pc := Following(s.w, s.pc, c)))
    ensures Shows(s.(w := Effect(s.w, s.pc, c)))
  {
  }

  lemma QuietShows(s: State, ev: Event)
    requires Shows(s) && !ev.Tick?
    ensures Shows(Next(s, ev))
  {
  }

  lemma TickShows(s: State, outcome: Outcome, c: Choice)
    requires Shows(s)
    ensures Shows(Next(s, Tick(outcome, c)))
  {
    if Enabled(s) && !outcome.Fails? {
      FollowingShows(s, c);
    }
  }

  lemma ShowsStep(s: State, ev: Event)
    requires Shows(s)
    ensures Shows(Next(s, ev))
  {
    if ev.Tick? {
      TickShows(s, ev.outcome, ev.choice);
    } else {
      QuietShows(s, ev);
    }
  }

  /** In every run the row says what is going on: a resuming workspace stays `stopped`, an archive or retry shows `rebuilding`. */
  lemma {:induction false} RowShowsProgress(s: State, evs: seq<Event>)
    requires Shows(s)
    ensures Shows(Run(s, evs))
    decreases |evs|
  {
    if evs != [] {
      ShowsStep(s, evs[0]);
      RowShowsProgress(Next(s, evs[0]), evs[1..]);
    }
  }
}
