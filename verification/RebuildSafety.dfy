/** What every run of the lifecycle workflows keeps: the user's files, the pointers and the run id. */
module RebuildSafety {
  import opened Prelude
  import opened WorkspaceSteps
  import opened RebuildMachine

  // ---------------------------------------------------------------- the invariant

  /** Sandbox names follow the generation counter, and no later generation exists yet. */
  predicate Named(w: World) {
    w.row.sandboxName == SandboxName(w.row.generation) && forall n :: n in w.sandboxes ==> n.generation <= w.row.generation
  }

  /** While a bump is pending, the row points at an archive, and the new generation extends it. */
  predicate Pending(w: World) {
    w.row.previous.Some? ==>
      && w.row.previous.value.generation < w.row.generation
      && w.row.restoreKind == Tarball && w.row.restoreBlob.Some? && w.row.restoreBlob.value in w.blobs
      && (Materialised(w) ==> w.blobs[w.row.restoreBlob.value] <= Contents(w, w.row.sandboxName))
  }

  predicate Materialised(w: World) { w.row.sandboxName in w.sandboxes && w.sandboxes[w.row.sandboxName].Some? }

  predicate NoStrayPointer(w: World) { w.row.previous.None? ==> w.row.restoreBlob.None? }

  /** Until its deletion begins, the previous generation still holds what the archive holds. */
  predicate OldIntact(w: World, retired: bool) {
    w.row.previous.Some? && w.row.restoreBlob.Some? && w.row.restoreBlob.value in w.blobs && !retired ==>
      w.row.previous.value in w.sandboxes && Contents(w, w.row.previous.value) == w.blobs[w.row.restoreBlob.value]
  }

  predicate Base(w: World, retired: bool) { Named(w) && Pending(w) && NoStrayPointer(w) && OldIntact(w, retired) }

  /** The rebuild still works on the generation it loaded, which nothing has replaced yet. */
  predicate OnOld(w: World, ws: Row) { ws.sandboxName == w.row.sandboxName && w.row.previous.None? }

  /** Nobody edits: the row says so. */
  predicate Frozen(w: World, ws: Row) { OnOld(w, ws) && w.row.state == Rebuilding }

  predicate Archived(w: World, blob: string) {
    w.row.sandboxName in w.sandboxes && blob in w.blobs && w.blobs[blob] == Contents(w, w.row.sandboxName)
  }

  predicate PointsAt(w: World, prev: SandboxName, blob: string) {
    w.row.previous == Some(prev) && w.row.restoreBlob == Some(blob)
  }

  predicate ParentOk(w: World, p: Parent) {
    match p
    case RebuildStop(ws, _) => OnOld(w, ws)
    case RebuildCreate(prev, blob) => PointsAt(w, prev, blob)
    case _ => true
  }

  predicate Loaded(w: World, ws: Row) {
    ws.sandboxName == w.row.sandboxName && ws.restoreKind == w.row.restoreKind && ws.previous == w.row.previous
  }

  predicate PcOk(w: World, pc: Pc) {
    match pc
    case RetryMark(ws, _) => w.row.previous.Some? && Loaded(w, ws) && ws.restoreBlob == w.row.restoreBlob
    case RetryDelete(ws, _) => w.row.previous.Some? && Loaded(w, ws) && ws.restoreBlob == w.row.restoreBlob
    case RetryRelease(ws, _) => w.row.previous.Some? && Loaded(w, ws) && ws.restoreBlob == w.row.restoreBlob
    case LaunchStop(ws, _) => OnOld(w, ws)
    case MarkArchive(ws, _) => OnOld(w, ws)
    case ResumeOld(ws, _) => Frozen(w, ws)
    case StartArchive(ws, _) => Frozen(w, ws)
    case Upload(ws, _, tar) => Frozen(w, ws) && tar == Contents(w, ws.sandboxName)
    case StopOld(ws, _, blob) => Frozen(w, ws) && Archived(w, blob)
    case Bump(ws, _, blob) => w.row.previous.None? ==> Frozen(w, ws) && Archived(w, blob)
    case LaunchCreate(prev, blob) => PointsAt(w, prev, blob)
    case DeleteOld(prev, blob) => PointsAt(w, prev, blob) && Materialised(w)
    case DropPointers(blob) => w.row.previous.Some? ==> w.row.restoreBlob == Some(blob) && Materialised(w)
    case DropBlob(_) => w.row.previous.None?
    case StopLoad(p) => ParentOk(w, p) && StopParent(p)
    case StopMark(p) => ParentOk(w, p) && StopParent(p)
    case StopVm(p) => ParentOk(w, p) && StopParent(p)
    case StopMarked(p) => ParentOk(w, p) && StopParent(p)
    case CreateLoad(p) => ParentOk(w, p) && (p.Top? || p.RebuildCreate?)
    case CreateVm(p, ws) => ParentOk(w, p) && (p.Top? || p.RebuildCreate?) && Loaded(w, ws)
    case CreateRecord(p, ws) => ParentOk(w, p) && (p.Top? || p.RebuildCreate?) && Loaded(w, ws)
    case CreateBoot(p, ws) => ParentOk(w, p) && (p.Top? || p.RebuildCreate?) && Loaded(w, ws)
    case CreateReady(p, ws) => ParentOk(w, p) && (p.Top? || p.RebuildCreate?) && Loaded(w, ws) && Materialised(w)
    case ConnectLoad(p) => p.Top? || p.RestartConnect?
    case ConnectMark(p, ws) => (p.Top? || p.RestartConnect?) && Loaded(w, ws)
    case ConnectResume(p, ws) => (p.Top? || p.RestartConnect?) && Loaded(w, ws)
    case ConnectBoot(p, ws) => (p.Top? || p.RestartConnect?) && Loaded(w, ws)
    case ConnectReady(p, ws) => (p.Top? || p.RestartConnect?) && Loaded(w, ws)
    case Finish(_, reason) => reason != PointersInconsistent
    case _ => true
  }

  predicate StopParent(p: Parent) { p.Top? || p.RestartStop? || p.RebuildStop? }

  /** A run in flight, other than in its very last step, has its id recorded. */
  predicate RunRecorded(w: World, pc: Pc) { !pc.Idle? && !pc.Finish? ==> w.row.runId.Some? }

  predicate Inv(s: State) { Base(s.w, s.retired) && PcOk(s.w, s.pc) && RunRecorded(s.w, s.pc) }

  // ---------------------------------------------------------------- preservation

  lemma BootKeepsBase(w: World, retired: bool)
    requires Base(w, retired) && CanBoot(w, w.row.sandboxName)
    ensures Base(Boot(w, w.row.sandboxName), retired) && Materialised(Boot(w, w.row.sandboxName))
    ensures Contents(w, w.row.sandboxName) <= Contents(Boot(w, w.row.sandboxName), w.row.sandboxName)
  {
  }

  lemma EditKeepsInv(s: State, edit: string)
    requires Inv(s)
    ensures Inv(s.(w := EditFiles(s.w, edit)))
  {
  }

  predicate Enabled(s: State) { !s.pc.Idle? && Refuses(s.w, s.pc) == NoReason }

  /** Steps that write nothing the files or pointers depend on. */
  predicate Bland(pc: Pc) {
    !pc.RetryDelete? && !pc.Upload? && !pc.Bump? && !pc.DeleteOld? && !pc.DropPointers? && !pc.DropBlob? &&
    !pc.CreateVm? && !pc.CreateRecord? && !pc.CreateBoot? && !pc.CreateReady? && !pc.ConnectBoot?
  }

  lemma BlandEffect(s: State, c: Choice)
    requires Enabled(s) && Bland(s.pc)
    ensures var w' := Effect(s.w, s.pc, c); var row := w'.row;
      w' == s.w.(row := s.w.row.(state := row.state, runId := row.runId, release := row.release))
  {
  }

  lemma BlandKeepsBase(w: World, w': World, retired: bool)
    requires Base(w, retired)
    requires w' == w.(row := w.row.(state := w'.row.state, runId := w'.row.runId, release := w'.row.release))
    ensures Base(w', retired)
  {
  }

  // The steps fall into six parts: retry, archive, cleanup and the three child workflows.

  predicate InRetry(pc: Pc) { pc.RebuildLoad? || pc.RetryMark? || pc.RetryDelete? || pc.RetryRelease? || pc.LaunchStop? }

  predicate InArchive(pc: Pc) {
    pc.MarkArchive? || pc.ResumeOld? || pc.StartArchive? || pc.Upload? || pc.StopOld? || pc.Bump?
  }

  predicate InStop(pc: Pc) { pc.LaunchRestart? || pc.StopLoad? || pc.StopMark? || pc.StopVm? || pc.StopMarked? }

  predicate InCreate(pc: Pc) { pc.LaunchCreate? || pc.CreateLoad? || pc.CreateVm? || pc.CreateRecord? || pc.CreateBoot? || pc.CreateReady? }

  predicate InConnect(pc: Pc) { pc.ConnectLoad? || pc.ConnectMark? || pc.ConnectResume? || pc.ConnectBoot? || pc.ConnectReady? }

  /** What one execution of a step, repeated or not, leaves behind. */
  predicate EffectOk(s: State, c: Choice)
    requires Refuses(s.w, s.pc) == NoReason
  {
    var w' := Effect(s.w, s.pc, c);
    Base(w', Retiring(s)) && PcOk(w', s.pc) && (!s.pc.Finish? ==> w'.row.runId == s.w.row.runId)
  }

  predicate FollowingOk(s: State, c: Choice)
    requires Refuses(s.w, s.pc) == NoReason
  {
    PcOk(Effect(s.w, s.pc, c), Following(s.w, s.pc, c))
  }

  lemma RetryOk(s: State, c: Choice)
    requires Inv(s) && InRetry(s.pc) && Refuses(s.w, s.pc) == NoReason
    ensures EffectOk(s, c) && FollowingOk(s, c)
  {
    if Bland(s.pc) {
      BlandEffect(s, c);
      BlandKeepsBase(s.w, Effect(s.w, s.pc, c), Retiring(s));
    }
  }

  lemma ArchiveOk(s: State, c: Choice)
    requires Inv(s) && InArchive(s.pc) && Refuses(s.w, s.pc) == NoReason
    ensures EffectOk(s, c) && FollowingOk(s, c)
  {
    if Bland(s.pc) {
      BlandEffect(s, c);
      BlandKeepsBase(s.w, Effect(s.w, s.pc, c), Retiring(s));
    }
  }

  lemma StopOk(s: State, c: Choice)
    requires Inv(s) && InStop(s.pc) && Refuses(s.w, s.pc) == NoReason
    ensures EffectOk(s, c) && FollowingOk(s, c)
  {
    if Bland(s.pc) {
      BlandEffect(s, c);
      BlandKeepsBase(s.w, Effect(s.w, s.pc, c), Retiring(s));
    }
  }

  lemma CreateEffects(s: State, c: Choice)
    requires Inv(s) && InCreate(s.pc) && Refuses(s.w, s.pc) == NoReason
    ensures EffectOk(s, c)
  {
    if s.pc.CreateBoot? {
      BootKeepsBase(s.w, s.retired);
    }
  }

  lemma CreateOk(s: State, c: Choice)
    requires Inv(s) && InCreate(s.pc) && Refuses(s.w, s.pc) == NoReason
    ensures EffectOk(s, c) && FollowingOk(s, c)
  {
    CreateEffects(s, c);
    if s.pc.CreateBoot? {
      BootKeepsBase(s.w, s.retired);
    }
  }

  lemma ConnectOk(s: State, c: Choice)
    requires Inv(s) && InConnect(s.pc) && Refuses(s.w, s.pc) == NoReason
    ensures EffectOk(s, c) && FollowingOk(s, c)
  {
    if Bland(s.pc) {
      BlandEffect(s, c);
      BlandKeepsBase(s.w, Effect(s.w, s.pc, c), Retiring(s));
    }
    if s.pc.ConnectBoot? {
      BootKeepsBase(s.w, s.retired);
    }
  }

  lemma CleanupOk(s: State, c: Choice)
    requires Inv(s) && (s.pc.DeleteOld? || s.pc.DropPointers? || s.pc.DropBlob? || s.pc.Finish?) && Refuses(s.w, s.pc) == NoReason
    ensures EffectOk(s, c) && FollowingOk(s, c)
  {
    if Bland(s.pc) {
      BlandEffect(s, c);
      BlandKeepsBase(s.w, Effect(s.w, s.pc, c), Retiring(s));
    }
  }

  lemma StepOk(s: State, c: Choice)
    requires Inv(s) && !s.pc.Idle? && Refuses(s.w, s.pc) == NoReason
    ensures EffectOk(s, c) && FollowingOk(s, c)
  {
    if InRetry(s.pc) {
      RetryOk(s, c);
    } else if InArchive(s.pc) {
      ArchiveOk(s, c);
    } else if InStop(s.pc) {
      StopOk(s, c);
    } else if InCreate(s.pc) {
      CreateOk(s, c);
    } else if InConnect(s.pc) {
      ConnectOk(s, c);
    } else {
      CleanupOk(s, c);
    }
  }

  lemma UnwindOk(w: World, pc: Pc, reason: Reason)
    requires reason != PointersInconsistent
    ensures PcOk(w, Unwind(pc, reason)) && RunRecorded(w, Unwind(pc, reason))
  {
  }

  /** The pointers never disagree, so no step raises that error. */
  lemma NeverInconsistent(s: State)
    requires Inv(s)
    ensures Refuses(s.w, s.pc) != PointersInconsistent
  {
  }

  lemma FailedTickKeepsInv(s: State, outcome: Outcome, c: Choice)
    requires Inv(s) && !s.pc.Idle? && (outcome.Fails? || Refuses(s.w, s.pc) != NoReason)
    ensures Inv(Tock(s, outcome, c))
  {
    NeverInconsistent(s);
    if Refuses(s.w, s.pc) != NoReason {
      UnwindOk(s.w, s.pc, Refuses(s.w, s.pc));
    } else {
      StepOk(s, c);
      UnwindOk(s.w, s.pc, StepFailed);
      UnwindOk(Effect(s.w, s.pc, c), s.pc, StepFailed);
    }
  }

  lemma TickKeepsInv(s: State, outcome: Outcome, c: Choice)
    requires Inv(s) && !s.pc.Idle?
    ensures Inv(Tock(s, outcome, c))
  {
    if outcome.Fails? || Refuses(s.w, s.pc) != NoReason {
      FailedTickKeepsInv(s, outcome, c);
    } else {
      StepOk(s, c);
    }
  }

  lemma QuietEventsKeepInv(s: State, ev: Event)
    requires Inv(s) && !ev.Tick? && !ev.Edit? && !ev.Lost?
    ensures Inv(Next(s, ev))
  {
  }

  /** The row of a running workspace whose VM is gone may be marked stopped at any point of a run. */
  lemma LostKeepsInv(s: State)
    requires Inv(s)
    ensures Inv(Next(s, Lost))
  {
    var w' := Next(s, Lost).w;
    BlandKeepsBase(s.w, w', s.retired);
  }

  lemma NextKeepsInv(s: State, ev: Event)
    requires Inv(s)
    ensures Inv(Next(s, ev))
  {
    if ev.Edit? {
      EditKeepsInv(s, ev.edit);
    } else if ev.Lost? {
      LostKeepsInv(s);
    } else if !ev.Tick? {
      QuietEventsKeepInv(s, ev);
    } else if !s.pc.Idle? {
      TickKeepsInv(s, ev.outcome, ev.choice);
    }
  }
}
