/** Where a stop, a connect, a restart and a create end when no step fails, from any history. */
module LifecycleRuns {
  import opened Prelude
  import opened WorkspaceSteps
  import opened RebuildMachine
  import opened RebuildSafety
  import opened RebuildGuarantees
  import opened RebuildProgress

  /** The run started from row `from` and is to leave the row in `target`. */
  datatype Course = Course(from: Row, target: WsState)

  predicate Present(w: World) { w.row.sandboxName in w.sandboxes }

  /** The run never touches generation, pointers or release. */
  predicate SameWorkspace(from: Row, row: Row) { SamePointers(from, row) && row.release == from.release }

  /** A stop that found the row stopped leaves the VM to itself. */
  predicate Halted(s: State, c: Course) { c.from.state == Stopped || !s.vm }

  predicate Arrived(s: State, c: Course) {
    s.w.row.state == c.target && (c.target == Running ==> Materialised(s.w) && s.vm) && (c.target == Stopped ==> Halted(s, c))
  }

  /** The stop belongs to a stop run, or to a restart that goes on to resume. */
  predicate Stops(s: State, c: Course, p: Parent) {
    (p.Top? && c.target == Stopped) || (p.RestartStop? && c.target == Running && Present(s.w))
  }

  predicate Connects(s: State, c: Course, p: Parent) { (p.Top? || p.RestartConnect?) && c.target == Running && Present(s.w) }

  predicate OnCourse(s: State, c: Course) {
    SameWorkspace(c.from, s.w.row) &&
    match s.pc
    case LaunchRestart => c.target == Running && Present(s.w) && s.w.row.state == c.from.state
    case StopLoad(p) => Stops(s, c, p) && s.w.row.state == c.from.state
    case StopMark(p) => Stops(s, c, p) && c.from.state != Stopped
    case StopVm(p) => Stops(s, c, p) && c.from.state != Stopped
    case StopMarked(p) => Stops(s, c, p) && Halted(s, c)
    case CreateLoad(p) => p.Top? && c.target == Running
    case CreateVm(p, _) => p.Top? && c.target == Running
    case CreateRecord(p, _) => p.Top? && c.target == Running && Present(s.w) && s.vm
    case CreateBoot(p, _) => p.Top? && c.target == Running && Present(s.w) && s.vm
    case CreateReady(p, _) => p.Top? && c.target == Running && Materialised(s.w) && s.vm
    case ConnectLoad(p) => Connects(s, c, p) && (p.RestartConnect? ==> s.w.row.state == Stopped && Halted(s, c))
    case ConnectMark(p, _) => Connects(s, c, p)
    case ConnectResume(p, _) => Connects(s, c, p)
    case ConnectBoot(p, _) => Connects(s, c, p) && s.vm
    case ConnectReady(p, _) => Connects(s, c, p) && s.vm && Materialised(s.w)
    case Finish(ok, _) => ok && Arrived(s, c)
    case Idle => Arrived(s, c) && s.w.row.runId.None?
    case _ => false
  }

  /** Steps left at most. */
  function Distance(pc: Pc): nat {
    match pc
    case Idle => 0
    case Finish(_, _) => 1
    case ConnectReady(_, _) => 2
    case ConnectBoot(_, _) => 3
    case ConnectResume(_, _) => 4
    case ConnectMark(_, _) => 5
    case ConnectLoad(_) => 6
    case StopMarked(_) => 7
    case StopVm(_) => 8
    case StopMark(_) => 9
    case StopLoad(_) => 10
    case LaunchRestart => 11
    case CreateReady(_, _) => 2
    case CreateBoot(_, _) => 3
    case CreateRecord(_, _) => 4
    case CreateVm(_, _) => 5
    case CreateLoad(_) => 6
    case _ => 12
  }

  predicate Proceeds(s: State, ch: Choice, c: Course) {
    var t := Next(s, Tick(Done, ch)); OnCourse(t, c) && Distance(t.pc) < Distance(s.pc)
  }

  /** A fault-free tick of a step that does not refuse. */
  lemma TickIs(s: State, ch: Choice)
    requires !s.pc.Idle? && Refuses(s.w, s.pc) == NoReason
    ensures Next(s, Tick(Done, ch)) == State(Effect(s.w, s.pc, ch), Following(s.w, s.pc, ch), Retiring(s), VmAfter(s))
  {
  }

  lemma StopProceeds(s: State, ch: Choice, c: Course)
    requires Inv(s) && OnCourse(s, c) && InStop(s.pc)
    ensures Proceeds(s, ch, c)
  {
    TickIs(s, ch);
  }

  lemma CreateProceeds(s: State, ch: Choice, c: Course)
    requires Inv(s) && OnCourse(s, c) && InCreate(s.pc)
    ensures Proceeds(s, ch, c)
  {
    TickIs(s, ch);
  }

  lemma ConnectProceeds(s: State, ch: Choice, c: Course)
    requires Inv(s) && OnCourse(s, c) && InConnect(s.pc)
    ensures Proceeds(s, ch, c)
  {
    TickIs(s, ch);
  }

  lemma StepProceeds(s: State, ch: Choice, c: Course)
    requires Inv(s) && OnCourse(s, c) && !s.pc.Idle?
    ensures Proceeds(s, ch, c)
  {
    if InStop(s.pc) {
      StopProceeds(s, ch, c);
    } else if InCreate(s.pc) {
      CreateProceeds(s, ch, c);
    } else if InConnect(s.pc) {
      ConnectProceeds(s, ch, c);
    } else {
      TickIs(s, ch);
    }
  }

  lemma {:induction false} TicksArrive(s: State, cs: seq<Choice>, c: Course)
    requires Inv(s) && OnCourse(s, c) && Distance(s.pc) <= |cs|
    ensures var t := Ticks(s, cs); t.pc.Idle? && OnCourse(t, c) && Inv(t)
    decreases |cs|
  {
    if cs != [] {
      NextKeepsInv(s, Tick(Done, cs[0]));
      if !s.pc.Idle? {
        StepProceeds(s, cs[0], c);
      }
      TicksArrive(Next(s, Tick(Done, cs[0])), cs[1..], c);
    }
  }

  lemma {:induction false} TicksKeepFiles(s: State, cs: seq<Choice>)
    requires Inv(s)
    ensures Inv(Ticks(s, cs)) && Kept(s.w) <= Kept(Ticks(s, cs).w)
    decreases |cs|
  {
    if cs != [] {
      NextKeepsInv(s, Tick(Done, cs[0]));
      NextKeepsFiles(s, Tick(Done, cs[0]));
      TicksKeepFiles(Next(s, Tick(Done, cs[0])), cs[1..]);
    }
  }

  /** The end all these runs share: idle, no run id, generation, pointers and release as before, files kept. */
  predicate Ends(s: State, t: State, target: WsState) {
    && t.pc.Idle? && t.w.row.runId.None? && t.w.row.state == target
    && SameWorkspace(s.w.row, t.w.row) && Kept(s.w) <= Kept(t.w)
    && (target == Running ==> t.vm && Materialised(t.w) && Kept(s.w) <= Contents(t.w, t.w.row.sandboxName))
    && (target == Stopped && s.w.row.state != Stopped ==> !t.vm)
  }

  lemma RunEnds(s: State, wf: Workflow, id: nat, cs: seq<Choice>, target: WsState)
    requires Inv(s) && s.pc.Idle? && |cs| >= 11
    requires OnCourse(Next(s, Admit(wf, id)), Course(s.w.row, target)) && Distance(Entry(wf)) <= 11
    ensures Ends(s, Ticks(Next(s, Admit(wf, id)), cs), target)
  {
    var s' := Next(s, Admit(wf, id));
    NextKeepsInv(s, Admit(wf, id));
    NextKeepsFiles(s, Admit(wf, id));
    TicksArrive(s', cs, Course(s.w.row, target));
    TicksKeepFiles(s', cs);
  }

  /** A stop that meets no fault ends stopped, its VM told to stop unless the row already said so. */
  lemma StopEnds(s: State, id: nat, cs: seq<Choice>)
    requires Inv(s) && s.pc.Idle? && |cs| >= 11
    ensures Ends(s, Ticks(Next(s, Admit(StopWorkspace, id)), cs), Stopped)
  {
    RunEnds(s, StopWorkspace, id, cs, Stopped);
  }

  /** A connect that meets no fault ends running, with the vouched-for files in the sandbox. */
  lemma ConnectEnds(s: State, id: nat, cs: seq<Choice>)
    requires Inv(s) && s.pc.Idle? && Present(s.w) && |cs| >= 11
    ensures Ends(s, Ticks(Next(s, Admit(ConnectWorkspace, id)), cs), Running)
  {
    RunEnds(s, ConnectWorkspace, id, cs, Running);
  }

  /** So does a create, whose archive pointer is left exactly while a bump is pending. */
  lemma CreateEnds(s: State, id: nat, cs: seq<Choice>)
    requires Inv(s) && s.pc.Idle? && |cs| >= 11
    ensures var t := Ticks(Next(s, Admit(CreateWorkspace, id)), cs);
      Ends(s, t, Running) && (t.w.row.restoreBlob.Some? <==> s.w.row.previous.Some?)
  {
    RunEnds(s, CreateWorkspace, id, cs, Running);
  }

  /** Along the ticks, the restart comes to its connect with the row stopped, its VM told to stop unless the row already said so. */
  predicate PassesStopped(s: State, cs: seq<Choice>, from: Row)
    decreases |cs|
  {
    (s.pc == ConnectLoad(RestartConnect) && s.w.row.state == Stopped && (from.state == Stopped || !s.vm))
    || (cs != [] && PassesStopped(Next(s, Tick(Done, cs[0])), cs[1..], from))
  }

  lemma {:induction false} RestartPasses(s: State, cs: seq<Choice>, c: Course)
    requires Inv(s) && OnCourse(s, c) && c.target == Running && Distance(s.pc) <= |cs|
    requires InStop(s.pc) || s.pc == ConnectLoad(RestartConnect)
    ensures PassesStopped(s, cs, c.from)
    decreases |cs|
  {
    if InStop(s.pc) {
      var t := Next(s, Tick(Done, cs[0]));
      NextKeepsInv(s, Tick(Done, cs[0]));
      StopProceeds(s, cs[0], c);
      StopLeadsOn(s, cs[0], c);
      RestartPasses(t, cs[1..], c);
    }
  }

  lemma StopLeadsOn(s: State, ch: Choice, c: Course)
    requires Inv(s) && OnCourse(s, c) && c.target == Running && InStop(s.pc)
    ensures var t := Next(s, Tick(Done, ch)); InStop(t.pc) || t.pc == ConnectLoad(RestartConnect)
  {
    TickIs(s, ch);
  }

  /** A restart stops the workspace and resumes it: it ends running, files kept, having been stopped on the way. */
  lemma RestartEnds(s: State, id: nat, cs: seq<Choice>)
    requires Inv(s) && s.pc.Idle? && Present(s.w) && |cs| >= 11
    ensures var s' := Next(s, Admit(RestartSession, id));
      Ends(s, Ticks(s', cs), Running) && PassesStopped(s', cs, s.w.row)
  {
    RunEnds(s, RestartSession, id, cs, Running);
    NextKeepsInv(s, Admit(RestartSession, id));
    RestartPasses(Next(s, Admit(RestartSession, id)), cs, Course(s.w.row, Running));
  }

  // ---------------------------------------------------------------- failures

  /** Any failing step, of the run or of a child, ends the run: the next tick records the failure and touches nothing else. */
  lemma FailureIsRecorded(s: State, outcome: Outcome, ch: Choice, again: Choice)
    requires !s.pc.Idle? && !(s.pc.Finish? && !s.pc.ok)
    requires Refuses(s.w, s.pc) != NoReason || outcome.Fails?
    ensures var f := Next(s, Tick(outcome, ch)); var t := Next(f, Tick(Done, again));
      && f.pc.Finish? && !f.pc.ok
      && t.pc.Idle? && t.w == f.w.(row := f.w.row.(runId := None, state := Failed))
      && (Refuses(s.w, s.pc) != NoReason || outcome == Fails(false) ==> f.w == s.w)
  {
  }
}
