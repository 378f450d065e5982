/**
 * The lifecycle workflows as a step machine (apps/web/workflows). The machine runs one
 * workflow at a time; a program counter says which durable step comes next. A step may complete,
 * complete and be executed again because its result was lost, or fail before or after taking
 * effect; a failure unwinds to the owning run, which records it. A run may also vanish at any
 * point. Between steps the user may edit.
 */
module RebuildMachine {
  import opened Prelude
  import opened WorkspaceSteps

  /** Why a run failed. */
  datatype Reason = NoReason | StepFailed | PointersInconsistent | BumpPending | SandboxMissing | RestoreMissing

  /** The run a child workflow belongs to, with what that run still has to remember. */
  datatype Parent =
    | Top
    | RebuildStop(ws: Row, release: string)
    | RebuildCreate(prev: SandboxName, blob: string)
    | RestartStop
    | RestartConnect

  datatype Pc =
    | Idle
    | RebuildLoad(upgrade: Option<string>)
    | RetryMark(ws: Row, release: string)
    | RetryDelete(ws: Row, release: string)
    | RetryRelease(ws: Row, release: string)
    | LaunchStop(ws: Row, release: string)
    | MarkArchive(ws: Row, release: string)
    | ResumeOld(ws: Row, release: string)
    | StartArchive(ws: Row, release: string)
    | Upload(ws: Row, release: string, tar: Files)
    | StopOld(ws: Row, release: string, blob: string)
    | Bump(ws: Row, release: string, blob: string)
    | LaunchCreate(prev: SandboxName, blob: string)
    | DeleteOld(prev: SandboxName, blob: string)
    | DropPointers(blob: string)
    | DropBlob(blob: string)
    | LaunchRestart
    | StopLoad(p: Parent)
    | StopMark(p: Parent)
    | StopVm(p: Parent)
    | StopMarked(p: Parent)
    | CreateLoad(p: Parent)
    | CreateVm(p: Parent, ws: Row)
    | CreateRecord(p: Parent, ws: Row)
    | CreateBoot(p: Parent, ws: Row)
    | CreateReady(p: Parent, ws: Row)
    | ConnectLoad(p: Parent)
    | ConnectMark(p: Parent, ws: Row)
    | ConnectResume(p: Parent, ws: Row)
    | ConnectBoot(p: Parent, ws: Row)
    | ConnectReady(p: Parent, ws: Row)
    | Finish(ok: bool, reason: Reason)

  /**
   * `retired` remembers whether the deletion of the previous generation has begun, `vm` whether the
   * last word to the platform about the current sandbox was to run it.
   */
  datatype State = State(w: World, pc: Pc, retired: bool, vm: bool)

  datatype Workflow = CreateWorkspace | ConnectWorkspace | StopWorkspace | RestartSession | RebuildWorkspace(upgrade: Option<string>)

  /** What the outside world decides about one execution of a step. */
  datatype Choice = Choice(path: string, release: string, extent: Extent, deleted: bool)

  datatype Outcome = Done | Again | Fails(applied: bool)

  datatype Event =
    | Admit(workflow: Workflow, runId: nat)
    | Tick(outcome: Outcome, choice: Choice)
    | Vanish
    | Reconcile(completed: bool)
    | Lost
    | Edit(edit: string)

  /** The first step of a workflow. */
  function Entry(wf: Workflow): Pc {
    match wf
    case CreateWorkspace => CreateLoad(Top)
    case ConnectWorkspace => ConnectLoad(Top)
    case StopWorkspace => StopLoad(Top)
    case RestartSession => LaunchRestart
    case RebuildWorkspace(upgrade) => RebuildLoad(upgrade)
  }

  /** Where control goes when a child workflow, or a run of its own, has finished its last step. */
  function Return(p: Parent): Pc {
    match p
    case Top => Finish(true, NoReason)
    case RebuildStop(ws, release) => MarkArchive(ws, release)
    case RebuildCreate(prev, blob) => DeleteOld(prev, blob)
    case RestartStop => ConnectLoad(RestartConnect)
    case RestartConnect => Finish(true, NoReason)
  }

  /** The error a step raises in this world instead of taking effect. */
  function Refuses(w: World, pc: Pc): Reason {
    match pc
    case RebuildLoad(_) =>
      if w.row.previous.Some? && (w.row.restoreKind != Tarball || w.row.restoreBlob.None?) then PointersInconsistent else NoReason
    case ResumeOld(ws, _) => if ws.sandboxName in w.sandboxes then NoReason else SandboxMissing
    case StartArchive(ws, _) => if ws.sandboxName in w.sandboxes then NoReason else SandboxMissing
    case Upload(ws, _, _) => if ws.sandboxName in w.sandboxes then NoReason else SandboxMissing
    case Bump(_, _, _) => if w.row.previous.Some? then BumpPending else NoReason
    case CreateBoot(_, ws) =>
      if ws.sandboxName !in w.sandboxes then SandboxMissing else if CanBoot(w, ws.sandboxName) then NoReason else RestoreMissing
    case ConnectResume(_, ws) => if ws.sandboxName in w.sandboxes then NoReason else SandboxMissing
    case ConnectBoot(_, ws) =>
      if ws.sandboxName !in w.sandboxes then SandboxMissing else if CanBoot(w, ws.sandboxName) then NoReason else RestoreMissing
    case _ => NoReason
  }

  /** What one execution of the step does to the world. */
  function Effect(w: World, pc: Pc, c: Choice): World
    requires Refuses(w, pc) == NoReason
  {
    match pc
    case RetryMark(_, _) => w.(row := SetState(w.row, Rebuilding))
    case RetryDelete(ws, _) => DeleteSandbox(w, ws.sandboxName, c.extent)
    case RetryRelease(_, release) => w.(row := w.row.(release := release))
    case MarkArchive(_, _) => w.(row := SetState(w.row, Rebuilding))
    case Upload(_, _, tar) => PutBlob(w, c.path, tar)
    case Bump(_, release, blob) => w.(row := BumpGeneration(w.row, blob, release).value)
    case DeleteOld(prev, _) => DeleteSandbox(w, prev, c.extent)
    case DropPointers(_) => w.(row := SetState(ClearPointers(w.row), Running))
    case DropBlob(blob) => DeleteBlob(w, blob, c.deleted)
    case StopMark(_) => w.(row := SetState(w.row, Stopping))
    case StopMarked(p) => w.(row := SetState(w.row, if p.RebuildStop? then Rebuilding else Stopped))
    case CreateVm(_, ws) => CreateSandbox(w, ws.sandboxName)
    case CreateRecord(_, ws) => w.(row := SetState(w.row, Creating).(restoreKind := ws.restoreKind))
    case CreateBoot(_, ws) => Boot(w, ws.sandboxName)
    case CreateReady(_, ws) => w.(row := CreateDone(w.row, ws))
    case ConnectMark(_, _) => w.(row := SetState(w.row, Stopped))
    case ConnectBoot(_, ws) => Boot(w, ws.sandboxName)
    case ConnectReady(_, _) => w.(row := SetState(w.row, Running))
    case Finish(ok, _) => w.(row := FinishRun(w.row, ok))
    case _ => w
  }

  /** The step after this one, decided by what this one read. */
  function Following(w: World, pc: Pc, c: Choice): Pc {
    match pc
    case Idle => Idle
    case RebuildLoad(upgrade) =>
      var release := if upgrade.Some? then upgrade.value else c.release;
      if upgrade.Some? && w.row.release == release && w.row.previous.None? then Finish(true, NoReason)
      else if w.row.previous.Some? then RetryMark(w.row, release)
      else if w.row.state != Stopped then LaunchStop(w.row, release)
      else MarkArchive(w.row, release)
    case RetryMark(ws, release) => RetryDelete(ws, release)
    case RetryDelete(ws, release) => RetryRelease(ws, release)
    case RetryRelease(ws, _) =>
      if ws.previous.Some? && ws.restoreBlob.Some? then LaunchCreate(ws.previous.value, ws.restoreBlob.value)
      else Finish(false, PointersInconsistent)
    case LaunchStop(ws, release) => StopLoad(RebuildStop(ws, release))
    case MarkArchive(ws, release) => ResumeOld(ws, release)
    case ResumeOld(ws, release) => StartArchive(ws, release)
    case StartArchive(ws, release) => Upload(ws, release, Contents(w, ws.sandboxName))
    case Upload(ws, release, _) => StopOld(ws, release, c.path)
    case StopOld(ws, release, blob) => Bump(ws, release, blob)
    case Bump(_, _, blob) => LaunchCreate(w.row.sandboxName, blob)
    case LaunchCreate(prev, blob) => CreateLoad(RebuildCreate(prev, blob))
    case DeleteOld(_, blob) => DropPointers(blob)
    case DropPointers(blob) => DropBlob(blob)
    case DropBlob(_) => Finish(true, NoReason)
    case LaunchRestart => StopLoad(RestartStop)
    case StopLoad(p) => if w.row.state == Stopped then Return(p) else StopMark(p)
    case StopMark(p) => StopVm(p)
    case StopVm(p) => StopMarked(p)
    case StopMarked(p) => Return(p)
    case CreateLoad(p) => CreateVm(p, w.row)
    case CreateVm(p, ws) => CreateRecord(p, ws)
    case CreateRecord(p, ws) => CreateBoot(p, ws)
    case CreateBoot(p, ws) => CreateReady(p, ws)
    case CreateReady(p, _) => Return(p)
    case ConnectLoad(p) => ConnectMark(p, w.row)
    case ConnectMark(p, ws) => ConnectResume(p, ws)
    case ConnectResume(p, ws) => ConnectBoot(p, ws)
    case ConnectBoot(p, ws) => ConnectReady(p, ws)
    case ConnectReady(p, _) => Return(p)
    case Finish(_, _) => Idle
  }

  /** The catch clause: a failed child fails its parent; a failed failure record ends the run. */
  function Unwind(pc: Pc, reason: Reason): Pc {
    if pc.Idle? || (pc.Finish? && !pc.ok) then Idle else Finish(false, reason)
  }

  predicate Retiring(s: State) { if s.pc.Bump? then false else s.retired || s.pc.DeleteOld? }

  /** Steps that start or stop the VM of the current sandbox. */
  predicate VmAfter(s: State) {
    if s.pc.StopVm? || s.pc.StopOld? then false
    else s.vm || s.pc.CreateVm? || s.pc.ConnectResume? || s.pc.ResumeOld?
  }

  function Tock(s: State, outcome: Outcome, c: Choice): State {
    var refusal := Refuses(s.w, s.pc);
    if refusal != NoReason then s.(pc := Unwind(s.pc, refusal)) else
    var w', retired', vm' := Effect(s.w, s.pc, c), Retiring(s), VmAfter(s);
    match outcome
    case Done => State(w', Following(s.w, s.pc, c), retired', vm')
    case Again => State(w', s.pc, retired', vm')
    case Fails(applied) => if applied then State(w', Unwind(s.pc, StepFailed), retired', vm') else s.(pc := Unwind(s.pc, StepFailed))
  }

  function Next(s: State, ev: Event): State {
    match ev
    case Admit(wf, id) => if s.pc.Idle? then s.(w := s.w.(row := s.w.row.(runId := Some(id))), pc := Entry(wf)) else s
    case Tick(outcome, c) => if s.pc.Idle? then s else Tock(s, outcome, c)
    case Vanish => s.(pc := Idle)
    case Reconcile(completed) =>
      if !s.pc.Idle? || s.w.row.runId.None? then s else s.(w := s.w.(row := FinishRun(s.w.row, completed)))
    case Lost => if s.w.row.state == Running then s.(w := s.w.(row := SetState(s.w.row, Stopped)), vm := false) else s
    case Edit(e) => s.(w := EditFiles(s.w, e))
  }

  function Run(s: State, evs: seq<Event>): State
    decreases |evs|
  {
    if evs == [] then s else Run(Next(s, evs[0]), evs[1..])
  }

  /** A freshly reserved workspace. */
  function Reserved(release: string): State {
    State(World(Row(Creating, SandboxName(1), 1, None, Fresh, None, release, None), map[], map[]), Idle, false, false)
  }
}
