/**
 * The rebuild as the program it is: awaited steps over the stores, a child stop, a child create and
 * one catch clause. Faults other than the ones the steps raise themselves belong to the step machine.
 */
module RebuildProgram {
  import opened Prelude
  import opened WorkspaceSteps
  import opened RebuildMachine
  import opened RebuildSafety
  import opened RebuildGuarantees
  import opened RebuildProgress

  /** `stopWorkspace` as the rebuild's child: it leaves `rebuilding`, not `stopped`, and the run id alone. */
  method StopForRebuild(cp: ControlPlane)
    modifies cp`row
    ensures cp.row == old(cp.row).(state := if old(cp.row).state == Stopped then Stopped else Rebuilding)
  {
    if cp.row.state != Stopped {
      cp.StepSetState(Stopping, Leave);
      cp.StepSetState(Rebuilding, Leave);
    }
  }

  /** The world once `createWorkspace` has its sandbox up, and whether it gets there. */
  function Created(w: World): World
    requires CanCreate(w)
  {
    var booted := Boot(CreateSandbox(w, w.row.sandboxName), w.row.sandboxName);
    booted.(row := CreateDone(w.row, w.row))
  }

  predicate CanCreate(w: World) { CanBoot(CreateSandbox(w, w.row.sandboxName), w.row.sandboxName) }

  /** `createWorkspace` as a child: it leaves the run id alone, and the archive while a bump is pending. */
  method CreateChild(cp: ControlPlane, up: bool) returns (ok: bool)
    modifies cp
    ensures ok <==> up && CanCreate(old(cp.Value()))
    ensures ok ==> cp.Value() == Created(old(cp.Value()))
    ensures ok ==> cp.row.state == Running && cp.row.restoreBlob == if old(cp.row).previous.Some? then old(cp.row).restoreBlob else None
    ensures !up ==> cp.Value() == old(cp.Value())
    ensures up && !ok ==> cp.Value() == CreateSandbox(old(cp.Value()), old(cp.row).sandboxName).(row := old(cp.row).(state := Creating))
  {
    var ws := cp.row;
    ok := cp.StepCreateSandbox(ws.sandboxName, up);
    if !ok {
      return;
    }
    cp.row := cp.row.(state := Creating, restoreKind := ws.restoreKind);
    ok := cp.StepStartSupervisor(ws.sandboxName);
    if ok {
      cp.StepSetState(Running, if ws.previous.Some? then Leave else DropArchive);
    }
  }

  /** The archive, the stop and the bump: from a generation at rest to a pending bump. */
  method ArchiveAndBump(cp: ControlPlane, name: SandboxName, path: string, release: string) returns (r: Result<SandboxName, Reason>)
    modifies cp
    ensures cp.sandboxes == old(cp.sandboxes)
    ensures name !in old(cp.sandboxes) ==> r == Err(SandboxMissing) && cp.Value() == old(cp.Value()).(row := old(cp.row).(state := Rebuilding))
    ensures name in old(cp.sandboxes) && old(cp.row).previous.Some? ==> r == Err(BumpPending) && cp.row == old(cp.row).(state := Rebuilding)
    ensures name in old(cp.sandboxes) ==> cp.blobs == old(cp.blobs)[path := Contents(old(cp.Value()), name)]
    ensures name in old(cp.sandboxes) && old(cp.row).previous.None? ==>
      r == Ok(old(cp.row).sandboxName) && cp.row == BumpGeneration(old(cp.row).(state := Rebuilding), path, release).value
  {
    cp.StepSetState(Rebuilding, Leave);
    var tar := cp.StepStartArchive(name);
    var ok := cp.StepFinishArchive(name, tar, path);
    if !ok {
      return Err(SandboxMissing);
    }
    var bump := cp.StepBumpGeneration(path, release);
    match bump
    case Ok(gen) => r := Ok(gen);
    case Err(_) => r := Err(BumpPending);
  }

  lemma CreatedKeepsGoal(w: World, g: Goal)
    requires Named(w) && Pending(w) && AfterBump(w, g)
    ensures CanCreate(w) && AfterBump(Created(w), g) && Pending(Created(w)) && Materialised(Created(w)) && Named(Created(w))
    ensures SamePointers(w.row, Created(w).row) && Created(w).row.runId == w.row.runId
  {
  }

  predicate Inconsistent(row: Row) { row.previous.Some? && (row.restoreKind != Tarball || row.restoreBlob.None?) }

  /** The rebuild starts towards goal `g` from a row whose pointers are in order. */
  predicate Begins(w: World, g: Goal, release: string, extent: Extent) {
    && Named(w) && Pending(w) && g.release == release && (g.exact ==> extent != Untouched)
    && if w.row.previous.Some? then Retrying(w, g) else BeforeBump(w, g)
  }

  /** A retry clears what the failed create left and retargets the pending generation. */
  method PrepareRetry(cp: ControlPlane, release: string, extent: Extent, ghost g: Goal)
    requires cp.row.previous.Some?
    modifies cp
    ensures cp.row == old(cp.row).(state := Rebuilding, release := release) && cp.blobs == old(cp.blobs)
    ensures Begins(old(cp.Value()), g, release, extent) ==> Named(cp.Value()) && Pending(cp.Value()) && AfterBump(cp.Value(), g)
  {
    cp.StepSetState(Rebuilding, Leave);
    cp.StepDeleteSandbox(cp.row.sandboxName, extent);
    cp.StepSetRelease(release);
  }

  /** Up to the child create: a retry resumes from the pointers, a first attempt archives. */
  method Prepare(cp: ControlPlane, release: string, path: string, extent: Extent, ghost g: Goal) returns (r: Result<(SandboxName, string), Reason>)
    modifies cp
    ensures cp.row.runId == old(cp.row.runId)
    ensures Inconsistent(old(cp.row)) ==> r == Err(PointersInconsistent) && cp.Value() == old(cp.Value())
    ensures !Ready(old(cp.Value())) ==> r == Err(SandboxMissing) && cp.Value() == old(cp.Value()).(row := old(cp.row).(state := Rebuilding))
    ensures Begins(old(cp.Value()), g, release, extent) ==>
      r.Ok? && PointsAt(cp.Value(), r.value.0, r.value.1) && Named(cp.Value()) && Pending(cp.Value()) && AfterBump(cp.Value(), g)
  {
    var ws := cp.row;
    if ws.previous.Some? {
      if ws.restoreKind != Tarball || ws.restoreBlob.None? {
        return Err(PointersInconsistent);
      }
      PrepareRetry(cp, release, extent, g);
      return Ok((ws.previous.value, ws.restoreBlob.value));
    }
    if ws.state != Stopped {
      StopForRebuild(cp);
    }
    var bump := ArchiveAndBump(cp, ws.sandboxName, path, release);
    match bump
    case Ok(gen) => r := Ok((gen, path));
    case Err(reason) => r := Err(reason);
  }

  /** After the child create: the old generation, then both pointers, then the archive. */
  method CleanUp(cp: ControlPlane, prev: SandboxName, blob: string, extent: Extent, blobGone: bool)
    modifies cp
    ensures cp.row == SetState(ClearPointers(old(cp.row)), Running)
    ensures forall n :: n != prev ==> (n in cp.sandboxes <==> n in old(cp.sandboxes))
    ensures forall n :: n != prev && n in cp.sandboxes ==> cp.sandboxes[n] == old(cp.sandboxes)[n]
  {
    cp.StepDeleteSandbox(prev, extent);
    cp.StepSetState(Running, DropBoth);
    cp.StepDeleteBlob(blob, blobGone);
  }

  /** The child create, which only the platform can fail while the archive is there, and the cleanup it unlocks. */
  method CreateAndCleanUp(cp: ControlPlane, prev: SandboxName, blob: string, up: bool, extent: Extent, blobGone: bool, ghost g: Goal) returns (ok: bool)
    requires PointsAt(cp.Value(), prev, blob) && Named(cp.Value()) && Pending(cp.Value()) && AfterBump(cp.Value(), g)
    modifies cp
    ensures ok == up
    ensures if ok then Delivered(cp.Value(), g) else cp.Value() == old(cp.Value())
  {
    CreatedKeepsGoal(cp.Value(), g);
    ok := CreateChild(cp, up);
    if ok {
      CleanUp(cp, prev, blob, extent, blobGone);
    }
  }

  /**
   * What a rebuild that is no no-op owes: an error without a sandbox, the vouched-for files and the
   * wanted release otherwise; when the platform refuses the new sandbox, that release and pointers
   * for a retry that still hold the files.
   */
  ghost predicate OwedAnew(w: World, w': World, release: string, up: bool, exact: bool, r: Result<bool, Reason>) {
    w'.row.runId.None? &&
    if !Ready(w) then r == Err(SandboxMissing) && w' == w.(row := FinishRun(w.row, false))
    else if up then r == Ok(true) && Delivered(w', GoalOf(w, release, exact))
    else r == Err(StepFailed) && w'.row.state == Failed && w'.row.previous.Some? && Pending(w') && w'.row.release == release && Kept(w) <= Kept(w')
  }

  /** A no-op owes the cleared run id and nothing else. */
  ghost predicate Owed(w: World, w': World, upgrade: Option<string>, current: string, up: bool, exact: bool, r: Result<bool, Reason>) {
    if NoOp(w.row, upgrade) then r == Ok(false) && w' == w.(row := FinishRun(w.row, true))
    else OwedAnew(w, w', Wanted(upgrade, current), up, exact, r)
  }

  /** Both branches, the child create, the cleanup and the catch clause. */
  method RebuildAnew(cp: ControlPlane, release: string, path: string, up: bool, first: Extent, second: Extent, blobGone: bool)
    returns (r: Result<bool, Reason>)
    requires Base(cp.Value(), false) || Base(cp.Value(), true)
    modifies cp
    ensures OwedAnew(old(cp.Value()), cp.Value(), release, up, first != Untouched, r)
  {
    ghost var g := GoalOf(cp.Value(), release, first != Untouched);
    var prepared := Prepare(cp, release, path, first, g);
    if prepared.Err? {
      cp.StepFinishRun(false);
      return Err(prepared.error);
    }
    var created := CreateAndCleanUp(cp, prepared.value.0, prepared.value.1, up, second, blobGone, g);
    cp.StepFinishRun(created);
    r := if created then Ok(true) else Err(StepFailed);
  }

  /** The whole rebuild; the answer says whether it rebuilt, answered a no-op, or why it failed. */
  method RebuildWorkspace(cp: ControlPlane, upgrade: Option<string>, current: string, path: string, up: bool, first: Extent, second: Extent, blobGone: bool)
    returns (r: Result<bool, Reason>)
    requires Base(cp.Value(), false) || Base(cp.Value(), true)
    modifies cp
    ensures Owed(old(cp.Value()), cp.Value(), upgrade, current, up, first != Untouched, r)
  {
    var release := if upgrade.Some? then upgrade.value else current;
    if upgrade.Some? && cp.row.release == release && cp.row.previous.None? {
      cp.StepFinishRun(true);
      return Ok(false);
    }
    r := RebuildAnew(cp, release, path, up, first, second, blobGone);
  }
}
