/**
 * One workspace as the lifecycle workflows see it: its database row, its sandboxes and its archive
 * blobs, and what each durable step does to them (apps/web/workflows/steps/db-steps.ts,
 * apps/web/workflows/steps/sandbox-steps.ts).
 */
module WorkspaceSteps {
  import opened Prelude

  datatype WsState = Creating | Running | Stopping | Stopped | Rebuilding | Failed

  datatype RestoreKind = Fresh | Snapshot | Tarball

  /** `sb-<env>-<workspace>-g<generation>`: within one workspace, the generation is the name. */
  datatype SandboxName = SandboxName(generation: nat)

  datatype Row = Row(
    state: WsState, sandboxName: SandboxName, generation: nat, previous: Option<SandboxName>,
    restoreKind: RestoreKind, restoreBlob: Option<string>, release: string, runId: Option<nat>)

  /** The user's files, told as the edits made so far; restoring an archive copies them all. */
  type Files = seq<string>

  /** A sandbox maps to `None` until its supervisor has materialised a checkout. */
  datatype World = World(row: Row, sandboxes: map<SandboxName, Option<Files>>, blobs: map<string, Files>)

  function Contents(w: World, name: SandboxName): Files {
    if name in w.sandboxes && w.sandboxes[name].Some? then w.sandboxes[name].value else []
  }

  // ---------------------------------------------------------------- rows

  function SetState(row: Row, state: WsState): Row { row.(state := state) }

  /** The optional patch of the rebuild's last state change: both recovery pointers at once. */
  function ClearPointers(row: Row): Row { row.(previous := None, restoreBlob := None) }

  /** The optional patch of a state change: leave the pointers, drop the archive's, or drop both. */
  datatype Patch = Leave | DropArchive | DropBoth

  function Patched(row: Row, patch: Patch): Row {
    match patch
    case Leave => row
    case DropArchive => row.(restoreBlob := None)
    case DropBoth => ClearPointers(row)
  }

  function FinishRun(row: Row, ok: bool): Row {
    if ok then row.(runId := None) else row.(runId := None, state := Failed)
  }

  function BumpGeneration(row: Row, blob: string, release: string): Result<Row, SandboxName> {
    if row.previous.Some? then Err(row.previous.value) else
    Ok(row.(generation := row.generation + 1, sandboxName := SandboxName(row.generation + 1),
            previous := Some(row.sandboxName), restoreKind := Tarball, restoreBlob := Some(blob), release := release))
  }

  /** What `createWorkspace` writes when its sandbox is healthy, given the row it loaded at its start. */
  function CreateDone(row: Row, loaded: Row): Row {
    if loaded.previous.Some? then row.(state := Running) else row.(state := Running, restoreBlob := None)
  }

  // ---------------------------------------------------------------- sandboxes and blobs

  /** How far a best-effort delete got: the sandbox, only its snapshots, or nothing. */
  datatype Extent = Gone | Wiped | Untouched

  function DeleteSandbox(w: World, name: SandboxName, extent: Extent): World {
    if name !in w.sandboxes || extent == Untouched then w
    else if extent == Gone then w.(sandboxes := w.sandboxes - {name})
    else w.(sandboxes := w.sandboxes[name := None])
  }

  /** Creates the sandbox, or adopts the one that already bears the name. */
  function CreateSandbox(w: World, name: SandboxName): World {
    if name in w.sandboxes then w else w.(sandboxes := w.sandboxes[name := None])
  }

  /** The archive the manifest names for this boot. */
  function RestoreBlock(row: Row): Option<string> { if row.restoreKind == Tarball then row.restoreBlob else None }

  /** A boot materialises an empty sandbox: from the archive when the manifest names one. */
  predicate CanBoot(w: World, name: SandboxName) {
    name in w.sandboxes &&
    (w.sandboxes[name].None? && RestoreBlock(w.row).Some? ==> RestoreBlock(w.row).value in w.blobs)
  }

  function Boot(w: World, name: SandboxName): World
    requires CanBoot(w, name)
  {
    if w.sandboxes[name].Some? then w
    else if RestoreBlock(w.row).Some? then w.(sandboxes := w.sandboxes[name := Some(w.blobs[RestoreBlock(w.row).value])])
    else w.(sandboxes := w.sandboxes[name := Some([])])
  }

  function PutBlob(w: World, path: string, files: Files): World { w.(blobs := w.blobs[path := files]) }

  /** Deleting a blob is best effort too. */
  function DeleteBlob(w: World, path: string, done: bool): World {
    if done then w.(blobs := w.blobs - {path}) else w
  }

  /** A user's edit reaches the current sandbox while the row is in a state with a live editor. */
  function EditFiles(w: World, edit: string): World {
    var name := w.row.sandboxName;
    if w.row.state in {Stopped, Rebuilding} || name !in w.sandboxes || w.sandboxes[name].None? then w
    else w.(sandboxes := w.sandboxes[name := Some(w.sandboxes[name].value + [edit])])
  }

  // ---------------------------------------------------------------- the steps as code

  /** The stores the steps write to, for one workspace. */
  class ControlPlane {
    var row: Row
    var sandboxes: map<SandboxName, Option<Files>>
    var blobs: map<string, Files>

    ghost function Value(): World
      reads this
    {
      World(row, sandboxes, blobs)
    }

    constructor (row: Row)
      ensures Value() == World(row, map[], map[])
    {
      this.row, sandboxes, blobs := row, map[], map[];
    }

    method StepSetState(state: WsState, patch: Patch)
      modifies this`row
      ensures row == SetState(Patched(old(row), patch), state)
    {
      row := row.(state := state);
      if patch == DropBoth {
        row := row.(previous := None);
      }
      if patch != Leave {
        row := row.(restoreBlob := None);
      }
    }

    /** `failure` is the state a failed run leaves: the error state unless the caller names another. */
    method StepFinishRun(ok: bool, failure: WsState := Failed)
      modifies this`row
      ensures row.runId == None && row == FinishRun(old(row), ok).(state := if ok then old(row).state else failure)
    {
      row := row.(runId := None);
      if !ok {
        row := row.(state := failure);
      }
    }

    /** Refused while a bump is pending, so a second execution never overwrites the pointers. */
    method StepBumpGeneration(blob: string, release: string) returns (r: Result<SandboxName, SandboxName>)
      modifies this`row
      ensures match BumpGeneration(old(row), blob, release)
        case Ok(next) => row == next && r == Ok(old(row).sandboxName) && row.generation > old(row).generation
        case Err(pending) => row == old(row) && r == Err(pending)
    {
      if row.previous.Some? {
        return Err(row.previous.value);
      }
      var was := row.sandboxName;
      row := row.(generation := row.generation + 1, sandboxName := SandboxName(row.generation + 1),
                  previous := Some(was), restoreKind := Tarball, restoreBlob := Some(blob), release := release);
      r := Ok(was);
    }

    /** Stops, deletes snapshots, deletes; every failure is swallowed, so any prefix may be all that happened. */
    method StepDeleteSandbox(name: SandboxName, extent: Extent)
      modifies this`sandboxes
      ensures Value() == DeleteSandbox(old(Value()), name, extent)
    {
      if name !in sandboxes {
        return;
      }
      match extent
      case Untouched =>
      case Wiped => sandboxes := sandboxes[name := None];
      case Gone => sandboxes := sandboxes - {name};
    }

    /** `up` is the platform's answer: a sandbox that runs, or an error. */
    method StepCreateSandbox(name: SandboxName, up: bool) returns (ok: bool)
      modifies this`sandboxes
      ensures ok == up
      ensures Value() == if ok then CreateSandbox(old(Value()), name) else old(Value())
      ensures ok ==> name in sandboxes
      ensures name in old(sandboxes) ==> sandboxes == old(sandboxes)
    {
      ok := up;
      if ok && name !in sandboxes {
        sandboxes := sandboxes[name := None];
      }
    }

    /** Starts the supervisor, which materialises the checkout on a first boot; `false` when it cannot. */
    method StepStartSupervisor(name: SandboxName) returns (ok: bool)
      modifies this`sandboxes
      ensures ok == CanBoot(old(Value()), name)
      ensures Value() == if ok then Boot(old(Value()), name) else old(Value())
    {
      if name !in sandboxes {
        return false;
      }
      if sandboxes[name].None? {
        if row.restoreKind == Tarball && row.restoreBlob.Some? {
          if row.restoreBlob.value !in blobs {
            return false;
          }
          sandboxes := sandboxes[name := Some(blobs[row.restoreBlob.value])];
        } else {
          sandboxes := sandboxes[name := Some([])];
        }
      }
      ok := true;
    }

    method StepDeleteBlob(path: string, done: bool)
      modifies this`blobs
      ensures Value() == DeleteBlob(old(Value()), path, done)
    {
      if done {
        blobs := blobs - {path};
      }
    }

    method StepSetRelease(release: string)
      modifies this`row
      ensures row == old(row).(release := release)
    {
      row := row.(release := release);
    }

    /** Tars the files as they are now; none when the sandbox is missing. */
    method StepStartArchive(name: SandboxName) returns (tar: Option<Files>)
      ensures tar == if name in sandboxes then Some(Contents(Value(), name)) else None
    {
      if name !in sandboxes {
        return None;
      }
      tar := Some(if sandboxes[name].Some? then sandboxes[name].value else []);
    }

    /** Stores the tarball found in the sandbox under `path`; `false` without the sandbox or the tarball. */
    method StepFinishArchive(name: SandboxName, tar: Option<Files>, path: string) returns (ok: bool)
      modifies this`blobs
      ensures ok <==> name in sandboxes && tar.Some?
      ensures Value() == if ok then PutBlob(old(Value()), path, tar.value) else old(Value())
    {
      if name !in sandboxes || tar.None? {
        return false;
      }
      blobs := blobs[path := tar.value];
      ok := true;
    }
  }
}
