/**
 * Preview forwards on the control plane (apps/web/lib/forwards.ts, apps/web/lib/ports.ts). Each
 * operation is one write transaction on the rows of one workspace and its set of muted ports.
 */
module ControlForwards {
  import opened Prelude
  import Decimal

  const PROXY_SLOTS: seq<int> := [8444, 8445, 8446, 8447, 8452, 8453, 8454, 8455, 8456, 8457, 8458, 8459]

  /** The deployment's own listeners and the hosts of the current sandbox session. */
  datatype Env = Env(rpcPort: int, healthPort: int, scheme: string, workspaceUrl: string, hosts: map<int, string>)

  datatype Row = Row(visibility: Visibility, title: Option<string>, slot: Option<int>, url: Option<string>)

  type Rows = map<int, Row>

  datatype Db = Db(rows: Rows, muted: set<int>)

  datatype ApiError = InvalidPort | InfraPort | NoFreeSlot

  predicate IsInfraPort(env: Env, port: int) {
    port in {22, 53, 111, 23456} || 8443 <= port <= 8460 || port == env.rpcPort || port == env.healthPort || port in PROXY_SLOTS
  }

  function ForwardableError(env: Env, port: int): Option<ApiError> {
    if !(1 <= port <= 65535) then Some(InvalidPort) else if IsInfraPort(env, port) then Some(InfraPort) else None
  }

  /** `null` while the session has no (non-empty) host for the slot. */
  function PublicSlotUrl(env: Env, slot: int): Option<string> {
    if slot in env.hosts && env.hosts[slot] != "" then Some(env.scheme + "://" + env.hosts[slot]) else None
  }

  /** The control-plane link that opens a private forward. */
  function PrivateForwardUrl(env: Env, port: int): string {
    env.workspaceUrl + "/ports/" + Decimal.IntText(port) + "/open"
  }

  // ---------------------------------------------------------------- slots

  predicate SlotTaken(rows: Rows, slot: int) { exists p :: p in rows && rows[p].slot == Some(slot) }

  /** The first slot of `slots` that no row holds. */
  function FirstFree(slots: seq<int>, rows: Rows): (r: Option<int>)
    ensures r.Some? ==> r.value in slots && !SlotTaken(rows, r.value)
    ensures r.None? ==> forall s :: s in slots ==> SlotTaken(rows, s)
  {
    if slots == [] then None
    else if !SlotTaken(rows, slots[0]) then Some(slots[0])
    else FirstFree(slots[1..], rows)
  }

  /** Keeps an existing binding, otherwise takes the first free slot. */
  function AllocateSlot(rows: Rows, port: int): Option<int> {
    if port in rows && rows[port].slot.Some? then rows[port].slot else FirstFree(PROXY_SLOTS, rows)
  }

  // ---------------------------------------------------------------- the transactions as functions

  datatype Create = Create(port: int, visibility: Visibility, title: Option<string>)

  function Created(db: Db, env: Env, req: Create): Result<Db, ApiError> {
    var bad := ForwardableError(env, req.port);
    if bad.Some? then Err(bad.value) else
    var slot := AllocateSlot(db.rows, req.port);
    if slot.None? then Err(NoFreeSlot) else
    var url := if req.visibility == Private then Some(PrivateForwardUrl(env, req.port)) else PublicSlotUrl(env, slot.value);
    Ok(Db(db.rows[req.port := Row(req.visibility, req.title, slot, url)], db.muted - {req.port}))
  }

  function Removed(db: Db, env: Env, port: int): Result<Db, ApiError> {
    var bad := ForwardableError(env, port);
    if bad.Some? then Err(bad.value) else Ok(Db(db.rows - {port}, db.muted + {port}))
  }

  /** Insertion into a strictly ascending list; a duplicate is dropped. */
  function InsertPort(sorted: seq<int>, p: int): seq<int> {
    if sorted == [] || p < sorted[0] then [p] + sorted
    else if p == sorted[0] then sorted
    else [sorted[0]] + InsertPort(sorted[1..], p)
  }

  /** The listening ports that may be previews, without duplicates, ascending. */
  function Listening(env: Env, report: seq<int>): seq<int> {
    if report == [] then [] else
    var rest := Listening(env, report[1..]);
    if IsInfraPort(env, report[0]) then rest else InsertPort(rest, report[0])
  }

  /** Rows that stay: every private one, and public ones whose port still listens. */
  function Kept(rows: Rows, ports: seq<int>): Rows {
    map p | p in rows && (rows[p].visibility == Private || p in ports) :: rows[p]
  }

  /** Slots of `slots` not held by `rows`, in order. */
  function Available(slots: seq<int>, rows: Rows): seq<int> {
    if slots == [] then [] else
    (if SlotTaken(rows, slots[0]) then [] else [slots[0]]) + Available(slots[1..], rows)
  }

  datatype Progress = Progress(rows: Rows, available: seq<int>)

  /** One turn of the reconciliation loop for a port that is not muted. */
  function SyncPort(env: Env, kept: Rows, w: Progress, port: int): Progress {
    if port in kept && kept[port].visibility == Private then w else
    var held := if port in kept then kept[port].slot else None;
    if held.None? && w.available == [] then w else
    var slot := if held.Some? then held.value else w.available[0];
    var w' := if held.Some? then w else w.(available := w.available[1..]);
    var url := PublicSlotUrl(env, slot);
    if url.None? || (port in kept && kept[port].url == url && kept[port].slot == Some(slot)) then w'
    else if port in w'.rows then w'.(rows := w'.rows[port := w'.rows[port].(slot := Some(slot), url := url)])
    else w'.(rows := w'.rows[port := Row(Public, None, Some(slot), url)])
  }

  function SyncLoop(env: Env, kept: Rows, muted: set<int>, w: Progress, ports: seq<int>): Progress
    decreases |ports|
  {
    if ports == [] then w else
    SyncLoop(env, kept, muted, if ports[0] in muted then w else SyncPort(env, kept, w, ports[0]), ports[1..])
  }

  /** Reconciling a report of listening ports (workspace running, isolated backend). */
  function Synced(db: Db, env: Env, report: seq<int>): Db {
    var ports := Listening(env, report);
    var muted := set p | p in db.muted && p in ports;
    var kept := Kept(db.rows, ports);
    Db(SyncLoop(env, kept, muted, Progress(kept, Available(PROXY_SLOTS, kept)), ports).rows, muted)
  }

  // ---------------------------------------------------------------- the transactions

  class ForwardTable {
    var rows: Rows
    var muted: set<int>

    ghost function Value(): Db
      reads this
    {
      Db(rows, muted)
    }

    constructor ()
      ensures Value() == Db(map[], {})
    {
      rows, muted := map[], {};
    }

    /** A refused request changes nothing: the transaction rolls back the unmuting too. */
    method CreateForward(env: Env, req: Create) returns (error: Option<ApiError>)
      modifies this
      ensures match Created(old(Value()), env, req)
        case Ok(db) => error == None && Value() == db
        case Err(e) => error == Some(e) && Value() == old(Value())
    {
      var bad := ForwardableError(env, req.port);
      if bad.Some? {
        return bad;
      }
      var slot := AllocateSlot(rows, req.port);
      if slot.None? {
        return Some(NoFreeSlot);
      }
      muted := muted - {req.port};
      var url := if req.visibility == Private then Some(PrivateForwardUrl(env, req.port)) else PublicSlotUrl(env, slot.value);
      rows := rows[req.port := Row(req.visibility, req.title, slot, url)];
      error := None;
    }

    method RemoveForward(env: Env, port: int) returns (error: Option<ApiError>)
      modifies this
      ensures match Removed(old(Value()), env, port)
        case Ok(db) => error == None && Value() == db
        case Err(e) => error == Some(e) && Value() == old(Value())
    {
      var bad := ForwardableError(env, port);
      if bad.Some? {
        return bad;
      }
      muted := muted + {port};
      rows := rows - {port};
      error := None;
    }

    /** `isolated` is false for the local development backend, which never syncs. */
    method SyncListeningForwards(env: Env, running: bool, isolated: bool, report: Option<seq<int>>)
      modifies this
      ensures Value() == if running && isolated && report.Some? then Synced(old(Value()), env, report.value) else old(Value())
    {
      if !running || !isolated || report.None? {
        return;
      }
      var ports := Listening(env, report.value);
      muted := set p | p in muted && p in ports;
      var kept := Kept(rows, ports);
      rows := kept;
      var available := Available(PROXY_SLOTS, kept);
      var i := 0;
      ghost var target := SyncLoop(env, kept, muted, Progress(kept, available), ports);
      while i < |ports|
        invariant 0 <= i <= |ports| && muted == (set p | p in old(muted) && p in ports)
        invariant target == SyncLoop(env, kept, muted, Progress(rows, available), ports[i..])
      {
        var port := ports[i];
        ghost var w := Progress(rows, available);
        assert ports[i..][1..] == ports[i + 1..];
        i := i + 1;
        if port in muted || (port in kept && kept[port].visibility == Private) {
          continue;
        }
        var held := if port in kept then kept[port].slot else None;
        if held.None? && available == [] {
          continue;
        }
        var slot := if held.Some? then held.value else available[0];
        if held.None? {
          available := available[1..];
        }
        var url := PublicSlotUrl(env, slot);
        if url.Some? && !(port in kept && kept[port].url == url && kept[port].slot == Some(slot)) {
          rows := rows[port := if port in rows then rows[port].(slot := Some(slot), url := url)
                               else Row(Public, None, Some(slot), url)];
        }
        assert Progress(rows, available) == SyncPort(env, kept, w, port);
      }
    }
  }
}
