/**
 * First-boot materialisation of the checkout (sandbox/supervisor/src/bootstrap.rs). A generation's
 * boots run one after another; each may be interrupted at any step, leaving whatever that step was
 * writing in an arbitrary condition. Nothing else touches the tree.
 */
module Bootstrap {
  import opened Prelude

  /** A directory tree: whether it has a `.git` directory, and its files by path. */
  datatype Tree = Tree(git: bool, files: map<string, string>)

  /** A member of the archive's `workspaces/`. */
  datatype Entry = Dir(tree: Tree) | Symlink

  type Entries = map<string, Entry>

  /** `repo` names the checkout below the workspaces directory. */
  datatype Source = Archive(entries: Entries) | Clone(tree: Tree)

  datatype Config = Config(repo: string, source: Source)

  /** The checkout a complete boot produces, if the source holds one. */
  function Expected(cfg: Config): Option<Tree> {
    match cfg.source
    case Clone(tree) => Some(tree)
    case Archive(entries) =>
      if cfg.repo in entries && entries[cfg.repo].Dir? then Some(entries[cfg.repo].tree) else None
  }

  /** A clone under way: its tree so far, and whether its repository already has the remote `origin`. */
  datatype Scratch = Scratch(tree: Tree, origin: bool)

  /** `partial` and `staging` are the scratch directories; `cloneDone` is the `clone.done` marker. */
  datatype Disk = Disk(workspaces: map<string, Tree>, partial: Option<Scratch>, staging: Option<Entries>, cloneDone: bool)

  datatype Pc =
    | Off
    | Check
    | RemoveDir
    | RemoveScratch
    | Extract
    | Move(left: set<string>)
    | CleanStaging
    | Fetch
    | Rename
    | SetMarker
    | Ready

  datatype State = State(disk: Disk, pc: Pc)

  /**
   * `Boot` starts the next boot. `Step` completes the current step; `name` picks the archive member
   * a move handles next, `swept` says whether best-effort clean-up worked. `Interrupt` is a crash
   * or an error in the current step: what that step was writing is left as `mess`, with `origin`
   * telling how far a clone got.
   */
  datatype Event =
    | Boot
    | Step(name: string, swept: bool)
    | Interrupt(mess: Option<Tree>, name: string, scratch: Option<Entries>, origin: bool)

  predicate Present(d: Disk, cfg: Config) { cfg.repo in d.workspaces && d.workspaces[cfg.repo].git }

  /** `git remote add` fails on a clone that an earlier boot left behind with its remote. */
  predicate Blocked(d: Disk) { d.partial.Some? && d.partial.value.origin }

  function DoStep(s: State, cfg: Config, name: string, swept: bool): State {
    var d := s.disk;
    match s.pc
    case Off => s
    case Ready => s
    case Check =>
      if Present(d, cfg) && d.cloneDone then s.(pc := Ready)
      else if cfg.repo in d.workspaces then s.(pc := RemoveDir)
      else s.(pc := RemoveScratch)
    case RemoveDir => State(d.(workspaces := d.workspaces - {cfg.repo}), RemoveScratch)
    case RemoveScratch =>
      var d1 := if swept then d.(partial := None, staging := None) else d;
      State(d1, if cfg.source.Archive? then Extract else Fetch)
    case Extract =>
      if cfg.source.Clone? then s else
      var entries := (if d.staging.Some? && !swept then d.staging.value else map[]) + cfg.source.entries;
      State(d.(staging := Some(entries)), Move(entries.Keys))
    case Move(left) =>
      if left == {} then s.(pc := CleanStaging)
      else if name !in left || d.staging.None? || name !in d.staging.value then s
      else
        var entry := d.staging.value[name];
        State(d.(workspaces := if entry.Dir? then d.workspaces[name := entry.tree] else d.workspaces), Move(left - {name}))
    case CleanStaging => State(if swept then d.(staging := None) else d, SetMarker)
    case Fetch =>
      if cfg.source.Archive? then s
      else if Blocked(d) then State(if swept then d.(partial := None) else d, Off)
      else State(d.(partial := Some(Scratch(cfg.source.tree, true))), Rename)
    case Rename =>
      if d.partial.Some? then State(d.(workspaces := d.workspaces[cfg.repo := d.partial.value.tree], partial := None), SetMarker) else s
    case SetMarker => State(d.(cloneDone := true), Ready)
  }

  /** What may be left behind by an interruption; the rename and the marker write are atomic. */
  function Damage(s: State, cfg: Config, mess: Option<Tree>, name: string, scratch: Option<Entries>, origin: bool): Disk {
    var d, half := s.disk, if mess.Some? then Some(Scratch(mess.value, origin)) else None;
    match s.pc
    case RemoveDir => d.(workspaces := Put(d.workspaces, cfg.repo, mess))
    case RemoveScratch => d.(partial := half, staging := scratch)
    case Extract => d.(staging := scratch)
    case Move(left) => if name in left then d.(workspaces := Put(d.workspaces, name, mess), staging := scratch) else d
    case CleanStaging => d.(staging := scratch)
    case Fetch => d.(partial := half)
    case _ => d
  }

  function Put(m: map<string, Tree>, k: string, v: Option<Tree>): map<string, Tree> {
    if v.Some? then m[k := v.value] else m - {k}
  }

  function Next(s: State, cfg: Config, ev: Event): State {
    match ev
    case Boot => if s.pc.Off? || s.pc.Ready? then s.(pc := Check) else s
    case Step(name, swept) => DoStep(s, cfg, name, swept)
    case Interrupt(mess, name, scratch, origin) => State(Damage(s, cfg, mess, name, scratch, origin), Off)
  }

  function Run(s: State, cfg: Config, evs: seq<Event>): State
    decreases |evs|
  {
    if evs == [] then s else Run(Next(s, cfg, evs[0]), cfg, evs[1..])
  }

  const FRESH := State(Disk(map[], None, None, false), Off)

  // ---------------------------------------------------------------- safety

  predicate Complete(d: Disk, cfg: Config) { cfg.repo in d.workspaces && Some(d.workspaces[cfg.repo]) == Expected(cfg) }

  /** `clone.done` promises a complete checkout. */
  predicate MarkerHonest(d: Disk, cfg: Config) { d.cloneDone ==> Complete(d, cfg) }

  /** The source holds the checkout, and the checkout carries `.git`. */
  predicate CarriesGit(cfg: Config) { Expected(cfg).Some? && Expected(cfg).value.git }

  predicate Inv(s: State, cfg: Config) {
    && MarkerHonest(s.disk, cfg)
    && (s.pc !in {Off, Check, Ready} ==> !s.disk.cloneDone)
    && (s.pc.Ready? ==> s.disk.cloneDone)
    && (s.pc == SetMarker || s.pc == CleanStaging ==> Complete(s.disk, cfg))
    && (s.pc == Rename ==> cfg.source.Clone? && s.disk.partial == Some(Scratch(cfg.source.tree, true)))
    && (s.pc == Fetch ==> cfg.source.Clone?)
    && (s.pc == Extract ==> cfg.source.Archive?)
    && (s.pc.Move? ==>
          && cfg.source.Archive? && s.disk.staging.Some? && s.pc.left <= s.disk.staging.value.Keys
          && cfg.repo in s.disk.staging.value && cfg.repo in cfg.source.entries
          && s.disk.staging.value[cfg.repo] == cfg.source.entries[cfg.repo]
          && (cfg.repo in s.pc.left || Complete(s.disk, cfg)))
  }

  lemma NextKeepsInv(s: State, cfg: Config, ev: Event)
    requires CarriesGit(cfg) && Inv(s, cfg)
    ensures Inv(Next(s, cfg, ev), cfg)
  {
  }

  /** Any sequence of boots, steps and interruptions keeps the marker honest. */
  lemma {:induction false} MarkerStaysHonest(s: State, cfg: Config, evs: seq<Event>)
    requires CarriesGit(cfg) && Inv(s, cfg)
    ensures Inv(Run(s, cfg, evs), cfg) && MarkerHonest(Run(s, cfg, evs).disk, cfg)
    decreases |evs|
  {
    if evs != [] {
      NextKeepsInv(s, cfg, evs[0]);
      MarkerStaysHonest(Next(s, cfg, evs[0]), cfg, evs[1..]);
    }
  }

  // ---------------------------------------------------------------- progress

  lemma {:induction false} RunAppend(s: State, cfg: Config, a: seq<Event>, b: seq<Event>)
    ensures Run(s, cfg, a + b) == Run(Run(s, cfg, a), cfg, b)
    decreases |a|
  {
    if a == [] {
      assert a + b == b;
    } else {
      assert (a + b)[1..] == a[1..] + b;
      RunAppend(Next(s, cfg, a[0]), cfg, a[1..], b);
    }
  }

  lemma RunOne(s: State, cfg: Config, ev: Event)
    ensures Run(s, cfg, [ev]) == Next(s, cfg, ev)
  {
    assert [ev][1..] == [];
  }

  lemma RunCons(s: State, cfg: Config, ev: Event, evs: seq<Event>)
    ensures Run(s, cfg, [ev] + evs) == Run(Next(s, cfg, ev), cfg, evs)
  {
    assert ([ev] + evs)[1..] == evs;
  }

  lemma RunTwo(s: State, cfg: Config, a: Event, b: Event)
    ensures Run(s, cfg, [a, b]) == Next(Next(s, cfg, a), cfg, b)
  {
    assert [a, b] == [a] + [b];
    RunCons(s, cfg, a, [b]);
    RunOne(Next(s, cfg, a), cfg, b);
  }

  lemma RunThree(s: State, cfg: Config, a: Event, b: Event, c: Event)
    ensures Run(s, cfg, [a, b, c]) == Next(Next(Next(s, cfg, a), cfg, b), cfg, c)
  {
    assert [a, b, c] == [a] + [b, c];
    RunCons(s, cfg, a, [b, c]);
    RunTwo(Next(s, cfg, a), cfg, b, c);
  }

  /** The tree a finished layout leaves under `name`. */
  function Laid(workspaces: map<string, Tree>, entries: Entries, names: set<string>, name: string): Option<Tree> {
    if name in names && name in entries && entries[name].Dir? then Some(entries[name].tree)
    else if name in workspaces then Some(workspaces[name]) else None
  }

  function Lookup(m: map<string, Tree>, k: string): Option<Tree> { if k in m then Some(m[k]) else None }

  /** The boot takes its steps one after another, and each move handles a member that remains. */
  predicate Scheduled(s: State, cfg: Config, evs: seq<Event>)
    decreases |evs|
  {
    evs != [] ==>
      && evs[0].Step? && (s.pc.Move? && s.pc.left != {} ==> evs[0].name in s.pc.left)
      && Scheduled(Next(s, cfg, evs[0]), cfg, evs[1..])
  }

  /** No fetch of the schedule meets the remote of an earlier clone that could not be removed. */
  predicate Unblocked(s: State, cfg: Config, evs: seq<Event>)
    decreases |evs|
  {
    evs != [] ==> !(s.pc == Fetch && cfg.source.Clone? && Blocked(s.disk)) && Unblocked(Next(s, cfg, evs[0]), cfg, evs[1..])
  }

  /** The archive has a member for the checkout, so what an unswept staging holds there is overwritten. */
  predicate Covers(cfg: Config) { cfg.source.Archive? ==> cfg.repo in cfg.source.entries }

  predicate Swept(evs: seq<Event>) { forall i :: 0 <= i < |evs| && evs[i].Step? ==> evs[i].swept }

  /** Where the boot stands on its way to leaving `want` as the checkout. */
  predicate Toward(s: State, cfg: Config, want: Option<Tree>) {
    var d := s.disk;
    match s.pc
    case Off => true
    case Check => want == if Present(d, cfg) && d.cloneDone then Lookup(d.workspaces, cfg.repo) else Expected(cfg)
    case RemoveDir => want == Expected(cfg)
    case RemoveScratch => want == Expected(cfg) && (want.None? ==> cfg.repo !in d.workspaces)
    case Extract => cfg.source.Archive? && want == Expected(cfg) && (want.None? ==> cfg.repo !in d.workspaces)
    case Move(left) =>
      cfg.source.Archive? && d.staging.Some? && left <= d.staging.value.Keys && Laid(d.workspaces, d.staging.value, left, cfg.repo) == want
    case CleanStaging => Lookup(d.workspaces, cfg.repo) == want
    case Fetch => cfg.source.Clone? && want == Expected(cfg)
    case Rename => d.partial.Some? && want == Some(d.partial.value.tree)
    case SetMarker => Lookup(d.workspaces, cfg.repo) == want
    case Ready => d.cloneDone && Lookup(d.workspaces, cfg.repo) == want
  }

  /** Members the staging directory may hold once the archive is extracted. */
  function Members(d: Disk, cfg: Config): set<string> {
    (if d.staging.Some? then d.staging.value.Keys else {}) + (if cfg.source.Archive? then cfg.source.entries.Keys else {})
  }

  /** Steps left at most. */
  function Remaining(s: State, cfg: Config): nat {
    match s.pc
    case Off => 0
    case Ready => 0
    case SetMarker => 1
    case CleanStaging => 2
    case Rename => 2
    case Fetch => 3
    case Move(left) => 3 + |left|
    case Extract => 4 + |Members(s.disk, cfg)|
    case RemoveScratch => 5 + |Members(s.disk, cfg)|
    case RemoveDir => 6 + |Members(s.disk, cfg)|
    case Check => 7 + |Members(s.disk, cfg)|
  }

  lemma {:induction false} SubsetSize(a: set<string>, b: set<string>)
    requires a <= b
    ensures |a| <= |b|
  {
    assert b == a + (b - a);
  }

  lemma MoveAdvances(s: State, cfg: Config, ev: Event, want: Option<Tree>)
    requires s.pc.Move? && Toward(s, cfg, want) && ev.Step? && (s.pc.left != {} ==> ev.name in s.pc.left)
    ensures Toward(Next(s, cfg, ev), cfg, want) && Remaining(Next(s, cfg, ev), cfg) < Remaining(s, cfg)
    ensures Next(s, cfg, ev).pc == if s.pc.left == {} then CleanStaging else Move(s.pc.left - {ev.name})
    ensures Next(s, cfg, ev).disk.staging == s.disk.staging && Next(s, cfg, ev).disk.cloneDone == s.disk.cloneDone
  {
  }

  lemma ExtractAdvances(s: State, cfg: Config, ev: Event, want: Option<Tree>)
    requires s.pc.Extract? && Toward(s, cfg, want) && ev.Step? && (Covers(cfg) || ev.swept)
    ensures Toward(Next(s, cfg, ev), cfg, want) && Remaining(Next(s, cfg, ev), cfg) < Remaining(s, cfg)
  {
    var s' := Next(s, cfg, ev);
    SubsetSize(s'.pc.left, Members(s.disk, cfg));
  }

  lemma OtherAdvances(s: State, cfg: Config, ev: Event, want: Option<Tree>)
    requires !s.pc.Move? && !s.pc.Extract? && !s.pc.Off? && !s.pc.Ready? && Toward(s, cfg, want) && ev.Step?
    requires !(s.pc == Fetch && Blocked(s.disk))
    ensures Toward(Next(s, cfg, ev), cfg, want) && Remaining(Next(s, cfg, ev), cfg) < Remaining(s, cfg)
  {
    SubsetSize(Members(Next(s, cfg, ev).disk, cfg), Members(s.disk, cfg));
  }

  lemma {:induction false} OffStaysOff(s: State, cfg: Config, evs: seq<Event>)
    requires s.pc.Off? && Scheduled(s, cfg, evs)
    ensures Run(s, cfg, evs) == s && Unblocked(s, cfg, evs)
    decreases |evs|
  {
    if evs != [] {
      OffStaysOff(s, cfg, evs[1..]);
    }
  }

  /** Whatever the order of the moves and whichever clean-ups work, the boot gets there unless its fetch is blocked. */
  lemma {:induction false} BootGetsThere(s: State, cfg: Config, evs: seq<Event>, want: Option<Tree>)
    requires Toward(s, cfg, want) && !s.pc.Off? && Scheduled(s, cfg, evs) && |evs| >= Remaining(s, cfg)
    requires Covers(cfg) || Swept(evs)
    ensures var t := Run(s, cfg, evs);
      if Unblocked(s, cfg, evs) then t.pc.Ready? && t.disk.cloneDone && Lookup(t.disk.workspaces, cfg.repo) == want
      else t.pc.Off?
    decreases |evs|
  {
    if evs != [] {
      var s' := Next(s, cfg, evs[0]);
      if s.pc == Fetch && Blocked(s.disk) {
        OffStaysOff(s', cfg, evs[1..]);
      } else if s.pc.Ready? {
        ReadyStaysReady(s, cfg, evs);
      } else {
        assert Swept(evs) ==> evs[0].swept;
        if s.pc.Move? {
          MoveAdvances(s, cfg, evs[0], want);
        } else if s.pc.Extract? {
          ExtractAdvances(s, cfg, evs[0], want);
        } else {
          OtherAdvances(s, cfg, evs[0], want);
        }
        BootGetsThere(s', cfg, evs[1..], want);
      }
    }
  }

  lemma {:induction false} ReadyStaysReady(s: State, cfg: Config, evs: seq<Event>)
    requires s.pc.Ready? && Scheduled(s, cfg, evs)
    ensures Run(s, cfg, evs) == s && Unblocked(s, cfg, evs)
    decreases |evs|
  {
    if evs != [] {
      ReadyStaysReady(s, cfg, evs[1..]);
    }
  }

  /** The move loop places every remaining member, in whatever order the directory lists them. */
  lemma {:induction false} MovesFinish(s: State, cfg: Config, evs: seq<Event>)
    requires s.pc.Move? && cfg.source.Archive? && s.disk.staging.Some? && s.pc.left <= s.disk.staging.value.Keys
    requires Scheduled(s, cfg, evs) && |evs| == |s.pc.left|
    ensures var s' := Run(s, cfg, evs);
      && s'.pc == Move({}) && s'.disk.cloneDone == s.disk.cloneDone
      && forall name :: Lookup(s'.disk.workspaces, name) == Laid(s.disk.workspaces, s.disk.staging.value, s.pc.left, name)
    decreases |evs|
  {
    if evs != [] {
      MovesFinish(Next(s, cfg, evs[0]), cfg, evs[1..]);
    }
  }

  /** Every boot with nothing in the way of its fetch either keeps a finished checkout or builds the expected one. */
  lemma BootFinishes(s: State, cfg: Config, evs: seq<Event>)
    requires s.pc.Off? || s.pc.Ready?
    requires var on := Next(s, cfg, Boot); Scheduled(on, cfg, evs) && |evs| >= Remaining(on, cfg) && Unblocked(on, cfg, evs)
    requires Covers(cfg) || Swept(evs)
    ensures var t := Run(s, cfg, [Boot] + evs);
      && t.pc == Ready && t.disk.cloneDone
      && Lookup(t.disk.workspaces, cfg.repo) ==
           if Present(s.disk, cfg) && s.disk.cloneDone then Lookup(s.disk.workspaces, cfg.repo) else Expected(cfg)
  {
    RunCons(s, cfg, Boot, evs);
    BootGetsThere(Next(s, cfg, Boot), cfg, evs,
                  if Present(s.disk, cfg) && s.disk.cloneDone then Lookup(s.disk.workspaces, cfg.repo) else Expected(cfg));
  }

  /**
   * From wherever a boot stands, every schedule long enough ends complete and marked, for every
   * order of the moves and every outcome of the clean-ups, exactly unless a leftover clone blocks the fetch.
   */
  lemma EveryScheduleCompletes(s: State, cfg: Config, evs: seq<Event>)
    requires CarriesGit(cfg) && Inv(s, cfg) && !s.pc.Off? && Scheduled(s, cfg, evs) && |evs| >= Remaining(s, cfg)
    ensures var t := Run(s, cfg, evs);
      && (Unblocked(s, cfg, evs) <==> t.pc.Ready?)
      && (t.pc.Ready? ==> t.disk.cloneDone && Complete(t.disk, cfg))
      && (!t.pc.Ready? ==> t.pc.Off? && !t.disk.cloneDone)
  {
    TowardExpected(s, cfg);
    BootGetsThere(s, cfg, evs, Expected(cfg));
    if !Unblocked(s, cfg, evs) {
      BlockedIsUnmarked(s, cfg, evs);
    }
  }

  lemma TowardExpected(s: State, cfg: Config)
    requires CarriesGit(cfg) && Inv(s, cfg)
    ensures Toward(s, cfg, Expected(cfg)) && Covers(cfg)
  {
  }

  /** A boot that reaches its fetch has no marker. */
  lemma {:induction false} BlockedIsUnmarked(s: State, cfg: Config, evs: seq<Event>)
    requires CarriesGit(cfg) && Inv(s, cfg) && Scheduled(s, cfg, evs) && !Unblocked(s, cfg, evs)
    ensures !Run(s, cfg, evs).disk.cloneDone
    decreases |evs|
  {
    var s' := Next(s, cfg, evs[0]);
    if s.pc == Fetch && cfg.source.Clone? && Blocked(s.disk) {
      OffStaysOff(s', cfg, evs[1..]);
    } else {
      NextKeepsInv(s, cfg, evs[0]);
      BlockedIsUnmarked(s', cfg, evs[1..]);
    }
  }

  /** A restore never blocks, nor does a clone whose clean-ups work. */
  lemma {:induction false} SweptIsUnblocked(s: State, cfg: Config, evs: seq<Event>)
    requires cfg.source.Archive? || (Swept(evs) && (s.pc == Fetch ==> !Blocked(s.disk)))
    ensures Unblocked(s, cfg, evs)
    decreases |evs|
  {
    if evs != [] {
      SweptIsUnblocked(Next(s, cfg, evs[0]), cfg, evs[1..]);
    }
  }

  /** After any history of interruptions, the next uninterrupted boot ends complete and marked. */
  lemma NextBootCompletes(cfg: Config, history: seq<Event>, last: Event, evs: seq<Event>)
    requires CarriesGit(cfg) && last.Interrupt?
    requires var on := Next(Run(FRESH, cfg, history + [last]), cfg, Boot);
      Scheduled(on, cfg, evs) && |evs| >= Remaining(on, cfg) && Unblocked(on, cfg, evs)
    ensures var t := Run(Run(FRESH, cfg, history + [last]), cfg, [Boot] + evs);
      t.pc == Ready && t.disk.cloneDone && Complete(t.disk, cfg)
  {
    var s := Run(FRESH, cfg, history + [last]);
    MarkerStaysHonest(FRESH, cfg, history + [last]);
    NextKeepsInv(s, cfg, Boot);
    RunAppend(FRESH, cfg, history, [last]);
    RunOne(Run(FRESH, cfg, history), cfg, last);
    RunCons(s, cfg, Boot, evs);
    EveryScheduleCompletes(Next(s, cfg, Boot), cfg, evs);
  }

  /** There is always a schedule to follow. */
  lemma {:induction false} ScheduleExists(s: State, cfg: Config, n: nat) returns (evs: seq<Event>)
    ensures |evs| == n && Scheduled(s, cfg, evs) && Swept(evs)
    decreases n
  {
    if n == 0 {
      evs := [];
    } else {
      var name := "";
      if s.pc.Move? && s.pc.left != {} {
        name :| name in s.pc.left;
      }
      var rest := ScheduleExists(Next(s, cfg, Step(name, true)), cfg, n - 1);
      evs := [Step(name, true)] + rest;
      assert evs[1..] == rest;
    }
  }

  // ---------------------------------------------------------------- the condition is exact

  /**
   * Without a `.git` directory the guarantee fails: a later boot takes the finished checkout for a
   * truncated one and deletes it while the marker stays set.
   */
  lemma GitIsNeeded(cfg: Config) returns (evs: seq<Event>)
    requires !CarriesGit(cfg)
    ensures !MarkerHonest(Run(FRESH, cfg, evs).disk, cfg)
  {
    var on := Next(FRESH, cfg, Boot);
    var steps := ScheduleExists(on, cfg, Remaining(on, cfg));
    SweptIsUnblocked(on, cfg, steps);
    BootFinishes(FRESH, cfg, steps);
    evs := [Boot] + steps;
    var s := Run(FRESH, cfg, evs);
    if Expected(cfg).Some? {
      var cut := Interrupt(None, "", None, false);
      var again := [Boot, Step("", true), cut];
      RunThree(s, cfg, Boot, Step("", true), cut);
      assert Next(Next(s, cfg, Boot), cfg, Step("", true)) == State(s.disk, RemoveDir);
      RunAppend(FRESH, cfg, evs, again);
      evs := evs + again;
    }
  }

  /** The marker is honest in every run of a generation exactly when its checkout carries `.git`. */
  lemma HonestExactlyWithGit(cfg: Config)
    ensures CarriesGit(cfg) <==> forall evs :: MarkerHonest(Run(FRESH, cfg, evs).disk, cfg)
  {
    if CarriesGit(cfg) {
      forall evs ensures MarkerHonest(Run(FRESH, cfg, evs).disk, cfg) {
        MarkerStaysHonest(FRESH, cfg, evs);
      }
    } else {
      var evs := GitIsNeeded(cfg);
      assert !MarkerHonest(Run(FRESH, cfg, evs).disk, cfg);
    }
  }

  // ---------------------------------------------------------------- the boot as code

  /** The directories `materialize_repo` works on. */
  class Sandbox {
    var workspaces: map<string, Tree>
    var partial: Option<Scratch>
    var staging: Option<Entries>
    var cloneDone: bool

    constructor ()
      ensures workspaces == map[] && partial == None && staging == None && !cloneDone
    {
      workspaces, partial, staging, cloneDone := map[], None, None, false;
    }

    /** `apply_restore_layout`: every member that is not a symlink replaces its namesake. */
    method ApplyRestoreLayout(entries: Entries)
      modifies this`workspaces
      ensures forall name :: Lookup(workspaces, name) == Laid(old(workspaces), entries, entries.Keys, name)
    {
      var left := entries.Keys;
      while left != {}
        invariant left <= entries.Keys
        invariant forall name :: Lookup(workspaces, name) == Laid(old(workspaces), entries, entries.Keys - left, name)
        decreases left
      {
        var name :| name in left;
        ghost var moved, before := entries.Keys - left, workspaces;
        left := left - {name};
        assert entries.Keys - left == moved + {name};
        if entries[name].Dir? {
          workspaces := workspaces[name := entries[name].tree];
        }
        forall n ensures Lookup(workspaces, n) == Laid(old(workspaces), entries, moved + {name}, n) {
          assert Lookup(before, n) == Laid(old(workspaces), entries, moved, n);
        }
      }
    }

    /** A boot nothing interrupts: keep a finished checkout that has `.git`, otherwise build it anew. */
    method MaterializeRepo(cfg: Config)
      modifies this
      ensures cloneDone
      ensures Lookup(workspaces, cfg.repo) ==
        if old(cloneDone) && Present(old(Disk.Disk(workspaces, partial, staging, cloneDone)), cfg)
        then Lookup(old(workspaces), cfg.repo) else Expected(cfg)
    {
      if cfg.repo in workspaces && workspaces[cfg.repo].git && cloneDone {
        return;
      }
      workspaces := workspaces - {cfg.repo};
      partial, staging := None, None;
      match cfg.source
      case Archive(entries) =>
        staging := Some(entries);
        ApplyRestoreLayout(entries);
        staging := None;
        cloneDone := true;
      case Clone(tree) =>
        partial := Some(Scratch(tree, true));
        workspaces := workspaces[cfg.repo := tree];
        partial := None;
        cloneDone := true;
    }
  }
}
