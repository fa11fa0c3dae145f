/**
 Any number of operations and crashes in a row: `current` is absent or leads to one whole publication.
 */
module History {
  import opened Basics
  import opened FileSystem
  import opened Publication
  import opened Phases
  import opened Switching
  import opened CrashConsistency
  import opened Snapshots
  import opened Immutability
  import opened Durability

  // ---- Crashes --------------------------------------------------------------------------

  /** The entries that a crash may bring back make sense. */
  ghost predicate OlderFits(d: Disk, p: Place) {
    forall n :: n in Look(d, p).older ==> NodeFits(d, n) && DirFits(p, n)
  }

  /** No directory that a crash may leave under the one name can appear under the other. */
  ghost predicate Apart(d: Disk, p: Place, q: Place) {
    forall n: Node :: n.Dir? && n in Possible(d, p) ==>
      At(d, q) != n && (q.name.Generation? ==> n !in Look(d, q).older)
  }

  ghost predicate Traceable(d: Disk) {
    (forall p :: OlderFits(d, p)) && forall p: Place, q: Place :: p != q && p.name.Generation? ==> Apart(d, p, q)
  }

  /**
   The disk on which the service starts again. What is there is on disk now. The staging directories of
   dead processes are left out, because every later call draws a name of its own.
   */
  ghost predicate Restarted(d: Disk, e: Disk) {
    && e.next == d.next && e.inodes.Keys == d.inodes.Keys && e.follows == d.follows
    && (forall i :: i in d.inodes ==> e.inodes[i].synced && (d.inodes[i].synced ==> e.inodes[i] == d.inodes[i]))
    && (forall p :: p in e.slots ==> p in d.slots)
    && forall p :: Look(e, p).older == {} &&
         if p.name.Staging? then At(e, p) == Absent else At(e, p) in Possible(d, p)
  }

  lemma {:induction false} EntryFits(d: Disk, p: Place, n: Node)
    requires WellFormed(d) && Traceable(d) && n in Possible(d, p)
    ensures NodeFits(d, n) && DirFits(p, n)
  {
    assert OlderFits(d, p);
    if n == At(d, p) && p in d.slots { assert NodeFits(d, d.slots[p].now); }
  }

  lemma {:induction false} RestartApart(d: Disk, e: Disk, p: Place, q: Place)
    requires WellFormed(d) && Traceable(d) && Restarted(d, e)
    requires p != q && At(e, p).Dir?
    ensures At(e, q) != At(e, p)
  {
    var n := At(e, p);
    assert !p.name.Staging? && n in Possible(d, p);
    EntryFits(d, p, n);
    assert p.name.Generation? && Apart(d, p, q);
    if !q.name.Staging? {
      assert At(e, q) in Possible(d, q);
      EntryFits(d, q, At(e, q));
    }
  }

  lemma {:induction false} RestartFits(d: Disk, e: Disk, p: Place)
    requires WellFormed(d) && Traceable(d) && Restarted(d, e)
    ensures NodeFits(e, At(e, p)) && DirFits(p, At(e, p))
  {
    if !p.name.Staging? {
      assert At(e, p) in Possible(d, p);
      EntryFits(d, p, At(e, p));
    }
  }

  lemma {:induction false} RestartWellFormed(d: Disk, e: Disk)
    requires WellFormed(d) && Traceable(d) && Restarted(d, e)
    ensures WellFormed(e) && Traceable(e)
  {
    forall p ensures NodeFits(e, At(e, p)) && DirFits(p, At(e, p)) && Look(e, p).older == {} { RestartFits(d, e, p); }
    forall p, q | p != q && At(e, p).Dir? ensures At(e, q) != At(e, p) { RestartApart(d, e, p, q); }
    NoOlder(e);
    assert forall p :: p in e.slots ==> p.dir < d.next;
    hide Traceable, Restarted, NodeFits, DirFits;
  }

  lemma {:induction false} NoOlder(e: Disk)
    requires forall p :: Look(e, p).older == {}
    requires forall p, q :: p != q && At(e, p).Dir? ==> At(e, q) != At(e, p)
    ensures Traceable(e)
  {
    forall p ensures OlderFits(e, p) { assert Look(e, p).older == {}; }
    forall p: Place, q: Place | p != q && p.name.Generation? ensures Apart(e, p, q) {
      assert Look(e, p).older == {} && Look(e, q).older == {};
      assert Possible(e, p) == {At(e, p)};
      assert At(e, p).Dir? ==> At(e, q) != At(e, p);
    }
  }

  lemma {:induction false} RestartSealed(d: Disk, e: Disk, g: string, b: Bundle)
    requires Restarted(d, e) && Sealed(d, g, b)
    ensures Sealed(e, g, b)
  {
    var x := At(d, GenPlace(g)).dir;
    assert At(e, GenPlace(g)) in Possible(d, GenPlace(g));
    forall a ensures SealedFile(e, Place(x, Art(a)), Get(b, a)) {
      assert SealedFile(d, Place(x, Art(a)), Get(b, a));
      assert At(e, Place(x, Art(a))) in Possible(d, Place(x, Art(a)));
    }
  }

  lemma {:induction false} RestartResolves(d: Disk, e: Disk, lib: map<string, Bundle>)
    requires Restarted(d, e) && Resolves(d, lib)
    ensures Resolves(e, lib)
  {
    assert At(e, CURRENT) in Possible(d, CURRENT);
    var n := At(e, CURRENT);
    assert ResolvesTo(d, n, lib);
    if n != Absent { RestartSealed(d, e, n.to.id, lib[n.to.id]); }
  }

  lemma {:induction false} RestartSynced(d: Disk, e: Disk)
    requires WellFormed(e) && Restarted(d, e)
    ensures SyncedTarget(e)
  {
    forall p: Place | p.dir == TARGET ensures SyncedAt(e, p) {
      if p in e.slots { assert NodeFits(e, e.slots[p].now); }
    }
  }

  // ---- Operations keep the names traceable ----------------------------------------------

  lemma {:induction false} GrowTraceable(d: Disk, e: Disk)
    requires Traceable(d) && e.slots == d.slots && d.next <= e.next && d.inodes.Keys <= e.inodes.Keys
    ensures Traceable(e)
  {
    assert forall p :: Look(e, p) == Look(d, p);
    forall p ensures OlderFits(e, p) { assert OlderFits(d, p); }
    forall p: Place, q: Place | p != q && p.name.Generation? ensures Apart(e, p, q) { assert Apart(d, p, q); }
  }

  lemma {:induction false} NowFits(d: Disk, p: Place)
    requires WellFormed(d)
    ensures NodeFits(d, At(d, p)) && DirFits(p, At(d, p))
  {
  }

  lemma {:induction false} PutTraceable(d: Disk, p0: Place, n: Node)
    requires WellFormed(d) && Traceable(d) && !n.Dir?
    ensures Traceable(Put(d, p0, n))
  {
    var e := Put(d, p0, n);
    NowFits(d, p0);
    assert Look(e, p0) == Slot(n, Possible(d, p0)) && forall p :: p != p0 ==> Look(e, p) == Look(d, p);
    hide WellFormed, Put;
    forall p ensures OlderFits(e, p) { assert OlderFits(d, p); }
    forall p: Place, q: Place | p != q && p.name.Generation? ensures Apart(e, p, q) { assert Apart(d, p, q); }
  }

  lemma {:induction false} MakeDirTraceable(d: Disk, p0: Place)
    requires WellFormed(d) && Traceable(d) && p0.name.Staging?
    ensures Traceable(Exec(d, MakeDir(p0)))
  {
    var e := Exec(d, MakeDir(p0));
    NowFits(d, p0);
    assert Look(e, p0) == Slot(Dir(d.next), Possible(d, p0)) && forall p :: p != p0 ==> Look(e, p) == Look(d, p);
    assert e.next == d.next + 1 && e.inodes == d.inodes;
    hide WellFormed, Exec;
    forall p ensures OlderFits(e, p) { assert OlderFits(d, p); }
    forall p: Place, q: Place | p != q && p.name.Generation? ensures Apart(e, p, q) {
      assert Apart(d, p, q);
      forall n: Node | n.Dir? && n in Possible(d, p) ensures n != Dir(d.next) { EntryFits(d, p, n); }
    }
  }

  lemma {:induction false} MoveTraceable(d: Disk, from: Place, to: Place)
    requires WellFormed(d) && Traceable(d) && At(d, from).Dir? && from.name.Staging? && to.name.Generation?
    ensures Traceable(Exec(d, Rename(from, to)))
  {
    var e, x := Exec(d, Rename(from, to)), At(d, from);
    NowFits(d, from);
    NowFits(d, to);
    assert Look(e, to) == Slot(x, Possible(d, to)) && Look(e, from) == Slot(Absent, Possible(d, from));
    assert forall p :: p != from && p != to ==> Look(e, p) == Look(d, p);
    assert e.next == d.next && e.inodes == d.inodes;
    assert forall q :: q != from ==> At(d, q) != x;
    hide WellFormed, Exec;
    forall p ensures OlderFits(e, p) { assert OlderFits(d, p); }
    forall p: Place, q: Place | p != q && p.name.Generation? ensures Apart(e, p, q) {
      assert Apart(d, p, q) && Apart(d, p, from);
      if q.name.Generation? { assert Apart(d, q, from); }
    }
  }

  lemma {:induction false} SyncTraceable(d: Disk, dir: nat)
    requires Traceable(d)
    ensures Traceable(Exec(d, SyncDir(dir)))
  {
    var e := Exec(d, SyncDir(dir));
    SyncDirLooks(d, dir);
    hide Exec;
    forall p ensures OlderFits(e, p) { assert OlderFits(d, p); }
    forall p: Place, q: Place | p != q && p.name.Generation? ensures Apart(e, p, q) { assert Apart(d, p, q); }
  }

  lemma {:induction false} TraceableStep(d: Disk, op: Op)
    requires WellFormed(d) && Traceable(d) && Enabled(d, op)
    ensures Traceable(Exec(d, op))
  {
    hide Traceable, WellFormed, Possible;
    match op
    case MakeDir(at) => MakeDirTraceable(d, at);
    case Create(at) =>
      if At(d, at).File? { GrowTraceable(d, Exec(d, op)); } else { NewFileTraceable(d, at); }
    case Write(ino, data) => GrowTraceable(d, Exec(d, op));
    case SyncFile(ino) => GrowTraceable(d, Exec(d, op));
    case Touch(at) => if At(d, at).Absent? { NewFileTraceable(d, at); }
    case Rename(from, to) =>
      if At(d, from).Dir? { MoveTraceable(d, from, to); } else { RenameTraceable(d, from, to); }
    case Link(from, to) =>
      SourceFits(d, from);
      PutTraceable(d, to, LinkSource(d, from));
    case MakeSymlink(at, target) => PutTraceable(d, at, Symlink(target));
    case Unlink(at) => PutTraceable(d, at, Absent);
    case RemoveDir(at) => PutTraceable(d, at, Absent);
    case SyncDir(dir) => SyncTraceable(d, dir);
  }

  lemma {:induction false} NewFileTraceable(d: Disk, at: Place)
    requires WellFormed(d) && Traceable(d)
    ensures Traceable(NewFile(d, at))
  {
    var e := d.(inodes := d.inodes[d.next := Inode(Bytes(""), false)], next := d.next + 1);
    GrowKeeps(d, e.inodes, e.next);
    hide WellFormed, Traceable;
    GrowTraceable(d, e);
    PutTraceable(e, at, File(d.next));
  }

  lemma {:induction false} RenameTraceable(d: Disk, from: Place, to: Place)
    requires WellFormed(d) && Traceable(d) && Enabled(d, Rename(from, to)) && !At(d, from).Dir?
    ensures Traceable(Exec(d, Rename(from, to)))
  {
    if from != to {
      NowFits(d, from);
      PutKeeps(d, to, At(d, from));
      PutTraceable(d, to, At(d, from));
      PutTraceable(Put(d, to, At(d, from)), from, Absent);
    }
  }

  lemma {:induction false} TraceableRun(d: Disk, ops: seq<Op>)
    requires WellFormed(d) && Traceable(d) && AllEnabled(d, ops)
    ensures Traceable(Run(d, ops))
    decreases |ops|
  {
    if ops != [] {
      var first, rest := [ops[0]], ops[1..];
      assert ops == first + rest;
      EnabledSplit(d, first, rest);
      assert EnabledAt(d, first, 0) && first[..0] == [];
      RunOne(d, ops[0]);
      hide Traceable, WellFormed, AllEnabled, Exec, Enabled;
      WellFormedStep(d, ops[0]);
      TraceableStep(d, ops[0]);
      TraceableRun(Exec(d, ops[0]), rest);
    }
  }

  // ---- Histories ------------------------------------------------------------------------

  /**
   The disk, every generation that was ever drawn with what was meant for it, and the generations whose
   publication went through and that no cleanup has named.
   */
  datatype World = World(disk: Disk, drawn: map<string, Bundle>, whole: set<string>)

  datatype Happening =
    | Ran(operation: Operation, calls: nat)     // an operation of which so many calls succeed
    | Crashed(after: Disk)

  /** What the names were linked from was saved before the deployment stopped. */
  ghost predicate SavesLegacy(d: Disk, p: Plan, calls: nat) {
    SavesFiles(d) && calls >= |FrontOps(d, p)|
  }

  ghost function Wholes(s: World, o: Operation, calls: nat): set<string> {
    match o
    case Deploy(p) =>
      s.whole
      + (if calls >= |StageOps(s.disk.next, p.bundle, p.staging, p.generation)| then {p.generation} else {})
      + (if SavesLegacy(s.disk, p, calls) then {p.legacy} else {})
      - (set v | v in p.victims)
    case _ => s.whole
  }

  ghost function Next(s: World, h: Happening): World {
    match h
    case Ran(o, calls) =>
      var ops := OpsOf(s.disk, o);
      if calls > |ops| then s
      else World(Run(s.disk, ops[..calls]),
                 if o.Deploy? then Allowed(s.disk, o.plan, s.drawn) else s.drawn,
                 Wholes(s, o, calls))
    case Crashed(after) => s.(disk := after)
  }

  /**
   Names are drawn once, and only a published generation is selected. Where a hard link takes the symbolic
   link itself, there is no deployment over five names that are part links and part files.
   */
  ghost predicate Proper(s: World, h: Happening) {
    match h
    case Ran(o, calls) =>
      && Lawful(s.disk, o) && calls <= |OpsOf(s.disk, o)| && AllEnabled(s.disk, OpsOf(s.disk, o)[..calls])
      && (o.Deploy? ==> o.plan.generation !in s.drawn && o.plan.legacy !in s.drawn)
      && (o.Deploy? ==> s.disk.follows || !Mixed(s.disk))
      && (o.Choose? ==> o.id in s.whole)
    case Crashed(after) => Restarted(s.disk, after)
  }

  ghost predicate Good(s: World) {
    && WellFormed(s.disk) && Traceable(s.disk) && SyncedTarget(s.disk)
    && Resolves(s.disk, s.drawn)
    && Kept(s)
  }

  ghost predicate Kept(s: World) {
    forall g :: g in s.whole ==> g in s.drawn && Sealed(s.disk, g, s.drawn[g])
  }

  lemma {:induction false} CrashGood(s: World, after: Disk)
    requires Good(s) && Restarted(s.disk, after)
    ensures Good(s.(disk := after))
  {
    hide WellFormed, Traceable, SyncedTarget, Resolves, Sealed, Restarted;
    RestartWellFormed(s.disk, after);
    RestartResolves(s.disk, after, s.drawn);
    RestartSynced(s.disk, after);
    forall g | g in s.whole ensures g in s.drawn && Sealed(after, g, s.drawn[g]) {
      RestartSealed(s.disk, after, g, s.drawn[g]);
    }
  }

  /** What every operation keeps. */
  lemma {:induction false} RanKeeps(s: World, o: Operation, calls: nat)
    requires Good(s) && Proper(s, Ran(o, calls))
    ensures var e := Run(s.disk, OpsOf(s.disk, o)[..calls]);
            && WellFormed(e) && Traceable(e) && SyncedTarget(e)
            && forall g :: g in s.whole && (o.Deploy? ==> g !in o.plan.victims) ==>
                 g in s.drawn && Sealed(e, g, s.drawn[g])
  {
    hide WellFormed, Traceable, SyncedTarget, Resolves, Sealed, Lawful, AllEnabled, OpsOf, Run;
    var ops := OpsOf(s.disk, o);
    WellFormedRun(s.disk, ops[..calls]);
    TraceableRun(s.disk, ops[..calls]);
    OperationSynced(s.disk, o);
    var e := Run(s.disk, ops[..calls]);
    forall g | g in s.whole && (o.Deploy? ==> g !in o.plan.victims) ensures Sealed(e, g, s.drawn[g]) {
      OperationKeeps(s.disk, o, g, s.drawn[g], true);
      assert Held(e, g, s.drawn[g], true);
    }
  }

  lemma {:induction false} PlainResolves(d: Disk, b: Bundle, staging: string, allowed: map<string, Bundle>)
    requires WellFormed(d) && Resolves(d, allowed)
    ensures Throughout(d, PlainOps(d, b, staging), e => Resolves(e, allowed))
  {
    var arts, contents := ARTIFACTS, CONTENTS;
    var main, names := ReplaceAllOps(d.next, b, staging), {TempPlace(staging)} + Arts(TARGET, arts);
    assert d.next > PINS && CURRENT !in names;
    var e := Run(d, main);
    var tidy := EmptyOps(e, TempPlace(staging), contents);
    assert PlainOps(d, b, staging) == main + tidy by { hide ReplaceAllOps, EmptyOps, Run; }
    ClearOfTarget(d, names, allowed.Keys);
    ReplaceAllCreates(d, b, staging, arts);
    hide Arts, ReplaceAllOps, PlainOps, EmptyOps, Run, AllEnabled, Throughout, Resolves, WellFormed, Clear, Confined;
    CreatingContained(d, main, names);
    ContainedResolves(d, main, names, allowed);
    if AllEnabled(d, main) {
      WellFormedRun(d, main);
      EmptyResolves(e, TempPlace(staging), contents, allowed);
    }
    ThroughoutAppend(d, main, tidy, x => Resolves(x, allowed));
  }

  lemma {:induction false} PinResolves(d: Disk, id: string, allowed: map<string, Bundle>)
    requires WellFormed(d) && Resolves(d, allowed)
    ensures Throughout(d, PinOps(id), e => Resolves(e, allowed))
  {
    var names := {Place(PINS, Pin(id))};
    QuietContained(d, PinOps(id), names);
    assert Clear(d, names, allowed.Keys);
    hide PinOps, Run, AllEnabled, Resolves, WellFormed, Clear, Contained;
    ContainedResolves(d, PinOps(id), names, allowed);
  }

  lemma {:induction false} TidyResolves(d: Disk, at: Place, calls: seq<Op>, allowed: map<string, Bundle>)
    requires WellFormed(d) && Resolves(d, allowed) && at.dir <= PINS && at.name.Staging?
    requires forall op :: op in calls ==> op in RemoveTreeOps(d, at)
    ensures Throughout(d, calls, e => Resolves(e, allowed))
  {
    var contents := CONTENTS;
    TreeIsClear(d, at, contents, allowed.Keys);
    hide EmptyOps, TreeNames, Run, AllEnabled, Resolves, WellFormed, Clear, Contained;
    PartContained(d, at, contents, calls);
    ContainedResolves(d, calls, TreeNames(d, at, contents), allowed);
  }

  lemma {:induction false} OperationResolves(d: Disk, o: Operation, drawn: map<string, Bundle>)
    requires WellFormed(d) && Lawful(d, o) && SyncedTarget(d) && Resolves(d, drawn)
    requires o.Deploy? ==> o.plan.generation !in drawn && o.plan.legacy !in drawn && (d.follows || !Mixed(d))
    requires o.Choose? ==> o.id in drawn && Sealed(d, o.id, drawn[o.id])
    ensures Throughout(d, OpsOf(d, o), e => Resolves(e, if o.Deploy? then Allowed(d, o.plan, drawn) else drawn))
  {
    hide WellFormed, SyncedTarget, Resolves, Sealed, Durable, Throughout, Allowed, Drawn;
    hide DeployOps, PlainOps, SelectOps, PinOps, EmptyOps;
    match o
    case Deploy(p) =>
      DurableIffNotMixed(d, drawn);
      DeployResolves(d, p, drawn);
    case Replace(b, staging) => PlainResolves(d, b, staging, drawn);
    case Choose(id) => SelectResolves(d, id, drawn);
    case Hold(id) => PinResolves(d, id, drawn);
    case Tidy(at, calls) => TidyResolves(d, at, calls, drawn);
  }

  // ---- What a deployment adds -----------------------------------------------------------

  lemma {:induction false} RanGood(s: World, o: Operation, calls: nat)
    requires Good(s) && Proper(s, Ran(o, calls))
    ensures Good(Next(s, Ran(o, calls)))
  {
    var t := Next(s, Ran(o, calls));
    var ops := OpsOf(s.disk, o);
    RanKeeps(s, o, calls);
    hide WellFormed, Traceable, SyncedTarget, Resolves, Sealed, Lawful, AllEnabled, OpsOf, Run, SavesLegacy;
    OperationResolves(s.disk, o, s.drawn);
    assert Resolves(t.disk, t.drawn);
    forall g | g in t.whole ensures g in t.drawn && Sealed(t.disk, g, t.drawn[g]) {
      if o.Deploy? { DeployWholes(s, o.plan, calls, g); }
    }
  }

  lemma {:induction false} AllowedMeans(d: Disk, p: Plan, drawn: map<string, Bundle>)
    requires p.generation != p.legacy
    ensures var allowed := Allowed(d, p, drawn);
            && p.generation in allowed && allowed[p.generation] == p.bundle
            && p.legacy in allowed && allowed[p.legacy] == Files(d)
            && forall g :: g in drawn && g != p.generation && g != p.legacy ==> g in allowed && allowed[g] == drawn[g]
  {
    hide Files;
  }

  lemma {:induction false} WholesMean(s: World, p: Plan, calls: nat, g: string)
    requires g in Wholes(s, Deploy(p), calls)
    ensures g !in p.victims
    ensures || (g == p.generation && calls >= |StageOps(s.disk.next, p.bundle, p.staging, p.generation)|)
            || (g == p.legacy && SavesFiles(s.disk) && calls >= |FrontOps(s.disk, p)|)
            || g in s.whole
  {
    hide StageOps, FrontOps;
  }

  lemma {:induction false} DeployWholes(s: World, p: Plan, calls: nat, g: string)
    requires Good(s) && Proper(s, Ran(Deploy(p), calls)) && g in Wholes(s, Deploy(p), calls)
    ensures g in Allowed(s.disk, p, s.drawn)
    ensures Sealed(Run(s.disk, DeployOps(s.disk, p)[..calls]), g, Allowed(s.disk, p, s.drawn)[g])
  {
    RanKeeps(s, Deploy(p), calls);
    assert Drawn(s.disk, p) && p.generation != p.legacy && p.generation !in s.whole && p.legacy !in s.whole;
    AllowedMeans(s.disk, p, s.drawn);
    WholesMean(s, p, calls, g);
    hide WellFormed, Traceable, SyncedTarget, Resolves, Sealed, AllEnabled, DeployOps, StageOps, FrontOps, Run, Held;
    hide Drawn, Files, Durable, Allowed, Wholes;
    if g == p.generation {
      DeployPublishes(s.disk, p, calls);
    } else if g == p.legacy {
      DurableIffNotMixed(s.disk, s.drawn);
      DeploySaves(s.disk, p, calls, true);
      HeldIsSealed(Run(s.disk, DeployOps(s.disk, p)[..calls]), g, Files(s.disk));
    }
  }

  // ---- The theorems ---------------------------------------------------------------------

  ghost function After(s: World, happenings: seq<Happening>): World
    decreases |happenings|
  {
    if happenings == [] then s else After(Next(s, happenings[0]), happenings[1..])
  }

  ghost predicate AllProper(s: World, happenings: seq<Happening>)
    decreases |happenings|
  {
    happenings == [] || (Proper(s, happenings[0]) && AllProper(Next(s, happenings[0]), happenings[1..]))
  }

  lemma {:induction false} GoodStep(s: World, h: Happening)
    requires Good(s) && Proper(s, h)
    ensures Good(Next(s, h))
  {
    match h
    case Ran(o, calls) =>
      hide *;
      RanGood(s, o, calls);
    case Crashed(after) => CrashGood(s, after);
  }

  lemma {:induction false} HistoryIsGood(s: World, happenings: seq<Happening>)
    requires Good(s) && AllProper(s, happenings)
    ensures Good(After(s, happenings))
    decreases |happenings|
  {
    if happenings != [] {
      hide Good, Proper, Next;
      GoodStep(s, happenings[0]);
      HistoryIsGood(Next(s, happenings[0]), happenings[1..]);
    }
  }

  /** Before the first deployment. The directory `generations` is there, and on disk. */
  function New(follows: bool): World { World(Disk(map[], map[], 3, follows), map[], {}) }

  lemma {:induction false} NewIsGood(follows: bool)
    ensures Good(New(follows))
  {
  }

  /**
   From a new directory whose `generations` is on disk, through any number of operations, each stopped after
   any call, and of crashes between them: after one more crash `current` is absent or leads to all five
   artifacts of one publication.
   */
  lemma {:induction false} HistoryIsRecoverable(follows: bool, happenings: seq<Happening>, image: Disk)
    requires AllProper(New(follows), happenings) && CrashImage(After(New(follows), happenings).disk, image)
    ensures Recoverable(image, After(New(follows), happenings).drawn)
  {
    NewIsGood(follows);
    HistoryIsGood(New(follows), happenings);
    var s := After(New(follows), happenings);
    hide After, AllProper, WellFormed, Traceable, SyncedTarget, Resolves, CrashImage, Recoverable;
    CrashOfResolving(s.disk, image, s.drawn);
  }

  lemma {:induction false} GoodDeploymentIff(s: World, p: Plan)
    requires Good(s) && Drawn(s.disk, p) && p.generation !in s.drawn && p.legacy !in s.drawn
    ensures CrashSafe(s.disk, p, s.drawn) <==> s.disk.follows || !Mixed(s.disk)
  {
    hide WellFormed, Traceable, SyncedTarget, Resolves, Kept, Drawn, Durable, CrashSafe, Mixed;
    DurableIffNotMixed(s.disk, s.drawn);
    CrashSafeIffDurable(s.disk, p, s.drawn);
  }

  /**
   After any history the next deployment may stop and crash anywhere, unless a hard link takes the symbolic
   link itself and the five names are part links and part files: then, and only then, it may not.
   */
  lemma {:induction false} NextDeploymentIff(follows: bool, happenings: seq<Happening>, p: Plan)
    requires AllProper(New(follows), happenings)
    requires var s := After(New(follows), happenings);
             Drawn(s.disk, p) && p.generation !in s.drawn && p.legacy !in s.drawn
    ensures var s := After(New(follows), happenings);
            CrashSafe(s.disk, p, s.drawn) <==> s.disk.follows || !Mixed(s.disk)
  {
    hide *;
    NewIsGood(follows);
    HistoryIsGood(New(follows), happenings);
    GoodDeploymentIff(After(New(follows), happenings), p);
  }

  predicate Removes(h: Happening, g: string) { h.Ran? && h.operation.Deploy? && g in h.operation.plan.victims }

  lemma {:induction false} WholeStep(s: World, h: Happening, g: string)
    requires Good(s) && Proper(s, h) && g in s.whole && !Removes(h, g)
    ensures g in Next(s, h).whole && g in s.drawn && g in Next(s, h).drawn && Next(s, h).drawn[g] == s.drawn[g]
  {
    hide WellFormed, Traceable, SyncedTarget, Resolves, Sealed, Lawful, AllEnabled, OpsOf, Run, SavesLegacy, Files;
  }

  /** A published generation that no cleanup names keeps its bytes through every crash. */
  lemma {:induction false} PublishedSurvivesCrashes(s: World, happenings: seq<Happening>, g: string)
    requires Good(s) && AllProper(s, happenings) && g in s.whole
    requires forall h :: h in happenings ==> !Removes(h, g)
    ensures var t := After(s, happenings);
            g in s.drawn && g in t.whole && Sealed(t.disk, g, s.drawn[g])
    decreases |happenings|
  {
    if happenings != [] {
      hide Good, Proper, Next, Sealed, Removes;
      assert happenings[0] in happenings && forall h :: h in happenings[1..] ==> h in happenings;
      WholeStep(s, happenings[0], g);
      GoodStep(s, happenings[0]);
      PublishedSurvivesCrashes(Next(s, happenings[0]), happenings[1..], g);
    }
  }

  // ---- Selections -----------------------------------------------------------------------

  /**
   The generation is there, its name may be younger than the last synchronisation, and each of its files is
   synchronised or missing.
   */
  ghost predicate Partial(d: Disk, g: string, b: Bundle) {
    && At(d, GenPlace(g)).Dir? && At(d, GenPlace(g)).dir > PINS
    && Look(d, GenPlace(g)).older <= {Absent}
    && forall a :: PartialFile(d, Place(At(d, GenPlace(g)).dir, Art(a)), Get(b, a))
  }

  predicate PartialFile(d: Disk, p: Place, data: Data) { At(d, p) == Absent || SealedFile(d, p, data) }

  ghost predicate SelectionSafe(d: Disk, g: string, drawn: map<string, Bundle>) {
    forall k: nat, m, image ::
      StopsAfter(d, SelectOps(g), k, m) && CrashImage(m, image) ==> Recoverable(image, drawn)
  }

  /** A crash that forgets one name. */
  function Forgotten(d: Disk, lost: Place): Disk {
    d.(slots := map p | p in d.slots :: Slot(if p == lost then Absent else d.slots[p].now, {}))
  }

  lemma {:induction false} ForgottenIsCrash(d: Disk, lost: Place)
    requires Absent in Possible(d, lost)
    ensures CrashImage(d, Forgotten(d, lost))
  {
  }

  lemma {:induction false} PartialIsSealed(d: Disk, g: string, b: Bundle)
    requires Partial(d, g, b) && Look(d, GenPlace(g)).older == {} && Contains(d, g, b)
    ensures Sealed(d, g, b)
  {
    forall a ensures SealedFile(d, Place(At(d, GenPlace(g)).dir, Art(a)), Get(b, a)) {
      assert PartialFile(d, Place(At(d, GenPlace(g)).dir, Art(a)), Get(b, a));
      assert InGeneration(d, g, a) == Some(Get(b, a));
    }
  }

  /**
   A generation can be selected safely exactly when its name has been synchronised and all its files are
   there. The selection synchronises the target only, so a publication that stopped after its rename can be
   lost; and the deployer asks only that there is a directory, so a removal that stopped can be selected.
   */
  lemma {:induction false} SelectionSafeIff(d: Disk, g: string, drawn: map<string, Bundle>)
    requires WellFormed(d) && Resolves(d, drawn) && g in drawn && Partial(d, g, drawn[g])
    ensures SelectionSafe(d, g, drawn) <==> Look(d, GenPlace(g)).older == {} && Contains(d, g, drawn[g])
  {
    if Look(d, GenPlace(g)).older == {} && Contains(d, g, drawn[g]) {
      PartialIsSealed(d, g, drawn[g]);
      hide WellFormed, Resolves, Sealed, SelectOps, Recoverable, CrashImage, AllEnabled, Run, Partial, Contains;
      SelectResolves(d, g, drawn);
      forall k: nat, m, image | StopsAfter(d, SelectOps(g), k, m) && CrashImage(m, image)
        ensures Recoverable(image, drawn)
      {
        CrashOfResolving(m, image, drawn);
      }
    } else if Look(d, GenPlace(g)).older != {} {
      var m := Run(d, SelectOps(g));
      SelectEnabled(d, g);
      SelectEnds(d, g);
      SelectAll(g);
      assert StopsAfter(d, SelectOps(g), 4, m);
      assert Absent in Possible(d, GenPlace(g));
      hide WellFormed, Resolves, SelectOps, AllEnabled, Run, StopsAfter, Partial, Contains;
      SelectionLost(d, m, g, drawn);
    } else {
      hide Resolves, Partial, SelectionSafe;
      if SelectionSafe(d, g, drawn) { SelectionNeedsContents(d, g, drawn); }
    }
  }

  lemma {:induction false} SelectOutside(d: Disk, g: string, p: Place, k: nat)
    requires k <= 4 && p.dir != TARGET
    ensures Look(Run(d, SelectOps(g)[..k]), p) == Look(d, p)
    decreases k
  {
    if k == 0 {
      assert SelectOps(g)[..0] == [];
    } else {
      SelectOutside(d, g, p, k - 1);
      RunNext(d, SelectOps(g), k - 1);
      hide Run;
      var e := Run(d, SelectOps(g)[..k - 1]);
      if k == 4 { SyncDirLooks(e, TARGET); }
    }
  }

  lemma {:induction false} SelectionLost(d: Disk, m: Disk, g: string, drawn: map<string, Bundle>)
    requires g in drawn && Switched(d, m, g, 4)
    requires Absent in Possible(d, GenPlace(g)) && StopsAfter(d, SelectOps(g), 4, m)
    ensures !SelectionSafe(d, g, drawn)
  {
    SelectOutside(d, g, GenPlace(g), 4);
    assert Absent in Possible(m, GenPlace(g)) && At(m, CURRENT) == Symlink(ToGeneration(g));
    hide Run, SelectOps, AllEnabled, Switched;
    var image := Forgotten(m, GenPlace(g));
    ForgottenIsCrash(m, GenPlace(g));
    assert At(image, CURRENT) == At(m, CURRENT) && At(image, GenPlace(g)) == Absent;
    assert InGeneration(image, g, Cert) == None;
    assert !Contains(image, g, drawn[g]);
    hide StopsAfter, CrashImage;
    assert StopsAfter(d, SelectOps(g), 4, m) && CrashImage(m, image);
  }

  /** What is selected must be whole: that a directory is there, which is all the deployer asks, is too little. */
  lemma {:induction false} SelectionNeedsContents(d: Disk, g: string, drawn: map<string, Bundle>)
    requires WellFormed(d) && g in drawn && SelectionSafe(d, g, drawn)
    ensures Contains(d, g, drawn[g])
  {
    var m := Run(d, SelectOps(g));
    SelectEnabled(d, g);
    SelectEnds(d, g);
    SelectAll(g);
    SettleIsCrash(m);
    assert StopsAfter(d, SelectOps(g), 4, m);
    assert Recoverable(Settle(m), drawn);
    forall p: Place | p.dir != TARGET ensures Look(m, p) == Look(d, p) { SelectOutside(d, g, p, 4); }
    assert m.inodes == d.inodes && (At(d, GenPlace(g)).Dir? ==> At(d, GenPlace(g)).dir > PINS);
    hide WellFormed, SelectOps, Run, AllEnabled, CrashImage, StopsAfter, SelectionSafe, Switched;
    forall a ensures InGeneration(d, g, a) == Some(Get(drawn[g], a)) {
      assert InGeneration(Settle(m), g, a) == Some(Get(drawn[g], a));
    }
  }

  /** Everything of staging but its last call. */
  lemma {:induction false} AlmostStaged(d: Disk, b: Bundle, staging: string, g: string) returns (f: Disk)
    requires WellFormed(d) && Unused(d, staging, g)
    ensures var ops := StageOps(d.next, b, staging, g);
            var e := Exec(Exec(f, SyncDir(d.next)), Rename(StagePlace(staging), GenPlace(g)));
            && AllEnabled(d, ops[..|ops| - 1]) && Run(d, ops[..|ops| - 1]) == e
            && Named(d, f, b, staging, ARTIFACTS)
  {
    var s, arts := d.next, ARTIFACTS;
    EveryArtifact();
    var fill, name := TempOps(s, b, StagePlace(staging), arts), ReplaceOps(s, s, arts);
    var publish := PublishOps(s, staging, g);
    var ops := StageOps(s, b, staging, g);
    assert ops == fill + name + publish;
    assert publish == [publish[0], publish[1]] + [publish[2]];
    assert s > PINS;
    hide StageOps, TempOps, ReplaceOps, Run, AllEnabled, WellFormed, Exec, Enabled;
    FillFiles(d, b, staging, arts);
    var e := Run(d, fill);
    NameFiles(d, e, b, staging, arts);
    f := Run(e, name);
    RunAppend(d, fill, name);
    EnabledAppend(d, fill, name);
    var two := [publish[0], publish[1]];
    assert ops[..|ops| - 1] == fill + name + two;
    PublishRuns(f, s, staging, g);
    assert Look(f, GenPlace(g)) == Look(d, GenPlace(g));
    EnabledSplit(f, two, [publish[2]]);
    EnabledAppend(d, fill + name, two);
    RunAppend(d, fill + name, two);
    RunAppend(f, [publish[0]], [publish[1]]);
    RunOne(f, publish[0]);
    RunOne(Exec(f, publish[0]), publish[1]);
    assert two == [publish[0]] + [publish[1]];
  }

  /** Such a generation arises: the last call of its staging fails or never runs. */
  lemma {:induction false} UnsyncedPublication(d: Disk, b: Bundle, staging: string, g: string)
    requires WellFormed(d) && Unused(d, staging, g) && Look(d, GenPlace(g)).older == {}
    ensures var ops := StageOps(d.next, b, staging, g);
            var e := Run(d, ops[..|ops| - 1]);
            && AllEnabled(d, ops[..|ops| - 1]) && Partial(e, g, b) && Contains(e, g, b)
            && Look(e, GenPlace(g)).older == {Absent}
  {
    var s := d.next;
    assert s > PINS;
    EveryArtifact();
    hide StageOps, Run, AllEnabled, WellFormed;
    var f := AlmostStaged(d, b, staging, g);
    var f1 := Exec(f, SyncDir(s));
    var e := Exec(f1, Rename(StagePlace(staging), GenPlace(g)));
    SyncDirLooks(f, s);
    RenameLooks(f1, StagePlace(staging), GenPlace(g));
    assert Look(f, GenPlace(g)) == Look(d, GenPlace(g));
    assert Look(e, GenPlace(g)) == Slot(Dir(s), Possible(f1, GenPlace(g)));
    forall a ensures SealedFile(e, Place(s, Art(a)), Get(b, a)) {
      assert Holds(f, Place(s, Art(a)), Get(b, a));
      assert Look(e, Place(s, Art(a))) == Look(f1, Place(s, Art(a)));
    }
  }
}
