/**
 What each phase of a deployment does, for all of its prefixes.

 A phase is a list of calls. Each lemma names the places that the phase may touch, says that all else is
 left alone after every prefix, and gives the disk at the end. Staging makes a directory, fills it under
 temporary names, renames them and publishes the directory under the name of the generation.
 */
module Phases {
  import opened Basics
  import opened FileSystem
  import opened Publication

  /** The property holds at every moment that system calls which succeed can lead to. */
  ghost predicate Throughout(d: Disk, ops: seq<Op>, holds: Disk -> bool) {
    forall k :: 0 <= k <= |ops| && AllEnabled(d, ops[..k]) ==> holds(Run(d, ops[..k]))
  }

  lemma {:induction false} EnabledSplit(d: Disk, a: seq<Op>, b: seq<Op>)
    requires AllEnabled(d, a + b)
    ensures AllEnabled(d, a) && AllEnabled(Run(d, a), b)
  {
    forall k: nat | k < |a| ensures EnabledAt(d, a, k) {
      assert (a + b)[..k] == a[..k] && EnabledAt(d, a + b, k);
    }
    forall k: nat | k < |b| ensures EnabledAt(Run(d, a), b, k) {
      assert (a + b)[..|a| + k] == a + b[..k] && EnabledAt(d, a + b, |a| + k);
      RunAppend(d, a, b[..k]);
    }
  }

  lemma {:induction false} ThroughoutAppend(d: Disk, a: seq<Op>, b: seq<Op>, holds: Disk -> bool)
    requires Throughout(d, a, holds)
    requires AllEnabled(d, a) ==> Throughout(Run(d, a), b, holds)
    ensures Throughout(d, a + b, holds)
  {
    forall k | 0 <= k <= |a + b| && AllEnabled(d, (a + b)[..k]) ensures holds(Run(d, (a + b)[..k])) {
      if k <= |a| {
        assert (a + b)[..k] == a[..k];
      } else {
        assert (a + b)[..k] == a + b[..k - |a|];
        EnabledSplit(d, a, b[..k - |a|]);
        RunAppend(d, a, b[..k - |a|]);
      }
    }
  }

  lemma {:induction false} ThroughoutEnds(d: Disk, ops: seq<Op>, holds: Disk -> bool)
    requires Throughout(d, ops, holds) && AllEnabled(d, ops)
    ensures holds(Run(d, ops))
  {
    assert ops[..|ops|] == ops;
  }

  /** Every prefix of the block stays within its share. */
  ghost predicate Contained(d: Disk, ops: seq<Op>, names: set<Place>) {
    forall k :: 0 <= k <= |ops| ==> Untouched(d, Run(d, ops[..k]), d.next, names)
  }

  lemma {:induction false} QuietContained(d: Disk, ops: seq<Op>, names: set<Place>)
    requires forall op :: op in ops ==> Confined(op, d.next, names) && Quiet(op)
    ensures Contained(d, ops, names)
  {
    forall k | 0 <= k <= |ops| ensures Untouched(d, Run(d, ops[..k]), d.next, names) {
      assert forall op :: op in ops[..k] ==> op in ops;
      QuietRun(d, ops[..k], d.next, names);
    }
  }

  lemma {:induction false} CreatingContained(d: Disk, ops: seq<Op>, names: set<Place>)
    requires WellFormed(d)
    requires forall op :: op in ops ==> Confined(op, d.next, names) && KeepsUnshared(op, d.next)
    ensures Contained(d, ops, names)
  {
    forall k | 0 <= k <= |ops| ensures Untouched(d, Run(d, ops[..k]), d.next, names) {
      assert forall op :: op in ops[..k] ==> op in ops;
      CreatingRun(d, ops[..k], d.next, names);
    }
  }

  // ---- What an untouched disk keeps -----------------------------------------------------

  /** The names stay clear of these generations. */
  ghost predicate Clear(d: Disk, names: set<Place>, gens: set<string>) {
    && (forall g :: g in gens ==> GenPlace(g) !in names)
    && (forall p, g :: p in names && p.dir > PINS && g in gens ==> At(d, GenPlace(g)) != Dir(p.dir))
  }

  lemma {:induction false} SealedKept(d: Disk, e: Disk, names: set<Place>, g: string, b: Bundle)
    requires WellFormed(d) && Sealed(d, g, b)
    requires Untouched(d, e, d.next, names) && Clear(d, names, {g})
    ensures Sealed(e, g, b)
  {
    var at := GenPlace(g);
    assert !Free(at, d.next, names) && Same(d, e, at);
    var x := At(d, at).dir;
    assert at in d.slots;
    forall a ensures SealedFile(e, Place(x, Art(a)), Get(b, a)) {
      var p := Place(x, Art(a));
      assert SealedFile(d, p, Get(b, a));
      assert p in d.slots && x < d.next;
      assert !Free(p, d.next, names) && Same(d, e, p);
      assert SameInode(d, e, At(d, p).ino);
    }
  }

  lemma {:induction false} ResolvesKept(d: Disk, e: Disk, names: set<Place>, allowed: map<string, Bundle>)
    requires WellFormed(d) && Resolves(d, allowed)
    requires Untouched(d, e, d.next, names) && Clear(d, names, allowed.Keys) && CURRENT !in names
    ensures Resolves(e, allowed)
  {
    assert Same(d, e, CURRENT) by { assert !Free(CURRENT, d.next, names); }
    forall n | n in Possible(e, CURRENT) ensures ResolvesTo(e, n, allowed) {
      assert n in Possible(d, CURRENT);
      assert ResolvesTo(d, n, allowed);
      if n != Absent { SealedKept(d, e, names, n.to.id, allowed[n.to.id]); }
    }
  }

  lemma {:induction false} InGenerationKept(d: Disk, e: Disk, names: set<Place>, g: string, a: Artifact)
    requires WellFormed(d) && At(d, GenPlace(g)).Dir?
    requires Untouched(d, e, d.next, names) && Clear(d, names, {g})
    ensures InGeneration(e, g, a) == InGeneration(d, g, a)
    ensures At(e, GenPlace(g)) == At(d, GenPlace(g))
  {
    var at := GenPlace(g);
    assert !Free(at, d.next, names) && Same(d, e, at);
    assert at in d.slots;
    var p := Place(At(d, at).dir, Art(a));
    assert !Free(p, d.next, names) && Same(d, e, p);
    if At(d, p).File? {
      assert p in d.slots;
      assert SameInode(d, e, At(d, p).ino);
    }
  }

  // ---- Staging and publishing -----------------------------------------------------------

  predicate Distinct(arts: seq<Artifact>) {
    forall i, j :: 0 <= i < j < |arts| ==> arts[i] != arts[j]
  }

  /** The place holds a synchronised file with this content. */
  predicate Holds(d: Disk, p: Place, data: Data) {
    At(d, p).File? && At(d, p).ino in d.inodes && d.inodes[At(d, p).ino] == Inode(data, true)
  }

  /** Only these places differ. */
  ghost predicate SameBut(d: Disk, e: Disk, changed: set<Place>) {
    forall p :: p !in changed ==> Look(e, p) == Look(d, p)
  }

  /** Files are added, none is written. */
  ghost predicate Adds(d: Disk, e: Disk) {
    && (forall i :: i in d.inodes ==> i in e.inodes && e.inodes[i] == d.inodes[i])
    && (forall i :: i in e.inodes ==> i < e.next)
  }

  function Tmps(dir: nat, arts: seq<Artifact>): set<Place> { set a | a in arts :: Place(dir, Tmp(a)) }

  lemma {:induction false} WriteOne(d: Disk, dir: nat, ino: nat, a: Artifact, data: Data)
    requires At(d, Place(dir, Tmp(a))) == Absent && dir < d.next && ino == d.next
    requires forall i :: i in d.inodes ==> i < d.next
    ensures var ops := [Create(Place(dir, Tmp(a))), Write(ino, data), SyncFile(ino)];
            var e := Run(d, ops);
            && AllEnabled(d, ops)
            && e.next == ino + 1
            && Holds(e, Place(dir, Tmp(a)), data)
            && Adds(d, e) && SameBut(d, e, {Place(dir, Tmp(a))})
  {
    RunThree(d, Create(Place(dir, Tmp(a))), Write(ino, data), SyncFile(ino));
    var e := Exec(Exec(Exec(d, Create(Place(dir, Tmp(a)))), Write(d.next, data)), SyncFile(d.next));
    assert e.inodes == d.inodes[ino := Inode(data, true)];
  }

  lemma {:induction false} SameButTransitive(d: Disk, e: Disk, f: Disk, a: set<Place>, b: set<Place>)
    requires SameBut(d, e, a) && SameBut(e, f, b)
    ensures SameBut(d, f, a + b)
  {
  }

  lemma {:induction false} AddsTransitive(d: Disk, e: Disk, f: Disk)
    requires Adds(d, e) && Adds(e, f)
    ensures Adds(d, f)
  {
  }

  lemma {:induction false} HoldsKept(d: Disk, e: Disk, p: Place, data: Data, changed: set<Place>)
    requires Holds(d, p, data) && Adds(d, e) && SameBut(d, e, changed) && p !in changed
    ensures Holds(e, p, data)
  {
  }

  lemma {:induction false} TmpsCons(dir: nat, arts: seq<Artifact>)
    requires arts != [] && Distinct(arts)
    ensures forall x :: x in arts <==> x == arts[0] || x in arts[1..]
    ensures arts[0] !in arts[1..] && Distinct(arts[1..])
    ensures Tmps(dir, arts) == {Place(dir, Tmp(arts[0]))} + Tmps(dir, arts[1..])
    ensures Arts(dir, arts) == {Place(dir, Art(arts[0]))} + Arts(dir, arts[1..])
    ensures Place(dir, Tmp(arts[0])) !in Tmps(dir, arts[1..])
    ensures Place(dir, Art(arts[0])) !in Arts(dir, arts[1..])
  {
  }

  ghost predicate NoTmps(d: Disk, dir: nat, arts: seq<Artifact>) {
    forall a :: a in arts ==> At(d, Place(dir, Tmp(a))) == Absent
  }

  lemma {:induction false} NoTmpsLater(d: Disk, e: Disk, dir: nat, arts: seq<Artifact>)
    requires arts != [] && Distinct(arts) && NoTmps(d, dir, arts) && SameBut(d, e, {Place(dir, Tmp(arts[0]))})
    ensures NoTmps(e, dir, arts[1..])
  {
  }

  lemma {:induction false} WriteRun(d: Disk, dir: nat, ino: nat, b: Bundle, arts: seq<Artifact>)
    requires Distinct(arts) && dir < d.next && ino == d.next
    requires forall i :: i in d.inodes ==> i < d.next
    requires NoTmps(d, dir, arts)
    ensures var ops := WriteOps(dir, ino, b, arts);
            var e := Run(d, ops);
            && AllEnabled(d, ops)
            && e.next == ino + |arts|
            && (forall a :: a in arts ==> Holds(e, Place(dir, Tmp(a)), Get(b, a)))
            && Adds(d, e) && SameBut(d, e, Tmps(dir, arts))
    decreases |arts|
  {
    if arts == [] {
      WriteNothing(d, dir, ino, b);
    } else {
      hide *;
      var a := arts[0];
      var at := Place(dir, Tmp(a));
      var first, rest := [Create(at), Write(ino, Get(b, a)), SyncFile(ino)], WriteOps(dir, ino + 1, b, arts[1..]);
      WriteOpsCons(d, dir, ino, b, arts);
      WriteOne(d, dir, ino, a, Get(b, a));
      var m := Run(d, first);
      NoTmpsLater(d, m, dir, arts);
      AddsBounds(d, m);
      TmpsCons(dir, arts);
      WriteRun(m, dir, ino + 1, b, arts[1..]);
      RunAppend(d, first, rest);
      EnabledAppend(d, first, rest);
      var e := Run(m, rest);
      SameButTransitive(d, m, e, {at}, Tmps(dir, arts[1..]));
      AddsTransitive(d, m, e);
      HoldsKept(m, e, at, Get(b, a), Tmps(dir, arts[1..]));
    }
  }

  lemma {:induction false} WriteNothing(d: Disk, dir: nat, ino: nat, b: Bundle)
    requires forall i :: i in d.inodes ==> i < d.next
    ensures var ops := WriteOps(dir, ino, b, []);
            AllEnabled(d, ops) && Run(d, ops) == d && Adds(d, d) && SameBut(d, d, Tmps(dir, []))
  {
  }

  lemma {:induction false} WriteOpsCons(d: Disk, dir: nat, ino: nat, b: Bundle, arts: seq<Artifact>)
    requires arts != [] && NoTmps(d, dir, arts)
    ensures WriteOps(dir, ino, b, arts)
              == [Create(Place(dir, Tmp(arts[0]))), Write(ino, Get(b, arts[0])), SyncFile(ino)]
                 + WriteOps(dir, ino + 1, b, arts[1..])
    ensures At(d, Place(dir, Tmp(arts[0]))) == Absent
  {
    assert arts[0] in arts;
  }

  lemma {:induction false} AddsBounds(d: Disk, e: Disk)
    requires Adds(d, e)
    ensures forall i :: i in e.inodes ==> i < e.next
  {
  }

  lemma {:induction false} RenameLooks(d: Disk, from: Place, to: Place)
    requires from != to
    ensures var e := Exec(d, Rename(from, to));
            && e.inodes == d.inodes && e.next == d.next
            && At(e, to) == At(d, from) && At(e, from) == Absent
            && SameBut(d, e, {from, to})
  {
  }

  /** The temporary files are there, and no other name of theirs is in the way. */
  ghost predicate Replaceable(d: Disk, from: nat, to: nat, arts: seq<Artifact>) {
    forall a :: a in arts ==>
      && At(d, Place(from, Tmp(a))).File?
      && !At(d, Place(to, Art(a))).Dir? && At(d, Place(to, Art(a))) != At(d, Place(from, Tmp(a)))
  }

  function Arts(dir: nat, arts: seq<Artifact>): set<Place> { set a | a in arts :: Place(dir, Art(a)) }

  lemma {:induction false} ReplaceRun(d: Disk, from: nat, to: nat, arts: seq<Artifact>)
    requires Distinct(arts) && from < d.next && to < d.next && Replaceable(d, from, to, arts)
    ensures var ops := ReplaceOps(from, to, arts);
            var e := Run(d, ops);
            && AllEnabled(d, ops)
            && e.next == d.next && e.inodes == d.inodes
            && (forall a :: a in arts ==> At(e, Place(to, Art(a))) == At(d, Place(from, Tmp(a))))
            && SameBut(d, e, Tmps(from, arts) + Arts(to, arts))
    decreases |arts|
  {
    if arts != [] {
      hide Exec, Run, AllEnabled, Tmps, Arts;
      var a := arts[0];
      var tmp, art := Place(from, Tmp(a)), Place(to, Art(a));
      var op := Rename(tmp, art);
      var m := Exec(d, op);
      RenameLooks(d, tmp, art);
      TmpsCons(from, arts);
      TmpsCons(to, arts);
      var rest := ReplaceOps(from, to, arts[1..]);
      assert Replaceable(m, from, to, arts[1..]);
      ReplaceRun(m, from, to, arts[1..]);
      assert Enabled(d, op);
      RunOne(d, op);
      EnabledOne(d, op);
      RunAppend(d, [op], rest);
      EnabledAppend(d, [op], rest);
      var e := Run(m, rest);
      var later := Tmps(from, arts[1..]) + Arts(to, arts[1..]);
      assert At(e, art) == At(m, art) by { TmpsOrArts(from, to, arts[1..], art); }
      hide SameBut, Replaceable, Enabled;
      SameButTransitive(d, m, e, {tmp, art}, later);
      assert Tmps(from, arts) + Arts(to, arts) == {tmp, art} + later;
    }
  }

  lemma {:induction false} TmpsOrArts(from: nat, to: nat, arts: seq<Artifact>, p: Place)
    ensures p in Tmps(from, arts) ==> p.name.Tmp?
    ensures p in Arts(to, arts) ==> p.name.Art? && p.name.a in arts
  {
  }

  lemma {:induction false} SyncDirLooks(d: Disk, dir: nat)
    ensures var e := Exec(d, SyncDir(dir));
            && e.inodes == d.inodes && e.next == d.next
            && forall p :: At(e, p) == At(d, p)
                 && Look(e, p).older == (if p.dir == dir then {} else Look(d, p).older)
  {
  }

  /** A crash keeps every name of the directory as it is. */
  ghost predicate Synchronised(d: Disk, dir: nat) { forall p: Place :: p.dir == dir ==> Look(d, p).older == {} }

  lemma {:induction false} SyncedLast(d: Disk, ops: seq<Op>, dir: nat)
    ensures Synchronised(Run(d, ops + [SyncDir(dir)]), dir)
  {
    RunAppend(d, ops, [SyncDir(dir)]);
    RunOne(Run(d, ops), SyncDir(dir));
    SyncDirLooks(Run(d, ops), dir);
    hide Run, Exec;
  }

  /** The disk after the three publishing operations. */
  function Published(d: Disk, dir: nat, staging: string, g: string): Disk {
    Exec(Exec(Exec(d, SyncDir(dir)), Rename(StagePlace(staging), GenPlace(g))), SyncDir(GENERATIONS))
  }

  lemma {:induction false} PublishedLooks(d: Disk, dir: nat, staging: string, g: string)
    requires PINS < dir
    ensures var e := Published(d, dir, staging, g);
            && e.next == d.next && e.inodes == d.inodes
            && At(e, StagePlace(staging)) == Absent && At(e, GenPlace(g)) == At(d, StagePlace(staging))
            && Look(e, GenPlace(g)).older == {}
            && (forall p :: p != StagePlace(staging) && p != GenPlace(g) ==> At(e, p) == At(d, p))
            && (forall p: Place :: p.dir == dir ==> Look(e, p).older == {})
  {
    var d1 := Exec(d, SyncDir(dir));
    SyncDirLooks(d, dir);
    RenameLooks(d1, StagePlace(staging), GenPlace(g));
    SyncDirLooks(Exec(d1, Rename(StagePlace(staging), GenPlace(g))), GENERATIONS);
  }

  lemma {:induction false} PublishRuns(d: Disk, dir: nat, staging: string, g: string)
    requires d.next > PINS && At(d, StagePlace(staging)).Dir? && PINS < dir < d.next
    ensures var ops := PublishOps(dir, staging, g);
            && Run(d, ops) == Published(d, dir, staging, g)
            && (At(d, GenPlace(g)) == Absent ==> AllEnabled(d, ops))
  {
    RunThree(d, SyncDir(dir), Rename(StagePlace(staging), GenPlace(g)), SyncDir(GENERATIONS));
    SyncDirLooks(d, dir);
    hide Run, AllEnabled;
    if At(d, GenPlace(g)) == Absent {
      var e := Exec(d, SyncDir(dir));
      RenameLooks(e, StagePlace(staging), GenPlace(g));
      assert Enabled(d, SyncDir(dir));
      assert Enabled(e, Rename(StagePlace(staging), GenPlace(g)));
      assert Enabled(Exec(e, Rename(StagePlace(staging), GenPlace(g))), SyncDir(GENERATIONS)) by { hide Look, Put; }
    }
  }

  /** Publishing seals a directory whose five files are synchronised. */
  lemma {:induction false} PublishSeals(d: Disk, dir: nat, staging: string, g: string, b: Bundle)
    requires PINS < dir && At(d, StagePlace(staging)) == Dir(dir)
    requires forall a :: Holds(d, Place(dir, Art(a)), Get(b, a))
    ensures Sealed(Published(d, dir, staging, g), g, b)
  {
    PublishedLooks(d, dir, staging, g);
    forall a ensures SealedFile(Published(d, dir, staging, g), Place(dir, Art(a)), Get(b, a)) {
      assert Holds(d, Place(dir, Art(a)), Get(b, a));
    }
  }

  /** What one phase hands to the next. */
  ghost predicate Staged(d: Disk, ops: seq<Op>, staging: string, g: string, b: Bundle) {
    var e := Run(d, ops);
    && AllEnabled(d, ops)
    && Contained(d, ops, {StagePlace(staging), GenPlace(g)})
    && Sealed(e, g, b)
    && At(e, StagePlace(staging)) == Absent
    && (forall p: Place :: p.dir <= PINS && p != StagePlace(staging) && p != GenPlace(g) ==> At(e, p) == At(d, p))
  }

  lemma {:induction false} EveryArtifact()
    ensures forall a :: a in ARTIFACTS
    ensures Distinct(ARTIFACTS)
  {
    forall a ensures a in ARTIFACTS {
      match a
      case Cert => assert ARTIFACTS[0] == a;
      case Chain => assert ARTIFACTS[1] == a;
      case Fullchain => assert ARTIFACTS[2] == a;
      case Privkey => assert ARTIFACTS[3] == a;
      case Metadata => assert ARTIFACTS[4] == a;
    }
  }

  lemma {:induction false} WritesConfined(dir: nat, ino: nat, b: Bundle, arts: seq<Artifact>, bound: nat,
                                          names: set<Place>)
    requires dir >= bound && ino >= bound
    ensures forall op :: op in WriteOps(dir, ino, b, arts) ==> Confined(op, bound, names) && KeepsUnshared(op, bound)
    decreases |arts|
  {
    if arts != [] { WritesConfined(dir, ino + 1, b, arts[1..], bound, names); }
  }

  lemma {:induction false} ReplacesConfined(from: nat, to: nat, arts: seq<Artifact>, bound: nat, names: set<Place>)
    requires from >= bound && (to >= bound || Arts(to, arts) <= names)
    ensures forall op :: op in ReplaceOps(from, to, arts) ==>
              Confined(op, bound, names) && KeepsUnshared(op, bound) && op.Rename?
    decreases |arts|
  {
    if arts != [] {
      assert arts[0] in arts && Place(to, Art(arts[0])) in Arts(to, arts);
      assert forall x :: x in arts[1..] ==> x in arts;
      assert Arts(to, arts[1..]) <= Arts(to, arts);
      ReplacesConfined(from, to, arts[1..], bound, names);
    }
  }

  /** The names a deployment draws have never been used. */
  predicate Unused(d: Disk, staging: string, g: string) {
    At(d, StagePlace(staging)) == Absent && At(d, GenPlace(g)) == Absent
  }

  lemma {:induction false} PublishConfined(dir: nat, staging: string, g: string, bound: nat)
    ensures forall op :: op in PublishOps(dir, staging, g) ==>
              && Confined(op, bound, {StagePlace(staging), GenPlace(g)}) && Quiet(op)
              && (bound > GENERATIONS ==> KeepsUnshared(op, bound))
  {
  }

  lemma {:induction false} StageConfined(d: Disk, b: Bundle, staging: string, g: string, arts: seq<Artifact>)
    requires d.next > PINS
    ensures forall op ::
              op in TempOps(d.next, b, StagePlace(staging), arts) + ReplaceOps(d.next, d.next, arts)
                    + PublishOps(d.next, staging, g) ==>
              Confined(op, d.next, {StagePlace(staging), GenPlace(g)}) && KeepsUnshared(op, d.next)
  {
    var names := {StagePlace(staging), GenPlace(g)};
    WritesConfined(d.next, d.next + 1, b, arts, d.next, names);
    ReplacesConfined(d.next, d.next, arts, d.next, names);
    PublishConfined(d.next, staging, g, d.next);
  }

  /** The new directory with its files under their temporary names. */
  ghost predicate Filled(d: Disk, e: Disk, b: Bundle, staging: string, arts: seq<Artifact>) {
    && e.next > d.next
    && At(e, StagePlace(staging)) == Dir(d.next)
    && (forall a :: a in arts ==> Holds(e, Place(d.next, Tmp(a)), Get(b, a)))
    && (forall a :: At(e, Place(d.next, Art(a))) == Absent)
    && (forall p: Place :: p.dir < d.next && p != StagePlace(staging) ==> Look(e, p) == Look(d, p))
  }

  /** A new, empty directory. */
  ghost predicate Opened(d: Disk, e: Disk, staging: string) {
    && e.next == d.next + 1 && e.inodes == d.inodes && e.follows == d.follows
    && At(e, StagePlace(staging)) == Dir(d.next)
    && (forall p: Place :: p.dir == d.next ==> At(e, p) == Absent)
    && (forall p: Place :: p.dir < d.next && p != StagePlace(staging) ==> Look(e, p) == Look(d, p))
  }

  lemma {:induction false} OpenStaging(d: Disk, staging: string)
    requires WellFormed(d) && At(d, StagePlace(staging)) == Absent
    ensures var ops := [MakeDir(StagePlace(staging))];
            AllEnabled(d, ops) && Opened(d, Run(d, ops), staging)
  {
  }

  lemma {:induction false} OpenedIsFilled(d: Disk, e: Disk, f: Disk, b: Bundle, staging: string, arts: seq<Artifact>)
    requires d.next > PINS && Opened(d, e, staging) && f.next >= e.next && SameBut(e, f, Tmps(d.next, arts))
    requires forall a :: a in arts ==> Holds(f, Place(d.next, Tmp(a)), Get(b, a))
    ensures Filled(d, f, b, staging, arts)
  {
  }

  lemma {:induction false} FillFiles(d: Disk, b: Bundle, staging: string, arts: seq<Artifact>)
    requires WellFormed(d) && At(d, StagePlace(staging)) == Absent && Distinct(arts)
    ensures var ops := TempOps(d.next, b, StagePlace(staging), arts);
            AllEnabled(d, ops) && Filled(d, Run(d, ops), b, staging, arts)
  {
    hide Exec, Run;
    var make := [MakeDir(StagePlace(staging))];
    OpenStaging(d, staging);
    var e := Run(d, make);
    WriteRun(e, d.next, d.next + 1, b, arts);
    var write := WriteOps(d.next, d.next + 1, b, arts);
    RunAppend(d, make, write);
    EnabledAppend(d, make, write);
    OpenedIsFilled(d, e, Run(e, write), b, staging, arts);
  }

  /** The new directory with its files under their names. */
  ghost predicate Named(d: Disk, e: Disk, b: Bundle, staging: string, arts: seq<Artifact>) {
    && e.next > d.next
    && At(e, StagePlace(staging)) == Dir(d.next)
    && (forall a :: a in arts ==> Holds(e, Place(d.next, Art(a)), Get(b, a)))
    && (forall p: Place :: p.dir < d.next && p != StagePlace(staging) ==> Look(e, p) == Look(d, p))
  }

  lemma {:induction false} NameFiles(d: Disk, e: Disk, b: Bundle, staging: string, arts: seq<Artifact>)
    requires d.next > PINS && Distinct(arts) && Filled(d, e, b, staging, arts)
    ensures var ops := ReplaceOps(d.next, d.next, arts);
            AllEnabled(e, ops) && Named(d, Run(e, ops), b, staging, arts)
  {
    var s := d.next;
    forall a | a in arts ensures At(e, Place(s, Tmp(a))).File? { assert Holds(e, Place(s, Tmp(a)), Get(b, a)); }
    ReplaceRun(e, s, s, arts);
    var f := Run(e, ReplaceOps(s, s, arts));
    forall a | a in arts ensures Holds(f, Place(s, Art(a)), Get(b, a)) {
      assert Holds(e, Place(s, Tmp(a)), Get(b, a));
    }
    assert Look(f, StagePlace(staging)) == Look(e, StagePlace(staging));
  }

  lemma {:induction false} StageEnds(d: Disk, e: Disk, b: Bundle, staging: string, g: string)
    requires WellFormed(d) && Unused(d, staging, g) && Named(d, e, b, staging, ARTIFACTS)
    ensures var f := Run(e, PublishOps(d.next, staging, g));
            && AllEnabled(e, PublishOps(d.next, staging, g))
            && Sealed(f, g, b) && At(f, StagePlace(staging)) == Absent
            && (forall p: Place :: p.dir <= PINS && p != StagePlace(staging) && p != GenPlace(g) ==>
                  At(f, p) == At(d, p))
  {
    EveryArtifact();
    assert Look(e, GenPlace(g)) == Look(d, GenPlace(g));
    PublishRuns(e, d.next, staging, g);
    PublishSeals(e, d.next, staging, g, b);
    PublishedLooks(e, d.next, staging, g);
  }

  lemma {:induction false} StagePhase(d: Disk, b: Bundle, staging: string, g: string)
    requires WellFormed(d) && Unused(d, staging, g)
    ensures Staged(d, StageOps(d.next, b, staging, g), staging, g, b)
  {
    var s := d.next;
    var arts := ARTIFACTS;
    EveryArtifact();
    var fill, name := TempOps(s, b, StagePlace(staging), arts), ReplaceOps(s, s, arts);
    var publish := PublishOps(s, staging, g);
    FillFiles(d, b, staging, arts);
    var e := Run(d, fill);
    NameFiles(d, e, b, staging, arts);
    var f := Run(e, name);
    StageEnds(d, f, b, staging, g);
    RunAppend(d, fill, name);
    EnabledAppend(d, fill, name);
    RunAppend(d, fill + name, publish);
    EnabledAppend(d, fill + name, publish);
    var ops := StageOps(s, b, staging, g);
    assert ops == fill + name + publish;
    StageConfined(d, b, staging, g, arts);
    CreatingContained(d, ops, {StagePlace(staging), GenPlace(g)});
  }
}
