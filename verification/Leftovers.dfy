/**
 What a process that is killed leaves behind, and what a file that was never synchronised puts at risk.

 Each lemma reaches a layout that a condition elsewhere excludes: a pending link, names of which some are
 missing, names that are part links and part files, a generation without its certificate.
 */
module Leftovers {
  import opened Basics
  import opened FileSystem
  import opened Publication
  import opened Phases
  import opened Switching
  import opened CrashConsistency
  import opened Snapshots
  import opened Immutability
  import opened Durability
  import opened Completion
  import History

  // ---- Killed among the links -----------------------------------------------------------

  /** The first two calls of the installation of links: the pending link is made, and takes its place. */
  ghost predicate FirstLinks(d: Disk, e: Disk, j: nat) {
    && e.follows == d.follows && j <= 2
    && (forall p: Place :: p.dir == TARGET && p !in SWITCH + {Public(Cert), PublicPending(Cert)} ==>
          At(e, p) == At(d, p))
    && At(e, PublicPending(Cert)) == (if j == 1 then Symlink(ThroughCurrent(Cert)) else Absent)
    && At(e, Public(Cert)) == (if j == 2 then Symlink(ThroughCurrent(Cert)) else At(d, Public(Cert)))
  }

  lemma {:induction false} EnsureStarts(d: Disk, arts: seq<Artifact>)
    requires arts == ARTIFACTS && !At(d, Public(Cert)).Symlink?
    ensures |EnsureOps(d)| >= 2
    ensures EnsureOps(d)[..2] == [MakeSymlink(PublicPending(Cert), ThroughCurrent(Cert)),
                                  Rename(PublicPending(Cert), Public(Cert))]
  {
    assert arts[0] == Cert;
    LinkUpCons(d, arts);
    var first := LinkOneOps(d, Cert);
    assert EnsureOps(d) == LinkUpOps(d, arts) + [SyncDir(TARGET)];
    hide LinkUpOps, EnsureOps, Run;
    assert EnsureOps(d) == first + (LinkUpOps(Run(d, first), arts[1..]) + [SyncDir(TARGET)]);
  }

  lemma {:induction false} LinksStart(d: Disk, j: nat)
    requires WellFormed(d) && !At(d, Public(Cert)).Symlink? && At(d, PublicPending(Cert)) == Absent && 1 <= j <= 2
    ensures |EnsureOps(d)| >= 2
    ensures AllEnabled(d, EnsureOps(d)[..j]) && FirstLinks(d, Run(d, EnsureOps(d)[..j]), j)
  {
    var make, move := MakeSymlink(PublicPending(Cert), ThroughCurrent(Cert)), Rename(PublicPending(Cert), Public(Cert));
    var x := Exec(d, make);
    var ops := EnsureOps(d);
    EnsureStarts(d, ARTIFACTS);
    NameIsNoDir(d, Cert);
    assert d.next > PINS;
    RenameLooks(x, PublicPending(Cert), Public(Cert));
    var y := Exec(x, move);
    assert forall p :: p != PublicPending(Cert) ==> Look(x, p) == Look(d, p);
    forall p | p != PublicPending(Cert) && p != Public(Cert) ensures At(y, p) == At(d, p) {
      assert Look(y, p) == Look(x, p);
    }
    assert Enabled(d, make) && Enabled(x, move);
    assert ops[..1] == ops[..2][..1] == [make];
    hide WellFormed, EnsureOps, Run, AllEnabled, Exec, Enabled;
    RunOne(d, make);
    RunOne(x, move);
    RunTwo(d, make, move);
    EnabledOne(d, make);
    EnabledOne(x, move);
    EnabledAppend(d, [make], [move]);
    assert [make] + [move] == [make, move];
    assert FirstLinks(d, x, 1) && FirstLinks(d, y, 2);
  }

  /** The first calls of the deployment succeed, and the installation of links comes next, over the same names. */
  ghost predicate LinksNext(d: Disk, p: Plan, front: seq<Op>, rest: seq<Op>) {
    var e := Run(d, front);
    && DeployOps(d, p) == front + (EnsureOps(e) + rest) && AllEnabled(d, front)
    && WellFormed(e) && e.follows == d.follows
    && forall q: Place :: q.dir == TARGET && q !in SWITCH ==> At(e, q) == At(d, q)
  }

  lemma {:induction false} StopsIn(d: Disk, ops: seq<Op>, front: seq<Op>, block: seq<Op>, rest: seq<Op>, j: nat)
    requires ops == front + (block + rest) && j <= |block|
    requires AllEnabled(d, front) && AllEnabled(Run(d, front), block[..j])
    ensures StopsAfter(d, ops, |front| + j, Run(Run(d, front), block[..j]))
  {
    assert ops[..|front| + j] == front + block[..j];
    EnabledAppend(d, front, block[..j]);
    RunAppend(d, front, block[..j]);
  }

  lemma {:induction false} StopsAtLinks(d: Disk, p: Plan, front: seq<Op>, rest: seq<Op>, j: nat)
    returns (k: nat, m: Disk)
    requires LinksNext(d, p, front, rest) && 1 <= j <= 2
    requires !At(d, Public(Cert)).Symlink? && At(d, PublicPending(Cert)) == Absent
    ensures StopsAfter(d, DeployOps(d, p), k, m) && FirstLinks(d, m, j)
  {
    hide DeployOps, EnsureOps, Run, AllEnabled, WellFormed, StopsAfter;
    var e := Run(d, front);
    LinksStart(e, j);
    k, m := |front| + j, Run(e, EnsureOps(e)[..j]);
    StopsIn(d, DeployOps(d, p), front, EnsureOps(e), rest, j);
  }

  /** With no name there, or with five links, a deployment has nothing to migrate. */
  lemma {:induction false} FrontIsStaging(d: Disk, p: Plan)
    requires WellFormed(d) && Drawn(d, p) && !Migrates(d)
    ensures FrontOps(d, p) == StageOps(d.next, p.bundle, p.staging, p.generation)
  {
    var stage := StageOps(d.next, p.bundle, p.staging, p.generation);
    StageKeepsFiles(d, p);
    MigratesMeans(Run(d, stage));
    hide StageOps, Run, SaveLegacyOps, SelectOps, EnsureOps, WellFormed, Drawn, NonePresent, AllSymlinks;
    hide Files, Linkable, LinkSource, Migrates, Durable;
    assert stage + [] == stage;
  }

  lemma {:induction false} SelectRuns(d: Disk, g: string)
    requires WellFormed(d)
    ensures var e := Run(d, SelectOps(g));
            && AllEnabled(d, SelectOps(g)) && WellFormed(e)
            && forall q: Place :: q.dir == TARGET && q !in SWITCH ==> At(e, q) == At(d, q)
  {
    var ops := SelectOps(g);
    WellFormedIsClean(d);
    SelectEnabled(d, g);
    SelectEnds(d, g);
    hide SelectOps, Run, AllEnabled, WellFormed;
    WellFormedRun(d, ops);
    forall q: Place | q.dir == TARGET && q !in SWITCH ensures At(Run(d, ops), q) == At(d, q) {
      assert Same(d, Run(d, ops), q);
    }
  }

  lemma {:induction false} RunFollows(d: Disk, ops: seq<Op>)
    ensures Run(d, ops).follows == d.follows
    decreases |ops|
  {
    if ops != [] { RunFollows(Exec(d, ops[0]), ops[1..]); }
  }

  /** A first deployment: staging, the selection, and then the links. */
  lemma {:induction false} FirstDeploymentStarts(d: Disk, p: Plan) returns (front: seq<Op>, rest: seq<Op>)
    requires WellFormed(d) && Drawn(d, p) && NonePresent(d)
    ensures front == FrontOps(d, p) + SelectOps(p.generation) && LinksNext(d, p, front, rest)
  {
    var stage, select := StageOps(d.next, p.bundle, p.staging, p.generation), SelectOps(p.generation);
    var d1 := Run(d, stage);
    hide Run, AllEnabled, WellFormed, StageOps, FrontOps, SelectOps, EnsureOps, CleanupOps, DeployOps, BeforeCleanup;
    MigratesMeans(d);
    hide Drawn, NonePresent, AllSymlinks, Migrates, Untouched, Unused;
    front := stage + select;
    FrontIsStaging(d, p);
    StageLeaves(d, p);
    SelectRuns(d1, p.generation);
    EnabledAppend(d, stage, select);
    RunAppend(d, stage, select);
    RunFollows(d, front);
    DeployEnds(d, p);
    BeforeCleanupIs(d, p);
    rest := CleanupOps(Run(d, BeforeCleanup(d, p)), p.victims);
    var ensure := EnsureOps(Run(d, front));
    assert front + ensure + rest == front + (ensure + rest);
  }

  lemma {:induction false} BeforeCleanupIs(d: Disk, p: Plan)
    ensures var front := FrontOps(d, p) + SelectOps(p.generation);
            BeforeCleanup(d, p) == front + EnsureOps(Run(d, front))
  {
  }

  lemma {:induction false} WellFormedIsClean(d: Disk)
    requires WellFormed(d)
    ensures d.next > PINS && !At(d, CURRENT).Dir? && !At(d, CURRENT_PENDING).Dir?
  {
    if CURRENT in d.slots { assert DirFits(CURRENT, At(d, CURRENT)); }
    if CURRENT_PENDING in d.slots { assert DirFits(CURRENT_PENDING, At(d, CURRENT_PENDING)); }
  }

  /** No public name and no pending link. */
  ghost predicate Bare(d: Disk) { forall a :: At(d, Public(a)) == Absent && At(d, PublicPending(a)) == Absent }

  lemma {:induction false} BareMeans(d: Disk)
    ensures Bare(d) <==> NonePresent(d) && NothingPending(d)
  {
    if NonePresent(d) && NothingPending(d) {
      forall a ensures At(d, PublicPending(a)) == Absent { assert Unblocked(d, a) && At(d, Public(a)).Absent?; }
    }
  }

  /** One pending link, or one link, and nothing else. */
  ghost predicate OneOnly(d: Disk, pending: bool) {
    forall a ::
      && At(d, Public(a)) == (if !pending && a == Cert then Symlink(ThroughCurrent(a)) else Absent)
      && At(d, PublicPending(a)) == (if pending && a == Cert then Symlink(ThroughCurrent(a)) else Absent)
  }

  lemma {:induction false} FirstLinksLeave(d: Disk, m: Disk, j: nat)
    requires Bare(d) && FirstLinks(d, m, j) && j >= 1
    ensures OneOnly(m, j == 1)
  {
  }

  lemma {:induction false} KilledAfter(d: Disk, p: Plan, j: nat) returns (k: nat, m: Disk)
    requires WellFormed(d) && Drawn(d, p) && Bare(d) && 1 <= j <= 2
    ensures StopsAfter(d, DeployOps(d, p), k, m) && OneOnly(m, j == 1)
  {
    BareMeans(d);
    assert At(d, Public(Cert)) == Absent && At(d, PublicPending(Cert)) == Absent;
    hide *;
    var front, rest := FirstDeploymentStarts(d, p);
    k, m := StopsAtLinks(d, p, front, rest, j);
    FirstLinksLeave(d, m, j);
  }

  /** Killed between making and renaming its first pending link, a first deployment leaves it behind. */
  lemma {:induction false} KilledBeforeRename(d: Disk, p: Plan) returns (k: nat, m: Disk)
    requires WellFormed(d) && Drawn(d, p) && NonePresent(d) && NothingPending(d)
    ensures StopsAfter(d, DeployOps(d, p), k, m) && NonePresent(m) && !NothingPending(m)
  {
    BareMeans(d);
    hide StopsAfter, DeployOps, WellFormed, Drawn;
    k, m := KilledAfter(d, p, 1);
    assert !Unblocked(m, Cert);
  }

  /** Some of the five names are missing, but not all. */
  ghost predicate Stuck(d: Disk) {
    (exists a :: At(d, Public(a)) == Absent) && (exists a :: At(d, Public(a)) != Absent)
  }

  lemma {:induction false} StuckIsNotMovable(d: Disk)
    requires Stuck(d)
    ensures !Movable(d) && Migrates(d)
  {
    var a :| At(d, Public(a)) == Absent;
    assert LinkSource(d, Public(a)) == Absent;
  }

  /** Killed between two links, it leaves a layout in which nothing is pending and nothing can be migrated. */
  lemma {:induction false} KilledBetweenLinks(d: Disk, p: Plan) returns (k: nat, m: Disk)
    requires WellFormed(d) && Drawn(d, p) && NonePresent(d) && NothingPending(d)
    ensures StopsAfter(d, DeployOps(d, p), k, m) && NothingPending(m) && Stuck(m)
    ensures !NonePresent(m) && !AllSymlinks(m) && !Linkable(m)
  {
    BareMeans(d);
    hide StopsAfter, DeployOps, WellFormed, Drawn;
    k, m := KilledAfter(d, p, 2);
    assert At(m, Public(Chain)) == Absent && At(m, Public(Cert)) == Symlink(ThroughCurrent(Cert));
    StuckIsNotMovable(m);
  }

  // ---- A migration killed among its links -----------------------------------------------

  /** A deployment over plain files: staging, saving, the selection of what was saved, and then the links. */
  lemma {:induction false} MigrationStarts(d: Disk, p: Plan) returns (front: seq<Op>, rest: seq<Op>)
    requires WellFormed(d) && Drawn(d, p) && Migrates(d) && Linkable(d)
    ensures LinksNext(d, p, front, rest)
  {
    var stage := StageOps(d.next, p.bundle, p.staging, p.generation);
    var d1 := Run(d, stage);
    var save, select := SaveLegacyOps(d1.next, p.legacyStaging, p.legacy), SelectOps(p.legacy);
    var d2 := Run(d1, save);
    hide Run, AllEnabled, WellFormed, StageOps, SaveLegacyOps, SelectOps, EnsureOps, DeployOps;
    hide Drawn, Migrates, Linkable, Untouched, Unused, Files, Durable, LinkSource;
    StageLeaves(d, p);
    StageKeepsFiles(d, p);
    SaveShares(d1, p.legacyStaging, p.legacy);
    SelectRuns(d2, p.legacy);
    forall q: Place | q.dir == TARGET ensures At(d2, q) == At(d, q) {
      SaveLeavesNames(d1, p.legacyStaging, p.legacy, q);
    }
    rest := MigratingDeployStarts(d, p);
    front := stage + (save + select);
    EnabledAppend(d1, save, select);
    RunAppend(d1, save, select);
    EnabledAppend(d, stage, save + select);
    RunAppend(d, stage, save + select);
    RunFollows(d, front);
  }

  lemma {:induction false} PlainIsLinkable(d: Disk)
    requires AllPlain(d)
    ensures Migrates(d) && Linkable(d)
  {
    PlainIsSaved(d);
    assert forall a :: LinkSource(d, Public(a)) == At(d, Public(a));
  }

  lemma {:induction false} OneLinkOfFive(d: Disk, m: Disk)
    requires AllPlain(d) && FirstLinks(d, m, 2)
    ensures Mixed(m) && m.follows == d.follows
  {
    forall a | a != Cert ensures At(m, Public(a)).File? { assert At(d, Public(a)).File?; }
    assert At(m, Public(Cert)).Symlink? && At(m, Public(Chain)).File?;
  }

  /** Killed after its first link, a migration leaves one name a link and four names files. */
  lemma {:induction false} KilledMigration(d: Disk, p: Plan) returns (k: nat, m: Disk)
    requires WellFormed(d) && Drawn(d, p) && AllPlain(d) && NothingPending(d)
    ensures StopsAfter(d, DeployOps(d, p), k, m) && m.follows == d.follows && Mixed(m)
  {
    assert At(d, Public(Cert)).File? && Unblocked(d, Cert);
    hide *;
    PlainIsLinkable(d);
    var front, rest := MigrationStarts(d, p);
    k, m := StopsAtLinks(d, p, front, rest, 2);
    OneLinkOfFive(d, m);
  }

  /** A stop of a deployment is a step of a history. */
  lemma {:induction false} StopHappens(s: History.World, p: Plan, k: nat, m: Disk)
    requires Drawn(s.disk, p) && p.generation !in s.drawn && p.legacy !in s.drawn && !Mixed(s.disk)
    requires StopsAfter(s.disk, DeployOps(s.disk, p), k, m)
    ensures var h := History.Ran(Deploy(p), k); History.Proper(s, h) && History.Next(s, h).disk == m
  {
    hide DeployOps, Run, AllEnabled, Drawn, Mixed, History.Wholes, Allowed;
  }

  /**
   So a history reaches the layout over which the next deployment is not safe, if a hard link takes the
   symbolic link itself.
   */
  lemma {:induction false} MixedArises(s: History.World, p: Plan) returns (k: nat)
    requires History.Good(s) && AllPlain(s.disk) && NothingPending(s.disk)
    requires Drawn(s.disk, p) && p.generation !in s.drawn && p.legacy !in s.drawn
    ensures var h := History.Ran(Deploy(p), k);
            var t := History.Next(s, h);
            && History.Proper(s, h) && History.Good(t) && Mixed(t.disk)
            && forall q: Plan :: Drawn(t.disk, q) && q.generation !in t.drawn && q.legacy !in t.drawn ==>
                 (CrashSafe(t.disk, q, t.drawn) <==> s.disk.follows)
  {
    var m;
    assert WellFormed(s.disk);
    hide *;
    PlainIsNotMixed(s.disk);
    k, m := KilledMigration(s.disk, p);
    var h := History.Ran(Deploy(p), k);
    var t := History.Next(s, h);
    StopHappens(s, p, k, m);
    History.GoodStep(s, h);
    forall q: Plan | Drawn(t.disk, q) && q.generation !in t.drawn && q.legacy !in t.drawn
      ensures CrashSafe(t.disk, q, t.drawn) <==> s.disk.follows
    {
      History.GoodDeploymentIff(t, q);
    }
  }

  // ---- A removal killed after its first call --------------------------------------------

  lemma {:induction false} RemovalStarts(d: Disk, g: string, later: seq<string>, contents: seq<Name>)
    requires contents == CONTENTS && At(d, GenPlace(g)).Dir?
    requires At(d, Place(At(d, GenPlace(g)).dir, Art(Cert))).File?
    ensures var ops := CleanupOps(d, [g] + later);
            ops != [] && ops[0] == Unlink(Place(At(d, GenPlace(g)).dir, Art(Cert)))
  {
    var victims, x := [g] + later, At(d, GenPlace(g)).dir;
    assert contents[0] == Art(Cert) && contents != [];
    var first := EmptyOps(d, GenPlace(g), contents);
    assert first[0] == Unlink(Place(x, Art(Cert))) && first != [];
    assert victims[0] == g;
    hide EmptyOps, RemoveAllOps, Run;
    RemoveAllCons(d, victims);
  }

  /**
   A cleanup killed after its first call leaves the directory of a generation, which the deployer would
   still select, without the certificate: the selection is not safe.
   */
  lemma {:induction false} HalfRemoved(d: Disk, g: string, later: seq<string>, drawn: map<string, Bundle>)
    returns (e: Disk)
    requires WellFormed(d) && g in drawn && Sealed(d, g, drawn[g])
    ensures StopsAfter(d, CleanupOps(d, [g] + later), 1, e)
    ensures History.Partial(e, g, drawn[g]) && Look(e, GenPlace(g)).older == {} && !Contains(e, g, drawn[g])
    ensures !History.SelectionSafe(e, g, drawn)
  {
    var x := At(d, GenPlace(g)).dir;
    var lost := Place(x, Art(Cert));
    var ops := CleanupOps(d, [g] + later);
    e := Exec(d, Unlink(lost));
    assert SealedFile(d, lost, Get(drawn[g], Cert));
    RemovalStarts(d, g, later, CONTENTS);
    assert ops[..1] == [Unlink(lost)];
    assert lost in d.slots && Enabled(d, Unlink(lost));
    RunOne(d, Unlink(lost));
    EnabledOne(d, Unlink(lost));
    hide CleanupOps, Run, AllEnabled, Enabled;
    WellFormedStep(d, Unlink(lost));
    assert At(e, lost) == Absent && forall p :: p != lost ==> Look(e, p) == Look(d, p);
    hide Exec, WellFormed;
    assert InGeneration(e, g, Cert) == None;
    forall a ensures History.PartialFile(e, Place(x, Art(a)), Get(drawn[g], a)) {
      assert SealedFile(d, Place(x, Art(a)), Get(drawn[g], a));
    }
    hide History.SelectionSafe, History.Partial;
    if History.SelectionSafe(e, g, drawn) { History.SelectionNeedsContents(e, g, drawn); }
  }

  // ---- A file that was never synchronised -----------------------------------------------

  /** Five files that were copied to the public names, of which the certificate has not been synchronised. */
  function Copied(follows: bool, b: Bundle): Disk {
    Disk(map[Public(Cert) := Slot(File(3), {}), Public(Chain) := Slot(File(4), {}),
             Public(Fullchain) := Slot(File(5), {}), Public(Privkey) := Slot(File(6), {}),
             Public(Metadata) := Slot(File(7), {})],
         map[3 := Inode(b.cert, false), 4 := Inode(b.chain, true), 5 := Inode(b.fullchain, true),
             6 := Inode(b.privkey, true), 7 := Inode(b.metadata, true)],
         8, follows)
  }

  predicate DifferentNames(p: Plan) {
    p.generation != p.legacy && p.staging != p.legacyStaging && p.generation !in p.victims
  }

  lemma {:induction false} CopiedIsWellFormed(follows: bool, b: Bundle)
    ensures WellFormed(Copied(follows, b))
  {
  }

  lemma {:induction false} CopiedIsPlain(follows: bool, b: Bundle)
    ensures var d := Copied(follows, b);
            && AllPlain(d) && At(d, Public(Cert)) == File(3) && 3 in d.inodes && !d.inodes[3].synced
            && forall q: Place :: q.dir != TARGET || !q.name.Art? ==> q !in d.slots
  {
    var d := Copied(follows, b);
    forall a ensures At(d, Public(a)).File? {
      match a
      case Cert =>
      case Chain =>
      case Fullchain =>
      case Privkey =>
      case Metadata =>
    }
  }

  /** One public file that was never synchronised is enough, whichever way hard links go. */
  lemma {:induction false} UnsyncedIsAtRisk(d: Disk, p: Plan, keep: map<string, Bundle>, a: Artifact)
    requires Start(d, p, keep) && AllPlain(d)
    requires At(d, Public(a)).ino in d.inodes && !d.inodes[At(d, Public(a)).ino].synced
    ensures !Durable(d) && !CrashSafe(d, p, keep)
  {
    PlainIsLinkable(d);
    UnsyncedIsNotHeld(d, a);
    hide Start, Files, SourceHolds, Migrates, Linkable, CrashSafe, AllPlain;
    assert !Durable(d);
    CrashSafeIffDurable(d, p, keep);
  }

  lemma {:induction false} UnsyncedIsNotHeld(d: Disk, a: Artifact)
    requires At(d, Public(a)).File?
    requires At(d, Public(a)).ino in d.inodes && !d.inodes[At(d, Public(a)).ino].synced
    ensures !SourceHolds(d, a, Get(Files(d), a))
  {
  }

  lemma {:induction false} OnlyFilesStart(d: Disk, p: Plan)
    requires WellFormed(d) && DifferentNames(p)
    requires forall q: Place :: q.dir != TARGET || !q.name.Art? ==> q !in d.slots
    ensures Start(d, p, map[])
  {
    hide WellFormed;
    assert At(d, CURRENT) == Absent && Possible(d, CURRENT) == {Absent};
  }

  /** Such a disk. */
  lemma {:induction false} CopiedIsAtRisk(follows: bool, b: Bundle, p: Plan)
    requires DifferentNames(p)
    ensures Start(Copied(follows, b), p, map[]) && !Durable(Copied(follows, b))
    ensures !CrashSafe(Copied(follows, b), p, map[])
  {
    var d := Copied(follows, b);
    hide *;
    CopiedIsWellFormed(follows, b);
    CopiedIsPlain(follows, b);
    OnlyFilesStart(d, p);
    UnsyncedIsAtRisk(d, p, map[], Cert);
  }
}
