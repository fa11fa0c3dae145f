/**
 When a whole deployment goes through: with no pending link left over, and five names that are all missing,
 all links, or can all be linked.

 Then each system call finds what it needs, and at the end `current` leads to the new generation and all five
 names are links. From every other layout some call fails: the condition is exact.
 */
module Completion {
  import opened Basics
  import opened FileSystem
  import opened Publication
  import opened Phases
  import opened Switching
  import opened CrashConsistency
  import opened Snapshots
  import opened Immutability
  import opened Durability

  /** A name that is not a link yet can get its pending link. */
  predicate Unblocked(d: Disk, a: Artifact) { At(d, Public(a)).Symlink? || At(d, PublicPending(a)) == Absent }

  /** No pending link is left over from a process that stopped between making and renaming it. */
  ghost predicate NothingPending(d: Disk) { forall a :: Unblocked(d, a) }

  /** Nothing in the way. */
  ghost predicate Clean(d: Disk) {
    && d.next > PINS
    && !At(d, CURRENT).Dir? && !At(d, CURRENT_PENDING).Dir?
    && NothingPending(d) && forall a :: !At(d, Public(a)).Dir?
  }

  /** Directories have other names, so a pending link is all that can be in the way. */
  lemma {:induction false} CleanIff(d: Disk)
    requires WellFormed(d)
    ensures Clean(d) <==> NothingPending(d)
  {
    forall a ensures !At(d, Public(a)).Dir? { if Public(a) in d.slots { assert DirFits(Public(a), At(d, Public(a))); } }
    if CURRENT in d.slots { assert DirFits(CURRENT, At(d, CURRENT)); }
    if CURRENT_PENDING in d.slots { assert DirFits(CURRENT_PENDING, At(d, CURRENT_PENDING)); }
  }

  lemma {:induction false} CleanKept(d: Disk, e: Disk)
    requires Clean(d) && e.next >= d.next
    requires forall p: Place :: p.dir == TARGET ==> At(e, p) == At(d, p)
    ensures Clean(e)
  {
    forall a ensures Unblocked(e, a) && !At(e, Public(a)).Dir? { assert Unblocked(d, a); }
  }

  lemma {:induction false} SelectClean(d: Disk, g: string)
    requires Clean(d)
    ensures AllEnabled(d, SelectOps(g)) && Clean(Run(d, SelectOps(g)))
  {
    SelectEnabled(d, g);
    SelectEnds(d, g);
    var e := Run(d, SelectOps(g));
    hide Run, AllEnabled, SelectOps;
    forall a ensures Unblocked(e, a) && !At(e, Public(a)).Dir? {
      assert Unblocked(d, a) && Same(d, e, PublicPending(a)) && Same(d, e, Public(a));
    }
  }

  lemma {:induction false} LinkOneSteps(d: Disk, a: Artifact)
    requires Clean(d) && !At(d, Public(a)).Symlink?
    ensures var make, move := MakeSymlink(PublicPending(a), ThroughCurrent(a)), Rename(PublicPending(a), Public(a));
            var x := Exec(d, make);
            Enabled(d, make) && Enabled(x, move) && Clean(Exec(x, move))
  {
    var x := Exec(d, MakeSymlink(PublicPending(a), ThroughCurrent(a)));
    RenameLooks(x, PublicPending(a), Public(a));
    assert Unblocked(d, a);
    assert forall p :: p != PublicPending(a) ==> Look(x, p) == Look(d, p);
    assert At(x, PublicPending(a)).Symlink? && x.next == d.next;
    var e := Exec(x, Rename(PublicPending(a), Public(a)));
    assert At(e, Public(a)).Symlink? && At(e, PublicPending(a)) == Absent;
    forall p | p != PublicPending(a) && p != Public(a) ensures At(e, p) == At(d, p) {
      assert Look(e, p) == Look(x, p);
    }
    forall c ensures Unblocked(e, c) && !At(e, Public(c)).Dir? { assert Unblocked(d, c); }
  }

  lemma {:induction false} LinkOneClean(d: Disk, a: Artifact)
    requires Clean(d)
    ensures AllEnabled(d, LinkOneOps(d, a)) && Clean(Run(d, LinkOneOps(d, a)))
  {
    if At(d, Public(a)).Symlink? {
      assert LinkOneOps(d, a) == [];
    } else {
      var make, move := MakeSymlink(PublicPending(a), ThroughCurrent(a)), Rename(PublicPending(a), Public(a));
      var x := Exec(d, make);
      LinkOneSteps(d, a);
      assert LinkOneOps(d, a) == [make] + [move];
      hide *;
      EnabledOne(d, make);
      EnabledOne(x, move);
      RunOne(d, make);
      RunOne(x, move);
      EnabledAppend(d, [make], [move]);
      RunAppend(d, [make], [move]);
    }
  }

  lemma {:induction false} LinkUpClean(d: Disk, arts: seq<Artifact>)
    requires Clean(d)
    ensures AllEnabled(d, LinkUpOps(d, arts)) && Clean(Run(d, LinkUpOps(d, arts)))
    decreases |arts|
  {
    if arts != [] {
      var first := LinkOneOps(d, arts[0]);
      var rest := LinkUpOps(Run(d, first), arts[1..]);
      assert LinkUpOps(d, arts) == first + rest;
      hide *;
      LinkOneClean(d, arts[0]);
      LinkUpClean(Run(d, first), arts[1..]);
      EnabledAppend(d, first, rest);
      RunAppend(d, first, rest);
    }
  }

  lemma {:induction false} SyncClean(d: Disk)
    requires Clean(d)
    ensures AllEnabled(d, [SyncDir(TARGET)]) && Clean(Run(d, [SyncDir(TARGET)]))
  {
    RunOne(d, SyncDir(TARGET));
    EnabledOne(d, SyncDir(TARGET));
    SyncDirLooks(d, TARGET);
    hide Exec, Run, AllEnabled;
    CleanKept(d, Exec(d, SyncDir(TARGET)));
  }

  lemma {:induction false} EnsureClean(d: Disk)
    requires Clean(d)
    ensures AllEnabled(d, EnsureOps(d)) && Clean(Run(d, EnsureOps(d)))
  {
    var arts := ARTIFACTS;
    var first := LinkUpOps(d, arts);
    assert EnsureOps(d) == first + [SyncDir(TARGET)] by { hide LinkUpOps; }
    hide *;
    LinkUpClean(d, arts);
    SyncClean(Run(d, first));
    EnabledAppend(d, first, [SyncDir(TARGET)]);
    RunAppend(d, first, [SyncDir(TARGET)]);
  }

  // ---- Layouts --------------------------------------------------------------------------

  /** A migration has nothing to do, or can link all five names. */
  ghost predicate Movable(d: Disk) { NonePresent(d) || AllSymlinks(d) || Linkable(d) }

  /** The links among the five names are those that the deployer installs. */
  ghost predicate Ours(d: Disk) {
    forall a :: At(d, Public(a)).Symlink? ==> At(d, Public(a)) == Symlink(ThroughCurrent(a))
  }

  lemma {:induction false} StageClean(d: Disk, p: Plan)
    requires WellFormed(d) && Clean(d) && Drawn(d, p)
    ensures Clean(Run(d, StageOps(d.next, p.bundle, p.staging, p.generation)))
  {
    StageLeaves(d, p);
    hide StageOps, Run, AllEnabled, WellFormed;
    CleanKept(d, Run(d, StageOps(d.next, p.bundle, p.staging, p.generation)));
  }

  lemma {:induction false} SaveClean(d: Disk, staging: string, legacy: string)
    requires WellFormed(d) && Clean(d) && Unused(d, staging, legacy) && Linkable(d)
    ensures var ops := SaveLegacyOps(d.next, staging, legacy); AllEnabled(d, ops) && Clean(Run(d, ops))
  {
    var ops := SaveLegacyOps(d.next, staging, legacy);
    hide SaveLegacyOps, Run, AllEnabled, WellFormed, Linkable, Clean;
    SaveShares(d, staging, legacy);
    forall p: Place | p.dir == TARGET ensures At(Run(d, ops), p) == At(d, p) { SaveLeavesNames(d, staging, legacy, p); }
    WellFormedRun(d, ops);
    CleanKept(d, Run(d, ops));
  }

  lemma {:induction false} MigrateClean(d: Disk, staging: string, legacy: string)
    requires WellFormed(d) && Clean(d) && Unused(d, staging, legacy) && Movable(d)
    ensures var ops := MigrateOps(d, staging, legacy); AllEnabled(d, ops) && Clean(Run(d, ops))
  {
    if !NonePresent(d) && !AllSymlinks(d) {
      MigrateParts(d, staging, legacy);
      assert Linkable(d);
      hide *;
      var save, select := SaveLegacyOps(d.next, staging, legacy), SelectOps(legacy);
      var d1 := Run(d, save);
      var d2 := Run(d1, select);
      SaveClean(d, staging, legacy);
      SelectClean(d1, legacy);
      EnsureClean(d2);
      EnabledAppend(d1, select, EnsureOps(d2));
      RunAppend(d1, select, EnsureOps(d2));
      EnabledAppend(d, save, select + EnsureOps(d2));
      RunAppend(d, save, select + EnsureOps(d2));
    }
  }

  lemma {:induction false} StageKeepsLayout(d: Disk, p: Plan)
    requires WellFormed(d) && Drawn(d, p)
    ensures var e := Run(d, StageOps(d.next, p.bundle, p.staging, p.generation));
            && Movable(e) == Movable(d) && NonePresent(e) == NonePresent(d) && AllSymlinks(e) == AllSymlinks(d)
            && Linkable(e) == Linkable(d) && Ours(e) == Ours(d) && forall a :: Unblocked(e, a) == Unblocked(d, a)
  {
    var e := Run(d, StageOps(d.next, p.bundle, p.staging, p.generation));
    StageLeaves(d, p);
    StageKeepsFiles(d, p);
    hide StageOps, Run, AllEnabled, WellFormed, LinkSource, Linkable, Files, Durable, Drawn, Untouched;
    assert forall a :: At(e, Public(a)) == At(d, Public(a)) && At(e, PublicPending(a)) == At(d, PublicPending(a));
  }

  lemma {:induction false} FrontClean(d: Disk, p: Plan)
    requires WellFormed(d) && Clean(d) && Drawn(d, p) && Movable(d)
    ensures AllEnabled(d, FrontOps(d, p)) && Clean(Run(d, FrontOps(d, p)))
  {
    var stage := StageOps(d.next, p.bundle, p.staging, p.generation);
    var d1 := Run(d, stage);
    var migrate := MigrateOps(d1, p.legacyStaging, p.legacy);
    assert FrontOps(d, p) == stage + migrate by { hide StageOps, MigrateOps, Run; }
    hide *;
    StageLeaves(d, p);
    StageClean(d, p);
    StageKeepsLayout(d, p);
    MigrateClean(d1, p.legacyStaging, p.legacy);
    EnabledAppend(d, stage, migrate);
    RunAppend(d, stage, migrate);
  }

  // ---- The five names -------------------------------------------------------------------

  /** Links stay as they are, and everything else among these names becomes a link through `current`. */
  ghost predicate Linkified(d: Disk, e: Disk, arts: seq<Artifact>) {
    forall a :: At(e, Public(a)) ==
      if a in arts && !At(d, Public(a)).Symlink? then Symlink(ThroughCurrent(a)) else At(d, Public(a))
  }

  lemma {:induction false} LinkOneLinks(d: Disk, a: Artifact)
    ensures Linkified(d, Run(d, LinkOneOps(d, a)), [a])
  {
    if At(d, Public(a)).Symlink? {
      RunNone(d);
    } else {
      var make, move := MakeSymlink(PublicPending(a), ThroughCurrent(a)), Rename(PublicPending(a), Public(a));
      assert LinkOneOps(d, a) == [make, move];
      RunTwo(d, make, move);
      RenameLooks(Exec(d, make), PublicPending(a), Public(a));
      hide Run;
      forall c | c != a ensures At(Exec(Exec(d, make), move), Public(c)) == At(d, Public(c)) {
        assert Look(Exec(Exec(d, make), move), Public(c)) == Look(Exec(d, make), Public(c));
      }
    }
  }

  lemma {:induction false} LinkUpLinks(d: Disk, arts: seq<Artifact>)
    ensures Linkified(d, Run(d, LinkUpOps(d, arts)), arts)
    decreases |arts|
  {
    if arts == [] {
      RunNone(d);
    } else {
      var first := LinkOneOps(d, arts[0]);
      var m := Run(d, first);
      LinkUpCons(d, arts);
      hide Run, LinkUpOps, LinkOneOps;
      LinkOneLinks(d, arts[0]);
      LinkUpLinks(m, arts[1..]);
      RunAppend(d, first, LinkUpOps(m, arts[1..]));
      assert forall a :: a in arts <==> a == arts[0] || a in arts[1..];
    }
  }

  lemma {:induction false} EnsureLinks(d: Disk)
    ensures var e := Run(d, EnsureOps(d)); AllSymlinks(e) && (Ours(d) ==> Ours(e))
  {
    var arts := ARTIFACTS;
    EveryArtifact();
    var first := LinkUpOps(d, arts);
    assert EnsureOps(d) == first + [SyncDir(TARGET)] by { hide LinkUpOps; }
    hide LinkUpOps, EnsureOps, Run;
    LinkUpLinks(d, arts);
    RunAppend(d, first, [SyncDir(TARGET)]);
    RunOne(Run(d, first), SyncDir(TARGET));
    SyncDirLooks(Run(d, first), TARGET);
  }

  /** The links are on disk. */
  lemma {:induction false} EnsureSynchronises(d: Disk)
    ensures Synchronised(Run(d, EnsureOps(d)), TARGET)
  {
    var first := LinkUpOps(d, ARTIFACTS);
    assert EnsureOps(d) == first + [SyncDir(TARGET)] by { hide LinkUpOps; }
    hide *;
    SyncedLast(d, first, TARGET);
  }

  lemma {:induction false} SelectKeepsOurs(d: Disk, g: string)
    requires Ours(d)
    ensures Ours(Run(d, SelectOps(g)))
  {
    SelectEnds(d, g);
    var e := Run(d, SelectOps(g));
    hide Run, SelectOps;
    forall a ensures At(e, Public(a)) == At(d, Public(a)) { assert Same(d, e, Public(a)); }
  }

  lemma {:induction false} SaveKeepsOurs(d: Disk, staging: string, legacy: string)
    requires WellFormed(d) && Ours(d)
    ensures Ours(Run(d, SaveLegacyOps(d.next, staging, legacy)))
  {
    var e := Run(d, SaveLegacyOps(d.next, staging, legacy));
    hide Run, SaveLegacyOps, WellFormed;
    forall a ensures At(e, Public(a)) == At(d, Public(a)) { SaveLeavesNames(d, staging, legacy, Public(a)); }
  }

  lemma {:induction false} MigrateKeepsOurs(d: Disk, staging: string, legacy: string)
    requires WellFormed(d) && Ours(d)
    ensures Ours(Run(d, MigrateOps(d, staging, legacy)))
  {
    if NonePresent(d) || AllSymlinks(d) {
      RunNone(d);
    } else {
      var save, select := SaveLegacyOps(d.next, staging, legacy), SelectOps(legacy);
      var d1 := Run(d, save);
      var d2 := Run(d1, select);
      MigrateParts(d, staging, legacy);
      hide *;
      SaveKeepsOurs(d, staging, legacy);
      SelectKeepsOurs(d1, legacy);
      EnsureLinks(d2);
      RunAppend(d1, select, EnsureOps(d2));
      RunAppend(d, save, select + EnsureOps(d2));
    }
  }

  /** All calls of a deployment up to the cleanup. */
  function BeforeCleanup(d: Disk, p: Plan): seq<Op> {
    var front := FrontOps(d, p) + SelectOps(p.generation);
    front + EnsureOps(Run(d, front))
  }

  /** After them all five names are links, and none but the deployer's if there were no others. */
  lemma {:induction false} NamesBeforeCleanup(d: Disk, p: Plan)
    requires WellFormed(d) && Drawn(d, p)
    ensures var e := Run(d, BeforeCleanup(d, p));
            AllSymlinks(e) && (Ours(d) ==> AllLinks(e)) && Synchronised(e, TARGET)
  {
    var stage := StageOps(d.next, p.bundle, p.staging, p.generation);
    var d1 := Run(d, stage);
    var migrate, select := MigrateOps(d1, p.legacyStaging, p.legacy), SelectOps(p.generation);
    var front := stage + migrate + select;
    assert FrontOps(d, p) == stage + migrate by { hide StageOps, MigrateOps, Run; }
    var d2 := Run(d1, migrate);
    var d3 := Run(d2, select);
    assert BeforeCleanup(d, p) == front + EnsureOps(Run(d, front)) by { hide FrontOps, EnsureOps, Run; }
    hide *;
    RunAppend(d, stage, migrate);
    RunAppend(d, stage + migrate, select);
    RunAppend(d, front, EnsureOps(d3));
    StageLeaves(d, p);
    StageKeepsLayout(d, p);
    if Ours(d) {
      MigrateKeepsOurs(d1, p.legacyStaging, p.legacy);
      SelectKeepsOurs(d2, p.generation);
    }
    EnsureLinks(d3);
    EnsureSynchronises(d3);
    if Ours(d) { OursAreLinks(Run(d3, EnsureOps(d3))); }
  }

  lemma {:induction false} OursAreLinks(d: Disk)
    requires AllSymlinks(d) && Ours(d)
    ensures AllLinks(d)
  {
  }

  lemma {:induction false} NextGrows(d: Disk, ops: seq<Op>)
    ensures Run(d, ops).next >= d.next
    decreases |ops|
  {
    if ops != [] { NextGrows(Exec(d, ops[0]), ops[1..]); }
  }

  /** Installing links leaves `current` alone. */
  lemma {:induction false} EnsureKeepsCurrent(d: Disk)
    requires d.next > TARGET
    ensures At(Run(d, EnsureOps(d)), CURRENT) == At(d, CURRENT)
  {
    var arts := ARTIFACTS;
    EnsureContained(d);
    LinkNamesInTarget(arts);
    var ops := EnsureOps(d);
    assert ops[..|ops|] == ops;
    hide EnsureOps, LinkNames, Run;
    assert !Free(CURRENT, d.next, LinkNames(arts)) && Same(d, Run(d, ops), CURRENT);
  }

  lemma {:induction false} SelectSetsCurrent(d: Disk, g: string)
    ensures At(Run(d, SelectOps(g)), CURRENT) == Symlink(ToGeneration(g))
  {
    SelectEnds(d, g);
  }

  /** Before the cleanup `current` leads to the generation just published. */
  lemma {:induction false} CurrentBeforeCleanup(d: Disk, p: Plan)
    requires d.next > TARGET
    ensures At(Run(d, BeforeCleanup(d, p)), CURRENT) == Symlink(ToGeneration(p.generation))
  {
    var front, select := FrontOps(d, p), SelectOps(p.generation);
    assert BeforeCleanup(d, p) == front + select + EnsureOps(Run(d, front + select)) by {
      hide FrontOps, SelectOps, EnsureOps, Run;
    }
    hide FrontOps, SelectOps, EnsureOps, BeforeCleanup, Run;
    RunAppend(d, front, select);
    SelectSetsCurrent(Run(d, front), p.generation);
    var e := Run(d, front + select);
    NextGrows(d, front + select);
    EnsureKeepsCurrent(e);
    RunAppend(d, front + select, EnsureOps(e));
  }

  /** A deployment is everything before the cleanup, and the cleanup. */
  lemma {:induction false} DeployEnds(d: Disk, p: Plan)
    ensures var m := Run(d, BeforeCleanup(d, p));
            && DeployOps(d, p) == BeforeCleanup(d, p) + CleanupOps(m, p.victims)
            && Run(d, DeployOps(d, p)) == Run(m, CleanupOps(m, p.victims))
  {
    hide FrontOps, SelectOps, EnsureOps, CleanupOps, Run;
    var front, select := FrontOps(d, p), SelectOps(p.generation);
    var d2 := Run(d, front);
    RunAppend(d, front, select);
    var ensure := EnsureOps(Run(d, front + select));
    RunAppend(d, front + select, ensure);
    var m := Run(d, front + select + ensure);
    var cleanup := CleanupOps(m, p.victims);
    assert front + (select + ensure + cleanup) == (front + select + ensure) + cleanup;
    RunAppend(d, front + select + ensure, cleanup);
  }

  /** Staging, migration, selection and links all go through. */
  lemma {:induction false} PublishRunsThrough(d: Disk, p: Plan)
    requires WellFormed(d) && NothingPending(d) && Movable(d) && Drawn(d, p)
    ensures AllEnabled(d, BeforeCleanup(d, p))
  {
    var front, select := FrontOps(d, p), SelectOps(p.generation);
    var d2 := Run(d, front);
    var d3 := Run(d2, select);
    assert BeforeCleanup(d, p) == front + select + EnsureOps(Run(d, front + select));
    hide *;
    CleanIff(d);
    FrontClean(d, p);
    SelectClean(d2, p.generation);
    EnsureClean(d3);
    EnabledAppend(d, front, select);
    RunAppend(d, front, select);
    EnabledAppend(d, front + select, EnsureOps(d3));
  }

  /** They publish the new files: unless a name is a link of another kind, all five show them. */
  lemma {:induction false} PublishSucceeds(d: Disk, p: Plan)
    requires WellFormed(d) && NothingPending(d) && Movable(d) && Drawn(d, p)
    ensures var e := Run(d, BeforeCleanup(d, p));
            && AllEnabled(d, BeforeCleanup(d, p))
            && WellFormed(e) && Complete(e, p.generation, p.bundle)
            && At(e, CURRENT) == Symlink(ToGeneration(p.generation))
            && AllSymlinks(e) && (Ours(d) ==> Settled(e, p.generation, p.bundle))
            && Synchronised(e, TARGET)
  {
    var e := Run(d, BeforeCleanup(d, p));
    assert d.next > TARGET;
    hide WellFormed, NothingPending, Movable, Drawn, BeforeCleanup, Run, AllEnabled, Complete, AllSymlinks, Ours;
    PublishRunsThrough(d, p);
    WellFormedRun(d, BeforeCleanup(d, p));
    NamesBeforeCleanup(d, p);
    CurrentBeforeCleanup(d, p);
    CompleteBeforeCleanup(d, p);
    assert AllLinks(e) ==> forall a :: FileOrLink(e, a, p.bundle);
  }

  lemma {:induction false} CompleteBeforeCleanup(d: Disk, p: Plan)
    requires WellFormed(d) && Drawn(d, p) && AllEnabled(d, BeforeCleanup(d, p))
    ensures Complete(Run(d, BeforeCleanup(d, p)), p.generation, p.bundle)
  {
    var before := BeforeCleanup(d, p);
    StageComesFirst(d, p);
    hide *;
    DeployEnds(d, p);
    var ops := DeployOps(d, p);
    assert ops[..|before|] == before;
    DeployPublishes(d, p, |before|);
  }

  lemma {:induction false} StageComesFirst(d: Disk, p: Plan)
    ensures |StageOps(d.next, p.bundle, p.staging, p.generation)| <= |BeforeCleanup(d, p)|
  {
    hide StageOps, MigrateOps, SelectOps, EnsureOps, Run;
  }

  // ---- A pending link left over ---------------------------------------------------------

  lemma {:induction false} PendingBlocks(d: Disk, arts: seq<Artifact>, a: Artifact)
    requires a in arts && !Unblocked(d, a)
    ensures !AllEnabled(d, LinkUpOps(d, arts))
    decreases |arts|
  {
    var ops, first := LinkUpOps(d, arts), LinkOneOps(d, arts[0]);
    var m := Run(d, first);
    var rest := LinkUpOps(m, arts[1..]);
    LinkUpCons(d, arts);
    hide LinkUpOps;
    if arts[0] == a {
      assert !EnabledAt(d, ops, 0) by { assert ops[..0] == [] && ops[0] == first[0]; }
    } else {
      LinkOneElsewhere(d, arts[0], a);
      PendingBlocks(m, arts[1..], a);
      hide LinkOneOps, Run, AllEnabled, Unblocked;
      if AllEnabled(d, first + rest) { EnabledSplit(d, first, rest); }
    }
  }

  lemma {:induction false} LinkOneElsewhere(d: Disk, a: Artifact, c: Artifact)
    requires c != a
    ensures var e := Run(d, LinkOneOps(d, a)); Unblocked(e, c) == Unblocked(d, c)
  {
    if At(d, Public(a)).Symlink? {
      RunNone(d);
    } else {
      var make, move := MakeSymlink(PublicPending(a), ThroughCurrent(a)), Rename(PublicPending(a), Public(a));
      assert LinkOneOps(d, a) == [make] + [move];
      RunAppend(d, [make], [move]);
      RunOne(d, make);
      RunOne(Exec(d, make), move);
      RenameLooks(Exec(d, make), PublicPending(a), Public(a));
      var e := Exec(Exec(d, make), move);
      assert Look(e, Public(c)) == Look(Exec(d, make), Public(c));
      assert Look(e, PublicPending(c)) == Look(Exec(d, make), PublicPending(c));
    }
  }

  lemma {:induction false} EnsureBlocked(d: Disk, a: Artifact)
    requires !Unblocked(d, a)
    ensures !AllEnabled(d, EnsureOps(d))
  {
    var arts := ARTIFACTS;
    EveryArtifact();
    PendingBlocks(d, arts, a);
    var first := LinkUpOps(d, arts);
    assert EnsureOps(d) == first + [SyncDir(TARGET)] by { hide LinkUpOps; }
    hide LinkUpOps, EnsureOps, AllEnabled;
    if AllEnabled(d, first + [SyncDir(TARGET)]) { EnabledSplit(d, first, [SyncDir(TARGET)]); }
  }

  /** Selecting leaves the names blocked that were. */
  lemma {:induction false} SelectThenBlocked(d: Disk, g: string, a: Artifact)
    requires !Unblocked(d, a)
    ensures var m := Run(d, SelectOps(g)); !AllEnabled(d, SelectOps(g) + EnsureOps(m))
  {
    var m := Run(d, SelectOps(g));
    SelectEnds(d, g);
    assert Same(d, m, Public(a)) && Same(d, m, PublicPending(a));
    hide SelectOps, EnsureOps, Run, AllEnabled;
    EnsureBlocked(m, a);
    if AllEnabled(d, SelectOps(g) + EnsureOps(m)) { EnabledSplit(d, SelectOps(g), EnsureOps(m)); }
  }

  lemma {:induction false} SaveThenBlocked(d: Disk, staging: string, legacy: string, a: Artifact)
    requires WellFormed(d) && !NonePresent(d) && !AllSymlinks(d) && !Unblocked(d, a)
    ensures !AllEnabled(d, MigrateOps(d, staging, legacy))
  {
    var save := SaveLegacyOps(d.next, staging, legacy);
    var m := Run(d, save);
    var links := SelectOps(legacy) + EnsureOps(Run(m, SelectOps(legacy)));
    SaveLeavesNames(d, staging, legacy, Public(a));
    SaveLeavesNames(d, staging, legacy, PublicPending(a));
    assert !Unblocked(m, a);
    hide *;
    MigrateParts(d, staging, legacy);
    SelectThenBlocked(m, legacy, a);
    if AllEnabled(d, save + links) { EnabledSplit(d, save, links); }
  }

  /** A name that cannot be linked ends the migration. */
  lemma {:induction false} MigrateStuck(d: Disk, staging: string, legacy: string)
    requires WellFormed(d) && Unused(d, staging, legacy) && !Movable(d)
    ensures !AllEnabled(d, SaveLegacyOps(d.next, staging, legacy)) && !AllEnabled(d, MigrateOps(d, staging, legacy))
  {
    var save := SaveLegacyOps(d.next, staging, legacy);
    var m := Run(d, save);
    var links := SelectOps(legacy) + EnsureOps(Run(m, SelectOps(legacy)));
    assert !Linkable(d) && !NonePresent(d) && !AllSymlinks(d) && At(d, StagePlace(staging)) == Absent;
    hide *;
    MigrateParts(d, staging, legacy);
    if AllEnabled(d, save) { SaveNeedsSources(d, staging, legacy); }
    if AllEnabled(d, save + links) { EnabledSplit(d, save, links); }
  }

  lemma {:induction false} MigrateBlocked(d: Disk, staging: string, legacy: string, g: string, a: Artifact)
    requires WellFormed(d) && !Unblocked(d, a)
    ensures var migrate := MigrateOps(d, staging, legacy);
            var ops := migrate + SelectOps(g);
            !AllEnabled(d, ops + EnsureOps(Run(d, ops)))
  {
    var migrate := MigrateOps(d, staging, legacy);
    var ops := migrate + SelectOps(g);
    assert !AllSymlinks(d) by { assert !At(d, Public(a)).Symlink?; }
    if NonePresent(d) {
      assert migrate == [] && ops == SelectOps(g);
      hide *;
      SelectThenBlocked(d, g, a);
    } else {
      hide *;
      SaveThenBlocked(d, staging, legacy, a);
      if AllEnabled(d, ops + EnsureOps(Run(d, ops))) {
        EnabledSplit(d, ops, EnsureOps(Run(d, ops)));
        EnabledSplit(d, migrate, SelectOps(g));
      }
    }
  }

  /** What follows the staging block. */
  lemma {:induction false} BeforeCleanupSplits(d: Disk, p: Plan)
    ensures var stage := StageOps(d.next, p.bundle, p.staging, p.generation);
            var d1 := Run(d, stage);
            var more := MigrateOps(d1, p.legacyStaging, p.legacy) + SelectOps(p.generation);
            BeforeCleanup(d, p) == stage + (more + EnsureOps(Run(d1, more)))
  {
    var stage := StageOps(d.next, p.bundle, p.staging, p.generation);
    var d1 := Run(d, stage);
    var migrate, select := MigrateOps(d1, p.legacyStaging, p.legacy), SelectOps(p.generation);
    assert FrontOps(d, p) == stage + migrate by { hide StageOps, MigrateOps, Run; }
    hide StageOps, MigrateOps, SelectOps, EnsureOps, FrontOps, Run;
    assert stage + migrate + select == stage + (migrate + select);
    RunAppend(d, stage, migrate + select);
  }

  /** A deployment over a layout that is not clean stops somewhere before its cleanup. */
  lemma {:induction false} PublishBlocked(d: Disk, p: Plan)
    requires WellFormed(d) && Drawn(d, p) && !(NothingPending(d) && Movable(d))
    ensures !AllEnabled(d, BeforeCleanup(d, p))
  {
    var stage := StageOps(d.next, p.bundle, p.staging, p.generation);
    var d1 := Run(d, stage);
    var migrate := MigrateOps(d1, p.legacyStaging, p.legacy);
    var more := migrate + SelectOps(p.generation);
    var ensure := EnsureOps(Run(d1, more));
    var a := Cert;
    if !NothingPending(d) { a :| !Unblocked(d, a); }
    hide *;
    BeforeCleanupSplits(d, p);
    StageLeaves(d, p);
    StageKeepsLayout(d, p);
    if !Movable(d) { MigrateStuck(d1, p.legacyStaging, p.legacy); }
    if !NothingPending(d) { MigrateBlocked(d1, p.legacyStaging, p.legacy, p.generation, a); }
    if AllEnabled(d, stage + (more + ensure)) {
      EnabledSplit(d, stage, more + ensure);
      EnabledSplit(d1, more, ensure);
      EnabledSplit(d1, migrate, SelectOps(p.generation));
    }
  }

  /**
   Every system call up to the links succeeds exactly when no pending link is left over and the five names
   are all missing, all links, or can all be linked.
   */
  lemma {:induction false} PublishSucceedsIff(d: Disk, p: Plan)
    requires WellFormed(d) && Drawn(d, p)
    ensures AllEnabled(d, BeforeCleanup(d, p)) <==>
              NothingPending(d) && (NonePresent(d) || AllSymlinks(d) || Linkable(d))
  {
    hide WellFormed, Drawn, NonePresent, AllSymlinks, Linkable, BeforeCleanup, AllEnabled, Run, NothingPending;
    if NothingPending(d) && Movable(d) { PublishRunsThrough(d, p); } else { PublishBlocked(d, p); }
  }

  // ---- Cleanup --------------------------------------------------------------------------

  /** A directory that holds artifacts only. */
  ghost predicate Ordinary(d: Disk, at: Place, contents: seq<Name>) {
    At(d, at).Dir? ==> forall p :: p in d.slots && p.dir == At(d, at).dir && d.slots[p].now != Absent ==>
      p.name in contents && !d.slots[p].now.Dir?
  }

  predicate NoRepeat(names: seq<Name>) {
    forall i, j :: 0 <= i < j < |names| ==> names[i] != names[j]
  }

  /** The listing is read once; unlinking one name leaves the tests of the others as they were. */
  lemma {:induction false} UnlinkSame(d: Disk, e: Disk, dir: nat, names: seq<Name>)
    requires forall n :: n in names ==> At(e, Place(dir, n)) == At(d, Place(dir, n))
    ensures UnlinkOps(e, dir, names) == UnlinkOps(d, dir, names)
    decreases |names|
  {
    if names != [] {
      assert names[0] in names && forall n :: n in names[1..] ==> n in names;
      UnlinkSame(d, e, dir, names[1..]);
    }
  }

  lemma {:induction false} UnlinkRun(d: Disk, dir: nat, names: seq<Name>)
    requires dir < d.next
    requires NoRepeat(names) && forall n :: n in names ==> !At(d, Place(dir, n)).Dir?
    ensures var ops := UnlinkOps(d, dir, names);
            var e := Run(d, ops);
            && AllEnabled(d, ops) && e.next == d.next && e.inodes == d.inodes
            && (forall n :: n in names ==> At(e, Place(dir, n)) == Absent)
            && (forall p: Place :: (p.dir != dir || p.name !in names) ==> Look(e, p) == Look(d, p))
    decreases |names|
  {
    if names != [] {
      var at := Place(dir, names[0]);
      var first: seq<Op> := if At(d, at).Absent? then [] else [Unlink(at)];
      var rest := UnlinkOps(d, dir, names[1..]);
      assert UnlinkOps(d, dir, names) == first + rest;
      assert forall n :: n in names <==> n == names[0] || n in names[1..];
      var m := Run(d, first);
      assert AllEnabled(d, first) && m.next == d.next && m.inodes == d.inodes && At(m, at) == Absent
        && forall p :: p != at ==> Look(m, p) == Look(d, p) by {
        if first != [] { RunOne(d, Unlink(at)); EnabledOne(d, Unlink(at)); }
      }
      hide Run, AllEnabled, UnlinkOps;
      assert names[0] !in names[1..];
      UnlinkSame(d, m, dir, names[1..]);
      UnlinkRun(m, dir, names[1..]);
      EnabledAppend(d, first, rest);
      RunAppend(d, first, rest);
    }
  }

  lemma {:induction false} ContentsNoRepeat()
    ensures NoRepeat(CONTENTS)
  {
  }

  /** The directory is gone, and nothing outside it has changed. */
  ghost predicate Removed(d: Disk, e: Disk, at: Place) {
    && e.next == d.next && e.inodes == d.inodes
    && At(e, at) == Absent
    && forall p: Place :: p != at && (At(d, at).Dir? ==> p.dir != At(d, at).dir) ==> Look(e, p) == Look(d, p)
  }

  lemma {:induction false} EmptySucceeds(d: Disk, at: Place, contents: seq<Name>)
    requires WellFormed(d) && NoRepeat(contents) && Ordinary(d, at, contents)
    requires at.dir <= PINS && At(d, at).Dir?
    ensures AllEnabled(d, EmptyOps(d, at, contents)) && Removed(d, Run(d, EmptyOps(d, at, contents)), at)
  {
    var x := At(d, at).dir;
    assert at in d.slots;
    forall n | n in contents ensures !At(d, Place(x, n)).Dir? {
      if Place(x, n) in d.slots && At(d, Place(x, n)) != Absent { assert d.slots[Place(x, n)].now != Absent; }
    }
    UnlinkRun(d, x, contents);
    var unlink, last := UnlinkOps(d, x, contents), RemoveDir(at);
    var m := Run(d, unlink);
    hide Run, AllEnabled, UnlinkOps;
    forall p | p in m.slots && p.dir == x ensures m.slots[p].now.Absent? {
      if p.name !in contents { assert Look(m, p) == Look(d, p); } else { assert At(m, Place(x, p.name)) == Absent; }
    }
    assert Look(m, at) == Look(d, at);
    EnabledOne(m, last);
    RunOne(m, last);
    EnabledAppend(d, unlink, [last]);
    RunAppend(d, unlink, [last]);
  }

  lemma {:induction false} OrdinaryKept(d: Disk, e: Disk, at: Place, other: Place, contents: seq<Name>)
    requires WellFormed(d) && Removed(d, e, at) && at.dir <= PINS && other.dir <= PINS && other != at
    requires Ordinary(d, other, contents) && At(d, at).Dir?
    ensures Ordinary(e, other, contents) && At(e, other) == At(d, other)
  {
  }

  ghost predicate AllOrdinary(d: Disk, victims: seq<string>, contents: seq<Name>) {
    forall v :: v in victims ==> At(d, GenPlace(v)).Dir? && Ordinary(d, GenPlace(v), contents)
  }

  predicate Different(victims: seq<string>) { forall i, j :: 0 <= i < j < |victims| ==> victims[i] != victims[j] }

  /** All victims are gone, and every other entry of `generations` is as before. */
  ghost predicate Gone(d: Disk, e: Disk, victims: seq<string>) {
    forall g :: At(e, GenPlace(g)) == if g in victims then Absent else At(d, GenPlace(g))
  }

  lemma {:induction false} RemoveOneGone(d: Disk, e: Disk, v: string)
    requires WellFormed(d) && At(d, GenPlace(v)).Dir? && Removed(d, e, GenPlace(v))
    ensures Gone(d, e, [v])
  {
  }

  lemma {:induction false} GoneAppend(d: Disk, e: Disk, f: Disk, a: seq<string>, b: seq<string>)
    requires Gone(d, e, a) && Gone(e, f, b)
    ensures Gone(d, f, a + b)
  {
  }

  lemma {:induction false} RemoveOneSucceeds(d: Disk, victims: seq<string>, contents: seq<Name>)
    requires victims != [] && WellFormed(d) && NoRepeat(contents)
    requires Different(victims) && AllOrdinary(d, victims, contents)
    ensures var ops := EmptyOps(d, GenPlace(victims[0]), contents);
            var e := Run(d, ops);
            && AllEnabled(d, ops) && WellFormed(e) && Gone(d, e, [victims[0]])
            && Different(victims[1..]) && AllOrdinary(e, victims[1..], contents)
  {
    var v, later := victims[0], victims[1..];
    hide EmptyOps, Run, AllEnabled, Removed, Ordinary, WellFormed, Gone;
    assert v in victims && forall w :: w in later ==> w in victims && w != v;
    EmptySucceeds(d, GenPlace(v), contents);
    var e := Run(d, EmptyOps(d, GenPlace(v), contents));
    WellFormedRun(d, EmptyOps(d, GenPlace(v), contents));
    RemoveOneGone(d, e, v);
    forall w | w in later ensures At(e, GenPlace(w)).Dir? && Ordinary(e, GenPlace(w), contents) {
      OrdinaryKept(d, e, GenPlace(v), GenPlace(w), contents);
    }
  }

  lemma {:induction false} RemoveAllSucceeds(d: Disk, victims: seq<string>, contents: seq<Name>)
    requires WellFormed(d) && contents == CONTENTS && Different(victims) && AllOrdinary(d, victims, contents)
    ensures AllEnabled(d, RemoveAllOps(d, victims)) && Gone(d, Run(d, RemoveAllOps(d, victims)), victims)
    decreases |victims|
  {
    hide *;
    RemoveNothing(d);
    if victims != [] {
      var first := EmptyOps(d, GenPlace(victims[0]), contents);
      var m := Run(d, first);
      var rest := RemoveAllOps(m, victims[1..]);
      RemoveAllCons(d, victims);
      ContentsNoRepeat();
      RemoveOneSucceeds(d, victims, contents);
      RemoveAllSucceeds(m, victims[1..], contents);
      GoneAppend(d, m, Run(m, rest), [victims[0]], victims[1..]);
      assert victims == [victims[0]] + victims[1..];
      EnabledAppend(d, first, rest);
      RunAppend(d, first, rest);
    }
  }

  lemma {:induction false} RemoveNothing(d: Disk)
    ensures RemoveAllOps(d, []) == [] && AllEnabled(d, []) && Gone(d, Run(d, []), [])
  {
  }

  lemma {:induction false} RemoveAllCons(d: Disk, victims: seq<string>)
    requires victims != []
    ensures var first := EmptyOps(d, GenPlace(victims[0]), CONTENTS);
            RemoveAllOps(d, victims) == first + RemoveAllOps(Run(d, first), victims[1..])
  {
  }

  /** The cleanup goes through, and removes exactly the victims; they do not come back. */
  lemma {:induction false} CleanupSucceeds(d: Disk, victims: seq<string>)
    requires WellFormed(d) && Different(victims) && AllOrdinary(d, victims, CONTENTS)
    ensures AllEnabled(d, CleanupOps(d, victims)) && Gone(d, Run(d, CleanupOps(d, victims)), victims)
    ensures victims != [] ==> Synchronised(Run(d, CleanupOps(d, victims)), GENERATIONS)
  {
    var removal := RemoveAllOps(d, victims);
    var sync: seq<Op> := if victims == [] then [] else [SyncDir(GENERATIONS)];
    assert CleanupOps(d, victims) == removal + sync by { hide RemoveAllOps; }
    if victims != [] { SyncedLast(d, removal, GENERATIONS); }
    hide Synchronised;
    var m := Run(d, removal);
    hide RemoveAllOps, CleanupOps, AllOrdinary, Gone;
    RemoveAllSucceeds(d, victims, CONTENTS);
    WellFormedRun(d, removal);
    SyncGone(m, sync);
    GoneAppend(d, m, Run(m, sync), victims, []);
    assert victims + [] == victims;
    EnabledAppend(d, removal, sync);
    RunAppend(d, removal, sync);
  }

  lemma {:induction false} SyncGone(d: Disk, sync: seq<Op>)
    requires d.next > PINS && (sync == [] || sync == [SyncDir(GENERATIONS)])
    ensures AllEnabled(d, sync) && Gone(d, Run(d, sync), [])
  {
  }
}
