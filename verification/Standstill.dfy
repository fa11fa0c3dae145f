/**
 Layouts from which no deployment of generations succeeds any more, over any run of operations.
 */
module Standstill {
  import opened Basics
  import opened FileSystem
  import opened Publication
  import opened Phases
  import opened Switching
  import opened CrashConsistency
  import opened Snapshots
  import opened Immutability
  import opened Durability
  import opened Completion
  import opened Leftovers
  import Deployer

  // ---- Some names missing ---------------------------------------------------------------

  ghost predicate SameNames(d: Disk, e: Disk) { forall a :: At(e, Public(a)) == At(d, Public(a)) }

  lemma {:induction false} BlockKeepsNames(d: Disk, ops: seq<Op>, names: set<Place>, k: nat)
    requires WellFormed(d) && Contained(d, ops, names) && k <= |ops| && forall a :: Public(a) !in names
    ensures SameNames(d, Run(d, ops[..k]))
  {
    var e := Run(d, ops[..k]);
    assert Untouched(d, e, d.next, names) && d.next > PINS;
    hide Run;
    forall a ensures At(e, Public(a)) == At(d, Public(a)) {
      assert !Free(Public(a), d.next, names) && Same(d, e, Public(a));
    }
  }

  /** Staging leaves the layout as it is. */
  lemma {:induction false} StageStuck(d: Disk, p: Plan, k: nat)
    requires WellFormed(d) && Drawn(d, p) && Stuck(d)
    ensures var stage := StageOps(d.next, p.bundle, p.staging, p.generation);
            var d1 := Run(d, stage);
            && WellFormed(d1) && Stuck(d1) && SameNames(d, d1) && Unused(d1, p.legacyStaging, p.legacy)
            && (k <= |stage| ==> SameNames(d, Run(d, stage[..k])))
  {
    var stage := StageOps(d.next, p.bundle, p.staging, p.generation);
    var names := {StagePlace(p.staging), GenPlace(p.generation)};
    StageFacts(d, p.bundle, p.staging, p.generation);
    StageLeaves(d, p);
    hide StageOps, Run, AllEnabled, Sealed, WellFormed, Contained;
    if k <= |stage| { BlockKeepsNames(d, stage, names, k); }
  }

  /** Saving fails, and leaves the names alone. */
  lemma {:induction false} SaveStuck(d: Disk, staging: string, legacy: string, k: nat)
    requires WellFormed(d) && Unused(d, staging, legacy) && Stuck(d)
    ensures var save := SaveLegacyOps(d.next, staging, legacy);
            Migrates(d) && !AllEnabled(d, save) && (k <= |save| ==> SameNames(d, Run(d, save[..k])))
  {
    var save, names := SaveLegacyOps(d.next, staging, legacy), {StagePlace(staging), GenPlace(legacy)};
    StuckIsNotMovable(d);
    assert forall a :: Public(a) !in names;
    hide SaveLegacyOps, Run, AllEnabled, WellFormed, Movable, Stuck, Migrates, Unused;
    MigrateStuck(d, staging, legacy);
    SaveConfined(d.next, staging, legacy, d.next);
    QuietContained(d, save, names);
    if k <= |save| { BlockKeepsNames(d, save, names, k); }
  }

  /** A deployment over such a layout gets no further than its hard links, which leave the names alone. */
  lemma {:induction false} StuckDeploy(d: Disk, p: Plan, k: nat)
    requires WellFormed(d) && Drawn(d, p) && Stuck(d)
    requires k <= |DeployOps(d, p)| && AllEnabled(d, DeployOps(d, p)[..k])
    ensures SameNames(d, Run(d, DeployOps(d, p)[..k]))
  {
    hide *;
    var stage := StageOps(d.next, p.bundle, p.staging, p.generation);
    var d1 := Run(d, stage);
    var save, j := SaveLegacyOps(d1.next, p.legacyStaging, p.legacy), if k > |stage| then k - |stage| else 0;
    StageStuck(d, p, k);
    SaveStuck(d1, p.legacyStaging, p.legacy, j);
    var rest := AfterSave(d, p);
    PrefixOfTwo(d, stage, save + rest, k);
    if k > |stage| {
      PrefixOfTwo(d1, save, rest, j);
      SameNamesTransitive(d, d1, Run(d1, save[..j]));
    }
  }

  lemma {:induction false} SameNamesTransitive(d: Disk, e: Disk, f: Disk)
    requires SameNames(d, e) && SameNames(e, f)
    ensures SameNames(d, f)
  {
  }

  /** What follows the staging and the saving of a deployment that migrates. */
  lemma {:induction false} AfterSave(d: Disk, p: Plan) returns (rest: seq<Op>)
    requires Migrates(Run(d, StageOps(d.next, p.bundle, p.staging, p.generation)))
    ensures var stage := StageOps(d.next, p.bundle, p.staging, p.generation);
            DeployOps(d, p) == stage + (SaveLegacyOps(Run(d, stage).next, p.legacyStaging, p.legacy) + rest)
  {
    hide *;
    var stage := StageOps(d.next, p.bundle, p.staging, p.generation);
    var save := SaveLegacyOps(Run(d, stage).next, p.legacyStaging, p.legacy);
    var select := SelectOps(p.legacy);
    var later := MigratingDeployStarts(d, p);
    var links := EnsureOps(Run(Run(Run(d, stage), save), select)) + later;
    rest := select + links;
    assert stage + (save + select) + links == stage + (save + rest);
  }

  lemma {:induction false} StuckKept(d: Disk, e: Disk)
    requires Stuck(d) && SameNames(d, e)
    ensures Stuck(e)
  {
  }

  /** Selecting, pinning and tidying stay away from the five names. */
  lemma {:induction false} OtherKeepsNames(d: Disk, o: Operation, k: nat)
    requires WellFormed(d) && Lawful(d, o) && !o.Deploy? && !o.Replace? && k <= |OpsOf(d, o)|
    ensures SameNames(d, Run(d, OpsOf(d, o)[..k]))
  {
    match o
    case Choose(id) =>
      SelectContained(d, id);
      hide SelectOps, Run, WellFormed, Contained;
      BlockKeepsNames(d, SelectOps(id), SWITCH, k);
    case Hold(id) =>
      QuietContained(d, PinOps(id), {Place(PINS, Pin(id))});
      hide PinOps, Run, WellFormed, Contained;
      BlockKeepsNames(d, PinOps(id), {Place(PINS, Pin(id))}, k);
    case Tidy(at, calls) =>
      var contents := CONTENTS;
      TreeIsClear(d, at, contents, {});
      assert forall a :: at != Public(a);
      hide EmptyOps, TreeNames, Run, WellFormed, Contained, Clear;
      PartContained(d, at, contents, calls);
      BlockKeepsNames(d, calls, TreeNames(d, at, contents), k);
  }

  lemma {:induction false} StuckStep(d: Disk, e: Event)
    requires WellFormed(d) && Stuck(d) && CanHappen(d, e) && !e.operation.Replace?
    ensures WellFormed(Happen(d, e)) && Stuck(Happen(d, e))
  {
    var ops := OpsOf(d, e.operation);
    if e.operation.Deploy? { assert Drawn(d, e.operation.plan) && ops == DeployOps(d, e.operation.plan); }
    hide OpsOf, Lawful, WellFormed, Stuck, Run, AllEnabled, SameNames, Drawn, DeployOps;
    WellFormedRun(d, ops[..e.calls]);
    if e.operation.Deploy? {
      StuckDeploy(d, e.operation.plan, e.calls);
    } else {
      OtherKeepsNames(d, e.operation, e.calls);
    }
    StuckKept(d, Run(d, ops[..e.calls]));
  }

  lemma {:induction false} StuckHistory(d: Disk, events: seq<Event>)
    requires WellFormed(d) && Stuck(d) && AllCanHappen(d, events)
    requires forall e :: e in events ==> !e.operation.Replace?
    ensures WellFormed(After(d, events)) && Stuck(After(d, events))
    decreases |events|
  {
    if events != [] {
      hide WellFormed, Stuck, CanHappen, Happen;
      assert events[0] in events && forall e :: e in events[1..] ==> e in events;
      StuckStep(d, events[0]);
      StuckHistory(Happen(d, events[0]), events[1..]);
    }
  }

  /** Over a layout that is not clean, nothing that a deployment can report is a success. */
  lemma {:induction false} NothingSucceeds(d: Disk, p: Plan, ok: bool, m: Disk, e: Disk, calm: bool)
    requires WellFormed(d) && Drawn(d, p) && !(NothingPending(d) && Movable(d))
    requires Deployer.Deployed(d, p, ok, m, e, calm)
    ensures !ok
  {
    hide *;
    PublishBlocked(d, p);
    if ok {
      var k, x := Deployer.DeployedStops(d, p, ok, m, e, calm);
      StopsBeyond(d, p, k, x);
    }
  }

  lemma {:induction false} StopsBeyond(d: Disk, p: Plan, k: nat, m: Disk)
    requires StopsAfter(d, DeployOps(d, p), k, m) && k >= |BeforeCleanup(d, p)|
    ensures AllEnabled(d, BeforeCleanup(d, p))
  {
    var before := BeforeCleanup(d, p);
    hide DeployOps, BeforeCleanup, CleanupOps, AllEnabled, Run;
    DeployEnds(d, p);
    PrefixOfTwo(d, before, CleanupOps(Run(d, before), p.victims), k);
  }

  /**
   While some of the five names are missing and others not, no deployment of generations succeeds, whatever
   was done before it: only plain deployments, which replace the names, are left out of the history.
   */
  lemma {:induction false} StuckForever(d: Disk, events: seq<Event>, p: Plan, ok: bool, m: Disk, e: Disk, calm: bool)
    requires WellFormed(d) && Stuck(d) && AllCanHappen(d, events)
    requires forall e :: e in events ==> !e.operation.Replace?
    requires Drawn(After(d, events), p) && Deployer.Deployed(After(d, events), p, ok, m, e, calm)
    ensures Stuck(After(d, events)) && !ok
  {
    hide *;
    StuckHistory(d, events);
    StuckIsNotMovable(After(d, events));
    NothingSucceeds(After(d, events), p, ok, m, e, calm);
  }

  // ---- A pending link for good ----------------------------------------------------------

  /** A block that stays away from a name and its pending link. */
  lemma {:induction false} AsideBlocked(d: Disk, ops: seq<Op>, names: set<Place>, a: Artifact)
    requires WellFormed(d) && !Unblocked(d, a) && Contained(d, ops, names)
    requires Public(a) !in names && PublicPending(a) !in names
    ensures Throughout(d, ops, e => !Unblocked(e, a)) && !Unblocked(Run(d, ops), a)
  {
    assert d.next > PINS;
    hide Run, AllEnabled, WellFormed;
    forall k | 0 <= k <= |ops| ensures !Unblocked(Run(d, ops[..k]), a) {
      var e := Run(d, ops[..k]);
      assert Untouched(d, e, d.next, names);
      assert !Free(Public(a), d.next, names) && Same(d, e, Public(a));
      assert !Free(PublicPending(a), d.next, names) && Same(d, e, PublicPending(a));
    }
    assert ops[..|ops|] == ops;
  }

  lemma {:induction false} LinkOneBlocked(d: Disk, c: Artifact, a: Artifact)
    requires !Unblocked(d, a)
    ensures Throughout(d, LinkOneOps(d, c), e => !Unblocked(e, a))
  {
    var ops := LinkOneOps(d, c);
    if c != a { LinkOneElsewhere(d, c, a); }
    forall k | 0 <= k <= |ops| && AllEnabled(d, ops[..k]) ensures !Unblocked(Run(d, ops[..k]), a) {
      if k == 0 {
        assert ops[..k] == [];
      } else if k == |ops| && c != a {
        assert ops[..k] == ops;
      } else {
        assert EnabledAt(d, ops[..k], 0) && ops[..k][..0] == [];
        assert ops[..1] == [MakeSymlink(PublicPending(c), ThroughCurrent(c))];
        RunOne(d, MakeSymlink(PublicPending(c), ThroughCurrent(c)));
      }
    }
  }

  lemma {:induction false} LinkUpBlocked(d: Disk, arts: seq<Artifact>, a: Artifact)
    requires !Unblocked(d, a)
    ensures Throughout(d, LinkUpOps(d, arts), e => !Unblocked(e, a))
    decreases |arts|
  {
    if arts == [] {
      var none: seq<Op> := [];
      assert forall k :: 0 <= k <= |none| ==> none[..k] == none;
    } else {
      var first := LinkOneOps(d, arts[0]);
      var m := Run(d, first);
      LinkUpCons(d, arts);
      hide *;
      LinkOneBlocked(d, arts[0], a);
      if AllEnabled(d, first) {
        ThroughoutEnds(d, first, e => !Unblocked(e, a));
        LinkUpBlocked(m, arts[1..], a);
      }
      ThroughoutAppend(d, first, LinkUpOps(m, arts[1..]), e => !Unblocked(e, a));
    }
  }

  lemma {:induction false} SyncBlocked(d: Disk, dir: nat, a: Artifact)
    requires WellFormed(d) && !Unblocked(d, a)
    ensures Throughout(d, [SyncDir(dir)], e => !Unblocked(e, a))
  {
    QuietContained(d, [SyncDir(dir)], {});
    hide *;
    AsideBlocked(d, [SyncDir(dir)], {}, a);
  }

  lemma {:induction false} EnsureKeepsBlocked(d: Disk, a: Artifact)
    requires WellFormed(d) && !Unblocked(d, a)
    ensures Throughout(d, EnsureOps(d), e => !Unblocked(e, a))
  {
    var arts := ARTIFACTS;
    var first := LinkUpOps(d, arts);
    assert EnsureOps(d) == first + [SyncDir(TARGET)] by { hide LinkUpOps; }
    hide *;
    LinkUpBlocked(d, arts, a);
    if AllEnabled(d, first) {
      ThroughoutEnds(d, first, e => !Unblocked(e, a));
      WellFormedRun(d, first);
      SyncBlocked(Run(d, first), TARGET, a);
    }
    ThroughoutAppend(d, first, [SyncDir(TARGET)], e => !Unblocked(e, a));
  }

  lemma {:induction false} SelectBlocked(d: Disk, g: string, a: Artifact)
    requires WellFormed(d) && !Unblocked(d, a)
    ensures Throughout(d, SelectOps(g), e => !Unblocked(e, a)) && !Unblocked(Run(d, SelectOps(g)), a)
  {
    SelectContained(d, g);
    assert Public(a) !in SWITCH && PublicPending(a) !in SWITCH;
    hide *;
    AsideBlocked(d, SelectOps(g), SWITCH, a);
  }

  /** Selecting a generation and installing the links. */
  lemma {:induction false} LinksBlocked(d: Disk, g: string, a: Artifact)
    requires WellFormed(d) && !Unblocked(d, a)
    ensures Throughout(d, SelectOps(g) + EnsureOps(Run(d, SelectOps(g))), e => !Unblocked(e, a))
  {
    hide *;
    SelectBlocked(d, g, a);
    if AllEnabled(d, SelectOps(g)) {
      WellFormedRun(d, SelectOps(g));
      EnsureKeepsBlocked(Run(d, SelectOps(g)), a);
    }
    ThroughoutAppend(d, SelectOps(g), EnsureOps(Run(d, SelectOps(g))), e => !Unblocked(e, a));
  }

  lemma {:induction false} MigrateKeepsBlocked(d: Disk, staging: string, legacy: string, a: Artifact)
    requires WellFormed(d) && !Unblocked(d, a)
    ensures Throughout(d, MigrateOps(d, staging, legacy), e => !Unblocked(e, a))
  {
    if NonePresent(d) || AllSymlinks(d) {
      var none: seq<Op> := [];
      assert forall k :: 0 <= k <= |none| ==> none[..k] == none;
    } else {
      var save, names := SaveLegacyOps(d.next, staging, legacy), {StagePlace(staging), GenPlace(legacy)};
      var links := SelectOps(legacy) + EnsureOps(Run(Run(d, save), SelectOps(legacy)));
      SaveConfined(d.next, staging, legacy, d.next);
      QuietContained(d, save, names);
      assert Public(a) !in names && PublicPending(a) !in names;
      MigrateParts(d, staging, legacy);
      hide *;
      AsideBlocked(d, save, names, a);
      if AllEnabled(d, save) {
        WellFormedRun(d, save);
        LinksBlocked(Run(d, save), legacy, a);
      }
      ThroughoutAppend(d, save, links, e => !Unblocked(e, a));
    }
  }

  lemma {:induction false} TreeAvoidsNames(d: Disk, at: Place, contents: seq<Name>, a: Artifact)
    requires WellFormed(d) && (at.name.Staging? || at.name.Generation?) && at.dir <= PINS
    ensures Public(a) !in TreeNames(d, at, contents) && PublicPending(a) !in TreeNames(d, at, contents)
  {
  }

  lemma {:induction false} RemovalBlocked(d: Disk, at: Place, contents: seq<Name>, a: Artifact)
    requires WellFormed(d) && !Unblocked(d, a) && (at.name.Staging? || at.name.Generation?) && at.dir <= PINS
    ensures Throughout(d, EmptyOps(d, at, contents), e => !Unblocked(e, a))
    ensures !Unblocked(Run(d, EmptyOps(d, at, contents)), a)
  {
    hide *;
    EmptyContained(d, at, contents);
    TreeAvoidsNames(d, at, contents, a);
    AsideBlocked(d, EmptyOps(d, at, contents), TreeNames(d, at, contents), a);
  }

  lemma {:induction false} RemoveAllBlocked(d: Disk, victims: seq<string>, a: Artifact)
    requires WellFormed(d) && !Unblocked(d, a)
    ensures Throughout(d, RemoveAllOps(d, victims), e => !Unblocked(e, a))
    decreases |victims|
  {
    if victims == [] {
      var none: seq<Op> := [];
      assert forall k :: 0 <= k <= |none| ==> none[..k] == none;
    } else {
      var at := GenPlace(victims[0]);
      var first := EmptyOps(d, at, CONTENTS);
      var m := Run(d, first);
      assert at.name.Generation? && at.dir <= PINS;
      hide *;
      RemoveAllCons(d, victims);
      RemovalBlocked(d, at, CONTENTS, a);
      if AllEnabled(d, first) {
        WellFormedRun(d, first);
        RemoveAllBlocked(m, victims[1..], a);
      }
      ThroughoutAppend(d, first, RemoveAllOps(m, victims[1..]), e => !Unblocked(e, a));
    }
  }

  lemma {:induction false} CleanupBlocked(d: Disk, victims: seq<string>, a: Artifact)
    requires WellFormed(d) && !Unblocked(d, a)
    ensures Throughout(d, CleanupOps(d, victims), e => !Unblocked(e, a))
  {
    var removal := RemoveAllOps(d, victims);
    assert victims != [] ==> CleanupOps(d, victims) == removal + [SyncDir(GENERATIONS)] by { hide RemoveAllOps; }
    assert victims == [] ==> CleanupOps(d, victims) == removal;
    hide *;
    RemoveAllBlocked(d, victims, a);
    if AllEnabled(d, removal) {
      ThroughoutEnds(d, removal, e => !Unblocked(e, a));
      WellFormedRun(d, removal);
      SyncBlocked(Run(d, removal), GENERATIONS, a);
    }
    ThroughoutAppend(d, removal, [SyncDir(GENERATIONS)], e => !Unblocked(e, a));
  }

  lemma {:induction false} MiddleBlocked(d: Disk, p: Plan, a: Artifact)
    requires WellFormed(d) && !Unblocked(d, a)
    ensures Throughout(d, MiddleOps(d, p), e => !Unblocked(e, a))
  {
    var migrate, g := MigrateOps(d, p.legacyStaging, p.legacy), p.generation;
    var m := Run(d, migrate);
    var links := SelectOps(g) + EnsureOps(Run(m, SelectOps(g)));
    assert MiddleOps(d, p) == migrate + links by {
      hide MigrateOps, SelectOps, EnsureOps, Run;
      assert migrate + SelectOps(g) + EnsureOps(Run(m, SelectOps(g))) == migrate + links;
    }
    hide *;
    MigrateKeepsBlocked(d, p.legacyStaging, p.legacy, a);
    if AllEnabled(d, migrate) {
      ThroughoutEnds(d, migrate, e => !Unblocked(e, a));
      WellFormedRun(d, migrate);
      LinksBlocked(m, g, a);
    }
    ThroughoutAppend(d, migrate, links, e => !Unblocked(e, a));
  }

  lemma {:induction false} DeployBlocked(d: Disk, p: Plan, a: Artifact)
    requires WellFormed(d) && Drawn(d, p) && !Unblocked(d, a)
    ensures Throughout(d, DeployOps(d, p), e => !Unblocked(e, a))
  {
    var stage := StageOps(d.next, p.bundle, p.staging, p.generation);
    var names := {StagePlace(p.staging), GenPlace(p.generation)};
    var d1 := Run(d, stage);
    var middle := MiddleOps(d1, p);
    var d2 := Run(d1, middle);
    assert Public(a) !in names && PublicPending(a) !in names && Unused(d, p.staging, p.generation);
    hide *;
    DeploySplits(d, p);
    StageFacts(d, p.bundle, p.staging, p.generation);
    AsideBlocked(d, stage, names, a);
    MiddleBlocked(d1, p, a);
    if AllEnabled(d1, middle) {
      ThroughoutEnds(d1, middle, e => !Unblocked(e, a));
      WellFormedRun(d1, middle);
      CleanupBlocked(d2, p.victims, a);
    }
    ThroughoutAppend(d1, middle, CleanupOps(d2, p.victims), e => !Unblocked(e, a));
    ThroughoutAppend(d, stage, middle + CleanupOps(d2, p.victims), e => !Unblocked(e, a));
  }

  /** Moves files into artifact names, or works in a directory that is new. */
  predicate Plainly(op: Op, bound: nat) {
    match op
    case MakeDir(at) => at.name.Staging?
    case Create(at) => at.dir >= bound
    case Rename(from, to) => from.dir >= bound && to.name.Art?
    case Write(_, _) => true
    case SyncFile(_) => true
    case SyncDir(_) => true
    case _ => false
  }

  /** The name is blocked, and there is no link in a new directory. */
  ghost predicate BlockedPlainly(d: Disk, bound: nat, a: Artifact) {
    && bound > TARGET && bound <= d.next && !Unblocked(d, a)
    && forall p: Place :: p.dir >= bound ==> !At(d, p).Symlink?
  }

  lemma {:induction false} PlainStep(d: Disk, op: Op, bound: nat, a: Artifact)
    requires BlockedPlainly(d, bound, a) && Plainly(op, bound)
    ensures BlockedPlainly(Exec(d, op), bound, a)
  {
    if op.Rename? && op.from != op.to { RenameLooks(d, op.from, op.to); }
  }

  lemma {:induction false} PlainRun(d: Disk, ops: seq<Op>, bound: nat, a: Artifact)
    requires BlockedPlainly(d, bound, a) && forall op :: op in ops ==> Plainly(op, bound)
    ensures BlockedPlainly(Run(d, ops), bound, a)
    decreases |ops|
  {
    if ops != [] {
      hide Exec, BlockedPlainly, Plainly;
      assert ops[0] in ops && forall op :: op in ops[1..] ==> op in ops;
      PlainStep(d, ops[0], bound, a);
      PlainRun(Exec(d, ops[0]), ops[1..], bound, a);
    }
  }

  lemma {:induction false} WritesPlainly(dir: nat, ino: nat, b: Bundle, arts: seq<Artifact>)
    ensures forall op :: op in WriteOps(dir, ino, b, arts) ==> Plainly(op, dir)
    decreases |arts|
  {
    if arts != [] { WritesPlainly(dir, ino + 1, b, arts[1..]); }
  }

  lemma {:induction false} MovesPlainly(dir: nat, arts: seq<Artifact>)
    ensures forall op :: op in ReplaceOps(dir, TARGET, arts) ==> Plainly(op, dir)
    decreases |arts|
  {
    if arts != [] { MovesPlainly(dir, arts[1..]); }
  }

  lemma {:induction false} ReplaceAllPlainly(dir: nat, b: Bundle, staging: string, arts: seq<Artifact>)
    requires arts == ARTIFACTS
    ensures forall op :: op in ReplaceAllOps(dir, b, staging) ==> Plainly(op, dir)
  {
    WritesPlainly(dir, dir + 1, b, arts);
    MovesPlainly(dir, arts);
    ReplaceAllParts(dir, b, staging, arts);
    hide WriteOps, ReplaceOps, ReplaceAllOps;
  }

  lemma {:induction false} StartsPlainly(d: Disk, a: Artifact)
    requires WellFormed(d) && !Unblocked(d, a)
    ensures BlockedPlainly(d, d.next, a)
  {
  }

  lemma {:induction false} ReplaceAllBlocked(d: Disk, b: Bundle, staging: string, a: Artifact)
    requires WellFormed(d) && !Unblocked(d, a)
    ensures var ops := ReplaceAllOps(d.next, b, staging);
            Throughout(d, ops, e => !Unblocked(e, a)) && !Unblocked(Run(d, ops), a)
  {
    var ops := ReplaceAllOps(d.next, b, staging);
    ReplaceAllPlainly(d.next, b, staging, ARTIFACTS);
    StartsPlainly(d, a);
    hide ReplaceAllOps, Run, AllEnabled, WellFormed, Plainly, Unblocked;
    forall k | 0 <= k <= |ops| ensures !Unblocked(Run(d, ops[..k]), a) {
      assert forall op :: op in ops[..k] ==> op in ops;
      PlainRun(d, ops[..k], d.next, a);
    }
    assert ops[..|ops|] == ops;
  }

  lemma {:induction false} PlainKeepsBlocked(d: Disk, b: Bundle, staging: string, a: Artifact)
    requires WellFormed(d) && !Unblocked(d, a)
    ensures Throughout(d, PlainOps(d, b, staging), e => !Unblocked(e, a))
  {
    var main, contents := ReplaceAllOps(d.next, b, staging), CONTENTS;
    var e := Run(d, main);
    var tidy := EmptyOps(e, TempPlace(staging), contents);
    assert PlainOps(d, b, staging) == main + tidy by { hide ReplaceAllOps, EmptyOps, Run; }
    assert TempPlace(staging).name.Staging? && TempPlace(staging).dir <= PINS;
    hide *;
    ReplaceAllBlocked(d, b, staging, a);
    if AllEnabled(d, main) {
      WellFormedRun(d, main);
      RemovalBlocked(e, TempPlace(staging), contents, a);
    }
    ThroughoutAppend(d, main, tidy, x => !Unblocked(x, a));
  }

  lemma {:induction false} OperationBlocked(d: Disk, o: Operation, a: Artifact)
    requires WellFormed(d) && Lawful(d, o) && !Unblocked(d, a)
    ensures Throughout(d, OpsOf(d, o), e => !Unblocked(e, a))
  {
    match o
    case Deploy(p) => DeployBlocked(d, p, a);
    case Replace(b, staging) => PlainKeepsBlocked(d, b, staging, a);
    case Choose(id) => SelectBlocked(d, id, a);
    case Hold(id) =>
      var names := {Place(PINS, Pin(id))};
      QuietContained(d, PinOps(id), names);
      assert Public(a) !in names && PublicPending(a) !in names;
      hide *;
      AsideBlocked(d, PinOps(id), names, a);
    case Tidy(at, calls) =>
      var contents := CONTENTS;
      PartContained(d, at, contents, calls);
      TreeAvoidsNames(d, at, contents, a);
      hide *;
      AsideBlocked(d, calls, TreeNames(d, at, contents), a);
  }

  lemma {:induction false} BlockedStep(d: Disk, e: Event, a: Artifact)
    requires WellFormed(d) && !Unblocked(d, a) && CanHappen(d, e)
    ensures WellFormed(Happen(d, e)) && !Unblocked(Happen(d, e), a)
  {
    var ops := OpsOf(d, e.operation);
    hide OpsOf, Lawful, WellFormed, Run, AllEnabled, Unblocked;
    WellFormedRun(d, ops[..e.calls]);
    OperationBlocked(d, e.operation, a);
  }

  lemma {:induction false} BlockedHistory(d: Disk, events: seq<Event>, a: Artifact)
    requires WellFormed(d) && !Unblocked(d, a) && AllCanHappen(d, events)
    ensures WellFormed(After(d, events)) && !Unblocked(After(d, events), a)
    decreases |events|
  {
    if events != [] {
      hide WellFormed, Unblocked, CanHappen, Happen;
      BlockedStep(d, events[0], a);
      BlockedHistory(Happen(d, events[0]), events[1..], a);
    }
  }

  /**
   A pending link left over under a name that is not a link stays, whatever operations follow, and no
   deployment of generations succeeds any more. Even a plain deployment does not help.
   */
  lemma {:induction false} PendingForever(d: Disk, events: seq<Event>, a: Artifact, p: Plan, ok: bool, m: Disk, e: Disk,
                                          calm: bool)
    requires WellFormed(d) && !Unblocked(d, a) && AllCanHappen(d, events)
    requires Drawn(After(d, events), p) && Deployer.Deployed(After(d, events), p, ok, m, e, calm)
    ensures !Unblocked(After(d, events), a) && !ok
  {
    var s := After(d, events);
    assert NothingPending(s) ==> Unblocked(s, a);
    hide *;
    BlockedHistory(d, events, a);
    NothingSucceeds(s, p, ok, m, e, calm);
  }
}
