/** A published generation never changes, over any run of operations, each stopped anywhere. */
module Immutability {
  import opened Basics
  import opened FileSystem
  import opened Publication
  import opened Phases
  import opened Switching
  import opened CrashConsistency
  import opened Snapshots

  datatype Operation =
    | Deploy(plan: Plan)
    | Replace(bundle: Bundle, staging: string)     // generation mode off
    | Choose(id: string)
    | Hold(id: string)                             // pin
    | Tidy(at: Place, calls: seq<Op>)              // a staging directory left by a failure

  function OpsOf(d: Disk, o: Operation): seq<Op> {
    match o
    case Deploy(p) => DeployOps(d, p)
    case Replace(b, staging) => PlainOps(d, b, staging)
    case Choose(id) => SelectOps(id)
    case Hold(id) => PinOps(id)
    case Tidy(_, calls) => calls
  }

  /** Drawn names are unused, and tidying makes some calls of the removal of a staging directory. */
  predicate Lawful(d: Disk, o: Operation) {
    match o
    case Deploy(p) => Drawn(d, p)
    case Replace(_, staging) => At(d, TempPlace(staging)) == Absent
    case Tidy(at, calls) =>
      at.name.Staging? && at.dir <= PINS && forall op :: op in calls ==> op in RemoveTreeOps(d, at)
    case _ => true
  }

  // ---- Content --------------------------------------------------------------------------

  /** There now, or on disk for good. */
  ghost predicate Held(d: Disk, g: string, b: Bundle, deep: bool) {
    if deep then Sealed(d, g, b) else Complete(d, g, b)
  }

  lemma {:induction false} HeldKept(d: Disk, e: Disk, names: set<Place>, g: string, b: Bundle, deep: bool)
    requires WellFormed(d) && Held(d, g, b, deep) && Untouched(d, e, d.next, names) && Clear(d, names, {g})
    ensures Held(e, g, b, deep)
  {
    hide WellFormed, Sealed, Complete, Untouched, Clear;
    if deep { SealedKept(d, e, names, g, b); } else { CompleteKept(d, e, names, g, b); }
  }

  lemma {:induction false} BlockKeeps(d: Disk, ops: seq<Op>, names: set<Place>, g: string, b: Bundle, deep: bool)
    requires WellFormed(d) && Held(d, g, b, deep) && Contained(d, ops, names) && Clear(d, names, {g})
    ensures Throughout(d, ops, e => Held(e, g, b, deep))
    ensures Held(Run(d, ops), g, b, deep)
  {
    hide Run, Held, AllEnabled, Untouched, WellFormed;
    forall k | 0 <= k <= |ops| ensures Held(Run(d, ops[..k]), g, b, deep) {
      HeldKept(d, Run(d, ops[..k]), names, g, b, deep);
    }
    assert ops[..|ops|] == ops;
  }

  lemma {:induction false} EmptyKeeps(d: Disk, at: Place, contents: seq<Name>, g: string, b: Bundle, deep: bool)
    requires WellFormed(d) && Held(d, g, b, deep) && at.dir <= PINS && at != GenPlace(g)
    ensures Throughout(d, EmptyOps(d, at, contents), e => Held(e, g, b, deep))
    ensures Held(Run(d, EmptyOps(d, at, contents)), g, b, deep)
  {
    EmptyContained(d, at, contents);
    TreeIsClear(d, at, contents, {g});
    hide *;
    BlockKeeps(d, EmptyOps(d, at, contents), TreeNames(d, at, contents), g, b, deep);
  }

  lemma {:induction false} RemoveAllKeeps(d: Disk, victims: seq<string>, g: string, b: Bundle, deep: bool)
    requires WellFormed(d) && Held(d, g, b, deep) && g !in victims
    ensures var ops := RemoveAllOps(d, victims);
            && Throughout(d, ops, e => Held(e, g, b, deep))
            && (AllEnabled(d, ops) ==> Held(Run(d, ops), g, b, deep))
    decreases |victims|
  {
    if victims == [] {
      var none: seq<Op> := [];
      assert forall k :: 0 <= k <= |none| ==> none[..k] == none;
    } else {
      assert victims[0] in victims && forall v :: v in victims[1..] ==> v in victims;
      var first := EmptyOps(d, GenPlace(victims[0]), CONTENTS);
      var rest := RemoveAllOps(Run(d, first), victims[1..]);
      assert RemoveAllOps(d, victims) == first + rest;
      hide EmptyOps, RemoveAllOps, Run, AllEnabled, Throughout, Held, WellFormed;
      EmptyKeeps(d, GenPlace(victims[0]), CONTENTS, g, b, deep);
      if AllEnabled(d, first) {
        WellFormedRun(d, first);
        RemoveAllKeeps(Run(d, first), victims[1..], g, b, deep);
      }
      ThroughoutAppend(d, first, rest, e => Held(e, g, b, deep));
      RunAppend(d, first, rest);
      if AllEnabled(d, first + rest) { EnabledSplit(d, first, rest); }
    }
  }

  lemma {:induction false} CleanupKeeps(d: Disk, victims: seq<string>, g: string, b: Bundle, deep: bool)
    requires WellFormed(d) && Held(d, g, b, deep) && g !in victims
    ensures Throughout(d, CleanupOps(d, victims), e => Held(e, g, b, deep))
  {
    var removal := RemoveAllOps(d, victims);
    var sync: seq<Op> := if victims == [] then [] else [SyncDir(GENERATIONS)];
    assert CleanupOps(d, victims) == removal + sync;
    hide *;
    RemoveAllKeeps(d, victims, g, b, deep);
    if AllEnabled(d, removal) {
      WellFormedRun(d, removal);
      SyncKeeps(Run(d, removal), sync, g, b, deep);
    }
    ThroughoutAppend(d, removal, sync, e => Held(e, g, b, deep));
  }

  lemma {:induction false} SyncKeeps(d: Disk, sync: seq<Op>, g: string, b: Bundle, deep: bool)
    requires WellFormed(d) && Held(d, g, b, deep) && (sync == [] || sync == [SyncDir(GENERATIONS)])
    ensures Throughout(d, sync, e => Held(e, g, b, deep))
  {
  }

  // ---- Deployments ----------------------------------------------------------------------

  /** Migration, selection and links. */
  function MiddleOps(d: Disk, p: Plan): seq<Op> {
    var migrate := MigrateOps(d, p.legacyStaging, p.legacy);
    var m := Run(d, migrate);
    migrate + SelectOps(p.generation) + EnsureOps(Run(m, SelectOps(p.generation)))
  }

  lemma {:induction false} DeploySplits(d: Disk, p: Plan)
    ensures var stage := StageOps(d.next, p.bundle, p.staging, p.generation);
            var d1 := Run(d, stage);
            var middle := MiddleOps(d1, p);
            DeployOps(d, p) == stage + (middle + CleanupOps(Run(d1, middle), p.victims))
  {
    DeployParts(d, p);
    var stage := StageOps(d.next, p.bundle, p.staging, p.generation);
    var d1 := Run(d, stage);
    var migrate := MigrateOps(d1, p.legacyStaging, p.legacy);
    var d2 := Run(d1, migrate);
    var select := SelectOps(p.generation);
    var ensure := EnsureOps(Run(d2, select));
    hide DeployOps, StageOps, MigrateOps, SelectOps, EnsureOps, CleanupOps, Run;
    RunAppend(d1, migrate, select);
    RunAppend(d1, migrate + select, ensure);
    var cleanup := CleanupOps(Run(Run(d2, select), ensure), p.victims);
    assert stage + migrate + (select + ensure + cleanup) == stage + ((migrate + select + ensure) + cleanup);
  }

  function MiddleNames(p: Plan, arts: seq<Artifact>): set<Place> {
    {StagePlace(p.legacyStaging), GenPlace(p.legacy)} + SWITCH + LinkNames(arts)
  }

  /** Every operation of the block writes no file and stays within the names. */
  ghost predicate Within(ops: seq<Op>, bound: nat, names: set<Place>) {
    forall op :: op in ops ==> Confined(op, bound, names) && Quiet(op)
  }

  lemma {:induction false} WithinAppend(a: seq<Op>, b: seq<Op>, bound: nat, names: set<Place>)
    requires Within(a, bound, names) && Within(b, bound, names)
    ensures Within(a + b, bound, names)
  {
  }

  lemma {:induction false} WithinMore(ops: seq<Op>, bound: nat, less: set<Place>, more: set<Place>)
    requires Within(ops, bound, less) && less <= more
    ensures Within(ops, bound, more)
  {
  }

  lemma {:induction false} SelectWithin(g: string, bound: nat, names: set<Place>)
    requires SWITCH <= names
    ensures Within(SelectOps(g), bound, names)
  {
  }

  lemma {:induction false} MigrateWithin(d: Disk, p: Plan, arts: seq<Artifact>)
    requires arts == ARTIFACTS
    ensures Within(MigrateOps(d, p.legacyStaging, p.legacy), d.next, MiddleNames(p, arts))
  {
    if !NonePresent(d) && !AllSymlinks(d) {
      var names := MiddleNames(p, arts);
      var save, select := SaveLegacyOps(d.next, p.legacyStaging, p.legacy), SelectOps(p.legacy);
      var ensure := EnsureOps(Run(Run(d, save), select));
      assert MigrateOps(d, p.legacyStaging, p.legacy) == save + select + ensure;
      assert {StagePlace(p.legacyStaging), GenPlace(p.legacy)} <= names && SWITCH <= names && LinkNames(arts) <= names;
      SaveConfined(d.next, p.legacyStaging, p.legacy, d.next);
      hide SaveLegacyOps, SelectOps, EnsureOps, Run, Confined, Quiet, MiddleNames, LinkNames;
      WithinMore(save, d.next, {StagePlace(p.legacyStaging), GenPlace(p.legacy)}, names);
      SelectWithin(p.legacy, d.next, names);
      EnsureConfined(Run(Run(d, save), select), d.next, names);
      assert Within(ensure, d.next, names);
      hide Within;
      WithinAppend(save, select, d.next, names);
      WithinAppend(save + select, ensure, d.next, names);
    }
  }

  lemma {:induction false} MiddleContained(d: Disk, p: Plan, arts: seq<Artifact>)
    requires arts == ARTIFACTS
    ensures Contained(d, MiddleOps(d, p), MiddleNames(p, arts))
    ensures forall op :: op in MiddleOps(d, p) ==> Quiet(op)
  {
    var names := MiddleNames(p, arts);
    var migrate, select := MigrateOps(d, p.legacyStaging, p.legacy), SelectOps(p.generation);
    var ensure := EnsureOps(Run(Run(d, migrate), select));
    assert MiddleOps(d, p) == migrate + select + ensure;
    assert SWITCH <= names && LinkNames(arts) <= names;
    hide MigrateOps, SelectOps, EnsureOps, MiddleNames, LinkNames, Run, Confined, Quiet;
    MigrateWithin(d, p, arts);
    SelectWithin(p.generation, d.next, names);
    EnsureConfined(Run(Run(d, migrate), select), d.next, names);
    assert Within(ensure, d.next, names);
    WithinAppend(migrate, select, d.next, names);
    WithinAppend(migrate + select, ensure, d.next, names);
    hide MiddleOps;
    QuietContained(d, MiddleOps(d, p), names);
  }

  /** What is complete after staging stays so to the end. */
  lemma {:induction false} RestKeeps(d: Disk, p: Plan, g: string, b: Bundle, deep: bool)
    requires WellFormed(d) && Held(d, g, b, deep) && g != p.legacy && g !in p.victims
    ensures var middle := MiddleOps(d, p);
            Throughout(d, middle + CleanupOps(Run(d, middle), p.victims), e => Held(e, g, b, deep))
  {
    var arts := ARTIFACTS;
    MiddleContained(d, p, arts);
    MiddleIsClear(d, p, arts, g);
    hide *;
    var middle := MiddleOps(d, p);
    var e := Run(d, middle);
    var cleanup := CleanupOps(e, p.victims);
    BlockKeeps(d, middle, MiddleNames(p, arts), g, b, deep);
    if AllEnabled(d, middle) {
      WellFormedRun(d, middle);
      CleanupKeeps(e, p.victims, g, b, deep);
    }
    ThroughoutAppend(d, middle, cleanup, e => Held(e, g, b, deep));
  }

  lemma {:induction false} MiddleIsClear(d: Disk, p: Plan, arts: seq<Artifact>, g: string)
    requires g != p.legacy
    ensures Clear(d, MiddleNames(p, arts), {g})
  {
  }

  lemma {:induction false} DeployKeeps(d: Disk, p: Plan, g: string, b: Bundle, deep: bool)
    requires WellFormed(d) && Drawn(d, p) && Held(d, g, b, deep) && g !in p.victims
    ensures Throughout(d, DeployOps(d, p), e => Held(e, g, b, deep))
  {
    var stage := StageOps(d.next, p.bundle, p.staging, p.generation);
    var names := {StagePlace(p.staging), GenPlace(p.generation)};
    StagePhase(d, p.bundle, p.staging, p.generation);
    assert Clear(d, names, {g}) && g != p.legacy;
    assert Contained(d, stage, names) && AllEnabled(d, stage);
    DeploySplits(d, p);
    var d1 := Run(d, stage);
    var rest := MiddleOps(d1, p) + CleanupOps(Run(d1, MiddleOps(d1, p)), p.victims);
    hide *;
    BlockKeeps(d, stage, names, g, b, deep);
    WellFormedRun(d, stage);
    RestKeeps(d1, p, g, b, deep);
    ThroughoutAppend(d, stage, rest, e => Held(e, g, b, deep));
  }

  /** Once it is staged, the new generation itself is on disk for good, whatever part of the rest runs. */
  lemma {:induction false} DeployPublishes(d: Disk, p: Plan, k: nat)
    requires WellFormed(d) && Drawn(d, p)
    requires k <= |DeployOps(d, p)| && AllEnabled(d, DeployOps(d, p)[..k])
    requires k >= |StageOps(d.next, p.bundle, p.staging, p.generation)|
    ensures var e := Run(d, DeployOps(d, p)[..k]);
            Sealed(e, p.generation, p.bundle) && Complete(e, p.generation, p.bundle)
  {
    hide *;
    StagePublishes(d, p);
    DeploySplits(d, p);
    var stage := StageOps(d.next, p.bundle, p.staging, p.generation);
    var d1 := Run(d, stage);
    var rest := MiddleOps(d1, p) + CleanupOps(Run(d1, MiddleOps(d1, p)), p.victims);
    RestKeeps(d1, p, p.generation, p.bundle, true);
    PrefixOfTwo(d, stage, rest, k);
    ThroughoutHeld(d1, rest, p.generation, p.bundle, k - |stage|, true);
    HeldIsSealed(Run(d, DeployOps(d, p)[..k]), p.generation, p.bundle);
    SealedIsComplete(Run(d, DeployOps(d, p)[..k]), p.generation, p.bundle);
  }

  lemma {:induction false} StagePublishes(d: Disk, p: Plan)
    requires WellFormed(d) && Drawn(d, p)
    ensures var e := Run(d, StageOps(d.next, p.bundle, p.staging, p.generation));
            WellFormed(e) && Held(e, p.generation, p.bundle, true)
    ensures p.generation != p.legacy && p.generation !in p.victims
  {
    var stage := StageOps(d.next, p.bundle, p.staging, p.generation);
    StagePhase(d, p.bundle, p.staging, p.generation);
    hide StageOps, Run, AllEnabled, WellFormed, Sealed, Contained;
    WellFormedRun(d, stage);
  }

  lemma {:induction false} HeldIsSealed(d: Disk, g: string, b: Bundle)
    requires Held(d, g, b, true)
    ensures Sealed(d, g, b)
  {
  }

  lemma {:induction false} ThroughoutHeld(d: Disk, ops: seq<Op>, g: string, b: Bundle, k: nat, deep: bool)
    requires Throughout(d, ops, e => Held(e, g, b, deep)) && k <= |ops| && AllEnabled(d, ops[..k])
    ensures Held(Run(d, ops[..k]), g, b, deep)
  {
  }

  // ---- Selection and migration ----------------------------------------------------------

  /** Selecting and linking keep any generation, selected or not. */
  lemma {:induction false} LinksKeepHeld(d: Disk, selected: string, g: string, b: Bundle, deep: bool)
    requires WellFormed(d) && Held(d, g, b, deep)
    ensures var ops := SelectOps(selected) + EnsureOps(Run(d, SelectOps(selected)));
            && Throughout(d, ops, e => Held(e, g, b, deep))
            && (AllEnabled(d, ops) ==> WellFormed(Run(d, ops)) && Held(Run(d, ops), g, b, deep))
  {
    ClearOfTarget(d, SWITCH, {g});
    hide WellFormed, Held, SelectOps, EnsureOps, Run, AllEnabled, Throughout, LinkNames, Clear;
    var arts := ARTIFACTS;
    var select := SelectOps(selected);
    var m := Run(d, select);
    var ensure := EnsureOps(m);
    SelectContained(d, selected);
    BlockKeeps(d, select, SWITCH, g, b, deep);
    if AllEnabled(d, select) {
      WellFormedRun(d, select);
      EnsureContained(m);
      LinkNamesInTarget(arts);
      ClearOfTarget(m, LinkNames(arts), {g});
      BlockKeeps(m, ensure, LinkNames(arts), g, b, deep);
    }
    ThroughoutAppend(d, select, ensure, e => Held(e, g, b, deep));
    if AllEnabled(d, select + ensure) {
      ThroughoutEnds(d, select + ensure, e => Held(e, g, b, deep));
      WellFormedRun(d, select + ensure);
    }
  }

  lemma {:induction false} FinishKeeps(d: Disk, selected: string, victims: seq<string>, g: string, b: Bundle,
                                       deep: bool)
    requires WellFormed(d) && Held(d, g, b, deep) && g !in victims
    ensures Throughout(d, FinishOps(d, selected, victims), e => Held(e, g, b, deep))
  {
    hide *;
    var m := Run(d, SelectOps(selected));
    var front := SelectOps(selected) + EnsureOps(m);
    var e := Run(m, EnsureOps(m));
    var cleanup := CleanupOps(e, victims);
    FinishJoins(d, selected, victims);
    LinksKeepHeld(d, selected, g, b, deep);
    RunAppend(d, SelectOps(selected), EnsureOps(m));
    if AllEnabled(d, front) { CleanupKeeps(e, victims, g, b, deep); }
    ThroughoutAppend(d, front, cleanup, x => Held(x, g, b, deep));
  }

  lemma {:induction false} FinishJoins(d: Disk, g: string, victims: seq<string>)
    ensures var m := Run(d, SelectOps(g));
            FinishOps(d, g, victims)
              == SelectOps(g) + EnsureOps(m) + CleanupOps(Run(m, EnsureOps(m)), victims)
  {
  }

  /** A deployment saves what is linked, and that is five files. */
  ghost predicate SavesFiles(d: Disk) { Migrates(d) && forall a :: LinkSource(d, Public(a)).File? }

  lemma {:induction false} PlainIsSaved(d: Disk)
    requires AllPlain(d)
    ensures SavesFiles(d)
  {
    assert At(d, Public(Cert)).File?;
  }

  lemma {:induction false} SavedFiles(d: Disk)
    requires WellFormed(d) && SavesFiles(d)
    ensures Savable(d, Files(d))
    ensures Durable(d) ==> forall a :: SourceHolds(d, a, Get(Files(d), a))
  {
    forall a ensures LinkSource(d, Public(a)).File?
      ensures DataOf(d, LinkSource(d, Public(a)).ino) == Some(Get(Files(d), a))
    {
      assert LinkSource(d, Public(a)).File?;
      SourceFits(d, Public(a));
    }
  }

  lemma {:induction false} SavedIsHeld(d: Disk, staging: string, legacy: string, deep: bool)
    requires WellFormed(d) && Unused(d, staging, legacy) && SavesFiles(d) && (deep ==> Durable(d))
    ensures var save := SaveLegacyOps(d.next, staging, legacy);
            AllEnabled(d, save) && Held(Run(d, save), legacy, Files(d), deep)
  {
    SavedFiles(d);
    hide SaveLegacyOps, Run, AllEnabled, WellFormed, Sealed, Complete, Contained, Savable, SourceHolds, Files;
    if deep {
      SaveLegacyPhase(d, Files(d), staging, legacy);
    } else {
      SavedIsComplete(d, Files(d), staging, legacy);
    }
  }

  lemma {:induction false} SavingMigrates(d: Disk)
    requires SavesFiles(d)
    ensures !NonePresent(d) && !AllSymlinks(d)
  {
  }

  /** What was linked is a generation once the migration has gone through. */
  lemma {:induction false} MigrationSaves(d: Disk, staging: string, legacy: string, deep: bool)
    requires WellFormed(d) && Unused(d, staging, legacy) && SavesFiles(d) && (deep ==> Durable(d))
    requires AllEnabled(d, MigrateOps(d, staging, legacy))
    ensures var e := Run(d, MigrateOps(d, staging, legacy)); WellFormed(e) && Held(e, legacy, Files(d), deep)
  {
    hide *;
    var save := SaveLegacyOps(d.next, staging, legacy);
    var m := Run(d, save);
    var links := SelectOps(legacy) + EnsureOps(Run(m, SelectOps(legacy)));
    SavingMigrates(d);
    MigrateParts(d, staging, legacy);
    SavedIsHeld(d, staging, legacy, deep);
    WellFormedRun(d, save);
    EnabledSplit(d, save, links);
    LinksKeepHeld(m, legacy, legacy, Files(d), deep);
    RunAppend(d, save, links);
  }

  lemma {:induction false} FrontSaves(d: Disk, p: Plan, deep: bool)
    requires WellFormed(d) && Drawn(d, p) && SavesFiles(d) && (deep ==> Durable(d)) && AllEnabled(d, FrontOps(d, p))
    ensures var e := Run(d, FrontOps(d, p)); WellFormed(e) && Held(e, p.legacy, Files(d), deep)
  {
    var stage := StageOps(d.next, p.bundle, p.staging, p.generation);
    var d1 := Run(d, stage);
    var migrate := MigrateOps(d1, p.legacyStaging, p.legacy);
    assert FrontOps(d, p) == stage + migrate by { hide StageOps, MigrateOps, Run; }
    StageKeepsFiles(d, p);
    assert SavesFiles(d1) by { hide StageOps, Run, LinkSource, Migrates; }
    hide *;
    StageLeaves(d, p);
    EnabledSplit(d, stage, migrate);
    MigrationSaves(d1, p.legacyStaging, p.legacy, deep);
    RunAppend(d, stage, migrate);
  }

  /** What the migration saved stays to the end, unless the cleanup names it. */
  lemma {:induction false} DeploySaves(d: Disk, p: Plan, k: nat, deep: bool)
    requires WellFormed(d) && Drawn(d, p) && SavesFiles(d) && (deep ==> Durable(d)) && p.legacy !in p.victims
    requires |FrontOps(d, p)| <= k <= |DeployOps(d, p)| && AllEnabled(d, DeployOps(d, p)[..k])
    ensures Held(Run(d, DeployOps(d, p)[..k]), p.legacy, Files(d), deep)
  {
    hide *;
    var front := FrontOps(d, p);
    var m := Run(d, front);
    var finish := FinishOps(m, p.generation, p.victims);
    DeployJoins(d, p);
    PrefixOfTwo(d, front, finish, k);
    FrontSaves(d, p, deep);
    FinishKeeps(m, p.generation, p.victims, p.legacy, Files(d), deep);
    ThroughoutHeld(m, finish, p.legacy, Files(d), k - |front|, deep);
  }

  // ---- Plain deployments ----------------------------------------------------------------

  /** Every operation of the block stays within the names and shares no file with a new directory. */
  ghost predicate Creates(ops: seq<Op>, bound: nat, names: set<Place>) {
    forall op :: op in ops ==> Confined(op, bound, names) && KeepsUnshared(op, bound)
  }

  lemma {:induction false} CreatesAppend(a: seq<Op>, b: seq<Op>, bound: nat, names: set<Place>)
    requires Creates(a, bound, names) && Creates(b, bound, names)
    ensures Creates(a + b, bound, names)
  {
  }

  lemma {:induction false} CreatesOne(op: Op, bound: nat, names: set<Place>)
    requires (op.MakeDir? && op.at in names) || op.SyncDir?
    ensures Creates([op], bound, names)
  {
  }

  lemma {:induction false} TempCreates(dir: nat, b: Bundle, at: Place, arts: seq<Artifact>)
    ensures Creates(TempOps(dir, b, at, arts), dir, {at})
  {
    WritesConfined(dir, dir + 1, b, arts, dir, {at});
    hide WriteOps;
  }

  lemma {:induction false} MoveInCreates(dir: nat, arts: seq<Artifact>, bound: nat, names: set<Place>)
    requires dir >= bound > PINS && Arts(TARGET, arts) <= names
    ensures Creates(MoveInOps(dir, arts), bound, names)
  {
    var move := ReplaceOps(dir, TARGET, arts);
    ReplacesConfined(dir, TARGET, arts, bound, names);
    assert Creates(move, bound, names) by { hide ReplaceOps, Confined, KeepsUnshared; }
    CreatesOne(SyncDir(dir), bound, names);
    CreatesOne(SyncDir(TARGET), bound, names);
    assert MoveInOps(dir, arts) == [SyncDir(dir)] + move + [SyncDir(TARGET)];
    hide *;
    CreatesAppend([SyncDir(dir)], move, bound, names);
    CreatesAppend([SyncDir(dir)] + move, [SyncDir(TARGET)], bound, names);
  }

  lemma {:induction false} CreatesMore(ops: seq<Op>, bound: nat, less: set<Place>, more: set<Place>)
    requires Creates(ops, bound, less) && less <= more
    ensures Creates(ops, bound, more)
  {
  }

  lemma {:induction false} ReplaceAllParts(dir: nat, b: Bundle, staging: string, arts: seq<Artifact>)
    requires arts == ARTIFACTS
    ensures ReplaceAllOps(dir, b, staging) == TempOps(dir, b, TempPlace(staging), arts) + MoveInOps(dir, arts)
  {
  }

  lemma {:induction false} ReplaceAllCreates(d: Disk, b: Bundle, staging: string, arts: seq<Artifact>)
    requires d.next > PINS && arts == ARTIFACTS
    ensures Creates(ReplaceAllOps(d.next, b, staging), d.next, {TempPlace(staging)} + Arts(TARGET, arts))
  {
    var bound, names := d.next, {TempPlace(staging)} + Arts(TARGET, arts);
    var temp, moveIn := TempOps(bound, b, TempPlace(staging), arts), MoveInOps(bound, arts);
    hide *;
    ReplaceAllParts(bound, b, staging, arts);
    TempCreates(bound, b, TempPlace(staging), arts);
    CreatesMore(temp, bound, {TempPlace(staging)}, names);
    MoveInCreates(bound, arts, bound, names);
    CreatesAppend(temp, moveIn, bound, names);
  }

  lemma {:induction false} PlainKeeps(d: Disk, b: Bundle, staging: string, g: string, kept: Bundle, deep: bool)
    requires WellFormed(d) && Held(d, g, kept, deep)
    ensures Throughout(d, PlainOps(d, b, staging), e => Held(e, g, kept, deep))
  {
    var arts, contents := ARTIFACTS, CONTENTS;
    var main, names := ReplaceAllOps(d.next, b, staging), {TempPlace(staging)} + Arts(TARGET, arts);
    ReplaceAllCreates(d, b, staging, arts);
    CreatingContained(d, main, names);
    ClearOfTarget(d, names, {g});
    var e := Run(d, main);
    var tidy := EmptyOps(e, TempPlace(staging), contents);
    assert PlainOps(d, b, staging) == main + tidy by { hide ReplaceAllOps, EmptyOps, Run; }
    hide ReplaceAllOps, PlainOps, EmptyOps, Arts, Run, AllEnabled, Throughout, Held, WellFormed;
    BlockKeeps(d, main, names, g, kept, deep);
    if AllEnabled(d, main) {
      WellFormedRun(d, main);
      EmptyKeeps(e, TempPlace(staging), contents, g, kept, deep);
    }
    ThroughoutAppend(d, main, tidy, e => Held(e, g, kept, deep));
  }

  /** Every operation keeps every complete generation that its cleanup does not name. */
  lemma {:induction false} OperationKeeps(d: Disk, o: Operation, g: string, b: Bundle, deep: bool)
    requires WellFormed(d) && Lawful(d, o) && Held(d, g, b, deep)
    requires o.Deploy? ==> g !in o.plan.victims
    ensures Throughout(d, OpsOf(d, o), e => Held(e, g, b, deep))
  {
    match o
    case Deploy(p) => DeployKeeps(d, p, g, b, deep);
    case Replace(bundle, staging) => PlainKeeps(d, bundle, staging, g, b, deep);
    case Choose(id) =>
      SelectContained(d, id);
      ClearOfTarget(d, SWITCH, {g});
      hide *;
      BlockKeeps(d, SelectOps(id), SWITCH, g, b, deep);
    case Hold(id) =>
      var names := {Place(PINS, Pin(id))};
      QuietContained(d, PinOps(id), names);
      assert Clear(d, names, {g}) by { hide Held, Run; }
      hide PinOps, Run, AllEnabled, Held, Contained, Clear, Throughout;
      BlockKeeps(d, PinOps(id), names, g, b, deep);
    case Tidy(at, calls) =>
      var contents := CONTENTS;
      PartContained(d, at, contents, calls);
      TreeIsClear(d, at, contents, {g});
      hide *;
      BlockKeeps(d, calls, TreeNames(d, at, contents), g, b, deep);
  }

  // ---- No write -------------------------------------------------------------------------

  ghost predicate AllQuiet(ops: seq<Op>) { forall op :: op in ops ==> Quiet(op) }

  lemma {:induction false} QuietAppend(a: seq<Op>, b: seq<Op>)
    requires AllQuiet(a) && AllQuiet(b)
    ensures AllQuiet(a + b)
  {
  }

  /** The bytes go to files of the new directory, which no generation names. */
  lemma {:induction false} TempWritesFresh(d: Disk, ops: seq<Op>, at: Place, k: nat, g: string, a: Artifact)
    requires WellFormed(d) && at.name.Staging? && at.dir <= PINS && Creates(ops, d.next, {at}) && k < |ops|
    requires var e := Run(d, ops[..k]);
             At(e, GenPlace(g)).Dir? && At(e, Place(At(e, GenPlace(g)).dir, Art(a))).File?
    ensures var e := Run(d, ops[..k]);
            At(e, Place(At(e, GenPlace(g)).dir, Art(a))).ino !in Writes(e, ops[k])
  {
    var e := Run(d, ops[..k]);
    assert forall op :: op in ops[..k] ==> op in ops;
    CreatingRun(d, ops[..k], d.next, {at});
    hide Run, Creates;
    var x := At(e, GenPlace(g)).dir;
    var file := Place(x, Art(a));
    assert !Free(GenPlace(g), d.next, {at}) && Same(d, e, GenPlace(g));
    assert GenPlace(g) in d.slots && x < d.next;
    assert !Free(file, d.next, {at}) && Same(d, e, file);
    assert file in d.slots && At(d, file).ino < d.next;
    CreatesHas(ops, d.next, {at}, k);
  }

  lemma {:induction false} CreatesHas(ops: seq<Op>, bound: nat, names: set<Place>, k: nat)
    requires Creates(ops, bound, names) && k < |ops|
    ensures Confined(ops[k], bound, names)
  {
  }

  lemma {:induction false} RemoveTreeQuiet(d: Disk, at: Place, contents: seq<Name>)
    ensures AllQuiet(EmptyOps(d, at, contents))
  {
    EmptyConfined(d, at, contents, 0);
    hide EmptyOps;
  }

  lemma {:induction false} TidyQuiet(d: Disk, at: Place, calls: seq<Op>)
    requires forall op :: op in calls ==> op in RemoveTreeOps(d, at)
    ensures AllQuiet(calls)
  {
    RemoveTreeQuiet(d, at, CONTENTS);
    hide EmptyOps;
  }

  lemma {:induction false} RemoveAllQuiet(d: Disk, victims: seq<string>)
    ensures AllQuiet(RemoveAllOps(d, victims))
    decreases |victims|
  {
    if victims != [] {
      var first := EmptyOps(d, GenPlace(victims[0]), CONTENTS);
      assert RemoveAllOps(d, victims) == first + RemoveAllOps(Run(d, first), victims[1..]);
      hide *;
      RemoveTreeQuiet(d, GenPlace(victims[0]), CONTENTS);
      RemoveAllQuiet(Run(d, first), victims[1..]);
      QuietAppend(first, RemoveAllOps(Run(d, first), victims[1..]));
    }
  }

  lemma {:induction false} CleanupQuiet(d: Disk, victims: seq<string>)
    ensures AllQuiet(CleanupOps(d, victims))
  {
    RemoveAllQuiet(d, victims);
    hide RemoveAllOps;
  }

  lemma {:induction false} MovesQuiet(dir: nat, to: nat, arts: seq<Artifact>)
    ensures AllQuiet(ReplaceOps(dir, to, arts))
  {
    ReplacesConfined(dir, to, arts, 0, Arts(to, arts));
    hide ReplaceOps;
  }

  lemma {:induction false} MiddleQuiet(d: Disk, p: Plan)
    ensures AllQuiet(MiddleOps(d, p))
  {
    MiddleContained(d, p, ARTIFACTS);
    hide MiddleOps;
  }

  /** What follows the writes of a deployment. */
  function AfterWrites(d: Disk, p: Plan, arts: seq<Artifact>): seq<Op> {
    var d1 := Run(d, StageOps(d.next, p.bundle, p.staging, p.generation));
    var middle := MiddleOps(d1, p);
    ReplaceOps(d.next, d.next, arts) + PublishOps(d.next, p.staging, p.generation)
    + (middle + CleanupOps(Run(d1, middle), p.victims))
  }

  lemma {:induction false} AfterWritesQuiet(d: Disk, p: Plan, arts: seq<Artifact>)
    ensures AllQuiet(AfterWrites(d, p, arts))
  {
    var d1 := Run(d, StageOps(d.next, p.bundle, p.staging, p.generation));
    var middle := MiddleOps(d1, p);
    var move, publish := ReplaceOps(d.next, d.next, arts), PublishOps(d.next, p.staging, p.generation);
    assert AllQuiet(publish);
    MovesQuiet(d.next, d.next, arts);
    MiddleQuiet(d1, p);
    CleanupQuiet(Run(d1, middle), p.victims);
    hide ReplaceOps, PublishOps, MiddleOps, CleanupOps, StageOps, Run, AllQuiet;
    QuietAppend(move, publish);
    QuietAppend(middle, CleanupOps(Run(d1, middle), p.victims));
    QuietAppend(move + publish, middle + CleanupOps(Run(d1, middle), p.victims));
  }

  lemma {:induction false} DeployWritesFirst(d: Disk, p: Plan, arts: seq<Artifact>)
    requires arts == ARTIFACTS
    ensures DeployOps(d, p) == TempOps(d.next, p.bundle, StagePlace(p.staging), arts) + AfterWrites(d, p, arts)
  {
    DeploySplits(d, p);
    var stage := StageOps(d.next, p.bundle, p.staging, p.generation);
    var d1 := Run(d, stage);
    var rest := MiddleOps(d1, p) + CleanupOps(Run(d1, MiddleOps(d1, p)), p.victims);
    var temp := TempOps(d.next, p.bundle, StagePlace(p.staging), arts);
    var move, publish := ReplaceOps(d.next, d.next, arts), PublishOps(d.next, p.staging, p.generation);
    assert stage == temp + move + publish by { hide WriteOps, ReplaceOps, PublishOps, Run, MiddleOps, CleanupOps; }
    hide DeployOps, StageOps, WriteOps, ReplaceOps, PublishOps, TempOps, MiddleOps, CleanupOps, Run;
    assert temp + move + publish + rest == temp + ((move + publish) + rest);
  }

  lemma {:induction false} PlainWritesFirst(d: Disk, b: Bundle, staging: string, arts: seq<Artifact>)
    returns (rest: seq<Op>)
    requires arts == ARTIFACTS
    ensures PlainOps(d, b, staging) == TempOps(d.next, b, TempPlace(staging), arts) + rest && AllQuiet(rest)
  {
    hide EmptyOps, ReplaceAllOps, TempOps, MoveInOps, Run, AllQuiet;
    var temp, moveIn := TempOps(d.next, b, TempPlace(staging), arts), MoveInOps(d.next, arts);
    var main := ReplaceAllOps(d.next, b, staging);
    var tidy := EmptyOps(Run(d, main), TempPlace(staging), CONTENTS);
    ReplaceAllParts(d.next, b, staging, arts);
    assert PlainOps(d, b, staging) == main + tidy;
    hide *;
    RemoveTreeQuiet(Run(d, main), TempPlace(staging), CONTENTS);
    MoveInQuiet(d.next, arts);
    QuietAppend(moveIn, tidy);
    rest := moveIn + tidy;
    assert temp + moveIn + tidy == temp + rest;
  }

  lemma {:induction false} MoveInQuiet(dir: nat, arts: seq<Artifact>)
    ensures AllQuiet(MoveInOps(dir, arts))
  {
    MovesQuiet(dir, TARGET, arts);
    hide ReplaceOps;
  }

  lemma {:induction false} FirstOrQuiet(d: Disk, temp: seq<Op>, rest: seq<Op>, k: nat)
    requires k < |temp + rest| && AllQuiet(rest)
    ensures k < |temp| ==> (temp + rest)[k] == temp[k] && (temp + rest)[..k] == temp[..k]
    ensures k >= |temp| ==> Writes(Run(d, (temp + rest)[..k]), (temp + rest)[k]) == {}
  {
    if k < |temp| {
      assert (temp + rest)[..k] == temp[..k];
    } else {
      assert (temp + rest)[k] in rest;
    }
  }

  /** The artifact of a published generation, as a file. */
  predicate NamesFile(d: Disk, g: string, a: Artifact, ino: nat) {
    At(d, GenPlace(g)).Dir? && At(d, Place(At(d, GenPlace(g)).dir, Art(a))) == File(ino)
  }

  lemma {:induction false} TempThenQuiet(d: Disk, temp: seq<Op>, rest: seq<Op>, at: Place, k: nat,
                                         g: string, a: Artifact, ino: nat)
    requires WellFormed(d) && at.name.Staging? && at.dir <= PINS && Creates(temp, d.next, {at}) && AllQuiet(rest)
    requires k < |temp + rest| && NamesFile(Run(d, (temp + rest)[..k]), g, a, ino)
    ensures ino !in Writes(Run(d, (temp + rest)[..k]), (temp + rest)[k])
  {
    hide WellFormed, Creates, AllQuiet, Run, Writes;
    FirstOrQuiet(d, temp, rest, k);
    if k < |temp| { TempWritesFresh(d, temp, at, k, g, a); }
  }

  /**
   No system call of any operation writes a file that a published generation names at that moment,
   including the generation that the operation itself has just published.
   */
  lemma {:induction false} PublishedIsNeverWritten(d: Disk, o: Operation, k: nat, g: string, a: Artifact, ino: nat)
    requires WellFormed(d) && Lawful(d, o) && k < |OpsOf(d, o)|
    requires NamesFile(Run(d, OpsOf(d, o)[..k]), g, a, ino)
    ensures ino !in Writes(Run(d, OpsOf(d, o)[..k]), OpsOf(d, o)[k])
  {
    var arts := ARTIFACTS;
    hide DeployOps, PlainOps, EmptyOps, SelectOps, TempOps, AfterWrites;
    hide WellFormed, AllQuiet, Run, NamesFile, Writes, Creates;
    match o
    case Deploy(p) =>
      DeployWritesFirst(d, p, arts);
      AfterWritesQuiet(d, p, arts);
      TempCreates(d.next, p.bundle, StagePlace(p.staging), arts);
      TempThenQuiet(d, TempOps(d.next, p.bundle, StagePlace(p.staging), arts), AfterWrites(d, p, arts),
                    StagePlace(p.staging), k, g, a, ino);
    case Replace(b, staging) =>
      var rest := PlainWritesFirst(d, b, staging, arts);
      TempCreates(d.next, b, TempPlace(staging), arts);
      TempThenQuiet(d, TempOps(d.next, b, TempPlace(staging), arts), rest, TempPlace(staging), k, g, a, ino);
    case Choose(id) =>
      SelectQuiet(id);
      QuietWritesNothing(d, SelectOps(id), k);
    case Hold(id) =>
      PinQuiet(id);
      QuietWritesNothing(d, PinOps(id), k);
    case Tidy(at, calls) =>
      TidyQuiet(d, at, calls);
      QuietWritesNothing(d, calls, k);
  }

  lemma {:induction false} SelectQuiet(id: string)
    ensures AllQuiet(SelectOps(id))
  {
  }

  lemma {:induction false} PinQuiet(id: string)
    ensures AllQuiet(PinOps(id))
  {
  }

  lemma {:induction false} QuietWritesNothing(d: Disk, ops: seq<Op>, k: nat)
    requires AllQuiet(ops) && k < |ops|
    ensures Writes(Run(d, ops[..k]), ops[k]) == {}
  {
    assert ops[k] in ops;
  }

  // ---- Histories ------------------------------------------------------------------------

  /** An operation of which so many system calls succeed, before a failure or a process stop. */
  datatype Event = Event(operation: Operation, calls: nat)

  function Happen(d: Disk, e: Event): Disk {
    var ops := OpsOf(d, e.operation);
    if e.calls <= |ops| then Run(d, ops[..e.calls]) else d
  }

  function After(d: Disk, events: seq<Event>): Disk
    decreases |events|
  {
    if events == [] then d else After(Happen(d, events[0]), events[1..])
  }

  ghost predicate CanHappen(d: Disk, e: Event) {
    var ops := OpsOf(d, e.operation);
    Lawful(d, e.operation) && e.calls <= |ops| && AllEnabled(d, ops[..e.calls])
  }

  ghost predicate AllCanHappen(d: Disk, events: seq<Event>)
    decreases |events|
  {
    events == [] || (CanHappen(d, events[0]) && AllCanHappen(Happen(d, events[0]), events[1..]))
  }

  predicate Spares(e: Event, g: string) { e.operation.Deploy? ==> g !in e.operation.plan.victims }

  lemma {:induction false} HappenKeeps(d: Disk, e: Event, g: string, b: Bundle)
    requires WellFormed(d) && Complete(d, g, b) && CanHappen(d, e) && Spares(e, g)
    ensures WellFormed(Happen(d, e)) && Complete(Happen(d, e), g, b)
  {
    hide OpsOf, Lawful, WellFormed, Complete, Run, AllEnabled;
    OperationKeeps(d, e.operation, g, b, false);
    WellFormedRun(d, OpsOf(d, e.operation)[..e.calls]);
  }

  /** No history of operations changes a published generation that no cleanup removes. */
  lemma {:induction false} PublishedIsImmutable(d: Disk, events: seq<Event>, g: string, b: Bundle)
    requires WellFormed(d) && Complete(d, g, b)
    requires AllCanHappen(d, events) && forall e :: e in events ==> Spares(e, g)
    ensures Complete(After(d, events), g, b)
    decreases |events|
  {
    if events != [] {
      hide WellFormed, Complete, CanHappen, Happen, Spares;
      assert events[0] in events && forall e :: e in events[1..] ==> e in events;
      HappenKeeps(d, events[0], g, b);
      PublishedIsImmutable(Happen(d, events[0]), events[1..], g, b);
    }
  }

  /**
   Whatever happens to a complete generation short of its removal: selecting it while the names are links
   shows readers exactly the bytes it was published with.
   */
  lemma {:induction false} SelectShowsPublished(d: Disk, events: seq<Event>, g: string, b: Bundle)
    requires WellFormed(d) && Complete(d, g, b)
    requires AllCanHappen(d, events) && forall e :: e in events ==> Spares(e, g)
    requires AllLinks(After(d, events))
    ensures Shows(Run(After(d, events), SelectOps(g)), b)
  {
    hide WellFormed, Complete, Run, After, AllCanHappen, Spares, SelectOps, Linking;
    PublishedIsImmutable(d, events, g, b);
    var e := After(d, events);
    forall a ensures FileOrLink(e, a, b) { assert At(e, Public(a)) == Symlink(ThroughCurrent(a)); }
    AfterSwitch(e, g, b, 4);
    SelectAll(g);
    LinkingShows(Run(e, SelectOps(g)), g, b);
  }

  lemma {:induction false} SelectAll(g: string)
    ensures SelectOps(g)[..4] == SelectOps(g)
  {
  }
}
