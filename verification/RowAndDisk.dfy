/**
 One certificate with generation mode on, its row and its directory: they agree after whole operations.
 */
module RowAndDisk {
  import opened Basics
  import opened FileSystem
  import opened Publication
  import opened Phases
  import opened Switching
  import opened CrashConsistency
  import opened Snapshots
  import opened Immutability
  import opened Durability
  import Lifecycle
  import LifecycleService
  import Completion
  import Deployer

  datatype World = World(row: Lifecycle.Row, disk: Disk)

  datatype Backend = Certificate(expiry: int) | TransientFailure | TerminalFailure

  datatype Whole =
    | Obtain(call: Lifecycle.Action, plan: Plan, backend: Backend)    // issue or renew, and deploy
    | SelectFor(id: string, key: string)
    | PinFor(id: string)
    | RowOnly(call: Lifecycle.Action)                                 // authorize, release, delete and the like

  /** The call of the only worker reaches the backend. */
  predicate Obtains(r: Lifecycle.Row, call: Lifecycle.Action) {
    match call
    case IssueDns01(w) => w == 0 && r.status == Lifecycle.Pending
    case IssueReleased(w) => w == 0 && r.status == Lifecycle.Released
    case IssueDnsPersist(w) => w == 0 && r.status == Lifecycle.Issuing
    case Renew(w) => w == 0 && r.status == Lifecycle.Valid
    case _ => false
  }

  /** The metadata that is deployed carries the expiry of the certificate. */
  function Stamped(p: Plan, expiry: int): Plan { p.(bundle := p.bundle.(metadata := Meta(expiry))) }

  function Expiry(d: Disk, id: string): Option<int> {
    match InGeneration(d, id, Metadata)
    case Some(Meta(expiry)) => Some(expiry)
    case _ => None
  }

  function Perform(s: World, o: Whole): World {
    match o
    case Obtain(call, plan, backend) =>
      if !Obtains(s.row, call) then s
      else (match backend
        case Certificate(expiry) =>
          var p := Stamped(plan, expiry);
          World(LifecycleService.Solo(s.row, call, Lifecycle.Success(expiry, Some(p.generation))).row,
                Run(s.disk, DeployOps(s.disk, p)))
        case TransientFailure => s.(row := LifecycleService.Solo(s.row, call, Lifecycle.Retry).row)
        case TerminalFailure => s.(row := LifecycleService.Solo(s.row, call, Lifecycle.Failure).row))
    case SelectFor(id, key) =>
      if s.row.selection == Some(key) || !Deployer.Retained(id) || !At(s.disk, GenPlace(id)).Dir? then s
      else
        // The link moves first; the expiry is read afterwards, and without it the row stays as it was.
        var disk := Run(s.disk, SelectOps(id));
        (match Expiry(disk, id)
         case Some(expiry) =>
           World(LifecycleService.Solo(s.row, Lifecycle.SelectCall(0, id, expiry, key), Lifecycle.Failure).row, disk)
         case None => World(s.row, disk))
    case PinFor(id) =>
      if Deployer.Retained(id) && At(s.disk, GenPlace(id)).Dir?
      then s.(disk := Run(s.disk, PinOps(id))) else s
    case RowOnly(call) => s.(row := LifecycleService.Solo(s.row, call, Lifecycle.Failure).row)
  }

  /** Drawn names are unused, and the system calls succeed. */
  ghost predicate Goes(s: World, o: Whole) {
    match o
    case Obtain(call, plan, Certificate(expiry)) =>
      Obtains(s.row, call) ==>
        var p := Stamped(plan, expiry);
        Drawn(s.disk, p) && AllEnabled(s.disk, DeployOps(s.disk, p))
    case Obtain(_, _, _) => true
    case SelectFor(id, _) => AllEnabled(s.disk, SelectOps(id))
    case PinFor(id) => AllEnabled(s.disk, PinOps(id))
    case RowOnly(call) => call.Authorize? || call.Release? || call.DeleteCall? || call.ManualRenewal?
  }

  /** The row's generation is the current one and gives the row its expiry. */
  ghost predicate Agree(s: World) {
    s.row.generation.Some? ==>
      var g := s.row.generation.value;
      At(s.disk, CURRENT) == Symlink(ToGeneration(g)) && s.row.expiry.Some? && Expiry(s.disk, g) == s.row.expiry
  }

  // ---- Rows -----------------------------------------------------------------------------

  lemma {:induction false} ObtainedRow(r: Lifecycle.Row, call: Lifecycle.Action, expiry: int, g: string)
    requires Obtains(r, call)
    ensures var t := LifecycleService.Solo(r, call, Lifecycle.Success(expiry, Some(g))).row;
            t.status == Lifecycle.Valid && t.generation == Some(g) && t.expiry == Some(expiry)
  {
  }

  lemma {:induction false} FailedRow(r: Lifecycle.Row, call: Lifecycle.Action, outcome: Lifecycle.Outcome)
    requires !outcome.Success? && !call.SelectCall?
    ensures var t := LifecycleService.Solo(r, call, outcome).row;
            t.generation == r.generation && t.expiry == r.expiry
  {
  }

  lemma {:induction false} SelectedRow(r: Lifecycle.Row, id: string, expiry: int, key: string)
    requires r.selection != Some(key)
    ensures var t := LifecycleService.Solo(r, Lifecycle.SelectCall(0, id, expiry, key), Lifecycle.Failure).row;
            t == r.(generation := Some(id), expiry := Some(expiry), selection := Some(key))
  {
  }

  // ---- Disks ----------------------------------------------------------------------------

  lemma {:induction false} EmptyKeepsCurrent(d: Disk, at: Place, contents: seq<Name>)
    requires WellFormed(d) && at.dir <= PINS && at != CURRENT
    ensures At(Run(d, EmptyOps(d, at, contents)), CURRENT) == At(d, CURRENT)
  {
    EmptyContained(d, at, contents);
    TreeIsClear(d, at, contents, {});
    var ops := EmptyOps(d, at, contents);
    assert ops[..|ops|] == ops;
    hide EmptyOps, TreeNames, Run;
    assert !Free(CURRENT, d.next, TreeNames(d, at, contents));
    assert Same(d, Run(d, ops), CURRENT);
  }

  lemma {:induction false} RemoveAllKeepsCurrent(d: Disk, victims: seq<string>)
    requires WellFormed(d) && AllEnabled(d, RemoveAllOps(d, victims))
    ensures At(Run(d, RemoveAllOps(d, victims)), CURRENT) == At(d, CURRENT)
    decreases |victims|
  {
    if victims != [] {
      hide EmptyOps, RemoveAllOps, Run, AllEnabled, WellFormed;
      var first := EmptyOps(d, GenPlace(victims[0]), CONTENTS);
      var m := Run(d, first);
      Completion.RemoveAllCons(d, victims);
      EnabledSplit(d, first, RemoveAllOps(m, victims[1..]));
      EmptyKeepsCurrent(d, GenPlace(victims[0]), CONTENTS);
      WellFormedRun(d, first);
      RemoveAllKeepsCurrent(m, victims[1..]);
      RunAppend(d, first, RemoveAllOps(m, victims[1..]));
    } else {
      Deployer.CleanupNone(d);
    }
  }

  lemma {:induction false} CleanupKeepsCurrent(d: Disk, victims: seq<string>)
    requires WellFormed(d) && AllEnabled(d, CleanupOps(d, victims))
    ensures At(Run(d, CleanupOps(d, victims)), CURRENT) == At(d, CURRENT)
  {
    var removal := RemoveAllOps(d, victims);
    var sync: seq<Op> := if victims == [] then [] else [SyncDir(GENERATIONS)];
    assert CleanupOps(d, victims) == removal + sync by { hide RemoveAllOps; }
    hide RemoveAllOps, Run, AllEnabled, WellFormed, CleanupOps;
    EnabledSplit(d, removal, sync);
    RemoveAllKeepsCurrent(d, victims);
    Deployer.CleanupParts(d, victims);
    SyncDirLooks(Run(d, removal), GENERATIONS);
  }

  /** A deployment that goes through leaves `current` at the new, complete generation. */
  lemma {:induction false} DeployFinal(d: Disk, p: Plan)
    requires WellFormed(d) && Drawn(d, p) && AllEnabled(d, DeployOps(d, p))
    ensures var e := Run(d, DeployOps(d, p));
            && WellFormed(e) && At(e, CURRENT) == Symlink(ToGeneration(p.generation))
            && Complete(e, p.generation, p.bundle)
  {
    hide *;
    var ops := DeployOps(d, p);
    WellFormedRun(d, ops);
    assert ops[..|ops|] == ops;
    DeploySplits(d, p);
    DeployPublishes(d, p, |ops|);
    DeployCurrent(d, p);
  }

  lemma {:induction false} DeployCurrent(d: Disk, p: Plan)
    requires WellFormed(d) && AllEnabled(d, DeployOps(d, p))
    ensures At(Run(d, DeployOps(d, p)), CURRENT) == Symlink(ToGeneration(p.generation))
  {
    assert d.next > TARGET;
    hide DeployOps, Completion.BeforeCleanup, CleanupOps, Run, AllEnabled, WellFormed;
    Completion.DeployEnds(d, p);
    Completion.CurrentBeforeCleanup(d, p);
    var before := Completion.BeforeCleanup(d, p);
    var m := Run(d, before);
    EnabledSplit(d, before, CleanupOps(m, p.victims));
    WellFormedRun(d, before);
    CleanupKeepsCurrent(m, p.victims);
  }

  lemma {:induction false} ExpiryKept(d: Disk, e: Disk, names: set<Place>, g: string)
    requires WellFormed(d) && Untouched(d, e, d.next, names) && Clear(d, names, {g}) && At(d, GenPlace(g)).Dir?
    ensures Expiry(e, g) == Expiry(d, g)
  {
    InGenerationKept(d, e, names, g, Metadata);
  }

  lemma {:induction false} SelectFinal(d: Disk, id: string)
    requires WellFormed(d) && At(d, GenPlace(id)).Dir?
    ensures var e := Run(d, SelectOps(id));
            At(e, CURRENT) == Symlink(ToGeneration(id)) && Expiry(e, id) == Expiry(d, id)
  {
    SelectContained(d, id);
    SelectEnds(d, id);
    ClearOfTarget(d, SWITCH, {id});
    var ops := SelectOps(id);
    assert ops[..|ops|] == ops;
    hide SelectOps, Run, Expiry;
    ExpiryKept(d, Run(d, ops), SWITCH, id);
  }

  lemma {:induction false} PinFinal(d: Disk, id: string, g: string)
    requires WellFormed(d) && At(d, GenPlace(g)).Dir?
    ensures var e := Run(d, PinOps(id));
            At(e, CURRENT) == At(d, CURRENT) && Expiry(e, g) == Expiry(d, g)
  {
    var names, ops := {Place(PINS, Pin(id))}, PinOps(id);
    QuietContained(d, ops, names);
    assert ops[..|ops|] == ops;
    var e := Run(d, ops);
    hide PinOps, Run, Expiry;
    assert Clear(d, names, {g});
    ExpiryKept(d, e, names, g);
    assert !Free(CURRENT, d.next, names) && Same(d, e, CURRENT);
  }

  // ---- Readable metadata ----------------------------------------------------------------

  /** Every generation holds an expiry, and so does the metadata that a migration would save. */
  ghost predicate Legible(d: Disk) {
    && (forall g :: At(d, GenPlace(g)).Dir? ==> Expiry(d, g).Some?)
    && (At(d, Public(Metadata)).File? ==> FileData(d, Metadata).Meta?)
    && (Migrates(d) && At(d, Public(Metadata)).Symlink? ==>
          At(d, Public(Metadata)) == Symlink(ThroughCurrent(Metadata)))
  }

  /** The generation is as it was. */
  predicate SameGeneration(d: Disk, e: Disk, g: string) {
    At(e, GenPlace(g)) == At(d, GenPlace(g)) && (At(d, GenPlace(g)).Dir? ==> Expiry(e, g) == Expiry(d, g))
  }

  lemma {:induction false} BlockSame(d: Disk, e: Disk, names: set<Place>, g: string)
    requires WellFormed(d) && Untouched(d, e, d.next, names) && Clear(d, names, {g})
    ensures SameGeneration(d, e, g)
  {
    hide Expiry;
    assert !Free(GenPlace(g), d.next, names) && Same(d, e, GenPlace(g));
    if At(d, GenPlace(g)).Dir? { ExpiryKept(d, e, names, g); }
  }

  lemma {:induction false} ContainedSame(d: Disk, ops: seq<Op>, names: set<Place>, g: string)
    requires WellFormed(d) && Contained(d, ops, names) && Clear(d, names, {g})
    ensures SameGeneration(d, Run(d, ops), g)
  {
    assert ops[..|ops|] == ops;
    hide Run, SameGeneration, Untouched, WellFormed, Clear;
    BlockSame(d, Run(d, ops), names, g);
  }

  lemma {:induction false} TreeSame(d: Disk, v: string, contents: seq<Name>, g: string)
    requires WellFormed(d) && g != v
    ensures SameGeneration(d, Run(d, EmptyOps(d, GenPlace(v), contents)), g)
  {
    EmptyContained(d, GenPlace(v), contents);
    TreeIsClear(d, GenPlace(v), contents, {g});
    hide *;
    ContainedSame(d, EmptyOps(d, GenPlace(v), contents), TreeNames(d, GenPlace(v), contents), g);
  }

  lemma {:induction false} RemovalSame(d: Disk, victims: seq<string>, g: string)
    requires WellFormed(d) && AllEnabled(d, RemoveAllOps(d, victims)) && g !in victims
    ensures SameGeneration(d, Run(d, RemoveAllOps(d, victims)), g)
    decreases |victims|
  {
    if victims == [] {
      Deployer.CleanupNone(d);
    } else {
      var first, later := EmptyOps(d, GenPlace(victims[0]), CONTENTS), victims[1..];
      var m := Run(d, first);
      assert victims[0] in victims && forall v :: v in later ==> v in victims;
      hide EmptyOps, RemoveAllOps, Run, AllEnabled, WellFormed, Expiry;
      Completion.RemoveAllCons(d, victims);
      EnabledSplit(d, first, RemoveAllOps(m, later));
      TreeSame(d, victims[0], CONTENTS, g);
      WellFormedRun(d, first);
      RemovalSame(m, later, g);
      RunAppend(d, first, RemoveAllOps(m, later));
    }
  }

  lemma {:induction false} CleanupSame(d: Disk, victims: seq<string>, g: string)
    requires WellFormed(d) && AllEnabled(d, CleanupOps(d, victims)) && g !in victims
    ensures SameGeneration(d, Run(d, CleanupOps(d, victims)), g)
  {
    var removal := RemoveAllOps(d, victims);
    var sync: seq<Op> := if victims == [] then [] else [SyncDir(GENERATIONS)];
    assert CleanupOps(d, victims) == removal + sync by { hide RemoveAllOps; }
    hide RemoveAllOps, Run, AllEnabled, WellFormed, CleanupOps, InGeneration, Expiry;
    EnabledSplit(d, removal, sync);
    RemovalSame(d, victims, g);
    Deployer.CleanupParts(d, victims);
    var m := Run(d, removal);
    SyncDirLooks(m, GENERATIONS);
    SameLooks(m, Exec(m, SyncDir(GENERATIONS)), g);
  }

  lemma {:induction false} SameLooks(d: Disk, e: Disk, g: string)
    requires e.inodes == d.inodes && forall p :: At(e, p) == At(d, p)
    ensures Expiry(e, g) == Expiry(d, g)
  {
  }

  // ---- Links after a deployment ---------------------------------------------------------

  lemma {:induction false} DeployLinks(d: Disk, p: Plan)
    requires WellFormed(d) && Drawn(d, p) && AllEnabled(d, DeployOps(d, p))
    ensures AllSymlinks(Run(d, DeployOps(d, p)))
  {
    hide DeployOps, CleanupOps, Run, AllEnabled, WellFormed, Completion.BeforeCleanup;
    Completion.DeployEnds(d, p);
    var before := Completion.BeforeCleanup(d, p);
    var e := Run(d, before);
    Completion.NamesBeforeCleanup(d, p);
    EnabledSplit(d, before, CleanupOps(e, p.victims));
    WellFormedRun(d, before);
    Deployer.CleanupCleans(e, p.victims);
    forall a ensures At(Run(e, CleanupOps(e, p.victims)), Public(a)) == At(e, Public(a)) {}
  }

  // ---- Deployments keep metadata readable -----------------------------------------------

  lemma {:induction false} SameTwice(d: Disk, e: Disk, f: Disk, g: string)
    requires SameGeneration(d, e, g) && SameGeneration(e, f, g)
    ensures SameGeneration(d, f, g)
  {
  }

  lemma {:induction false} StageSame(d: Disk, p: Plan, g: string)
    requires WellFormed(d) && Drawn(d, p) && g != p.generation
    ensures SameGeneration(d, Run(d, StageOps(d.next, p.bundle, p.staging, p.generation)), g)
  {
    var ops := StageOps(d.next, p.bundle, p.staging, p.generation);
    var names := {StagePlace(p.staging), GenPlace(p.generation)};
    StagePhase(d, p.bundle, p.staging, p.generation);
    assert Contained(d, ops, names) && Clear(d, names, {g});
    hide *;
    ContainedSame(d, ops, names, g);
  }

  lemma {:induction false} MigrateSame(d: Disk, p: Plan, g: string)
    requires WellFormed(d) && (g != p.legacy || MigrateOps(d, p.legacyStaging, p.legacy) == [])
    ensures SameGeneration(d, Run(d, MigrateOps(d, p.legacyStaging, p.legacy)), g)
  {
    var arts, ops := ARTIFACTS, MigrateOps(d, p.legacyStaging, p.legacy);
    if g == p.legacy {
      RunNone(d);
    } else {
      MigrateWithin(d, p, arts);
      assert forall op :: op in ops ==> Confined(op, d.next, MiddleNames(p, arts)) && Quiet(op);
      hide *;
      QuietContained(d, ops, MiddleNames(p, arts));
      MiddleIsClear(d, p, arts, g);
      ContainedSame(d, ops, MiddleNames(p, arts), g);
    }
  }

  lemma {:induction false} LinksSame(d: Disk, selected: string, g: string)
    requires WellFormed(d)
    requires var select := SelectOps(selected); AllEnabled(d, select + EnsureOps(Run(d, select)))
    ensures var select := SelectOps(selected); SameGeneration(d, Run(d, select + EnsureOps(Run(d, select))), g)
  {
    var arts, select := ARTIFACTS, SelectOps(selected);
    var m := Run(d, select);
    ClearOfTarget(d, SWITCH, {g});
    hide *;
    EnabledSplit(d, select, EnsureOps(m));
    WellFormedRun(d, select);
    SelectContained(d, selected);
    ContainedSame(d, select, SWITCH, g);
    EnsureContained(m);
    LinkNamesInTarget(arts);
    ClearOfTarget(m, LinkNames(arts), {g});
    ContainedSame(m, EnsureOps(m), LinkNames(arts), g);
    RunAppend(d, select, EnsureOps(m));
    SameTwice(d, m, Run(m, EnsureOps(m)), g);
  }

  lemma {:induction false} FinishSame(d: Disk, selected: string, victims: seq<string>, g: string)
    requires WellFormed(d) && AllEnabled(d, FinishOps(d, selected, victims)) && g !in victims
    ensures SameGeneration(d, Run(d, FinishOps(d, selected, victims)), g)
  {
    hide *;
    var m := Run(d, SelectOps(selected));
    var front := SelectOps(selected) + EnsureOps(m);
    var e := Run(m, EnsureOps(m));
    var cleanup := CleanupOps(e, victims);
    FinishJoins(d, selected, victims);
    RunAppend(d, SelectOps(selected), EnsureOps(m));
    EnabledSplit(d, front, cleanup);
    LinksSame(d, selected, g);
    WellFormedRun(d, front);
    CleanupSame(e, victims, g);
    RunAppend(d, front, cleanup);
    SameTwice(d, e, Run(e, cleanup), g);
  }

  /** The three blocks of a deployment, all of which go through. */
  lemma {:induction false} DeployBlocks(d: Disk, p: Plan)
    requires WellFormed(d) && AllEnabled(d, DeployOps(d, p))
    ensures var stage := StageOps(d.next, p.bundle, p.staging, p.generation);
            var d1 := Run(d, stage);
            var migrate := MigrateOps(d1, p.legacyStaging, p.legacy);
            var d2 := Run(d1, migrate);
            var finish := FinishOps(d2, p.generation, p.victims);
            && WellFormed(d1) && AllEnabled(d1, migrate)
            && WellFormed(d2) && AllEnabled(d2, finish) && Run(d, DeployOps(d, p)) == Run(d2, finish)
  {
    hide *;
    var stage := StageOps(d.next, p.bundle, p.staging, p.generation);
    var d1 := Run(d, stage);
    var migrate := MigrateOps(d1, p.legacyStaging, p.legacy);
    var d2 := Run(d1, migrate);
    var finish := FinishOps(d2, p.generation, p.victims);
    DeployParts(d, p);
    EnabledSplit(d, stage + migrate, finish);
    EnabledSplit(d, stage, migrate);
    WellFormedRun(d, stage);
    WellFormedRun(d1, migrate);
    RunAppend(d, stage, migrate);
    RunAppend(d, stage + migrate, finish);
  }

  lemma {:induction false} DeploySame(d: Disk, p: Plan, g: string)
    requires WellFormed(d) && Drawn(d, p) && AllEnabled(d, DeployOps(d, p)) && g != p.generation && g !in p.victims
    requires var d1 := Run(d, StageOps(d.next, p.bundle, p.staging, p.generation));
             g != p.legacy || MigrateOps(d1, p.legacyStaging, p.legacy) == []
    ensures SameGeneration(d, Run(d, DeployOps(d, p)), g)
  {
    hide *;
    var d1 := Run(d, StageOps(d.next, p.bundle, p.staging, p.generation));
    var d2 := Run(d1, MigrateOps(d1, p.legacyStaging, p.legacy));
    DeployBlocks(d, p);
    StageSame(d, p, g);
    MigrateSame(d1, p, g);
    FinishSame(d2, p.generation, p.victims, g);
    SameTwice(d, d1, d2, g);
    SameTwice(d, d2, Run(d, DeployOps(d, p)), g);
  }

  /** A migration that goes through has linked all five names, or had nothing to do. */
  lemma {:induction false} MigratesLinkable(d: Disk, staging: string, legacy: string)
    requires WellFormed(d) && Unused(d, staging, legacy) && AllEnabled(d, MigrateOps(d, staging, legacy))
    ensures Linkable(d) || MigrateOps(d, staging, legacy) == []
  {
    if !NonePresent(d) && !AllSymlinks(d) {
      var save := SaveLegacyOps(d.next, staging, legacy);
      MigrateParts(d, staging, legacy);
      hide SaveLegacyOps, SelectOps, EnsureOps, MigrateOps, Run, AllEnabled, WellFormed, Linkable;
      EnabledSplit(d, save, SelectOps(legacy) + EnsureOps(Run(Run(d, save), SelectOps(legacy))));
      SaveNeedsSources(d, staging, legacy);
    }
  }

  /** What a deployment makes of the legacy generation: the files that it could link, or nothing. */
  lemma {:induction false} LegacyAfter(d: Disk, p: Plan)
    requires WellFormed(d) && Drawn(d, p) && AllEnabled(d, DeployOps(d, p)) && p.legacy !in p.victims
    requires d.follows || !Mixed(d)
    ensures var e := Run(d, DeployOps(d, p));
            if SavesFiles(d) then Complete(e, p.legacy, Files(d)) else At(e, GenPlace(p.legacy)) == Absent
  {
    var ops := DeployOps(d, p);
    assert ops[..|ops|] == ops && At(d, GenPlace(p.legacy)) == Absent && p.legacy != p.generation;
    hide DeployOps, StageOps, FrontOps, MigrateOps, Run, AllEnabled, WellFormed, Complete, Drawn, SavesFiles;
    if SavesFiles(d) {
      DeployLength(d, p);
      DeploySaves(d, p, |ops|, false);
    } else {
      NothingToMigrate(d, p);
      DeploySame(d, p, p.legacy);
    }
  }

  lemma {:induction false} NothingToMigrate(d: Disk, p: Plan)
    requires WellFormed(d) && Drawn(d, p) && AllEnabled(d, DeployOps(d, p))
    requires (d.follows || !Mixed(d)) && !SavesFiles(d)
    ensures var d1 := Run(d, StageOps(d.next, p.bundle, p.staging, p.generation));
            MigrateOps(d1, p.legacyStaging, p.legacy) == []
  {
    var d1 := Run(d, StageOps(d.next, p.bundle, p.staging, p.generation));
    DeployBlocks(d, p);
    StageLeaves(d, p);
    StageKeepsFiles(d, p);
    hide DeployOps, StageOps, Run, AllEnabled, WellFormed, Drawn, LinkSource, Linkable, Files, Durable, Mixed;
    MigratesLinkable(d1, p.legacyStaging, p.legacy);
    if Linkable(d1) && Migrates(d1) {
      forall a ensures LinkSource(d, Public(a)).File? { SourceIsFile(d, a); }
    }
  }

  lemma {:induction false} DeployLength(d: Disk, p: Plan)
    ensures |FrontOps(d, p)| <= |DeployOps(d, p)|
  {
    DeployJoins(d, p);
    hide FrontOps, FinishOps, DeployOps, Run;
  }

  lemma {:induction false} VictimsGone(d: Disk, p: Plan, g: string)
    requires WellFormed(d) && AllEnabled(d, DeployOps(d, p)) && g in p.victims
    ensures !At(Run(d, DeployOps(d, p)), GenPlace(g)).Dir?
  {
    hide *;
    Completion.DeployEnds(d, p);
    var before := Completion.BeforeCleanup(d, p);
    var m := Run(d, before);
    EnabledSplit(d, before, CleanupOps(m, p.victims));
    WellFormedRun(d, before);
    Deployer.CleanupCleans(m, p.victims);
    Deployer.CleanedMeans(m, Run(m, CleanupOps(m, p.victims)), p.victims, g);
  }

  /** The generations of the disk that a deployment leaves hold an expiry if they did before it. */
  lemma {:induction false} DeployLegible(d: Disk, p: Plan)
    requires WellFormed(d) && Drawn(d, p) && AllEnabled(d, DeployOps(d, p))
    requires Legible(d) && (d.follows || !Mixed(d)) && p.bundle.metadata.Meta?
    ensures Legible(Run(d, DeployOps(d, p)))
  {
    var e := Run(d, DeployOps(d, p));
    DeployLinks(d, p);
    assert At(e, Public(Metadata)).Symlink? && !Migrates(e) by { hide DeployOps, Run; }
    forall g | At(e, GenPlace(g)).Dir? ensures Expiry(e, g).Some? {
      hide DeployOps, Run, AllEnabled, WellFormed, Complete, Drawn, Expiry, AllSymlinks;
      GenerationLegible(d, p, g);
    }
  }

  /** The metadata that is saved is a plain file, or that of the generation that `current` names. */
  lemma {:induction false} SavedMetadata(d: Disk)
    requires WellFormed(d) && Legible(d) && SavesFiles(d)
    ensures FileData(d, Metadata).Meta? && Files(d).metadata == FileData(d, Metadata)
  {
    assert LinkSource(d, Public(Metadata)).File?;
    SourceFits(d, Public(Metadata));
    if At(d, Public(Metadata)).Symlink? {
      var g := At(d, CURRENT).to.id;
      assert At(d, GenPlace(g)).Dir? && Expiry(d, g).Some?;
    }
  }

  lemma {:induction false} GenerationLegible(d: Disk, p: Plan, g: string)
    requires WellFormed(d) && Drawn(d, p) && AllEnabled(d, DeployOps(d, p))
    requires Legible(d) && (d.follows || !Mixed(d)) && p.bundle.metadata.Meta?
    ensures var e := Run(d, DeployOps(d, p)); At(e, GenPlace(g)).Dir? ==> Expiry(e, g).Some?
  {
    var e := Run(d, DeployOps(d, p));
    hide DeployOps, StageOps, MigrateOps, Run, AllEnabled, WellFormed, Complete, Drawn, Expiry;
    if g in p.victims {
      VictimsGone(d, p, g);
    } else if g == p.generation {
      DeployFinal(d, p);
      CompleteExpiry(e, g, p.bundle, p.bundle.metadata.expiry);
    } else if g == p.legacy {
      LegacyAfter(d, p);
      if SavesFiles(d) {
        SavedMetadata(d);
        CompleteExpiry(e, g, Files(d), FileData(d, Metadata).expiry);
      }
    } else {
      DeploySame(d, p, g);
      assert SameGeneration(d, e, g);
    }
  }

  // ---- The theorems ---------------------------------------------------------------------

  lemma {:induction false} ObtainAgrees(s: World, call: Lifecycle.Action, plan: Plan, backend: Backend)
    requires WellFormed(s.disk) && Agree(s) && Goes(s, Obtain(call, plan, backend))
    ensures var t := Perform(s, Obtain(call, plan, backend)); WellFormed(t.disk) && Agree(t)
  {
    hide Run, AllEnabled, DeployOps, WellFormed, Complete, Drawn, LifecycleService.Solo;
    if Obtains(s.row, call) {
      match backend
      case Certificate(expiry) =>
        var p := Stamped(plan, expiry);
        ObtainedRow(s.row, call, expiry, p.generation);
        DeployFinal(s.disk, p);
        CompleteExpiry(Run(s.disk, DeployOps(s.disk, p)), p.generation, p.bundle, expiry);
      case TransientFailure => FailedRow(s.row, call, Lifecycle.Retry);
      case TerminalFailure => FailedRow(s.row, call, Lifecycle.Failure);
    }
  }

  lemma {:induction false} CompleteExpiry(d: Disk, g: string, b: Bundle, expiry: int)
    requires Complete(d, g, b) && b.metadata == Meta(expiry)
    ensures Expiry(d, g) == Some(expiry)
  {
  }

  /**
   A selection that moves the link keeps the agreement exactly when the metadata of the selected
   generation holds an expiry: the link moves before the metadata is read.
   */
  lemma {:induction false} SelectAgreesIff(s: World, id: string, key: string)
    requires WellFormed(s.disk) && Agree(s) && s.row.generation.Some?
    requires s.row.selection != Some(key) && Deployer.Retained(id) && At(s.disk, GenPlace(id)).Dir?
    ensures Agree(Perform(s, SelectFor(id, key))) <==> Expiry(s.disk, id).Some?
  {
    SelectFinal(s.disk, id);
    hide Run, SelectOps, Expiry, LifecycleService.Solo;
    if Expiry(s.disk, id).Some? { SelectedRow(s.row, id, Expiry(s.disk, id).value, key); }
  }

  /**
   A selection with a new key of a generation that is there moves the link, and if the metadata holds an expiry the
   row names the generation, with that expiry and the key. Every other selection changes nothing, so a repetition
   of one that went through does not either.
   */
  lemma {:induction false} SelectionTakesEffect(s: World, id: string, key: string)
    requires WellFormed(s.disk)
    ensures var t := Perform(s, SelectFor(id, key));
            if s.row.selection == Some(key) || id in ["", ".", ".."] || '/' in id || !At(s.disk, GenPlace(id)).Dir?
            then t == s
            else
              && At(t.disk, CURRENT) == Symlink(ToGeneration(id))
              && match InGeneration(s.disk, id, Metadata)
                 case Some(Meta(expiry)) =>
                   && t.row == s.row.(generation := Some(id), expiry := Some(expiry), selection := Some(key))
                   && forall other :: Perform(t, SelectFor(other, key)) == t
                 case _ => t.row == s.row
  {
    if s.row.selection != Some(key) && Deployer.Retained(id) && At(s.disk, GenPlace(id)).Dir? {
      SelectFinal(s.disk, id);
      hide Run, SelectOps, LifecycleService.Solo;
      if Expiry(s.disk, id).Some? { SelectedRow(s.row, id, Expiry(s.disk, id).value, key); }
    }
  }

  /** A pin of a generation that is there holds for the cleanup, and leaves the row alone. */
  lemma {:induction false} PinTakesEffect(s: World, id: string)
    requires Goes(s, PinFor(id))
    ensures var t := Perform(s, PinFor(id));
            && t.row == s.row
            && if id in ["", ".", ".."] || '/' in id || !At(s.disk, GenPlace(id)).Dir? then t.disk == s.disk
               else id in Deployer.PinnedOf(t.disk)
  {
    Deployer.PinShows(s.disk, id);
    hide Run, PinOps, AllEnabled;
  }

  lemma {:induction false} SelectSame(d: Disk, id: string)
    requires WellFormed(d) && AllEnabled(d, SelectOps(id)) && Legible(d) && (d.follows || !Mixed(d))
    ensures var e := Run(d, SelectOps(id)); WellFormed(e) && Legible(e) && (e.follows || !Mixed(e))
  {
    var e := Run(d, SelectOps(id));
    WellFormedRun(d, SelectOps(id));
    SelectEnds(d, id);
    SelectContained(d, id);
    assert Untouched(d, e, d.next, SWITCH) by { assert SelectOps(id)[..|SelectOps(id)|] == SelectOps(id); }
    hide SelectOps, Run, AllEnabled, WellFormed, Expiry, SameGeneration, Contained, Legible, Mixed;
    forall g ensures SameGeneration(d, e, g) {
      ClearOfTarget(d, SWITCH, {g});
      ContainedSame(d, SelectOps(id), SWITCH, g);
    }
    forall a ensures At(e, Public(a)) == At(d, Public(a)) { assert Same(d, e, Public(a)); }
    SameIsLegible(d, e);
  }

  lemma {:induction false} PinSame(d: Disk, id: string)
    requires WellFormed(d) && AllEnabled(d, PinOps(id)) && Legible(d) && (d.follows || !Mixed(d))
    ensures var e := Run(d, PinOps(id)); WellFormed(e) && Legible(e) && (e.follows || !Mixed(e))
  {
    var names, ops := {Place(PINS, Pin(id))}, PinOps(id);
    var e := Run(d, ops);
    WellFormedRun(d, ops);
    QuietContained(d, ops, names);
    assert forall g :: Clear(d, names, {g});
    assert Untouched(d, e, d.next, names) by { assert ops[..|ops|] == ops; }
    assert At(d, Public(Metadata)).File? ==> At(d, Public(Metadata)).ino < d.next by {
      if At(d, Public(Metadata)).File? { assert Public(Metadata) in d.slots; }
    }
    hide PinOps, Run, AllEnabled, WellFormed, Expiry, SameGeneration, Contained, Clear, Legible, Mixed;
    forall g ensures SameGeneration(d, e, g) { ContainedSame(d, ops, names, g); }
    forall a ensures At(e, Public(a)) == At(d, Public(a)) {
      assert !Free(Public(a), d.next, names) && Same(d, e, Public(a));
    }
    if At(d, Public(Metadata)).File? { assert SameInode(d, e, At(d, Public(Metadata)).ino); }
    SameIsLegible(d, e);
  }

  lemma {:induction false} SameIsLegible(d: Disk, e: Disk)
    requires Legible(d) && (d.follows || !Mixed(d)) && e.follows == d.follows && forall g :: SameGeneration(d, e, g)
    requires forall a :: At(e, Public(a)) == At(d, Public(a))
    requires var n := At(d, Public(Metadata)); n.File? && n.ino in d.inodes ==> SameInode(d, e, n.ino)
    ensures Legible(e) && (e.follows || !Mixed(e))
  {
    hide Expiry;
    forall g | At(e, GenPlace(g)).Dir? ensures Expiry(e, g).Some? { assert SameGeneration(d, e, g); }
  }

  /** What every whole operation keeps. */
  ghost predicate Sound(s: World) {
    WellFormed(s.disk) && Agree(s) && Legible(s.disk) && (s.disk.follows || !Mixed(s.disk))
  }

  /** Before the first operation. */
  lemma {:induction false} NewIsSound(origin: Lifecycle.Origin, follows: bool)
    ensures Sound(World(Lifecycle.Init(origin).row, Disk(map[], map[], 3, follows)))
  {
  }

  lemma {:induction false} LinksAreNotMixed(d: Disk)
    requires AllSymlinks(d)
    ensures !Mixed(d)
  {
  }

  lemma {:induction false} ObtainSound(s: World, call: Lifecycle.Action, plan: Plan, backend: Backend)
    requires Sound(s) && Goes(s, Obtain(call, plan, backend))
    ensures Sound(Perform(s, Obtain(call, plan, backend)))
  {
    hide Run, AllEnabled, DeployOps, WellFormed, Legible, Drawn, LifecycleService.Solo, Agree;
    ObtainAgrees(s, call, plan, backend);
    if Obtains(s.row, call) && backend.Certificate? {
      var p := Stamped(plan, backend.expiry);
      DeployLegible(s.disk, p);
      DeployLinks(s.disk, p);
      LinksAreNotMixed(Run(s.disk, DeployOps(s.disk, p)));
    }
  }

  lemma {:induction false} SelectSound(s: World, id: string, key: string)
    requires Sound(s) && Goes(s, SelectFor(id, key))
    ensures Sound(Perform(s, SelectFor(id, key)))
  {
    if s.row.selection != Some(key) && Deployer.Retained(id) && At(s.disk, GenPlace(id)).Dir? {
      assert Expiry(s.disk, id).Some?;
      hide Run, SelectOps, Expiry, AllEnabled, WellFormed, Legible, LifecycleService.Solo;
      SelectFinal(s.disk, id);
      SelectSame(s.disk, id);
      SelectedRow(s.row, id, Expiry(s.disk, id).value, key);
    }
  }

  lemma {:induction false} PinSound(s: World, id: string)
    requires Sound(s) && Goes(s, PinFor(id))
    ensures Sound(Perform(s, PinFor(id)))
  {
    hide Run, PinOps, AllEnabled, WellFormed, Legible, Expiry;
    PinSame(s.disk, id);
    if s.row.generation.Some? { PinKeepsAgreement(s, id); }
  }

  lemma {:induction false} PinKeepsAgreement(s: World, id: string)
    requires WellFormed(s.disk) && Agree(s)
    ensures Agree(s.(disk := Run(s.disk, PinOps(id))))
  {
    if s.row.generation.Some? {
      var g := s.row.generation.value;
      assert At(s.disk, GenPlace(g)).Dir?;
      hide Run, PinOps, WellFormed, Expiry;
      PinFinal(s.disk, id, g);
    }
  }

  lemma {:induction false} PerformSound(s: World, o: Whole)
    requires Sound(s) && Goes(s, o)
    ensures Sound(Perform(s, o))
  {
    match o
    case Obtain(call, plan, backend) =>
      hide *;
      ObtainSound(s, call, plan, backend);
    case SelectFor(id, key) =>
      hide *;
      SelectSound(s, id, key);
    case PinFor(id) =>
      hide *;
      PinSound(s, id);
    case RowOnly(call) =>
      FailedRow(s.row, call, Lifecycle.Failure);
      hide WellFormed, Legible, Expiry, LifecycleService.Solo;
  }

  function History(s: World, operations: seq<Whole>): World
    decreases |operations|
  {
    if operations == [] then s else History(Perform(s, operations[0]), operations[1..])
  }

  ghost predicate AllGo(s: World, operations: seq<Whole>)
    decreases |operations|
  {
    operations == [] || (Goes(s, operations[0]) && AllGo(Perform(s, operations[0]), operations[1..]))
  }

  /**
   Row and disk agree after every history of whole operations, and every generation that can be selected
   has readable metadata: the deployments themselves see to it.
   */
  lemma {:induction false} RowNamesCurrent(s: World, operations: seq<Whole>)
    requires Sound(s) && AllGo(s, operations)
    ensures Sound(History(s, operations))
    decreases |operations|
  {
    if operations != [] {
      hide Sound, Goes, Perform;
      PerformSound(s, operations[0]);
      RowNamesCurrent(Perform(s, operations[0]), operations[1..]);
    }
  }

  // ---- Unreadable metadata --------------------------------------------------------------

  /** A deployment over five plain files, and then the selection of what its migration saved. */
  function MigrateAndSelect(s: World, call: Lifecycle.Action, plan: Plan, expiry: int, key: string): World {
    History(s, [Obtain(call, plan, Certificate(expiry)), SelectFor(plan.legacy, key)])
  }

  lemma {:induction false} HistoryTwo(s: World, a: Whole, b: Whole)
    ensures History(s, [a, b]) == Perform(Perform(s, a), b)
  {
    assert [a, b][1..] == [b] && [b][1..] == [];
    hide Perform;
    assert History(Perform(s, a), [b]) == History(Perform(Perform(s, a), b), []);
  }

  /**
   The failing input arises: plain files whose metadata holds no expiry, put there by other means, are
   migrated by a deployment like any others. The selection of what was saved then keeps row and disk in
   agreement exactly when the old metadata can be read.
   */
  lemma {:induction false} MigratedMetadataDecides(s: World, call: Lifecycle.Action, plan: Plan, expiry: int,
                                                   key: string)
    requires WellFormed(s.disk) && Agree(s) && AllPlain(s.disk)
    requires Obtains(s.row, call) && Goes(s, Obtain(call, plan, Certificate(expiry)))
    requires plan.legacy !in plan.victims && Deployer.Retained(plan.legacy) && s.row.selection != Some(key)
    ensures Agree(MigrateAndSelect(s, call, plan, expiry, key)) <==> FileData(s.disk, Metadata).Meta?
  {
    var p := Stamped(plan, expiry);
    var o := Obtain(call, plan, Certificate(expiry));
    var t := Perform(s, o);
    HistoryTwo(s, o, SelectFor(plan.legacy, key));
    ObtainedRow(s.row, call, expiry, p.generation);
    ObtainKeepsSelection(s.row, call, expiry, p.generation);
    hide Run, AllEnabled, DeployOps, WellFormed, Complete, Drawn, LifecycleService.Solo, History;
    ObtainAgrees(s, call, plan, Certificate(expiry));
    PlainIsSaved(s.disk);
    PlainIsNotMixed(s.disk);
    LegacyAfter(s.disk, p);
    SavedExpiry(t.disk, p.legacy, Files(s.disk));
    SelectAgreesIff(t, plan.legacy, key);
  }

  lemma {:induction false} ObtainKeepsSelection(r: Lifecycle.Row, call: Lifecycle.Action, expiry: int, g: string)
    requires Obtains(r, call)
    ensures LifecycleService.Solo(r, call, Lifecycle.Success(expiry, Some(g))).row.selection == r.selection
  {
  }

  lemma {:induction false} SavedExpiry(d: Disk, g: string, b: Bundle)
    requires Complete(d, g, b)
    ensures At(d, GenPlace(g)).Dir? && (Expiry(d, g).Some? <==> b.metadata.Meta?)
  {
    assert InGeneration(d, g, Metadata) == Some(Get(b, Metadata));
  }
}
