/**
 The deployment that makes the directory `generations`, before the target is synchronised for the first time.
 */
module FirstDeployment {
  import opened Basics
  import opened FileSystem
  import opened Publication
  import opened Phases
  import opened Switching
  import opened CrashConsistency
  import opened Snapshots
  import opened Immutability
  import opened Durability
  import opened Completion
  import opened Leftovers

  /** `current` does not exist, and has not existed. */
  ghost predicate NoCurrent(d: Disk) { Possible(d, CURRENT) == {Absent} }

  lemma {:induction false} AsideNoCurrent(d: Disk, ops: seq<Op>, names: set<Place>)
    requires WellFormed(d) && NoCurrent(d) && Contained(d, ops, names) && CURRENT !in names
    ensures Throughout(d, ops, e => NoCurrent(e)) && NoCurrent(Run(d, ops))
  {
    assert d.next > PINS;
    hide Run, AllEnabled, WellFormed;
    forall k | 0 <= k <= |ops| ensures NoCurrent(Run(d, ops[..k])) {
      var e := Run(d, ops[..k]);
      assert Untouched(d, e, d.next, names);
      assert !Free(CURRENT, d.next, names) && Same(d, e, CURRENT);
    }
    assert ops[..|ops|] == ops;
  }

  /** The calls before `current` is selected for the first time. */
  function BeforeSelection(d: Disk, p: Plan): seq<Op> {
    var stage := StageOps(d.next, p.bundle, p.staging, p.generation);
    stage + if Migrates(d) then SaveLegacyOps(Run(d, stage).next, p.legacyStaging, p.legacy) else []
  }

  lemma {:induction false} BeforeSelectionIs(d: Disk, p: Plan)
    ensures var stage := StageOps(d.next, p.bundle, p.staging, p.generation);
            var save := SaveLegacyOps(Run(d, stage).next, p.legacyStaging, p.legacy);
            BeforeSelection(d, p) == if Migrates(d) then stage + save else stage
  {
    hide StageOps, SaveLegacyOps, Run, Migrates;
    var stage := StageOps(d.next, p.bundle, p.staging, p.generation);
    assert stage + [] == stage;
  }

  lemma {:induction false} SelectionComes(d: Disk, p: Plan) returns (g: string, rest: seq<Op>)
    requires WellFormed(d) && Drawn(d, p)
    ensures DeployOps(d, p) == BeforeSelection(d, p) + (SelectOps(g) + rest)
  {
    hide *;
    var stage := StageOps(d.next, p.bundle, p.staging, p.generation);
    var d1 := Run(d, stage);
    var save := SaveLegacyOps(d1.next, p.legacyStaging, p.legacy);
    BeforeSelectionIs(d, p);
    if Migrates(d) {
      StageKeepsFiles(d, p);
      g := p.legacy;
      var later := MigratingDeployStarts(d, p);
      rest := EnsureOps(Run(Run(d1, save), SelectOps(g))) + later;
      assert stage + (save + SelectOps(g)) + rest == (stage + save) + (SelectOps(g) + rest);
    } else {
      g := p.generation;
      FrontIsStaging(d, p);
      rest := FinishStarts(d, p);
    }
  }

  lemma {:induction false} FinishStarts(d: Disk, p: Plan) returns (rest: seq<Op>)
    ensures DeployOps(d, p) == FrontOps(d, p) + (SelectOps(p.generation) + rest)
  {
    hide FrontOps, SelectOps, EnsureOps, CleanupOps, Run;
    var e := Run(Run(d, FrontOps(d, p)), SelectOps(p.generation));
    rest := EnsureOps(e) + CleanupOps(Run(e, EnsureOps(e)), p.victims);
  }

  lemma {:induction false} NoCurrentBefore(d: Disk, p: Plan)
    requires WellFormed(d) && Drawn(d, p) && NoCurrent(d)
    ensures Throughout(d, BeforeSelection(d, p), e => NoCurrent(e))
  {
    var stage := StageOps(d.next, p.bundle, p.staging, p.generation);
    var d1 := Run(d, stage);
    var save := SaveLegacyOps(d1.next, p.legacyStaging, p.legacy);
    var names := {StagePlace(p.staging), GenPlace(p.generation)};
    var saved := {StagePlace(p.legacyStaging), GenPlace(p.legacy)};
    assert Unused(d, p.staging, p.generation) && CURRENT !in names && CURRENT !in saved;
    assert BeforeSelection(d, p) == stage + if Migrates(d) then save else [] by {
      hide StageOps, SaveLegacyOps, Run, Migrates;
    }
    SaveConfined(d1.next, p.legacyStaging, p.legacy, d1.next);
    QuietContained(d1, save, saved);
    QuietContained(d1, [], saved);
    hide *;
    StageFacts(d, p.bundle, p.staging, p.generation);
    AsideNoCurrent(d, stage, names);
    AsideNoCurrent(d1, if Migrates(d) then save else [], saved);
    ThroughoutAppend(d, stage, if Migrates(d) then save else [], e => NoCurrent(e));
  }

  ghost predicate LeavesTarget(ops: seq<Op>) { SyncDir(TARGET) !in ops }

  lemma {:induction false} WritesLeaveTarget(dir: nat, ino: nat, b: Bundle, arts: seq<Artifact>)
    ensures LeavesTarget(WriteOps(dir, ino, b, arts))
    decreases |arts|
  {
    if arts != [] { WritesLeaveTarget(dir, ino + 1, b, arts[1..]); }
  }

  lemma {:induction false} MovesLeaveTarget(dir: nat, arts: seq<Artifact>)
    ensures LeavesTarget(ReplaceOps(dir, dir, arts)) && LeavesTarget(LinkOps(dir, arts))
    decreases |arts|
  {
    if arts != [] { MovesLeaveTarget(dir, arts[1..]); }
  }

  lemma {:induction false} StageLeavesTarget(dir: nat, b: Bundle, staging: string, g: string, arts: seq<Artifact>)
    requires dir > TARGET && arts == ARTIFACTS
    ensures LeavesTarget(StageOps(dir, b, staging, g))
  {
    WritesLeaveTarget(dir, dir + 1, b, arts);
    MovesLeaveTarget(dir, arts);
    hide WriteOps, ReplaceOps;
  }

  lemma {:induction false} SaveLeavesTarget(dir: nat, staging: string, legacy: string, arts: seq<Artifact>)
    requires dir > TARGET && arts == ARTIFACTS
    ensures LeavesTarget(SaveLegacyOps(dir, staging, legacy))
  {
    MovesLeaveTarget(dir, arts);
    hide LinkOps;
  }

  lemma {:induction false} BeforeLeavesTarget(d: Disk, p: Plan)
    requires WellFormed(d) && Drawn(d, p)
    ensures LeavesTarget(BeforeSelection(d, p))
  {
    var stage := StageOps(d.next, p.bundle, p.staging, p.generation);
    var s := Run(d, stage).next;
    assert d.next > TARGET;
    NextGrows(d, stage);
    hide *;
    StageLeavesTarget(d.next, p.bundle, p.staging, p.generation, ARTIFACTS);
    SaveLeavesTarget(s, p.legacyStaging, p.legacy, ARTIFACTS);
    BeforeSelectionIs(d, p);
    LeavesAppend(stage, SaveLegacyOps(s, p.legacyStaging, p.legacy));
  }

  lemma {:induction false} NotSwitchedYet(d: Disk, g: string, j: nat)
    requires NoCurrent(d) && j <= 2
    ensures NoCurrent(Run(d, SelectOps(g)[..j]))
    decreases j
  {
    if j == 0 {
      assert SelectOps(g)[..0] == [];
    } else {
      NotSwitchedYet(d, g, j - 1);
      RunNext(d, SelectOps(g), j - 1);
      hide Run;
    }
  }

  /** A crash that loses `generations` itself, and all that is in it. */
  ghost predicate LosesGenerations(d: Disk, image: Disk) {
    forall p: Place ::
      && (p.dir == GENERATIONS ==> At(image, p) == Absent)
      && (p.dir == TARGET ==> At(image, p) in Possible(d, p))
  }

  /** After k calls of a deployment that made `generations`, which the target has not been synchronised with. */
  ghost predicate EarlyCrash(d: Disk, p: Plan, k: nat, m: Disk, image: Disk)
    requires k <= |DeployOps(d, p)|
  {
    CrashImage(m, image) || (SyncDir(TARGET) !in DeployOps(d, p)[..k] && LosesGenerations(m, image))
  }

  function WithoutGenerations(d: Disk): Disk {
    d.(slots := map p | p in d.slots && p.dir != GENERATIONS :: Slot(d.slots[p].now, {}))
  }

  lemma {:induction false} LostGenerations(d: Disk, g: string, allowed: map<string, Bundle>)
    requires At(d, CURRENT) == Symlink(ToGeneration(g))
    ensures LosesGenerations(d, WithoutGenerations(d)) && !Recoverable(WithoutGenerations(d), allowed)
  {
    var image := WithoutGenerations(d);
    assert At(image, CURRENT) == At(d, CURRENT) && At(image, GenPlace(g)) == Absent;
    assert InGeneration(image, g, Cert) == None;
  }

  lemma {:induction false} AbsentIsRecoverable(m: Disk, image: Disk, allowed: map<string, Bundle>)
    requires NoCurrent(m) && At(image, CURRENT) in Possible(m, CURRENT)
    ensures Recoverable(image, allowed)
  {
  }

  /** Before its first rename of `current` nothing can go wrong. */
  lemma {:induction false} BeforeTheSwitch(d: Disk, p: Plan, k: nat, m: Disk)
    requires WellFormed(d) && Drawn(d, p) && NoCurrent(d) && StopsAfter(d, DeployOps(d, p), k, m)
    requires k < |BeforeSelection(d, p)| + 3
    ensures NoCurrent(m)
  {
    var front := BeforeSelection(d, p);
    hide *;
    NoCurrentBefore(d, p);
    var g, rest := SelectionComes(d, p);
    StopsWhere(d, DeployOps(d, p), front, SelectOps(g) + rest, k, m);
    if k <= |front| {
      ThroughoutNoCurrent(d, front, k);
    } else {
      var j := k - |front|;
      assert AllEnabled(d, front[..|front|]);
      ThroughoutNoCurrent(d, front, |front|);
      assert front[..|front|] == front;
      SelectPrefix(g, rest, j);
      NotSwitchedYet(Run(d, front), g, j);
    }
  }

  lemma {:induction false} SelectPrefix(g: string, rest: seq<Op>, j: nat)
    requires j <= 4
    ensures j <= |SelectOps(g) + rest| && (SelectOps(g) + rest)[..j] == SelectOps(g)[..j]
    ensures |SelectOps(g)| == 4 && SelectOps(g)[3] == SyncDir(TARGET)
  {
  }

  lemma {:induction false} ThroughoutNoCurrent(d: Disk, ops: seq<Op>, k: nat)
    requires Throughout(d, ops, e => NoCurrent(e)) && k <= |ops| && AllEnabled(d, ops[..k])
    ensures NoCurrent(Run(d, ops[..k]))
  {
  }

  lemma {:induction false} StopsWhere(d: Disk, ops: seq<Op>, a: seq<Op>, b: seq<Op>, k: nat, m: Disk)
    requires ops == a + b && StopsAfter(d, ops, k, m)
    ensures k <= |a| ==> AllEnabled(d, a[..k]) && m == Run(d, a[..k])
    ensures k >= |a| ==> k - |a| <= |b| && AllEnabled(d, a[..|a|]) && m == Run(Run(d, a), b[..k - |a|])
  {
    assert a[..|a|] == a;
    PrefixOfTwo(d, a, b, k);
  }

  lemma {:induction false} SelectLeavesTarget(g: string)
    ensures LeavesTarget(SelectOps(g)[..3])
  {
  }

  /** The rename of `current` has been made, and nothing has synchronised it. */
  lemma {:induction false} AtTheSwitch(d: Disk, p: Plan, k: nat, m: Disk) returns (g: string)
    requires WellFormed(d) && Drawn(d, p) && StopsAfter(d, DeployOps(d, p), k, m)
    requires k == |BeforeSelection(d, p)| + 3
    ensures At(m, CURRENT) == Symlink(ToGeneration(g)) && k <= |DeployOps(d, p)|
    ensures LeavesTarget(DeployOps(d, p)[..k])
  {
    assert k <= |DeployOps(d, p)|;
    hide *;
    var front := BeforeSelection(d, p);
    var rest;
    g, rest := SelectionComes(d, p);
    StopsWhere(d, DeployOps(d, p), front, SelectOps(g) + rest, k, m);
    SelectPrefix(g, rest, 3);
    SwitchedAtThree(Run(d, front), g);
    BeforeLeavesTarget(d, p);
    SelectLeavesTarget(g);
    LeavesAppend(front, SelectOps(g)[..3]);
    assert DeployOps(d, p)[..k] == front + SelectOps(g)[..3];
  }

  lemma {:induction false} SwitchedAtThree(d: Disk, g: string)
    ensures At(Run(d, SelectOps(g)[..3]), CURRENT) == Symlink(ToGeneration(g))
  {
    SelectSteps(d, g, 3);
  }

  lemma {:induction false} LeavesAppend(a: seq<Op>, b: seq<Op>)
    requires LeavesTarget(a) && LeavesTarget(b)
    ensures LeavesTarget(a + b)
  {
  }

  lemma {:induction false} InPrefix(ops: seq<Op>, i: nat, k: nat)
    requires i < k <= |ops|
    ensures ops[i] in ops[..k]
  {
    assert ops[..k][i] == ops[i];
  }

  lemma {:induction false} AfterTheSwitch(d: Disk, p: Plan, k: nat)
    requires WellFormed(d) && Drawn(d, p) && |BeforeSelection(d, p)| + 3 < k <= |DeployOps(d, p)|
    ensures SyncDir(TARGET) in DeployOps(d, p)[..k]
  {
    var n := |BeforeSelection(d, p)|;
    hide *;
    var g, rest := SelectionComes(d, p);
    SelectPrefix(g, rest, 4);
    var ops := DeployOps(d, p);
    assert ops[n..] == SelectOps(g) + rest;
    assert ops[n + 3] == (SelectOps(g) + rest)[..4][3];
    assert (SelectOps(g) + rest)[..4][3] == SyncDir(TARGET);
    InPrefix(ops, n + 3, k);
  }

  /**
   A deployment that makes `generations`, killed between the first rename of `current` and the
   synchronisation of the target: a crash can keep the link and lose the directory. At every other stop a
   crash is recoverable, even one that loses the directory before the target is synchronised.
   */
  lemma {:induction false} FirstDeploymentWindow(d: Disk, p: Plan, keep: map<string, Bundle>, k: nat, m: Disk)
    requires Start(d, p, keep) && Durable(d) && NoCurrent(d) && StopsAfter(d, DeployOps(d, p), k, m)
    ensures (forall image :: EarlyCrash(d, p, k, m, image) ==> Recoverable(image, Allowed(d, p, keep)))
            <==> k != |BeforeSelection(d, p)| + 3
  {
    var n := |BeforeSelection(d, p)| + 3;
    assert k <= |DeployOps(d, p)|;
    hide StopsAfter, Durable, NoCurrent, BeforeSelection, DeployOps, Allowed, Recoverable, CrashImage, LosesGenerations;
    hide WellFormed, Drawn, Resolves;
    if k == n {
      var g := AtTheSwitch(d, p, k, m);
      LostGenerations(m, g, Allowed(d, p, keep));
      assert EarlyCrash(d, p, k, m, WithoutGenerations(m));
    } else {
      forall image | EarlyCrash(d, p, k, m, image) ensures Recoverable(image, Allowed(d, p, keep)) {
        NotInTheWindow(d, p, keep, k, m, image);
      }
    }
  }

  lemma {:induction false} NotInTheWindow(d: Disk, p: Plan, keep: map<string, Bundle>, k: nat, m: Disk, image: Disk)
    requires Start(d, p, keep) && Durable(d) && NoCurrent(d) && StopsAfter(d, DeployOps(d, p), k, m)
    requires EarlyCrash(d, p, k, m, image) && k != |BeforeSelection(d, p)| + 3
    ensures Recoverable(image, Allowed(d, p, keep))
  {
    assert At(image, CURRENT) in Possible(m, CURRENT);
    assert k <= |DeployOps(d, p)|;
    assert WellFormed(d) && Drawn(d, p);
    if k < |BeforeSelection(d, p)| + 3 {
      hide *;
      BeforeTheSwitch(d, p, k, m);
      AbsentIsRecoverable(m, image, Allowed(d, p, keep));
    } else {
      AfterTheSwitch(d, p, k);
      assert CrashImage(m, image);
      hide *;
      NotAborted(m, p);
      CrashConsistency.CrashConsistency(d, p, keep, k, m, m, image);
    }
  }
}
