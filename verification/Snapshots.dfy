/**
 What readers see during a deployment: one system call changes all five files, from old to new.
 */
module Snapshots {
  import opened Basics
  import opened FileSystem
  import opened Publication
  import opened Phases
  import opened Switching
  import opened CrashConsistency

  /** The generation and its five files are there now. */
  ghost predicate Complete(d: Disk, g: string, b: Bundle) {
    At(d, GenPlace(g)).Dir? && At(d, GenPlace(g)).dir > PINS && Contains(d, g, b)
  }

  predicate FileOrLink(d: Disk, a: Artifact, b: Bundle) {
    || At(d, Public(a)) == Absent
    || (At(d, Public(a)).File? && FileAt(d, Public(a)) == Some(Get(b, a)))
    || At(d, Public(a)) == Symlink(ThroughCurrent(a))
  }

  /** `current` names a generation, and a public name that is there shows its file. */
  ghost predicate Linking(d: Disk, g: string, b: Bundle) {
    && At(d, CURRENT) == Symlink(ToGeneration(g))
    && Complete(d, g, b)
    && forall a :: FileOrLink(d, a, b)
  }

  ghost predicate Present(d: Disk) { forall a :: At(d, Public(a)) != Absent }

  ghost predicate AllLinks(d: Disk) { forall a :: At(d, Public(a)) == Symlink(ThroughCurrent(a)) }

  ghost predicate AllFiles(d: Disk, b: Bundle) {
    forall a :: At(d, Public(a)).File? && FileAt(d, Public(a)) == Some(Get(b, a))
  }

  /** A migration would save these five files. */
  ghost predicate Savable(d: Disk, b: Bundle) {
    forall a :: LinkSource(d, Public(a)).File? && DataOf(d, LinkSource(d, Public(a)).ino) == Some(Get(b, a))
  }

  lemma {:induction false} FilesAreSavable(d: Disk, b: Bundle)
    requires AllFiles(d, b)
    ensures Savable(d, b)
  {
    forall a ensures LinkSource(d, Public(a)).File? && DataOf(d, LinkSource(d, Public(a)).ino) == Some(Get(b, a)) {
      assert At(d, Public(a)).File? && FileAt(d, Public(a)) == Some(Get(b, a));
    }
  }

  /** The two layouts in which readers see one whole publication. */
  ghost predicate Serves(d: Disk, b: Bundle) {
    AllFiles(d, b) || (AllLinks(d) && exists g :: Linking(d, g, b))
  }

  lemma {:induction false} LinkingShows(d: Disk, g: string, b: Bundle)
    requires Linking(d, g, b) && Present(d)
    ensures Shows(d, b)
  {
    forall a ensures Shown(d, a) == Some(Get(b, a)) {
      assert FileOrLink(d, a, b) && InGeneration(d, g, a) == Some(Get(b, a));
    }
  }

  lemma {:induction false} ServesShows(d: Disk, b: Bundle)
    requires Serves(d, b)
    ensures Shows(d, b)
  {
  }

  lemma {:induction false} CompleteKept(d: Disk, e: Disk, names: set<Place>, g: string, b: Bundle)
    requires WellFormed(d) && Complete(d, g, b) && Untouched(d, e, d.next, names) && Clear(d, names, {g})
    ensures Complete(e, g, b)
  {
    forall a ensures InGeneration(e, g, a) == Some(Get(b, a)) {
      assert InGeneration(d, g, a) == Some(Get(b, a));
      InGenerationKept(d, e, names, g, a);
    }
    InGenerationKept(d, e, names, g, Cert);
  }

  lemma {:induction false} FilesKept(d: Disk, e: Disk, names: set<Place>, b: Bundle)
    requires WellFormed(d) && AllFiles(d, b) && Untouched(d, e, d.next, names)
    requires forall a :: Public(a) !in names
    ensures AllFiles(e, b)
  {
    forall a ensures At(e, Public(a)).File? && FileAt(e, Public(a)) == Some(Get(b, a)) {
      assert At(d, Public(a)).File? && FileAt(d, Public(a)) == Some(Get(b, a));
      assert !Free(Public(a), d.next, names) && Same(d, e, Public(a));
      assert SameInode(d, e, At(d, Public(a)).ino);
    }
  }

  lemma {:induction false} LinksKept(d: Disk, e: Disk, names: set<Place>, g: string, b: Bundle)
    requires WellFormed(d) && AllLinks(d) && Linking(d, g, b) && Untouched(d, e, d.next, names)
    requires Clear(d, names, {g}) && CURRENT !in names && forall a :: Public(a) !in names
    ensures AllLinks(e) && Linking(e, g, b)
  {
    CompleteKept(d, e, names, g, b);
    hide Complete;
    assert Same(d, e, CURRENT) by { assert !Free(CURRENT, d.next, names); }
    forall a ensures At(e, Public(a)) == Symlink(ThroughCurrent(a)) {
      assert !Free(Public(a), d.next, names) && Same(d, e, Public(a));
    }
  }

  /** A block that writes new names only keeps what readers see. */
  lemma {:induction false} ServesKept(d: Disk, e: Disk, names: set<Place>, b: Bundle, id: string, staging: string)
    requires WellFormed(d) && Serves(d, b) && names == {StagePlace(staging), GenPlace(id)}
    requires Untouched(d, e, d.next, names) && At(d, GenPlace(id)) == Absent
    ensures Serves(e, b)
  {
    if AllFiles(d, b) {
      FilesKept(d, e, names, b);
    } else {
      var g :| Linking(d, g, b);
      assert Clear(d, names, {g});
      LinksKept(d, e, names, g, b);
    }
  }

  // ---- The phases -----------------------------------------------------------------------

  /** Before the switch: readers see the old files, and the new generation is complete. */
  ghost predicate Waiting(d: Disk, b: Bundle, g: string, bundle: Bundle) {
    WellFormed(d) && Serves(d, b) && Complete(d, g, bundle)
  }

  lemma {:induction false} SealedIsComplete(d: Disk, g: string, b: Bundle)
    requires Sealed(d, g, b)
    ensures Complete(d, g, b)
  {
  }

  lemma {:induction false} FreshShows(d: Disk, ops: seq<Op>, b: Bundle, id: string, staging: string)
    requires WellFormed(d) && Serves(d, b) && At(d, GenPlace(id)) == Absent
    requires Contained(d, ops, {StagePlace(staging), GenPlace(id)})
    ensures Throughout(d, ops, e => Shows(e, b))
    ensures Serves(Run(d, ops), b)
  {
    var names := {StagePlace(staging), GenPlace(id)};
    hide Serves, WellFormed, Run;
    forall k | 0 <= k <= |ops| ensures Serves(Run(d, ops[..k]), b) && Shows(Run(d, ops[..k]), b) {
      ServesKept(d, Run(d, ops[..k]), names, b, id, staging);
      ServesShows(Run(d, ops[..k]), b);
    }
    assert ops[..|ops|] == ops;
  }

  lemma {:induction false} StageShows(d: Disk, p: Plan, b: Bundle)
    requires WellFormed(d) && Drawn(d, p) && Serves(d, b)
    ensures var ops := StageOps(d.next, p.bundle, p.staging, p.generation);
            && AllEnabled(d, ops) && Throughout(d, ops, e => Shows(e, b))
            && Waiting(Run(d, ops), b, p.generation, p.bundle)
            && Unused(Run(d, ops), p.legacyStaging, p.legacy)
  {
    var ops := StageOps(d.next, p.bundle, p.staging, p.generation);
    StagePhase(d, p.bundle, p.staging, p.generation);
    hide StageOps, Run, AllEnabled, WellFormed, Sealed, Serves, Shows, Contained, Throughout, Complete;
    FreshShows(d, ops, b, p.generation, p.staging);
    WellFormedRun(d, ops);
    SealedIsComplete(Run(d, ops), p.generation, p.bundle);
  }

  /** A new directory with a second name for everything that is linked. */
  ghost predicate Linked(d: Disk, e: Disk, staging: string, legacy: string, arts: seq<Artifact>) {
    && e.next > d.next && e.inodes == d.inodes
    && At(e, StagePlace(staging)) == Dir(d.next) && At(e, GenPlace(legacy)) == Absent
    && forall a :: a in arts ==> At(e, Place(d.next, Art(a))) == LinkSource(d, Public(a))
  }

  lemma {:induction false} LinkAll(d: Disk, staging: string, legacy: string, arts: seq<Artifact>)
    requires WellFormed(d) && Unused(d, staging, legacy) && Distinct(arts)
    requires forall a :: a in arts ==> LinkSource(d, Public(a)) != Absent
    ensures var ops := [MakeDir(StagePlace(staging))] + LinkOps(d.next, arts);
            AllEnabled(d, ops) && Linked(d, Run(d, ops), staging, legacy, arts)
  {
    var s := d.next;
    var make, links := [MakeDir(StagePlace(staging))], LinkOps(s, arts);
    OpenStaging(d, staging);
    var e := Run(d, make);
    assert s > PINS;
    forall a ensures LinkSource(e, Public(a)) == LinkSource(d, Public(a)) && !LeadsTo(e, s) {
      OpenedSource(d, e, staging, a);
    }
    hide Run, AllEnabled, LinkOps, WellFormed, Tmps, LinkSource, LeadsTo;
    LinkRun(e, s, arts);
    assert StagePlace(staging) !in Arts(s, arts) && GenPlace(legacy) !in Arts(s, arts);
    hide Arts;
    RunAppend(d, make, links);
    EnabledAppend(d, make, links);
  }

  lemma {:induction false} PublishLinked(d: Disk, f: Disk, b: Bundle, staging: string, legacy: string,
                                         arts: seq<Artifact>)
    requires d.next > PINS && Savable(d, b) && Linked(d, f, staging, legacy, arts) && forall a :: a in arts
    ensures var ops := PublishOps(d.next, staging, legacy);
            AllEnabled(f, ops) && Complete(Run(f, ops), legacy, b)
  {
    var s := d.next;
    PublishRuns(f, s, staging, legacy);
    PublishedLooks(f, s, staging, legacy);
    hide Run, AllEnabled, PublishOps, LinkSource;
    forall a ensures InGeneration(Published(f, s, staging, legacy), legacy, a) == Some(Get(b, a)) {
      assert At(f, Place(s, Art(a))) == LinkSource(d, Public(a));
      assert DataOf(d, LinkSource(d, Public(a)).ino) == Some(Get(b, a));
    }
  }

  /** The saved generation shares the inodes of the files that are linked. */
  lemma {:induction false} SavedIsComplete(d: Disk, b: Bundle, staging: string, legacy: string)
    requires WellFormed(d) && Unused(d, staging, legacy) && Savable(d, b)
    ensures var ops := SaveLegacyOps(d.next, staging, legacy);
            AllEnabled(d, ops) && Complete(Run(d, ops), legacy, b)
  {
    var arts := ARTIFACTS;
    EveryArtifact();
    var front, publish := [MakeDir(StagePlace(staging))] + LinkOps(d.next, arts), PublishOps(d.next, staging, legacy);
    assert SaveLegacyOps(d.next, staging, legacy) == front + publish;
    assert forall a :: LinkSource(d, Public(a)) != Absent;
    hide Run, AllEnabled, LinkOps, PublishOps, SaveLegacyOps, Linked, Complete, LinkSource;
    LinkAll(d, staging, legacy, arts);
    PublishLinked(d, Run(d, front), b, staging, legacy, arts);
    RunAppend(d, front, publish);
    EnabledAppend(d, front, publish);
  }

  lemma {:induction false} SaveKeeps(d: Disk, ops: seq<Op>, names: set<Place>, p: Plan, b: Bundle)
    requires WellFormed(d) && Complete(d, p.generation, p.bundle) && AllFiles(d, b) && p.legacy != p.generation
    requires names == {StagePlace(p.legacyStaging), GenPlace(p.legacy)}
    requires AllEnabled(d, ops) && Contained(d, ops, names)
    ensures var e := Run(d, ops);
            WellFormed(e) && Complete(e, p.generation, p.bundle) && AllFiles(e, b)
  {
    assert ops[..|ops|] == ops && Untouched(d, Run(d, ops), d.next, names);
    assert Clear(d, names, {p.generation});
    hide Run, AllEnabled, WellFormed, AllFiles, Complete, Contained, Untouched, Clear;
    WellFormedRun(d, ops);
    CompleteKept(d, Run(d, ops), names, p.generation, p.bundle);
    FilesKept(d, Run(d, ops), names, b);
  }

  lemma {:induction false} SaveShows(d: Disk, p: Plan, b: Bundle)
    requires WellFormed(d) && Complete(d, p.generation, p.bundle) && AllFiles(d, b)
    requires Unused(d, p.legacyStaging, p.legacy) && p.legacy != p.generation
    ensures var ops := SaveLegacyOps(d.next, p.legacyStaging, p.legacy);
            var e := Run(d, ops);
            && AllEnabled(d, ops) && Throughout(d, ops, e => Shows(e, b))
            && WellFormed(e) && Complete(e, p.generation, p.bundle) && AllFiles(e, b) && Complete(e, p.legacy, b)
  {
    var ops := SaveLegacyOps(d.next, p.legacyStaging, p.legacy);
    var names := {StagePlace(p.legacyStaging), GenPlace(p.legacy)};
    SaveConfined(d.next, p.legacyStaging, p.legacy, d.next);
    QuietContained(d, ops, names);
    hide SaveLegacyOps, Run, AllEnabled, WellFormed, Shows, AllFiles, Throughout, Complete, Contained;
    FilesAreSavable(d, b);
    SavedIsComplete(d, b, p.legacyStaging, p.legacy);
    assert Serves(d, b);
    FreshShows(d, ops, b, p.legacy, p.legacyStaging);
    SaveKeeps(d, ops, names, p, b);
  }

  /** Two disks that agree on all names but `.current.pending` show the same. */
  lemma {:induction false} SameView(d: Disk, e: Disk, b: Bundle)
    requires e.inodes == d.inodes && forall p :: p != CURRENT_PENDING ==> At(e, p) == At(d, p)
    requires Shows(d, b)
    ensures Shows(e, b)
  {
  }

  /** Before the rename, nothing that readers look at has changed. */
  lemma {:induction false} BeforeSwitch(d: Disk, g: string, b: Bundle, k: nat)
    requires k < 3 && Shows(d, b)
    ensures Shows(Run(d, SelectOps(g)[..k]), b)
  {
    SelectSteps(d, g, k);
    var e := Run(d, SelectOps(g)[..k]);
    hide Run, Shows;
    forall p | p != CURRENT_PENDING ensures At(e, p) == At(d, p) { assert p != CURRENT ==> Same(d, e, p); }
    SameView(d, e, b);
  }

  /** From the rename on, `current` leads to the selected generation and nothing else has changed. */
  lemma {:induction false} AfterSwitch(d: Disk, g: string, b: Bundle, k: nat)
    requires 3 <= k <= 4 && Complete(d, g, b) && (forall a :: FileOrLink(d, a, b))
    ensures var e := Run(d, SelectOps(g)[..k]);
            Linking(e, g, b) && (forall a :: At(e, Public(a)) == At(d, Public(a)))
  {
    SelectSteps(d, g, k);
    var e := Run(d, SelectOps(g)[..k]);
    hide Run;
    assert forall p :: p !in SWITCH ==> At(e, p) == At(d, p) by {
      forall p | p !in SWITCH ensures At(e, p) == At(d, p) { assert Same(d, e, p); }
    }
    forall a ensures InGeneration(e, g, a) == Some(Get(b, a)) {
      assert InGeneration(d, g, a) == Some(Get(b, a));
    }
    forall a ensures FileOrLink(e, a, b) { assert FileOrLink(d, a, b); }
  }

  // ---- Installing links -----------------------------------------------------------------

  /** A public name may turn from what it was into the link; the rest stays. */
  predicate OneLinked(d: Disk, e: Disk, a: Artifact) {
    && e.inodes == d.inodes
    && (At(e, Public(a)) == At(d, Public(a)) || At(e, Public(a)) == Symlink(ThroughCurrent(a)))
  }

  lemma {:induction false} LinkingStep(d: Disk, e: Disk, a: Artifact, g: string, b: Bundle)
    requires Linking(d, g, b) && OneLinked(d, e, a)
    requires forall p :: p != Public(a) && p != PublicPending(a) ==> At(e, p) == At(d, p)
    ensures Linking(e, g, b) && (Present(d) ==> Present(e))
  {
    forall c ensures InGeneration(e, g, c) == Some(Get(b, c)) {
      assert InGeneration(d, g, c) == Some(Get(b, c));
    }
    forall c ensures FileOrLink(e, c, b) { assert FileOrLink(d, c, b); }
  }

  ghost predicate StillLinking(d: Disk, e: Disk, g: string, b: Bundle) {
    Linking(e, g, b) && (Present(d) ==> Present(e))
  }

  lemma {:induction false} LinkOne(d: Disk, a: Artifact, g: string, b: Bundle)
    requires Linking(d, g, b)
    ensures Throughout(d, LinkOneOps(d, a), e => StillLinking(d, e, g, b))
    ensures var e := Run(d, LinkOneOps(d, a));
            && StillLinking(d, e, g, b)
            && At(e, Public(a)) == Symlink(ThroughCurrent(a))
            && (forall c :: At(d, Public(c)) == Symlink(ThroughCurrent(c)) ==> At(e, Public(c)) == At(d, Public(c)))
  {
    var ops := LinkOneOps(d, a);
    if At(d, Public(a)).Symlink? {
      assert FileOrLink(d, a, b);
      assert ops == [];
    } else {
      var x := Exec(d, ops[0]);
      var y := Exec(x, ops[1]);
      assert ops[..0] == [];
      RunNext(d, ops, 0);
      RunNext(d, ops, 1);
      assert ops[..2] == ops;
      RenameLooks(x, PublicPending(a), Public(a));
      hide Run, Linking, Present, AllEnabled;
      LinkingStep(d, x, a, g, b);
      LinkingStep(d, y, a, g, b);
    }
  }

  lemma {:induction false} LinkUpLinking(d: Disk, arts: seq<Artifact>, g: string, b: Bundle)
    requires Linking(d, g, b)
    ensures Throughout(d, LinkUpOps(d, arts), e => StillLinking(d, e, g, b))
    ensures var e := Run(d, LinkUpOps(d, arts));
            && StillLinking(d, e, g, b)
            && (forall a :: a in arts ==> At(e, Public(a)) == Symlink(ThroughCurrent(a)))
            && (forall c :: At(d, Public(c)) == Symlink(ThroughCurrent(c)) ==> At(e, Public(c)) == At(d, Public(c)))
    decreases |arts|
  {
    if arts != [] {
      var first := LinkOneOps(d, arts[0]);
      var m := Run(d, first);
      var rest := LinkUpOps(m, arts[1..]);
      LinkOne(d, arts[0], g, b);
      LinkUpLinking(m, arts[1..], g, b);
      hide Run, LinkUpOps, LinkOneOps, Linking, Present, AllEnabled;
      ThroughoutStill(m, rest, d, g, b);
      ThroughoutAppend(d, first, rest, e => StillLinking(d, e, g, b));
      assert LinkUpOps(d, arts) == first + rest by { LinkUpCons(d, arts); }
      RunAppend(d, first, rest);
      assert forall x :: x in arts <==> x == arts[0] || x in arts[1..];
    } else {
      assert LinkUpOps(d, arts) == [];
      hide Linking;
    }
  }

  lemma {:induction false} LinkUpCons(d: Disk, arts: seq<Artifact>)
    requires arts != []
    ensures var first := LinkOneOps(d, arts[0]);
            LinkUpOps(d, arts) == first + LinkUpOps(Run(d, first), arts[1..])
  {
  }

  lemma {:induction false} ThroughoutStill(m: Disk, ops: seq<Op>, d: Disk, g: string, b: Bundle)
    requires StillLinking(d, m, g, b) && Throughout(m, ops, e => StillLinking(m, e, g, b))
    ensures Throughout(m, ops, e => StillLinking(d, e, g, b))
  {
  }

  lemma {:induction false} SyncStep(d: Disk, g: string, b: Bundle)
    requires Linking(d, g, b)
    ensures StillLinking(d, Exec(d, SyncDir(TARGET)), g, b)
    ensures forall a :: At(Exec(d, SyncDir(TARGET)), Public(a)) == At(d, Public(a))
  {
    SyncDirLooks(d, TARGET);
    LinkingStep(d, Exec(d, SyncDir(TARGET)), Cert, g, b);
  }

  lemma {:induction false} EnsureLinking(d: Disk, g: string, b: Bundle)
    requires Linking(d, g, b)
    ensures Throughout(d, EnsureOps(d), e => StillLinking(d, e, g, b))
    ensures var e := Run(d, EnsureOps(d)); Linking(e, g, b) && AllLinks(e)
  {
    var arts := ARTIFACTS;
    var first, sync := LinkUpOps(d, arts), [SyncDir(TARGET)];
    LinkUpLinking(d, arts, g, b);
    EveryArtifact();
    assert EnsureOps(d) == first + sync;
    hide EnsureOps, LinkUpOps, Linking, Present, AllEnabled;
    var m := Run(d, first);
    SyncStep(m, g, b);
    RunOne(m, SyncDir(TARGET));
    RunAppend(d, first, sync);
    hide Run, Exec;
    OneStill(m, SyncDir(TARGET), d, g, b);
    ThroughoutAppend(d, first, sync, e => StillLinking(d, e, g, b));
  }

  lemma {:induction false} OneStill(m: Disk, op: Op, d: Disk, g: string, b: Bundle)
    requires StillLinking(d, m, g, b) && StillLinking(m, Run(m, [op]), g, b)
    ensures Throughout(m, [op], e => StillLinking(d, e, g, b))
  {
    var ops := [op];
    assert ops[..0] == [] && ops[..1] == ops;
    assert Run(m, ops[..0]) == m;
    hide Run, Linking, Present, AllEnabled;
    forall k | 0 <= k <= |ops| ensures StillLinking(d, Run(m, ops[..k]), g, b) { assert k == 0 || k == 1; }
  }

  lemma {:induction false} EnsureShows(d: Disk, g: string, b: Bundle)
    requires Linking(d, g, b) && Present(d)
    ensures Throughout(d, EnsureOps(d), e => Shows(e, b))
  {
    EnsureLinking(d, g, b);
    var ops := EnsureOps(d);
    hide EnsureOps, Run, Linking, Present, AllEnabled;
    forall k | 0 <= k <= |ops| && AllEnabled(d, ops[..k]) ensures Shows(Run(d, ops[..k]), b) {
      assert StillLinking(d, Run(d, ops[..k]), g, b);
      LinkingShows(Run(d, ops[..k]), g, b);
    }
  }

  // ---- Migration ------------------------------------------------------------------------

  lemma {:induction false} CompleteAfter(d: Disk, ops: seq<Op>, names: set<Place>, g: string, b: Bundle)
    requires WellFormed(d) && Complete(d, g, b) && Contained(d, ops, names) && Clear(d, names, {g})
    ensures Complete(Run(d, ops), g, b)
  {
    assert ops[..|ops|] == ops && Untouched(d, Run(d, ops), d.next, names);
    CompleteKept(d, Run(d, ops), names, g, b);
  }

  lemma {:induction false} SelectSaved(d: Disk, legacy: string, b: Bundle)
    requires AllFiles(d, b) && Complete(d, legacy, b)
    ensures Throughout(d, SelectOps(legacy), e => Shows(e, b))
    ensures var e := Run(d, SelectOps(legacy)); Linking(e, legacy, b) && Present(e)
  {
    var ops := SelectOps(legacy);
    assert Serves(d, b);
    ServesShows(d, b);
    forall a ensures FileOrLink(d, a, b) && At(d, Public(a)) != Absent { assert At(d, Public(a)).File?; }
    hide Run, Shows, Complete, AllFiles, Linking;
    forall k | 0 <= k <= |ops| ensures Shows(Run(d, ops[..k]), b) {
      if k < 3 {
        BeforeSwitch(d, legacy, b, k);
      } else {
        AfterSwitch(d, legacy, b, k);
        LinkingShows(Run(d, ops[..k]), legacy, b);
      }
    }
    AfterSwitch(d, legacy, b, 4);
    assert ops[..4] == ops;
  }

  lemma {:induction false} SavedToLinks(d: Disk, p: Plan, b: Bundle)
    requires WellFormed(d) && AllFiles(d, b) && Complete(d, p.legacy, b) && Complete(d, p.generation, p.bundle)
    ensures var select := SelectOps(p.legacy);
            var ops := select + EnsureOps(Run(d, select));
            && Throughout(d, ops, e => Shows(e, b))
            && (AllEnabled(d, ops) ==>
                  AllLinks(Run(d, ops)) && Shows(Run(d, ops), b) && Complete(Run(d, ops), p.generation, p.bundle))
  {
    hide *;
    var select := SelectOps(p.legacy);
    var m := Run(d, select);
    var ensure := EnsureOps(m);
    SelectSaved(d, p.legacy, b);
    EnsureShows(m, p.legacy, b);
    EnsureLinking(m, p.legacy, b);
    ThroughoutAppend(d, select, ensure, e => Shows(e, b));
    RunAppend(d, select, ensure);
    if AllEnabled(d, select + ensure) {
      ThroughoutEnds(d, select + ensure, e => Shows(e, b));
      LinksKeepComplete(d, p.legacy, p.generation, p.bundle);
    }
  }

  /** Switching and linking keep any other complete generation. */
  lemma {:induction false} LinksKeepComplete(d: Disk, selected: string, g: string, b: Bundle)
    requires WellFormed(d) && Complete(d, g, b)
    requires var select := SelectOps(selected); AllEnabled(d, select + EnsureOps(Run(d, select)))
    ensures var select := SelectOps(selected); Complete(Run(d, select + EnsureOps(Run(d, select))), g, b)
  {
    ClearOfTarget(d, SWITCH, {g});
    hide *;
    var arts := ARTIFACTS;
    var select := SelectOps(selected);
    var m := Run(d, select);
    var ensure := EnsureOps(m);
    EnabledSplit(d, select, ensure);
    RunAppend(d, select, ensure);
    WellFormedRun(d, select);
    SelectContained(d, selected);
    CompleteAfter(d, select, SWITCH, g, b);
    EnsureContained(m);
    LinkNamesInTarget(arts);
    ClearOfTarget(m, LinkNames(arts), {g});
    CompleteAfter(m, ensure, LinkNames(arts), g, b);
  }

  lemma {:induction false} MigrateShows(d: Disk, p: Plan, b: Bundle)
    requires Waiting(d, b, p.generation, p.bundle)
    requires Unused(d, p.legacyStaging, p.legacy) && p.legacy != p.generation
    ensures var ops := MigrateOps(d, p.legacyStaging, p.legacy);
            var e := Run(d, ops);
            && Throughout(d, ops, e => Shows(e, b))
            && (AllEnabled(d, ops) ==> AllLinks(e) && Shows(e, b) && Complete(e, p.generation, p.bundle))
  {
    ServesShows(d, b);
    if AllSymlinks(d) {
      assert !AllFiles(d, b) by { assert At(d, Public(Cert)).Symlink?; }
      var none: seq<Op> := [];
      assert forall k :: 0 <= k <= |none| ==> none[..k] == none;
    } else {
      assert AllFiles(d, b) && !NonePresent(d) by {
        assert AllLinks(d) ==> AllSymlinks(d);
        assert At(d, Public(Cert)).File?;
      }
      var save, select := SaveLegacyOps(d.next, p.legacyStaging, p.legacy), SelectOps(p.legacy);
      var m := Run(d, save);
      var ensure := EnsureOps(Run(m, select));
      MigrateParts(d, p.legacyStaging, p.legacy);
      hide SaveLegacyOps, SelectOps, EnsureOps, MigrateOps;
      hide Run, AllEnabled, Throughout, Shows, Complete, AllFiles, WellFormed;
      SaveShows(d, p, b);
      SavedToLinks(m, p, b);
      ThroughoutAppend(d, save, select + ensure, e => Shows(e, b));
      RunAppend(d, save, select + ensure);
      if AllEnabled(d, save + (select + ensure)) { EnabledSplit(d, save, select + ensure); }
    }
  }

  lemma {:induction false} MigrateParts(d: Disk, staging: string, legacy: string)
    requires !NonePresent(d) && !AllSymlinks(d)
    ensures var save := SaveLegacyOps(d.next, staging, legacy);
            MigrateOps(d, staging, legacy)
              == save + (SelectOps(legacy) + EnsureOps(Run(Run(d, save), SelectOps(legacy))))
  {
  }

  // ---- Cleanup --------------------------------------------------------------------------

  /** After the switch: every public name leads through `current` to this generation. */
  ghost predicate Settled(d: Disk, g: string, b: Bundle) {
    WellFormed(d) && AllLinks(d) && Linking(d, g, b)
  }

  lemma {:induction false} SettledShows(d: Disk, g: string, b: Bundle)
    requires Settled(d, g, b)
    ensures Shows(d, b)
  {
  }

  lemma {:induction false} EmptySettled(d: Disk, at: Place, contents: seq<Name>, g: string, b: Bundle)
    requires Settled(d, g, b) && at.dir <= PINS && at != CURRENT && at != GenPlace(g) && forall a :: at != Public(a)
    ensures var ops := EmptyOps(d, at, contents);
            && Throughout(d, ops, e => Shows(e, b))
            && (AllEnabled(d, ops) ==> Settled(Run(d, ops), g, b))
  {
    var ops, names := EmptyOps(d, at, contents), TreeNames(d, at, contents);
    EmptyContained(d, at, contents);
    TreeIsClear(d, at, contents, {g});
    hide EmptyOps, TreeNames, Run, Shows, Linking, WellFormed, AllEnabled, Untouched;
    forall k | 0 <= k <= |ops| && AllEnabled(d, ops[..k])
      ensures Settled(Run(d, ops[..k]), g, b) && Shows(Run(d, ops[..k]), b)
    {
      WellFormedRun(d, ops[..k]);
      LinksKept(d, Run(d, ops[..k]), names, g, b);
      SettledShows(Run(d, ops[..k]), g, b);
    }
    assert ops[..|ops|] == ops;
  }

  lemma {:induction false} RemoveAllSettled(d: Disk, victims: seq<string>, g: string, b: Bundle)
    requires Settled(d, g, b) && g !in victims
    ensures var ops := RemoveAllOps(d, victims);
            && Throughout(d, ops, e => Shows(e, b))
            && (AllEnabled(d, ops) ==> Settled(Run(d, ops), g, b))
    decreases |victims|
  {
    if victims == [] {
      var none: seq<Op> := [];
      assert forall k :: 0 <= k <= |none| ==> none[..k] == none;
      SettledShows(d, g, b);
    } else {
      assert victims[0] in victims && forall v :: v in victims[1..] ==> v in victims;
      var first := EmptyOps(d, GenPlace(victims[0]), CONTENTS);
      var rest := RemoveAllOps(Run(d, first), victims[1..]);
      assert RemoveAllOps(d, victims) == first + rest;
      hide EmptyOps, RemoveAllOps, Settled, Run, AllEnabled, Throughout, Shows;
      EmptySettled(d, GenPlace(victims[0]), CONTENTS, g, b);
      if AllEnabled(d, first) { RemoveAllSettled(Run(d, first), victims[1..], g, b); }
      ThroughoutAppend(d, first, rest, e => Shows(e, b));
      RunAppend(d, first, rest);
      if AllEnabled(d, first + rest) { EnabledSplit(d, first, rest); }
    }
  }

  lemma {:induction false} CleanupSettled(d: Disk, victims: seq<string>, g: string, b: Bundle)
    requires Settled(d, g, b) && g !in victims
    ensures var ops := CleanupOps(d, victims);
            && Throughout(d, ops, e => Shows(e, b))
            && (AllEnabled(d, ops) ==> Settled(Run(d, ops), g, b))
  {
    var removal := RemoveAllOps(d, victims);
    var sync: seq<Op> := if victims == [] then [] else [SyncDir(GENERATIONS)];
    assert CleanupOps(d, victims) == removal + sync;
    hide RemoveAllOps, CleanupOps, Settled, Run, AllEnabled, Throughout, Shows;
    RemoveAllSettled(d, victims, g, b);
    var m := Run(d, removal);
    if AllEnabled(d, removal) { SyncSettled(m, sync, g, b); }
    ThroughoutAppend(d, removal, sync, e => Shows(e, b));
    RunAppend(d, removal, sync);
    if AllEnabled(d, removal + sync) { EnabledSplit(d, removal, sync); }
  }

  lemma {:induction false} SyncSettled(d: Disk, sync: seq<Op>, g: string, b: Bundle)
    requires Settled(d, g, b) && (sync == [] || sync == [SyncDir(GENERATIONS)])
    ensures Throughout(d, sync, e => Shows(e, b))
    ensures AllEnabled(d, sync) ==> Settled(Run(d, sync), g, b)
  {
    QuietContained(d, sync, {});
    hide Run, Shows, Linking, WellFormed, AllEnabled, Untouched;
    forall k | 0 <= k <= |sync| && AllEnabled(d, sync[..k])
      ensures Settled(Run(d, sync[..k]), g, b) && Shows(Run(d, sync[..k]), b)
    {
      WellFormedRun(d, sync[..k]);
      LinksKept(d, Run(d, sync[..k]), {}, g, b);
      SettledShows(Run(d, sync[..k]), g, b);
    }
    assert sync[..|sync|] == sync;
  }

  // ---- The theorem ----------------------------------------------------------------------

  lemma {:induction false} EnsureSettled(d: Disk, g: string, b: Bundle)
    requires WellFormed(d) && Linking(d, g, b) && AllEnabled(d, EnsureOps(d))
    ensures Settled(Run(d, EnsureOps(d)), g, b)
  {
    EnsureLinking(d, g, b);
    hide EnsureOps, Run, AllEnabled, WellFormed;
    WellFormedRun(d, EnsureOps(d));
  }

  /** Everything after the switch shows the new files. */
  lemma {:induction false} AfterwardsShows(d: Disk, g: string, b: Bundle, victims: seq<string>)
    requires WellFormed(d) && Linking(d, g, b) && Present(d) && g !in victims
    ensures var rest := EnsureOps(d) + CleanupOps(Run(d, EnsureOps(d)), victims);
            && Throughout(d, rest, e => Shows(e, b))
            && (AllEnabled(d, rest) ==> Settled(Run(d, rest), g, b))
  {
    var ensure := EnsureOps(d);
    var m := Run(d, ensure);
    var cleanup := CleanupOps(m, victims);
    hide EnsureOps, CleanupOps, Run, AllEnabled, Throughout, Shows, Linking, Settled, WellFormed;
    EnsureShows(d, g, b);
    if AllEnabled(d, ensure) {
      EnsureSettled(d, g, b);
      CleanupSettled(m, victims, g, b);
    }
    ThroughoutAppend(d, ensure, cleanup, e => Shows(e, b));
    RunAppend(d, ensure, cleanup);
    if AllEnabled(d, ensure + cleanup) { EnabledSplit(d, ensure, cleanup); }
  }

  lemma {:induction false} FinishParts(d: Disk, g: string, victims: seq<string>)
    ensures var m := Run(d, SelectOps(g));
            FinishOps(d, g, victims) == SelectOps(g) + (EnsureOps(m) + CleanupOps(Run(m, EnsureOps(m)), victims))
    ensures |SelectOps(g)| == 4
  {
  }

  /** A prefix of two blocks is a prefix of the first, or the first and a prefix of the second. */
  lemma {:induction false} PrefixOfTwo(d: Disk, a: seq<Op>, b: seq<Op>, k: nat)
    requires k <= |a + b| && AllEnabled(d, (a + b)[..k])
    ensures k <= |a| ==> AllEnabled(d, a[..k]) && Run(d, (a + b)[..k]) == Run(d, a[..k])
    ensures k >= |a| ==>
              && AllEnabled(d, a) && AllEnabled(Run(d, a), b[..k - |a|])
              && Run(d, (a + b)[..k]) == Run(Run(d, a), b[..k - |a|])
  {
    if k <= |a| { assert (a + b)[..k] == a[..k]; }
    if k >= |a| {
      assert (a + b)[..k] == a + b[..k - |a|];
      EnabledSplit(d, a, b[..k - |a|]);
      RunAppend(d, a, b[..k - |a|]);
    }
  }

  lemma {:induction false} SelectShows(d: Disk, g: string, before: Bundle, b: Bundle, k: nat)
    requires AllLinks(d) && Shows(d, before) && Complete(d, g, b) && k <= 4
    ensures Shows(Run(d, SelectOps(g)[..k]), if k <= 2 then before else b)
    ensures k >= 3 ==> Linking(Run(d, SelectOps(g)[..k]), g, b) && Present(Run(d, SelectOps(g)[..k]))
  {
    forall a ensures FileOrLink(d, a, b) { assert At(d, Public(a)) == Symlink(ThroughCurrent(a)); }
    assert forall a :: At(d, Public(a)) == Symlink(ThroughCurrent(a));
    hide Run, SelectOps, Shows, Complete, Linking;
    if k < 3 {
      BeforeSwitch(d, g, before, k);
    } else {
      AfterSwitch(d, g, b, k);
      LinkingShows(Run(d, SelectOps(g)[..k]), g, b);
    }
  }

  /** All five names show `before` up to this step, and `after` from then on. */
  ghost predicate TurnsAt(d: Disk, ops: seq<Op>, step: nat, before: Bundle, after: Bundle) {
    forall k :: 0 <= k <= |ops| && AllEnabled(d, ops[..k]) ==>
      Shows(Run(d, ops[..k]), if k <= step then before else after)
  }

  lemma {:induction false} TurnsAppend(d: Disk, a: seq<Op>, b: seq<Op>, step: nat, before: Bundle, after: Bundle)
    requires Throughout(d, a, e => Shows(e, before))
    requires AllEnabled(d, a) ==> TurnsAt(Run(d, a), b, step, before, after)
    ensures TurnsAt(d, a + b, |a| + step, before, after)
  {
    hide Run, AllEnabled, Shows;
    forall k | 0 <= k <= |a + b| && AllEnabled(d, (a + b)[..k])
      ensures Shows(Run(d, (a + b)[..k]), if k <= |a| + step then before else after)
    {
      PrefixOfTwo(d, a, b, k);
    }
  }

  /** The new files from the third step on, the old ones before. */
  lemma {:induction false} FinishShows(d: Disk, g: string, before: Bundle, b: Bundle, victims: seq<string>)
    requires WellFormed(d) && AllLinks(d) && Shows(d, before) && Complete(d, g, b) && g !in victims
    ensures TurnsAt(d, FinishOps(d, g, victims), 2, before, b)
    ensures AllEnabled(d, FinishOps(d, g, victims)) ==> Settled(Run(d, FinishOps(d, g, victims)), g, b)
  {
    hide FinishOps, SelectOps, EnsureOps, CleanupOps, Run, AllEnabled, Throughout;
    hide Shows, WellFormed, Complete, Linking, Present, Settled, AllLinks;
    var select := SelectOps(g);
    var m := Run(d, select);
    var rest := EnsureOps(m) + CleanupOps(Run(m, EnsureOps(m)), victims);
    FinishParts(d, g, victims);
    SelectShows(d, g, before, b, 4);
    assert select[..4] == select;
    if AllEnabled(d, select) {
      WellFormedRun(d, select);
      AfterwardsShows(m, g, b, victims);
    }
    forall k | 0 <= k <= |select + rest| && AllEnabled(d, (select + rest)[..k])
      ensures Shows(Run(d, (select + rest)[..k]), if k <= 2 then before else b)
    {
      PrefixOfTwo(d, select, rest, k);
      if k <= 4 { SelectShows(d, g, before, b, k); } else { ThroughoutAt(m, rest, b, k - 4); }
    }
    RunAppend(d, select, rest);
    if AllEnabled(d, select + rest) { EnabledSplit(d, select, rest); }
  }

  /** Staging and migration, which readers do not notice. */
  lemma {:induction false} FrontShows(d: Disk, p: Plan, before: Bundle)
    requires WellFormed(d) && Drawn(d, p) && Serves(d, before)
    ensures Throughout(d, FrontOps(d, p), e => Shows(e, before))
    ensures AllEnabled(d, FrontOps(d, p)) ==>
                 (var e := Run(d, FrontOps(d, p));
                  WellFormed(e) && AllLinks(e) && Shows(e, before) && Complete(e, p.generation, p.bundle))
  {
    var stage := StageOps(d.next, p.bundle, p.staging, p.generation);
    assert p.legacy != p.generation;
    hide StageOps, MigrateOps, Run, AllEnabled, Throughout, Shows, Serves, WellFormed, Complete, Drawn, AllLinks;
    StageShows(d, p, before);
    var d1 := Run(d, stage);
    var migrate := MigrateOps(d1, p.legacyStaging, p.legacy);
    MigrateShows(d1, p, before);
    ThroughoutAppend(d, stage, migrate, e => Shows(e, before));
    RunAppend(d, stage, migrate);
    if AllEnabled(d, stage + migrate) {
      EnabledSplit(d, stage, migrate);
      WellFormedRun(d, stage + migrate);
    }
  }

  lemma {:induction false} DeployJoins(d: Disk, p: Plan)
    ensures DeployOps(d, p) == FrontOps(d, p) + FinishOps(Run(d, FrontOps(d, p)), p.generation, p.victims)
    ensures Drawn(d, p) ==> p.generation !in p.victims
  {
  }

  /**
   Start with five plain files, or with five links through `current`, all showing one publication.
   Whatever prefix of the deployment has run, all five names show that publication up to the third
   call of the last selection, and the new one from this call on. At the end `current` leads to it.
   */
  lemma {:induction false} SetAtomicity(d: Disk, p: Plan, before: Bundle)
    requires WellFormed(d) && Drawn(d, p) && Serves(d, before)
    ensures TurnsAt(d, DeployOps(d, p), |FrontOps(d, p)| + 2, before, p.bundle)
    ensures AllEnabled(d, DeployOps(d, p)) ==> Settled(Run(d, DeployOps(d, p)), p.generation, p.bundle)
  {
    hide *;
    DeployJoins(d, p);
    var front := FrontOps(d, p);
    var d2 := Run(d, front);
    var finish := FinishOps(d2, p.generation, p.victims);
    FrontShows(d, p, before);
    if AllEnabled(d, front) { FinishShows(d2, p.generation, before, p.bundle, p.victims); }
    TurnsAppend(d, front, finish, 2, before, p.bundle);
    RunAppend(d, front, finish);
    if AllEnabled(d, front + finish) { EnabledSplit(d, front, finish); }
  }

  lemma {:induction false} ThroughoutAt(d: Disk, ops: seq<Op>, b: Bundle, k: nat)
    requires Throughout(d, ops, e => Shows(e, b)) && k <= |ops| && AllEnabled(d, ops[..k])
    ensures Shows(Run(d, ops[..k]), b)
  {
  }
}
