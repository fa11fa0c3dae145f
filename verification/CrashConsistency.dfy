/** A crash at any moment of a generation deployment leaves `current` absent or at one whole publication. */
module CrashConsistency {
  import opened Basics
  import opened FileSystem
  import opened Publication
  import opened Phases
  import opened Switching

  /** The bytes that a migration saves for a public name. */
  function FileData(d: Disk, a: Artifact): Data {
    match LinkSource(d, Public(a))
    case File(i) => (match DataOf(d, i) case Some(data) => data case None => Bytes(""))
    case _ => Bytes("")
  }

  function Files(d: Disk): Bundle {
    Bundle(FileData(d, Cert), FileData(d, Chain), FileData(d, Fullchain), FileData(d, Privkey), FileData(d, Metadata))
  }

  ghost predicate AllPlain(d: Disk) { forall a :: At(d, Public(a)).File? }

  /** The deployment tries to save the names, because some are there and they are not all links. */
  predicate Migrates(d: Disk) { !NonePresent(d) && !AllSymlinks(d) }

  /** Each of the five names can be linked. */
  ghost predicate Linkable(d: Disk) { forall a :: LinkSource(d, Public(a)) != Absent }

  /** If a migration can save the five names, it saves five synchronised files. */
  ghost predicate Durable(d: Disk) {
    Migrates(d) && Linkable(d) ==> forall a :: SourceHolds(d, a, Get(Files(d), a))
  }

  /** The drawn names are unused and different, and the cleanup spares the new generation. */
  predicate Drawn(d: Disk, p: Plan) {
    && Unused(d, p.staging, p.generation) && Unused(d, p.legacyStaging, p.legacy)
    && At(d, CURRENT) != Symlink(ToGeneration(p.generation))
    && p.generation != p.legacy && p.staging != p.legacyStaging
    && p.generation !in p.victims
  }

  /** `keep` names the generations that `current` may lead to, with what they hold. */
  ghost predicate Start(d: Disk, p: Plan, keep: map<string, Bundle>) {
    WellFormed(d) && Drawn(d, p) && Resolves(d, keep) && p.generation !in keep && p.legacy !in keep
  }

  function Saved(d: Disk, p: Plan, keep: map<string, Bundle>): map<string, Bundle> {
    keep[p.legacy := Files(d)]
  }

  function Allowed(d: Disk, p: Plan, keep: map<string, Bundle>): map<string, Bundle> {
    Saved(d, p, keep)[p.generation := p.bundle]
  }

  predicate Extends(less: map<string, Bundle>, more: map<string, Bundle>) {
    forall g :: g in less ==> g in more && more[g] == less[g]
  }

  lemma {:induction false} ResolvesMore(d: Disk, less: map<string, Bundle>, more: map<string, Bundle>)
    requires Resolves(d, less) && Extends(less, more)
    ensures Resolves(d, more)
  {
  }

  lemma {:induction false} ThroughoutMore(d: Disk, ops: seq<Op>, less: map<string, Bundle>, more: map<string, Bundle>)
    requires Throughout(d, ops, e => Resolves(e, less)) && Extends(less, more)
    ensures Throughout(d, ops, e => Resolves(e, more))
  {
  }

  /** Between staging and selection: the new generation is sealed, and `current` resolves. */
  ghost predicate Ready(d: Disk, g: string, b: Bundle, keep: map<string, Bundle>) {
    WellFormed(d) && Resolves(d, keep) && Sealed(d, g, b)
  }

  lemma {:induction false} ReadyAfter(d: Disk, ops: seq<Op>, names: set<Place>, g: string, b: Bundle,
                                      keep: map<string, Bundle>)
    requires Ready(d, g, b, keep) && AllEnabled(d, ops) && Contained(d, ops, names)
    requires Clear(d, names, keep.Keys + {g}) && CURRENT !in names
    ensures Ready(Run(d, ops), g, b, keep)
  {
    hide Sealed, Run, AllEnabled, Resolves;
    WellFormedRun(d, ops);
    assert ops[..|ops|] == ops;
    ResolvesKept(d, Run(d, ops), names, keep);
    SealedKept(d, Run(d, ops), names, g, b);
  }

  /** Staging leaves alone what a migration would link. */
  lemma {:induction false} SourceUntouched(d: Disk, e: Disk, staging: string, g: string, a: Artifact)
    requires WellFormed(d) && Untouched(d, e, d.next, {StagePlace(staging), GenPlace(g)})
    requires At(d, CURRENT) != Symlink(ToGeneration(g))
    ensures At(e, Public(a)) == At(d, Public(a)) && LinkSource(e, Public(a)) == LinkSource(d, Public(a))
  {
    var names := {StagePlace(staging), GenPlace(g)};
    assert !Free(Public(a), d.next, names) && Same(d, e, Public(a));
    assert !Free(CURRENT, d.next, names) && Same(d, e, CURRENT);
    match At(d, CURRENT)
    case Symlink(ToGeneration(c)) =>
      assert !Free(GenPlace(c), d.next, names) && Same(d, e, GenPlace(c));
      if At(d, GenPlace(c)).Dir? {
        assert GenPlace(c) in d.slots;
        forall x ensures At(e, Place(At(d, GenPlace(c)).dir, Art(x))) == At(d, Place(At(d, GenPlace(c)).dir, Art(x))) {
          assert !Free(Place(At(d, GenPlace(c)).dir, Art(x)), d.next, names);
          assert Same(d, e, Place(At(d, GenPlace(c)).dir, Art(x)));
        }
      }
    case _ =>
  }

  lemma {:induction false} SourcesKeepFiles(d: Disk, e: Disk)
    requires WellFormed(d)
    requires forall i :: i in d.inodes ==> i in e.inodes && e.inodes[i] == d.inodes[i]
    requires forall a :: At(e, Public(a)) == At(d, Public(a)) && LinkSource(e, Public(a)) == LinkSource(d, Public(a))
    ensures Files(e) == Files(d) && Migrates(e) == Migrates(d) && Linkable(e) == Linkable(d)
    ensures Durable(d) ==> Durable(e)
  {
    forall a ensures FileData(e, a) == FileData(d, a) { SourceFits(d, Public(a)); }
    hide FileData;
    assert Files(e) == Files(d);
    if Durable(d) && Migrates(d) && Linkable(d) {
      hide LinkSource, Files;
      forall a ensures SourceHolds(e, a, Get(Files(e), a)) { assert SourceHolds(d, a, Get(Files(d), a)); }
    }
  }

  lemma {:induction false} StageLeaves(d: Disk, p: Plan)
    requires WellFormed(d) && Drawn(d, p)
    ensures var ops := StageOps(d.next, p.bundle, p.staging, p.generation);
            var e := Run(d, ops);
            && AllEnabled(d, ops) && WellFormed(e) && Unused(e, p.legacyStaging, p.legacy)
            && Untouched(d, e, d.next, {StagePlace(p.staging), GenPlace(p.generation)})
            && (forall p: Place :: p.dir == TARGET ==> At(e, p) == At(d, p))
  {
    var ops := StageOps(d.next, p.bundle, p.staging, p.generation);
    StagePhase(d, p.bundle, p.staging, p.generation);
    assert ops[..|ops|] == ops;
    hide StageOps, Run, AllEnabled, Sealed, Untouched, WellFormed;
    WellFormedRun(d, ops);
  }

  lemma {:induction false} StageKeepsFiles(d: Disk, p: Plan)
    requires WellFormed(d) && Drawn(d, p)
    ensures var e := Run(d, StageOps(d.next, p.bundle, p.staging, p.generation));
            && (forall i :: i in d.inodes ==> i in e.inodes && e.inodes[i] == d.inodes[i])
            && (forall a :: LinkSource(e, Public(a)) == LinkSource(d, Public(a)))
            && Files(e) == Files(d) && Migrates(e) == Migrates(d) && Linkable(e) == Linkable(d)
            && (Durable(d) ==> Durable(e))
  {
    StageLeaves(d, p);
    var e := Run(d, StageOps(d.next, p.bundle, p.staging, p.generation));
    assert At(d, CURRENT) != Symlink(ToGeneration(p.generation));
    forall i | i in d.inodes ensures i in e.inodes && e.inodes[i] == d.inodes[i] {
      assert i < d.next && SameInode(d, e, i);
    }
    hide *;
    forall a ensures At(e, Public(a)) == At(d, Public(a)) && LinkSource(e, Public(a)) == LinkSource(d, Public(a)) {
      SourceUntouched(d, e, p.staging, p.generation, a);
    }
    SourcesKeepFiles(d, e);
  }

  lemma {:induction false} FreshIsClear(d: Disk, staging: string, g: string, gens: set<string>)
    requires g !in gens
    ensures Clear(d, {StagePlace(staging), GenPlace(g)}, gens) && CURRENT !in {StagePlace(staging), GenPlace(g)}
  {
  }

  lemma {:induction false} StageFacts(d: Disk, b: Bundle, staging: string, g: string)
    requires WellFormed(d) && Unused(d, staging, g)
    ensures var ops := StageOps(d.next, b, staging, g);
            && AllEnabled(d, ops) && Contained(d, ops, {StagePlace(staging), GenPlace(g)})
            && WellFormed(Run(d, ops)) && Sealed(Run(d, ops), g, b)
  {
    StagePhase(d, b, staging, g);
    hide StageOps, Run, AllEnabled, WellFormed, Sealed, Contained;
    WellFormedRun(d, StageOps(d.next, b, staging, g));
  }

  lemma {:induction false} StageResolves(d: Disk, p: Plan, keep: map<string, Bundle>)
    requires Start(d, p, keep) && Durable(d)
    ensures var ops := StageOps(d.next, p.bundle, p.staging, p.generation);
            && AllEnabled(d, ops)
            && Throughout(d, ops, e => Resolves(e, keep))
            && Ready(Run(d, ops), p.generation, p.bundle, keep)
  {
    hide StageOps, Run, AllEnabled, Resolves, WellFormed, Sealed, Throughout, Durable, Contained, Clear, Unused;
    var ops := StageOps(d.next, p.bundle, p.staging, p.generation);
    StageFacts(d, p.bundle, p.staging, p.generation);
    FreshIsClear(d, p.staging, p.generation, keep.Keys);
    ContainedResolves(d, ops, {StagePlace(p.staging), GenPlace(p.generation)}, keep);
  }

  // ---- Migration ------------------------------------------------------------------------

  /** What the five names are linked from, if they can all be linked, becomes a sealed generation. */
  lemma {:induction false} SaveResolves(d: Disk, p: Plan, keep: map<string, Bundle>)
    requires Ready(d, p.generation, p.bundle, keep) && Durable(d) && Unused(d, p.legacyStaging, p.legacy)
    requires Migrates(d) && p.legacy !in keep && p.legacy != p.generation
    ensures var ops := SaveLegacyOps(d.next, p.legacyStaging, p.legacy);
            var e := Run(d, ops);
            && Throughout(d, ops, e => Resolves(e, Saved(d, p, keep)))
            && (AllEnabled(d, ops) ==>
                  && Ready(e, p.generation, p.bundle, Saved(d, p, keep))
                  && Sealed(e, p.legacy, Files(d)))
  {
    hide SaveLegacyOps, Run, AllEnabled, Resolves, WellFormed, Sealed, Throughout, Contained, Clear;
    var ops := SaveLegacyOps(d.next, p.legacyStaging, p.legacy);
    var names := {StagePlace(p.legacyStaging), GenPlace(p.legacy)};
    SaveConfined(d.next, p.legacyStaging, p.legacy, d.next);
    QuietContained(d, ops, names);
    FreshIsClear(d, p.legacyStaging, p.legacy, keep.Keys);
    FreshIsClear(d, p.legacyStaging, p.legacy, keep.Keys + {p.generation});
    ContainedResolves(d, ops, names, keep);
    ThroughoutMore(d, ops, keep, Saved(d, p, keep));
    if AllEnabled(d, ops) {
      ReadyAfter(d, ops, names, p.generation, p.bundle, keep);
      ResolvesMore(Run(d, ops), keep, Saved(d, p, keep));
      SaveNeedsSources(d, p.legacyStaging, p.legacy);
      assert forall a :: SourceHolds(d, a, Get(Files(d), a));
      SaveLegacyPhase(d, Files(d), p.legacyStaging, p.legacy);
    }
  }

  lemma {:induction false} SaveNeedsSources(d: Disk, staging: string, legacy: string)
    requires WellFormed(d) && At(d, StagePlace(staging)) == Absent
    requires AllEnabled(d, SaveLegacyOps(d.next, staging, legacy))
    ensures Linkable(d)
  {
    var arts := ARTIFACTS;
    assert d.next > PINS;
    hide LinkOps, PublishOps, Run, AllEnabled, WellFormed;
    var make, links := [MakeDir(StagePlace(staging))], LinkOps(d.next, arts);
    var publish := PublishOps(d.next, staging, legacy);
    assert SaveLegacyOps(d.next, staging, legacy) == make + links + publish;
    hide SaveLegacyOps;
    EnabledSplit(d, make + links, publish);
    EnabledSplit(d, make, links);
    OpenStaging(d, staging);
    EveryArtifact();
    var e := Run(d, make);
    forall a ensures LinkSource(e, Public(a)) == LinkSource(d, Public(a)) && !LeadsTo(e, d.next) {
      OpenedSource(d, e, staging, a);
    }
    hide LinkSource, LeadsTo;
    LinksNeedSources(e, d.next, arts);
  }

  lemma {:induction false} ClearOfTarget(d: Disk, names: set<Place>, gens: set<string>)
    requires forall p :: p in names ==> p.dir == TARGET
    ensures Clear(d, names, gens)
  {
  }

  lemma {:induction false} LinkNamesInTarget(arts: seq<Artifact>)
    ensures forall p :: p in LinkNames(arts) ==> p.dir == TARGET && p !in SWITCH
  {
  }

  lemma {:induction false} EnsureResolves(d: Disk, g: string, b: Bundle, allowed: map<string, Bundle>)
    requires Ready(d, g, b, allowed)
    ensures Throughout(d, EnsureOps(d), e => Resolves(e, allowed))
    ensures AllEnabled(d, EnsureOps(d)) ==> Ready(Run(d, EnsureOps(d)), g, b, allowed)
  {
    var arts := ARTIFACTS;
    var names := LinkNames(arts);
    EnsureContained(d);
    LinkNamesInTarget(arts);
    ClearOfTarget(d, names, allowed.Keys);
    ClearOfTarget(d, names, allowed.Keys + {g});
    hide EnsureOps, LinkNames, Run, AllEnabled, Resolves, Sealed, WellFormed;
    ContainedResolves(d, EnsureOps(d), names, allowed);
    if AllEnabled(d, EnsureOps(d)) { ReadyAfter(d, EnsureOps(d), names, g, b, allowed); }
  }

  /** Switching to a sealed generation keeps another one sealed. */
  lemma {:induction false} SelectReady(d: Disk, selected: string, g: string, b: Bundle, allowed: map<string, Bundle>)
    requires Ready(d, g, b, allowed) && selected in allowed && Sealed(d, selected, allowed[selected])
    ensures Throughout(d, SelectOps(selected), e => Resolves(e, allowed))
    ensures AllEnabled(d, SelectOps(selected)) ==>
              Ready(Run(d, SelectOps(selected)), g, b, map[selected := allowed[selected]])
  {
    var ops := SelectOps(selected);
    SelectResolves(d, selected, allowed);
    SelectContained(d, selected);
    hide Run, AllEnabled, SelectOps, Resolves;
    if AllEnabled(d, ops) {
      WellFormedRun(d, ops);
      assert ops[..|ops|] == ops;
      SealedKept(d, Run(d, ops), SWITCH, g, b);
    }
  }

  lemma {:induction false} MigrateResolves(d: Disk, p: Plan, keep: map<string, Bundle>)
    requires Ready(d, p.generation, p.bundle, keep) && Durable(d) && Unused(d, p.legacyStaging, p.legacy)
    requires p.legacy !in keep && p.legacy != p.generation
    ensures var ops := MigrateOps(d, p.legacyStaging, p.legacy);
            var saved := Saved(d, p, keep);
            && Throughout(d, ops, e => Resolves(e, saved))
            && (AllEnabled(d, ops) ==> Ready(Run(d, ops), p.generation, p.bundle, saved))
  {
    var saved := Saved(d, p, keep);
    if NonePresent(d) || AllSymlinks(d) {
      var none: seq<Op> := [];
      assert forall k :: 0 <= k <= |none| ==> none[..k] == none;
      ResolvesMore(d, keep, saved);
    } else {
      var save, select := SaveLegacyOps(d.next, p.legacyStaging, p.legacy), SelectOps(p.legacy);
      var d1 := Run(d, save);
      var d2 := Run(d1, select);
      var ensure := EnsureOps(d2);
      assert MigrateOps(d, p.legacyStaging, p.legacy) == save + select + ensure;
      hide SaveLegacyOps, SelectOps, EnsureOps, MigrateOps, Run, AllEnabled, Throughout, Ready, Sealed;
      SaveResolves(d, p, keep);
      if AllEnabled(d, save) { SelectReady(d1, p.legacy, p.generation, p.bundle, saved); }
      ThroughoutAppend(d, save, select, e => Resolves(e, saved));
      RunAppend(d, save, select);
      if AllEnabled(d, save + select) {
        EnabledSplit(d, save, select);
        ReadyMore(d2, p.generation, p.bundle, map[p.legacy := saved[p.legacy]], saved);
        EnsureResolves(d2, p.generation, p.bundle, saved);
      }
      ThroughoutAppend(d, save + select, ensure, e => Resolves(e, saved));
      RunAppend(d, save + select, ensure);
      if AllEnabled(d, save + select + ensure) { EnabledSplit(d, save + select, ensure); }
    }
  }

  lemma {:induction false} ReadyMore(d: Disk, g: string, b: Bundle, less: map<string, Bundle>,
                                     more: map<string, Bundle>)
    requires Ready(d, g, b, less) && Extends(less, more)
    ensures Ready(d, g, b, more)
  {
  }

  // ---- Selection and cleanup ------------------------------------------------------------

  lemma {:induction false} CleanupResolves(d: Disk, victims: seq<string>, allowed: map<string, Bundle>)
    requires WellFormed(d) && Resolves(d, allowed) && forall g :: g in allowed ==> g !in victims
    ensures Throughout(d, CleanupOps(d, victims), e => Resolves(e, allowed))
  {
    var removal := RemoveAllOps(d, victims);
    var sync: seq<Op> := if victims == [] then [] else [SyncDir(GENERATIONS)];
    assert CleanupOps(d, victims) == removal + sync by { hide RemoveAllOps; }
    hide *;
    RemoveAllResolves(d, victims, allowed);
    if AllEnabled(d, removal) { SyncResolves(Run(d, removal), sync, allowed); }
    ThroughoutAppend(d, removal, sync, e => Resolves(e, allowed));
  }

  lemma {:induction false} SyncResolves(d: Disk, sync: seq<Op>, allowed: map<string, Bundle>)
    requires WellFormed(d) && Resolves(d, allowed) && (sync == [] || sync == [SyncDir(GENERATIONS)])
    ensures Throughout(d, sync, e => Resolves(e, allowed))
  {
    QuietContained(d, sync, {});
    assert Clear(d, {}, allowed.Keys);
    hide *;
    ContainedResolves(d, sync, {}, allowed);
  }

  lemma {:induction false} ReadyResolves(d: Disk, g: string, b: Bundle, keep: map<string, Bundle>)
    requires Ready(d, g, b, keep)
    ensures WellFormed(d) && Resolves(d, keep) && Sealed(d, g, b)
  {
  }

  /** Once selected, only the new generation can be meant, so the rest may go. */
  lemma {:induction false} FinishResolves(d: Disk, g: string, b: Bundle, victims: seq<string>,
                                          allowed: map<string, Bundle>)
    requires Ready(d, g, b, allowed) && g in allowed && allowed[g] == b && g !in victims
    ensures Throughout(d, FinishOps(d, g, victims), e => Resolves(e, allowed))
  {
    hide SelectOps, EnsureOps, CleanupOps, Run, AllEnabled, Throughout, Sealed, Resolves, WellFormed;
    var select := SelectOps(g);
    var d1 := Run(d, select);
    var ensure := EnsureOps(d1);
    var d2 := Run(d1, ensure);
    var cleanup := CleanupOps(d2, victims);
    assert FinishOps(d, g, victims) == select + ensure + cleanup;
    hide FinishOps;
    var only := map[g := b];
    assert Extends(only, allowed) && Sealed(d, g, allowed[g]);
    SelectReady(d, g, g, b, allowed);
    if AllEnabled(d, select) {
      EnsureResolves(d1, g, b, only);
      ThroughoutMore(d1, ensure, only, allowed);
      if AllEnabled(d1, ensure) {
        ReadyResolves(d2, g, b, only);
        CleanupResolves(d2, victims, only);
        ThroughoutMore(d2, cleanup, only, allowed);
      }
    }
    ThroughoutAppend(d, select, ensure, e => Resolves(e, allowed));
    RunAppend(d, select, ensure);
    if AllEnabled(d, select + ensure) { EnabledSplit(d, select, ensure); }
    ThroughoutAppend(d, select + ensure, cleanup, e => Resolves(e, allowed));
  }

  lemma {:induction false} DeployParts(d: Disk, p: Plan)
    ensures var stage := StageOps(d.next, p.bundle, p.staging, p.generation);
            var migrate := MigrateOps(Run(d, stage), p.legacyStaging, p.legacy);
            DeployOps(d, p) == stage + migrate + FinishOps(Run(Run(d, stage), migrate), p.generation, p.victims)
  {
    hide StageOps, MigrateOps, FinishOps, Run;
    var stage := StageOps(d.next, p.bundle, p.staging, p.generation);
    RunAppend(d, stage, MigrateOps(Run(d, stage), p.legacyStaging, p.legacy));
  }

  lemma {:induction false} DeployResolves(d: Disk, p: Plan, keep: map<string, Bundle>)
    requires Start(d, p, keep) && Durable(d)
    ensures Throughout(d, DeployOps(d, p), e => Resolves(e, Allowed(d, p, keep)))
  {
    hide StageOps, MigrateOps, DeployOps, FinishOps;
    hide Run, AllEnabled, Throughout, Ready, WellFormed, Resolves, Durable;
    var saved, allowed := Saved(d, p, keep), Allowed(d, p, keep);
    var stage := StageOps(d.next, p.bundle, p.staging, p.generation);
    StageResolves(d, p, keep);
    StageLeaves(d, p);
    StageKeepsFiles(d, p);
    assert Extends(keep, allowed);
    ThroughoutMore(d, stage, keep, allowed);
    var d1 := Run(d, stage);
    var migrate := MigrateOps(d1, p.legacyStaging, p.legacy);
    assert Saved(d1, p, keep) == saved && Extends(saved, allowed);
    MigrateResolves(d1, p, keep);
    ThroughoutMore(d1, migrate, saved, allowed);
    var d2 := Run(d1, migrate);
    var finish := FinishOps(d2, p.generation, p.victims);
    DeployParts(d, p);
    if AllEnabled(d1, migrate) {
      ReadyMore(d2, p.generation, p.bundle, saved, allowed);
      FinishResolves(d2, p.generation, p.bundle, p.victims, allowed);
    }
    ThroughoutAppend(d, stage, migrate, e => Resolves(e, allowed));
    RunAppend(d, stage, migrate);
    if AllEnabled(d, stage + migrate) { EnabledSplit(d, stage, migrate); }
    ThroughoutAppend(d, stage + migrate, finish, e => Resolves(e, allowed));
  }

  // ---- The theorem ----------------------------------------------------------------------

  /** `rmtree` that ignores errors: whichever of the calls succeed are calls of the removal. */
  ghost predicate Tidied(d: Disk, at: Place, e: Disk) { exists ops :: PartOfRemoval(d, at, ops) && e == Run(d, ops) }

  ghost predicate PartOfRemoval(d: Disk, at: Place, ops: seq<Op>) {
    AllEnabled(d, ops) && forall op :: op in ops ==> op in RemoveTreeOps(d, at)
  }

  lemma {:induction false} NotTidied(d: Disk, at: Place)
    ensures Tidied(d, at, d)
  {
    assert PartOfRemoval(d, at, []) && Run(d, []) == d;
  }

  lemma {:induction false} PartContained(d: Disk, at: Place, contents: seq<Name>, ops: seq<Op>)
    requires forall op :: op in ops ==> op in EmptyOps(d, at, contents)
    ensures Contained(d, ops, TreeNames(d, at, contents))
  {
    EmptyConfined(d, at, contents, d.next);
    hide EmptyOps, TreeNames;
    QuietContained(d, ops, TreeNames(d, at, contents));
  }

  lemma {:induction false} TidiedResolves(d: Disk, at: Place, e: Disk, allowed: map<string, Bundle>)
    requires WellFormed(d) && Resolves(d, allowed) && at.dir <= PINS && at.name.Staging? && Tidied(d, at, e)
    ensures WellFormed(e) && Resolves(e, allowed)
  {
    var contents := CONTENTS;
    var ops :| PartOfRemoval(d, at, ops) && e == Run(d, ops);
    TreeIsClear(d, at, contents, allowed.Keys);
    hide EmptyOps, TreeNames, Run, AllEnabled, Resolves;
    PartContained(d, at, contents, ops);
    ContainedResolves(d, ops, TreeNames(d, at, contents), allowed);
    WellFormedRun(d, ops);
  }

  /** The `finally` clauses: both staging directories are removed, as far as that succeeds. */
  ghost predicate Aborted(d: Disk, p: Plan, e: Disk) {
    exists m :: Tidied(d, StagePlace(p.legacyStaging), m) && Tidied(m, StagePlace(p.staging), e)
  }

  lemma {:induction false} NotAborted(d: Disk, p: Plan)
    ensures Aborted(d, p, d)
  {
    NotTidied(d, StagePlace(p.legacyStaging));
    NotTidied(d, StagePlace(p.staging));
  }

  /** The first k calls succeed and lead to this disk; then the process stops or the next call fails. */
  ghost predicate StopsAfter(d: Disk, ops: seq<Op>, k: nat, e: Disk) {
    k <= |ops| && AllEnabled(d, ops[..k]) && e == Run(d, ops[..k])
  }

  /** Whatever the crash leaves, every entry of `current` that a later crash may keep resolves too. */
  lemma {:induction false} CrashResolves(d: Disk, p: Plan, keep: map<string, Bundle>, k: nat,
                                         m: Disk, e: Disk, image: Disk)
    requires Start(d, p, keep) && Durable(d)
    requires StopsAfter(d, DeployOps(d, p), k, m) && Aborted(m, p, e) && CrashImage(e, image)
    ensures WellFormed(e) && Resolves(e, Allowed(d, p, keep))
    ensures Resolves(image, Allowed(d, p, keep))
  {
    var allowed := Allowed(d, p, keep);
    var x :| Tidied(m, StagePlace(p.legacyStaging), x) && Tidied(x, StagePlace(p.staging), e);
    hide DeployOps, Run, AllEnabled, Resolves, Allowed, Tidied;
    DeployResolves(d, p, keep);
    WellFormedRun(d, DeployOps(d, p)[..k]);
    TidiedResolves(m, StagePlace(p.legacyStaging), x, allowed);
    TidiedResolves(x, StagePlace(p.staging), e, allowed);
    CrashOfResolving(e, image, allowed);
  }

  /**
   Stop a deployment after any of its system calls, because the next one fails or the process dies;
   let any part of the clean-up that follows a failure run; then crash. `current` is absent or leads
   to the five complete artifacts of one publication. This covers migration and cleanup, and any
   mixture of plain files, links and missing names at the start.
   */
  lemma {:induction false} CrashConsistency(d: Disk, p: Plan, keep: map<string, Bundle>, k: nat,
                                            m: Disk, e: Disk, image: Disk)
    requires Start(d, p, keep) && Durable(d)
    requires StopsAfter(d, DeployOps(d, p), k, m) && Aborted(m, p, e) && CrashImage(e, image)
    ensures Recoverable(image, Allowed(d, p, keep))
  {
    hide *;
    CrashResolves(d, p, keep, k, m, e, image);
    CrashOfResolving(e, image, Allowed(d, p, keep));
  }
}
