/** When a crash can lose what a migration saved, and which disks that this code has written are at risk. */
module Durability {
  import opened Basics
  import opened FileSystem
  import opened Publication
  import opened Phases
  import opened Switching
  import opened CrashConsistency
  import opened Snapshots
  import opened Immutability

  // ---- The exact condition --------------------------------------------------------------

  /** No stop and no crash of the deployment leaves `current` at anything incomplete. */
  ghost predicate CrashSafe(d: Disk, p: Plan, keep: map<string, Bundle>) {
    forall k: nat, m, e, image ::
      StopsAfter(d, DeployOps(d, p), k, m) && Aborted(m, p, e) && CrashImage(e, image) ==>
        Recoverable(image, Allowed(d, p, keep))
  }

  /** `current` names a saved generation made of what the public names were linked from. */
  ghost predicate Sharing(d: Disk, e: Disk, legacy: string) {
    && At(e, CURRENT) == Symlink(ToGeneration(legacy)) && At(e, GenPlace(legacy)).Dir?
    && (forall a :: At(e, Place(At(e, GenPlace(legacy)).dir, Art(a))) == LinkSource(d, Public(a)))
    && (forall a :: At(e, Public(a)) == At(d, Public(a)))
    && forall i :: i in d.inodes ==> i in e.inodes && e.inodes[i] == d.inodes[i]
  }

  lemma {:induction false} SaveShares(d: Disk, staging: string, legacy: string)
    requires WellFormed(d) && Unused(d, staging, legacy) && Linkable(d)
    ensures var ops := SaveLegacyOps(d.next, staging, legacy);
            var e := Run(d, ops);
            && AllEnabled(d, ops) && WellFormed(e) && e.inodes == d.inodes
            && At(e, GenPlace(legacy)) == Dir(d.next)
            && forall a :: At(e, Place(d.next, Art(a))) == LinkSource(d, Public(a))
  {
    var arts, s := ARTIFACTS, d.next;
    EveryArtifact();
    var front, publish := [MakeDir(StagePlace(staging))] + LinkOps(s, arts), PublishOps(s, staging, legacy);
    assert SaveLegacyOps(s, staging, legacy) == front + publish;
    assert s > PINS;
    hide Run, AllEnabled, LinkOps, PublishOps, SaveLegacyOps, WellFormed, LinkSource;
    LinkAll(d, staging, legacy, arts);
    var f := Run(d, front);
    PublishRuns(f, s, staging, legacy);
    PublishedLooks(f, s, staging, legacy);
    RunAppend(d, front, publish);
    EnabledAppend(d, front, publish);
    WellFormedRun(d, front + publish);
    forall a ensures At(Run(f, publish), Place(s, Art(a))) == LinkSource(d, Public(a)) {
      assert At(f, Place(s, Art(a))) == LinkSource(d, Public(a));
    }
  }

  lemma {:induction false} SaveLeavesNames(d: Disk, staging: string, legacy: string, p: Place)
    requires WellFormed(d) && p.dir == TARGET
    ensures At(Run(d, SaveLegacyOps(d.next, staging, legacy)), p) == At(d, p)
  {
    var ops, names := SaveLegacyOps(d.next, staging, legacy), {StagePlace(staging), GenPlace(legacy)};
    SaveConfined(d.next, staging, legacy, d.next);
    QuietContained(d, ops, names);
    var e := Run(d, ops);
    assert Untouched(d, e, d.next, names) by { assert ops[..|ops|] == ops; }
    hide SaveLegacyOps, Run;
    assert !Free(p, d.next, names) && Same(d, e, p);
  }

  lemma {:induction false} SelectShares(d: Disk, e: Disk, legacy: string)
    requires WellFormed(e) && At(e, GenPlace(legacy)).Dir? && At(e, GenPlace(legacy)).dir > PINS
    requires forall a :: At(e, Place(At(e, GenPlace(legacy)).dir, Art(a))) == LinkSource(d, Public(a))
    requires forall a :: At(e, Public(a)) == At(d, Public(a))
    requires forall i :: i in d.inodes ==> i in e.inodes && e.inodes[i] == d.inodes[i]
    ensures AllEnabled(e, SelectOps(legacy)) && Sharing(d, Run(e, SelectOps(legacy)), legacy)
  {
    var f := Run(e, SelectOps(legacy));
    SelectEnabled(e, legacy);
    SelectEnds(e, legacy);
    hide Run, AllEnabled, SelectOps, WellFormed, LinkSource;
    assert Same(e, f, GenPlace(legacy));
    forall a ensures At(f, Place(At(e, GenPlace(legacy)).dir, Art(a))) == LinkSource(d, Public(a)) {
      assert Same(e, f, Place(At(e, GenPlace(legacy)).dir, Art(a)));
    }
    forall a ensures At(f, Public(a)) == At(d, Public(a)) { assert Same(e, f, Public(a)); }
  }

  lemma {:induction false} MigratesMeans(d: Disk)
    ensures Migrates(d) <==> !NonePresent(d) && !AllSymlinks(d)
  {
  }

  /** A deployment that migrates starts by staging, saving and selecting; the links come next. */
  lemma {:induction false} MigratingDeployStarts(d: Disk, p: Plan) returns (rest: seq<Op>)
    requires Migrates(Run(d, StageOps(d.next, p.bundle, p.staging, p.generation)))
    ensures var stage := StageOps(d.next, p.bundle, p.staging, p.generation);
            var save, select := SaveLegacyOps(Run(d, stage).next, p.legacyStaging, p.legacy), SelectOps(p.legacy);
            DeployOps(d, p) == stage + (save + select) + (EnsureOps(Run(Run(Run(d, stage), save), select)) + rest)
  {
    var stage := StageOps(d.next, p.bundle, p.staging, p.generation);
    var d1 := Run(d, stage);
    var save, select := SaveLegacyOps(d1.next, p.legacyStaging, p.legacy), SelectOps(p.legacy);
    hide *;
    MigratesMeans(d1);
    MigrateParts(d1, p.legacyStaging, p.legacy);
    DeployParts(d, p);
    var ensure := EnsureOps(Run(Run(d1, save), select));
    rest := FinishOps(Run(d1, MigrateOps(d1, p.legacyStaging, p.legacy)), p.generation, p.victims);
    assert stage + (save + (select + ensure)) + rest == stage + (save + select) + (ensure + rest);
  }

  /** Saving and selecting makes readers depend on what was linked. */
  lemma {:induction false} SaveAndSelect(d: Disk, d1: Disk, staging: string, legacy: string)
    requires WellFormed(d1) && Unused(d1, staging, legacy) && Linkable(d1)
    requires forall a :: At(d1, Public(a)) == At(d, Public(a)) && LinkSource(d1, Public(a)) == LinkSource(d, Public(a))
    requires forall i :: i in d.inodes ==> i in d1.inodes && d1.inodes[i] == d.inodes[i]
    ensures var ops := SaveLegacyOps(d1.next, staging, legacy) + SelectOps(legacy);
            AllEnabled(d1, ops) && Sharing(d, Run(d1, ops), legacy)
  {
    assert d1.next > PINS;
    var save, select := SaveLegacyOps(d1.next, staging, legacy), SelectOps(legacy);
    hide SaveLegacyOps, SelectOps, Run, AllEnabled, WellFormed, Sharing, LinkSource, Linkable;
    SaveShares(d1, staging, legacy);
    var d2 := Run(d1, save);
    forall a ensures At(d2, Place(d1.next, Art(a))) == LinkSource(d, Public(a)) {
      assert At(d2, Place(d1.next, Art(a))) == LinkSource(d1, Public(a));
    }
    forall a ensures At(d2, Public(a)) == At(d, Public(a)) { SaveLeavesNames(d1, staging, legacy, Public(a)); }
    SelectShares(d, d2, legacy);
    EnabledAppend(d1, save, select);
    RunAppend(d1, save, select);
  }

  lemma {:induction false} PrefixStops(d: Disk, front: seq<Op>, rest: seq<Op>, ops: seq<Op>)
    requires ops == front + rest && AllEnabled(d, front)
    ensures StopsAfter(d, ops, |front|, Run(d, front))
  {
    assert ops[..|front|] == front;
  }

  /** The deployment passes through a moment at which readers depend on what was linked. */
  lemma {:induction false} PassesSharing(d: Disk, p: Plan) returns (k: nat, m: Disk)
    requires WellFormed(d) && Drawn(d, p) && Migrates(d) && Linkable(d)
    ensures StopsAfter(d, DeployOps(d, p), k, m) && Sharing(d, m, p.legacy)
  {
    hide Drawn, StageOps, SaveLegacyOps, SelectOps, DeployOps, Run, AllEnabled, WellFormed, Sharing, Unused;
    hide LinkSource, Linkable, Migrates, Untouched, Files, Durable;
    var stage := StageOps(d.next, p.bundle, p.staging, p.generation);
    StageLeaves(d, p);
    StageKeepsFiles(d, p);
    var d1 := Run(d, stage);
    var more := SaveLegacyOps(d1.next, p.legacyStaging, p.legacy) + SelectOps(p.legacy);
    SaveAndSelect(d, d1, p.legacyStaging, p.legacy);
    var later := MigratingDeployStarts(d, p);
    var save := SaveLegacyOps(d1.next, p.legacyStaging, p.legacy);
    var rest := EnsureOps(Run(Run(d1, save), SelectOps(p.legacy))) + later;
    EnabledAppend(d, stage, more);
    RunAppend(d, stage, more);
    k, m := |stage + more|, Run(d, stage + more);
    hide *;
    PrefixStops(d, stage + more, rest, DeployOps(d, p));
  }

  /** A crash that keeps everything as it is. */
  function Settle(d: Disk): Disk { d.(slots := map p | p in d.slots :: Slot(d.slots[p].now, {})) }

  lemma {:induction false} SettleIsCrash(d: Disk)
    ensures CrashImage(d, Settle(d)) && forall p :: At(Settle(d), p) == At(d, p)
  {
  }

  /** A crash that turns the bytes of one file into others. */
  function Damaged(d: Disk, ino: nat, data: Data): Disk {
    Settle(d).(inodes := d.inodes[ino := Inode(data, true)])
  }

  lemma {:induction false} DamageIsCrash(d: Disk, ino: nat, data: Data)
    requires ino in d.inodes ==> !d.inodes[ino].synced
    ensures CrashImage(d, Damaged(d, ino, data))
  {
  }

  lemma {:induction false} DamageShows(d: Disk, e: Disk, p: Plan, keep: map<string, Bundle>, a: Artifact, data: Data)
    requires Sharing(d, e, p.legacy) && LinkSource(d, Public(a)).File? && p.legacy != p.generation
    requires data != Get(Files(d), a)
    ensures !Recoverable(Damaged(e, LinkSource(d, Public(a)).ino, data), Allowed(d, p, keep))
  {
    var x := At(e, GenPlace(p.legacy)).dir;
    var image := Damaged(e, LinkSource(d, Public(a)).ino, data);
    assert At(e, Place(x, Art(a))) == LinkSource(d, Public(a));
    hide LinkSource, Files;
    assert forall q :: At(image, q) == At(e, q);
    assert InGeneration(image, p.legacy, a) == Some(data);
  }

  /** A saved generation with a symbolic link of its own leads nowhere. */
  lemma {:induction false} DanglingFails(d: Disk, e: Disk, p: Plan, keep: map<string, Bundle>, a: Artifact)
    requires Sharing(d, e, p.legacy) && LinkSource(d, Public(a)).Symlink? && p.legacy != p.generation
    ensures !Recoverable(Settle(e), Allowed(d, p, keep))
    ensures At(d, Public(a)) == Symlink(ThroughCurrent(a)) ==> Shown(e, a) == None
  {
    var x := At(e, GenPlace(p.legacy)).dir;
    assert At(e, Place(x, Art(a))) == LinkSource(d, Public(a)) && At(e, Public(a)) == At(d, Public(a));
    SettleIsCrash(e);
    hide LinkSource, Files;
    assert InGeneration(Settle(e), p.legacy, a) == None;
  }

  lemma {:induction false} UnsyncedFails(d: Disk, p: Plan, keep: map<string, Bundle>)
    requires Start(d, p, keep) && !Durable(d)
    ensures !CrashSafe(d, p, keep)
  {
    var a :| !SourceHolds(d, a, Get(Files(d), a));
    assert LinkSource(d, Public(a)) != Absent && p.legacy != p.generation;
    hide *;
    var k, m := PassesSharing(d, p);
    NotAborted(m, p);
    var image := UnsyncedImage(d, m, p, keep, a);
    ShowsUnsafe(d, p, keep, k, m, image);
  }

  lemma {:induction false} UnsyncedImage(d: Disk, m: Disk, p: Plan, keep: map<string, Bundle>, a: Artifact)
    returns (image: Disk)
    requires WellFormed(d) && Sharing(d, m, p.legacy) && p.legacy != p.generation
    requires LinkSource(d, Public(a)) != Absent && !SourceHolds(d, a, Get(Files(d), a))
    ensures CrashImage(m, image) && !Recoverable(image, Allowed(d, p, keep))
  {
    var n := LinkSource(d, Public(a));
    SourceFits(d, Public(a));
    if n.File? {
      assert n.ino in d.inodes && d.inodes[n.ino].data == Get(Files(d), a) && !d.inodes[n.ino].synced;
      assert n.ino in m.inodes && m.inodes[n.ino] == d.inodes[n.ino];
      var data := if Get(Files(d), a) == Bytes("") then Bytes("x") else Bytes("");
      image := Damaged(m, n.ino, data);
      hide *;
      DamageIsCrash(m, n.ino, data);
      DamageShows(d, m, p, keep, a, data);
    } else {
      assert n.Symlink?;
      image := Settle(m);
      hide *;
      SettleIsCrash(m);
      DanglingFails(d, m, p, keep, a);
    }
  }

  lemma {:induction false} ShowsUnsafe(d: Disk, p: Plan, keep: map<string, Bundle>, k: nat, m: Disk, image: Disk)
    requires StopsAfter(d, DeployOps(d, p), k, m) && Aborted(m, p, m) && CrashImage(m, image)
    requires !Recoverable(image, Allowed(d, p, keep))
    ensures !CrashSafe(d, p, keep)
  {
    hide StopsAfter, Aborted, CrashImage, Recoverable, Allowed;
  }

  /**
   Every crash at every stop is recoverable exactly when a migration that can save the five names saves five
   synchronised files. Otherwise a crash after the selection of what was saved can leave `current` at bytes
   that nobody wrote, or at a link that leads nowhere.
   */
  lemma {:induction false} CrashSafeIffDurable(d: Disk, p: Plan, keep: map<string, Bundle>)
    requires Start(d, p, keep)
    ensures CrashSafe(d, p, keep) <==> Durable(d)
  {
    hide DeployOps, Start, Durable, Recoverable, CrashImage, Aborted, StopsAfter, Allowed;
    if Durable(d) {
      forall k: nat, m, e, image
        | StopsAfter(d, DeployOps(d, p), k, m) && Aborted(m, p, e) && CrashImage(e, image)
        ensures Recoverable(image, Allowed(d, p, keep))
      {
        CrashConsistency.CrashConsistency(d, p, keep, k, m, e, image);
      }
    } else {
      UnsyncedFails(d, p, keep);
    }
  }

  // ---- Every disk that this code writes is durable --------------------------------------

  ghost predicate SyncedAt(d: Disk, p: Place) {
    At(d, p).File? ==> At(d, p).ino in d.inodes && d.inodes[At(d, p).ino].synced
  }

  /** Every file directly below the target is synchronised. */
  ghost predicate SyncedTarget(d: Disk) { forall p: Place :: p.dir == TARGET ==> SyncedAt(d, p) }

  /** Some of the five names are links, and some are not; none is missing. */
  predicate Mixed(d: Disk) {
    && (forall a :: At(d, Public(a)) != Absent)
    && (exists a :: At(d, Public(a)).Symlink?) && (exists a :: !At(d, Public(a)).Symlink?)
  }

  lemma {:induction false} PlainIsNotMixed(d: Disk)
    requires AllPlain(d)
    ensures !Mixed(d)
  {
  }

  /** Every file that can be linked is synchronised: below the target, and in what `current` names. */
  lemma {:induction false} SourceSynced(d: Disk, allowed: map<string, Bundle>, a: Artifact)
    requires WellFormed(d) && SyncedTarget(d) && Resolves(d, allowed) && LinkSource(d, Public(a)).File?
    ensures SourceHolds(d, a, Get(Files(d), a))
  {
    SourceFits(d, Public(a));
    if At(d, Public(a)).File? {
      assert SyncedAt(d, Public(a));
    } else {
      assert At(d, CURRENT) in Possible(d, CURRENT) && ResolvesTo(d, At(d, CURRENT), allowed);
      var g := At(d, CURRENT).to.id;
      assert Sealed(d, g, allowed[g]);
      var c := At(d, Public(a)).to.a;
      assert SealedFile(d, Place(At(d, GenPlace(g)).dir, Art(c)), Get(allowed[g], c));
    }
  }

  /**
   On the disks of this code the condition is one about the layout: where a hard link takes the symbolic
   link itself, the five names must not be part links and part files.
   */
  lemma {:induction false} DurableIffNotMixed(d: Disk, allowed: map<string, Bundle>)
    requires WellFormed(d) && SyncedTarget(d) && Resolves(d, allowed)
    ensures Durable(d) <==> d.follows || !Mixed(d)
  {
    if d.follows || !Mixed(d) {
      if Migrates(d) && Linkable(d) {
        forall a ensures SourceHolds(d, a, Get(Files(d), a)) {
          SourceIsFile(d, a);
          hide LinkSource, Files;
          SourceSynced(d, allowed, a);
        }
      }
    } else {
      MixedIsNotDurable(d);
    }
  }

  lemma {:induction false} LinkedNameIsMixed(d: Disk, a: Artifact)
    requires !d.follows && Migrates(d) && Linkable(d) && At(d, Public(a)).Symlink?
    ensures Mixed(d)
  {
    forall c ensures At(d, Public(c)) != Absent { assert LinkSource(d, Public(c)) != Absent; }
  }

  lemma {:induction false} SourceIsFile(d: Disk, a: Artifact)
    requires (d.follows || !Mixed(d)) && Migrates(d) && Linkable(d)
    ensures LinkSource(d, Public(a)).File?
  {
    assert LinkSource(d, Public(a)) != Absent;
    hide Mixed, Migrates, Linkable;
    if !d.follows && At(d, Public(a)).Symlink? { LinkedNameIsMixed(d, a); }
  }

  lemma {:induction false} NameIsNoDir(d: Disk, a: Artifact)
    requires WellFormed(d)
    ensures !At(d, Public(a)).Dir?
  {
    if Public(a) in d.slots { assert DirFits(Public(a), At(d, Public(a))); }
  }

  lemma {:induction false} MixedIsNotDurable(d: Disk)
    requires WellFormed(d) && !d.follows && Mixed(d)
    ensures Migrates(d) && Linkable(d) && !Durable(d)
  {
    var a :| At(d, Public(a)).Symlink?;
    assert !SourceHolds(d, a, Get(Files(d), a));
    hide WellFormed, Files;
    forall a ensures LinkSource(d, Public(a)) != Absent {
      assert At(d, Public(a)) != Absent;
      NameIsNoDir(d, a);
    }
  }

  /** Writes no file and brings none into the target from elsewhere. */
  predicate Careful(op: Op) {
    match op
    case Create(_) => false
    case Write(_, _) => false
    case Touch(at) => at.dir != TARGET
    case Rename(from, to) => to.dir != TARGET || from.dir == TARGET
    case Link(_, to) => to.dir != TARGET
    case _ => true
  }

  ghost predicate AllCareful(ops: seq<Op>) { forall op :: op in ops ==> Careful(op) }

  /** `Touch` makes an inode that may have the number of none in the target. */
  lemma {:induction false} CarefulStep(d: Disk, op: Op)
    requires Fresh(d) && SyncedTarget(d) && Careful(op)
    ensures Fresh(Exec(d, op)) && SyncedTarget(Exec(d, op))
  {
    forall p: Place | p.dir == TARGET ensures SyncedAt(Exec(d, op), p) {
      assert SyncedAt(d, p);
      if op.Rename? { assert SyncedAt(d, op.from) || op.from.dir != TARGET; }
    }
  }

  /** No inode has a number that is still to be given out. */
  ghost predicate Fresh(d: Disk) { forall i :: i in d.inodes ==> i < d.next }

  lemma {:induction false} CarefulRun(d: Disk, ops: seq<Op>)
    requires Fresh(d) && SyncedTarget(d) && AllCareful(ops)
    ensures Fresh(Run(d, ops)) && SyncedTarget(Run(d, ops))
    decreases |ops|
  {
    if ops != [] {
      hide Exec, Fresh, SyncedTarget, Careful;
      assert ops[0] in ops && forall op :: op in ops[1..] ==> op in ops;
      CarefulStep(d, ops[0]);
      CarefulRun(Exec(d, ops[0]), ops[1..]);
    }
  }

  lemma {:induction false} CarefulThroughout(d: Disk, ops: seq<Op>)
    requires Fresh(d) && SyncedTarget(d) && AllCareful(ops)
    ensures Throughout(d, ops, e => SyncedTarget(e))
  {
    forall k | 0 <= k <= |ops| ensures SyncedTarget(Run(d, ops[..k])) {
      assert forall op :: op in ops[..k] ==> op in ops;
      hide Careful, SyncedTarget, Run, Fresh;
      CarefulRun(d, ops[..k]);
    }
  }

  lemma {:induction false} CarefulAppend(a: seq<Op>, b: seq<Op>)
    requires AllCareful(a) && AllCareful(b)
    ensures AllCareful(a + b)
  {
  }

  lemma {:induction false} LinkUpCareful(d: Disk, arts: seq<Artifact>)
    ensures AllCareful(LinkUpOps(d, arts))
    decreases |arts|
  {
    if arts != [] {
      var first := LinkOneOps(d, arts[0]);
      assert AllCareful(first);
      LinkUpCareful(Run(d, first), arts[1..]);
      hide Run, LinkOneOps, AllCareful;
      CarefulAppend(first, LinkUpOps(Run(d, first), arts[1..]));
    }
  }

  lemma {:induction false} EnsureCareful(d: Disk)
    ensures AllCareful(EnsureOps(d))
  {
    var arts := ARTIFACTS;
    LinkUpCareful(d, arts);
    hide LinkUpOps;
  }

  lemma {:induction false} LinksCareful(dir: nat, arts: seq<Artifact>)
    requires dir > TARGET
    ensures AllCareful(LinkOps(dir, arts))
    decreases |arts|
  {
    if arts != [] { LinksCareful(dir, arts[1..]); }
  }

  lemma {:induction false} SaveCareful(dir: nat, staging: string, legacy: string)
    requires dir > TARGET
    ensures AllCareful(SaveLegacyOps(dir, staging, legacy))
  {
    var arts := ARTIFACTS;
    LinksCareful(dir, arts);
    hide LinkOps;
  }

  lemma {:induction false} SelectCareful(g: string)
    ensures AllCareful(SelectOps(g))
  {
  }

  lemma {:induction false} UnlinksCareful(d: Disk, dir: nat, names: seq<Name>)
    ensures AllCareful(UnlinkOps(d, dir, names))
    decreases |names|
  {
    if names != [] { UnlinksCareful(d, dir, names[1..]); }
  }

  lemma {:induction false} EmptyCareful(d: Disk, at: Place, names: seq<Name>)
    ensures AllCareful(EmptyOps(d, at, names))
  {
    if At(d, at).Dir? {
      UnlinksCareful(d, At(d, at).dir, names);
      hide UnlinkOps;
    }
  }

  lemma {:induction false} RemoveAllCareful(d: Disk, victims: seq<string>)
    ensures AllCareful(RemoveAllOps(d, victims))
    decreases |victims|
  {
    if victims != [] {
      var first := EmptyOps(d, GenPlace(victims[0]), CONTENTS);
      assert RemoveAllOps(d, victims) == first + RemoveAllOps(Run(d, first), victims[1..]);
      hide *;
      EmptyCareful(d, GenPlace(victims[0]), CONTENTS);
      RemoveAllCareful(Run(d, first), victims[1..]);
      CarefulAppend(first, RemoveAllOps(Run(d, first), victims[1..]));
    }
  }

  lemma {:induction false} CleanupCareful(d: Disk, victims: seq<string>)
    ensures AllCareful(CleanupOps(d, victims))
  {
    RemoveAllCareful(d, victims);
    hide RemoveAllOps;
  }

  lemma {:induction false} MigrateCareful(d: Disk, staging: string, legacy: string)
    requires d.next > TARGET
    ensures AllCareful(MigrateOps(d, staging, legacy))
  {
    if !NonePresent(d) && !AllSymlinks(d) {
      var save, select := SaveLegacyOps(d.next, staging, legacy), SelectOps(legacy);
      var m := Run(Run(d, save), select);
      assert MigrateOps(d, staging, legacy) == save + select + EnsureOps(m);
      hide *;
      SaveCareful(d.next, staging, legacy);
      SelectCareful(legacy);
      EnsureCareful(m);
      CarefulAppend(save, select);
      CarefulAppend(save + select, EnsureOps(m));
    }
  }

  lemma {:induction false} MiddleCareful(d: Disk, p: Plan)
    requires d.next > TARGET
    ensures AllCareful(MiddleOps(d, p))
  {
    var migrate, select := MigrateOps(d, p.legacyStaging, p.legacy), SelectOps(p.generation);
    var m := Run(Run(d, migrate), select);
    assert MiddleOps(d, p) == migrate + select + EnsureOps(m);
    hide *;
    MigrateCareful(d, p.legacyStaging, p.legacy);
    SelectCareful(p.generation);
    EnsureCareful(m);
    CarefulAppend(migrate, select);
    CarefulAppend(migrate + select, EnsureOps(m));
  }

  /** A block that touches nothing below the target. */
  lemma {:induction false} OutsideThroughout(d: Disk, ops: seq<Op>, names: set<Place>)
    requires WellFormed(d) && SyncedTarget(d) && Contained(d, ops, names)
    requires forall p :: p in names ==> p.dir != TARGET
    ensures Throughout(d, ops, e => SyncedTarget(e)) && SyncedTarget(Run(d, ops))
  {
    forall k | 0 <= k <= |ops| ensures SyncedTarget(Run(d, ops[..k])) {
      var e := Run(d, ops[..k]);
      assert Untouched(d, e, d.next, names);
      hide Run;
      forall p: Place | p.dir == TARGET ensures SyncedAt(e, p) {
        assert !Free(p, d.next, names) && Same(d, e, p) && SyncedAt(d, p);
        if At(d, p).File? { assert SameInode(d, e, At(d, p).ino); }
      }
    }
    assert ops[..|ops|] == ops;
  }

  lemma {:induction false} WellFormedIsFresh(d: Disk)
    requires WellFormed(d)
    ensures Fresh(d) && d.next > TARGET
  {
  }

  lemma {:induction false} DeploySynced(d: Disk, p: Plan)
    requires WellFormed(d) && Drawn(d, p) && SyncedTarget(d)
    ensures Throughout(d, DeployOps(d, p), e => SyncedTarget(e))
  {
    var stage := StageOps(d.next, p.bundle, p.staging, p.generation);
    var names := {StagePlace(p.staging), GenPlace(p.generation)};
    StagePhase(d, p.bundle, p.staging, p.generation);
    assert AllEnabled(d, stage) && Contained(d, stage, names);
    var d1 := Run(d, stage);
    hide *;
    DeploySplits(d, p);
    var middle := MiddleOps(d1, p);
    var rest := middle + CleanupOps(Run(d1, middle), p.victims);
    OutsideThroughout(d, stage, names);
    WellFormedRun(d, stage);
    WellFormedIsFresh(d1);
    MiddleCareful(d1, p);
    CleanupCareful(Run(d1, middle), p.victims);
    CarefulAppend(middle, CleanupOps(Run(d1, middle), p.victims));
    CarefulThroughout(d1, rest);
    ThroughoutAppend(d, stage, rest, e => SyncedTarget(e));
  }

  // ---- Plain deployments ----------------------------------------------------------------

  /** The files below the target are older than a new directory. */
  ghost predicate TargetBelow(d: Disk, bound: nat) {
    forall p: Place :: p.dir == TARGET && At(d, p).File? ==> At(d, p).ino < bound
  }

  /** Makes a directory, or writes in one that is new. */
  predicate Filling(op: Op, bound: nat) {
    match op
    case MakeDir(_) => true
    case Create(at) => at.dir >= bound
    case Write(ino, _) => ino >= bound
    case SyncFile(_) => true
    case _ => false
  }

  ghost predicate FillState(d: Disk, bound: nat) {
    bound <= d.next && bound > TARGET && SyncedTarget(d) && TargetBelow(d, bound) && Unshared(d, bound)
  }

  /** No older directory changes. */
  lemma {:induction false} FillLooks(d: Disk, op: Op, bound: nat, p: Place)
    requires FillState(d, bound) && Filling(op, bound) && p.dir == TARGET
    ensures At(Exec(d, op), p) == At(d, p) || At(Exec(d, op), p).Dir?
    ensures SyncedAt(Exec(d, op), p)
  {
    assert SyncedAt(d, p);
    hide Unshared, SyncedTarget;
  }

  lemma {:induction false} FillStep(d: Disk, op: Op, bound: nat)
    requires FillState(d, bound) && Filling(op, bound)
    ensures FillState(Exec(d, op), bound)
  {
    UnsharedStep(d, op, bound);
    assert Exec(d, op).next >= d.next;
    hide Exec, SyncedAt, Unshared;
    forall p: Place | p.dir == TARGET
      ensures SyncedAt(Exec(d, op), p) && (At(Exec(d, op), p).File? ==> At(Exec(d, op), p).ino < bound)
    {
      FillLooks(d, op, bound, p);
    }
  }

  lemma {:induction false} FillRun(d: Disk, ops: seq<Op>, bound: nat)
    requires FillState(d, bound) && forall op :: op in ops ==> Filling(op, bound)
    ensures FillState(Run(d, ops), bound)
    decreases |ops|
  {
    if ops != [] {
      hide Exec, FillState, Filling;
      assert ops[0] in ops && forall op :: op in ops[1..] ==> op in ops;
      FillStep(d, ops[0], bound);
      FillRun(Exec(d, ops[0]), ops[1..], bound);
    }
  }

  lemma {:induction false} WritesFill(dir: nat, ino: nat, b: Bundle, arts: seq<Artifact>, bound: nat)
    requires dir >= bound && ino >= bound
    ensures forall op :: op in WriteOps(dir, ino, b, arts) ==> Filling(op, bound)
    decreases |arts|
  {
    if arts != [] { WritesFill(dir, ino + 1, b, arts[1..], bound); }
  }

  lemma {:induction false} TempThroughout(d: Disk, b: Bundle, staging: string, arts: seq<Artifact>)
    requires WellFormed(d) && SyncedTarget(d)
    ensures Throughout(d, TempOps(d.next, b, TempPlace(staging), arts), e => SyncedTarget(e))
    ensures SyncedTarget(Run(d, TempOps(d.next, b, TempPlace(staging), arts)))
  {
    var s := d.next;
    var ops := TempOps(s, b, TempPlace(staging), arts);
    WritesFill(s, s + 1, b, arts, s);
    assert forall op :: op in ops ==> Filling(op, s);
    assert FillState(d, s);
    hide Run, TempOps, WriteOps, Filling, FillState, WellFormed;
    forall k | 0 <= k <= |ops| ensures SyncedTarget(Run(d, ops[..k])) {
      assert forall op :: op in ops[..k] ==> op in ops;
      FillRun(d, ops[..k], s);
      FillSynced(Run(d, ops[..k]), s);
    }
    assert ops[..|ops|] == ops;
  }

  lemma {:induction false} FillSynced(d: Disk, bound: nat)
    requires FillState(d, bound)
    ensures SyncedTarget(d)
  {
  }

  /** The new directory holds its five files, synchronised. */
  ghost predicate TmpsSynced(d: Disk, dir: nat) { forall a :: SyncedAt(d, Place(dir, Tmp(a))) }

  lemma {:induction false} TempFilesSynced(d: Disk, b: Bundle, staging: string)
    requires WellFormed(d)
    ensures var e := Run(d, TempOps(d.next, b, TempPlace(staging), ARTIFACTS));
            TmpsSynced(e, d.next) && Fresh(e)
  {
    var s, arts := d.next, ARTIFACTS;
    EveryArtifact();
    var make, write := MakeDir(TempPlace(staging)), WriteOps(s, s + 1, b, arts);
    var e := Exec(d, make);
    assert NoTmps(e, s, arts) && e.next == s + 1 && e.inodes == d.inodes;
    assert TempOps(s, b, TempPlace(staging), arts) == [make] + write;
    hide Exec, Run, WriteOps, TempOps, NoTmps;
    WriteRun(e, s, s + 1, b, arts);
    RunOne(d, make);
    RunAppend(d, [make], write);
    forall a ensures SyncedAt(Run(e, write), Place(s, Tmp(a))) {
      assert a in arts && Holds(Run(e, write), Place(s, Tmp(a)), Get(b, a));
    }
  }

  lemma {:induction false} MoveOneSynced(d: Disk, dir: nat, a: Artifact)
    requires dir > TARGET && SyncedTarget(d) && TmpsSynced(d, dir) && Fresh(d)
    ensures var e := Exec(d, Rename(Place(dir, Tmp(a)), Public(a)));
            SyncedTarget(e) && TmpsSynced(e, dir) && Fresh(e)
  {
    var e := Exec(d, Rename(Place(dir, Tmp(a)), Public(a)));
    RenameLooks(d, Place(dir, Tmp(a)), Public(a));
    hide Exec;
    assert SyncedAt(d, Place(dir, Tmp(a)));
    forall p: Place | p.dir == TARGET ensures SyncedAt(e, p) {
      assert SyncedAt(d, p);
      assert p != Public(a) ==> Look(e, p) == Look(d, p);
    }
    forall c ensures SyncedAt(e, Place(dir, Tmp(c))) {
      assert SyncedAt(d, Place(dir, Tmp(c)));
      assert c != a ==> Look(e, Place(dir, Tmp(c))) == Look(d, Place(dir, Tmp(c)));
    }
  }

  lemma {:induction false} MovesSynced(d: Disk, dir: nat, arts: seq<Artifact>)
    requires dir > TARGET && SyncedTarget(d) && TmpsSynced(d, dir) && Fresh(d)
    ensures var ops := ReplaceOps(dir, TARGET, arts);
            Throughout(d, ops, e => SyncedTarget(e)) && SyncedTarget(Run(d, ops)) && Fresh(Run(d, ops))
    decreases |arts|
  {
    if arts != [] {
      hide Exec, SyncedTarget, TmpsSynced, Fresh, AllEnabled;
      var op := Rename(Place(dir, Tmp(arts[0])), Public(arts[0]));
      var e := Exec(d, op);
      var rest := ReplaceOps(dir, TARGET, arts[1..]);
      assert ReplaceOps(dir, TARGET, arts) == [op] + rest;
      MoveOneSynced(d, dir, arts[0]);
      MovesSynced(e, dir, arts[1..]);
      OneSynced(d, op);
      RunOne(d, op);
      hide Run, ReplaceOps;
      ThroughoutAppend(d, [op], rest, e => SyncedTarget(e));
      RunAppend(d, [op], rest);
    }
  }

  lemma {:induction false} OneSynced(d: Disk, op: Op)
    requires SyncedTarget(d) && SyncedTarget(Exec(d, op))
    ensures Throughout(d, [op], e => SyncedTarget(e))
  {
    var ops := [op];
    RunOne(d, op);
    forall k | 0 <= k <= |ops| ensures SyncedTarget(Run(d, ops[..k])) {
      if k == 0 { assert ops[..k] == []; } else { assert ops[..k] == ops; }
    }
  }

  lemma {:induction false} MoveInSynced(d: Disk, dir: nat, arts: seq<Artifact>)
    requires dir > TARGET && SyncedTarget(d) && TmpsSynced(d, dir) && Fresh(d)
    ensures var ops := MoveInOps(dir, arts);
            Throughout(d, ops, e => SyncedTarget(e)) && SyncedTarget(Run(d, ops)) && Fresh(Run(d, ops))
  {
    var move := ReplaceOps(dir, TARGET, arts);
    assert MoveInOps(dir, arts) == [SyncDir(dir)] + move + [SyncDir(TARGET)];
    var e := Exec(d, SyncDir(dir));
    SyncDirLooks(d, dir);
    CarefulStep(d, SyncDir(dir));
    assert TmpsSynced(e, dir) by {
      forall a ensures SyncedAt(e, Place(dir, Tmp(a))) { assert SyncedAt(d, Place(dir, Tmp(a))); }
    }
    hide *;
    OneSynced(d, SyncDir(dir));
    RunOne(d, SyncDir(dir));
    MovesSynced(e, dir, arts);
    var f := Run(e, move);
    LastSynced(f);
    ThroughoutAppend(d, [SyncDir(dir)], move, x => SyncedTarget(x));
    RunAppend(d, [SyncDir(dir)], move);
    ThroughoutAppend(d, [SyncDir(dir)] + move, [SyncDir(TARGET)], x => SyncedTarget(x));
    RunAppend(d, [SyncDir(dir)] + move, [SyncDir(TARGET)]);
  }

  lemma {:induction false} LastSynced(d: Disk)
    requires SyncedTarget(d) && Fresh(d)
    ensures Throughout(d, [SyncDir(TARGET)], x => SyncedTarget(x))
    ensures SyncedTarget(Run(d, [SyncDir(TARGET)])) && Fresh(Run(d, [SyncDir(TARGET)]))
  {
    CarefulStep(d, SyncDir(TARGET));
    hide Exec, SyncedTarget, Fresh, Throughout;
    RunOne(d, SyncDir(TARGET));
    OneSynced(d, SyncDir(TARGET));
  }

  lemma {:induction false} PlainSynced(d: Disk, b: Bundle, staging: string)
    requires WellFormed(d) && SyncedTarget(d)
    ensures Throughout(d, PlainOps(d, b, staging), e => SyncedTarget(e))
  {
    var arts, contents, s := ARTIFACTS, CONTENTS, d.next;
    assert s > TARGET;
    var temp, moveIn := TempOps(s, b, TempPlace(staging), arts), MoveInOps(s, arts);
    var main := ReplaceAllOps(s, b, staging);
    var tidy := EmptyOps(Run(d, main), TempPlace(staging), contents);
    assert PlainOps(d, b, staging) == main + tidy by { hide ReplaceAllOps, EmptyOps, Run; }
    hide *;
    ReplaceAllParts(s, b, staging, arts);
    TempThroughout(d, b, staging, arts);
    TempFilesSynced(d, b, staging);
    var e := Run(d, temp);
    MoveInSynced(e, s, arts);
    ThroughoutAppend(d, temp, moveIn, x => SyncedTarget(x));
    RunAppend(d, temp, moveIn);
    EmptyCareful(Run(d, main), TempPlace(staging), contents);
    CarefulThroughout(Run(d, main), tidy);
    ThroughoutAppend(d, main, tidy, x => SyncedTarget(x));
  }

  lemma {:induction false} PinCareful(id: string)
    ensures AllCareful(PinOps(id))
  {
  }

  lemma {:induction false} TidyCareful(d: Disk, at: Place, calls: seq<Op>)
    requires forall op :: op in calls ==> op in RemoveTreeOps(d, at)
    ensures AllCareful(calls)
  {
    EmptyCareful(d, at, CONTENTS);
    hide EmptyOps;
  }

  /** However much of an operation runs, every file below the target stays synchronised. */
  lemma {:induction false} OperationSynced(d: Disk, o: Operation)
    requires WellFormed(d) && Lawful(d, o) && SyncedTarget(d)
    ensures Throughout(d, OpsOf(d, o), e => SyncedTarget(e))
  {
    hide DeployOps, PlainOps, SelectOps, PinOps, EmptyOps, SyncedTarget, Throughout, AllCareful, Drawn, WellFormed;
    WellFormedIsFresh(d);
    match o
    case Deploy(p) => DeploySynced(d, p);
    case Replace(b, staging) => PlainSynced(d, b, staging);
    case Choose(id) =>
      SelectCareful(id);
      CarefulThroughout(d, SelectOps(id));
    case Hold(id) =>
      PinCareful(id);
      CarefulThroughout(d, PinOps(id));
    case Tidy(at, calls) =>
      TidyCareful(d, at, calls);
      CarefulThroughout(d, calls);
  }
}
