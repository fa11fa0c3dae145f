/**
 With generation mode off, a deployment puts five files in the place of whatever stood under the five names.
 */
module PlainDeployment {
  import opened Basics
  import opened FileSystem
  import opened Publication
  import opened Phases
  import opened Switching
  import opened CrashConsistency
  import opened Snapshots
  import opened Immutability
  import opened Durability
  import opened Completion
  import Deployer
  import History
  import Leftovers

  // ---- Staging --------------------------------------------------------------------------

  lemma {:induction false} OpenTemp(d: Disk, at: Place)
    requires WellFormed(d) && At(d, at) == Absent && at.dir == TARGET && at.name.Staging?
    ensures var e := Exec(d, MakeDir(at));
            && Enabled(d, MakeDir(at)) && e.next == d.next + 1 && NoTmps(e, d.next, ARTIFACTS)
            && (forall i :: i in e.inodes ==> i < e.next)
            && forall p :: p != at ==> Look(e, p) == Look(d, p)
  {
  }

  /** The five new files, under their temporary names; the public names are as before. */
  ghost predicate TempFilled(d: Disk, e: Disk, b: Bundle) {
    && e.next > d.next
    && (forall a :: Holds(e, Place(d.next, Tmp(a)), Get(b, a)))
    && forall a :: At(e, Public(a)) == At(d, Public(a))
  }

  lemma {:induction false} TempFills(d: Disk, b: Bundle, staging: string)
    requires WellFormed(d) && At(d, TempPlace(staging)) == Absent
    ensures var ops := TempOps(d.next, b, TempPlace(staging), ARTIFACTS);
            AllEnabled(d, ops) && TempFilled(d, Run(d, ops), b)
  {
    var s, arts, at := d.next, ARTIFACTS, TempPlace(staging);
    EveryArtifact();
    var make, write := MakeDir(at), WriteOps(s, s + 1, b, arts);
    var e := Exec(d, make);
    OpenTemp(d, at);
    assert TempOps(s, b, at, arts) == [make] + write;
    assert s > PINS;
    hide Exec, Run, WriteOps, TempOps, NoTmps, AllEnabled, Enabled, WellFormed;
    WriteRun(e, s, s + 1, b, arts);
    RunOne(d, make);
    EnabledOne(d, make);
    RunAppend(d, [make], write);
    EnabledAppend(d, [make], write);
    var f := Run(e, write);
    forall a ensures At(f, Public(a)) == At(d, Public(a)) { assert Public(a) !in Tmps(s, arts); }
  }

  /** The new files are none of the old ones. */
  lemma {:induction false} TempIsNew(d: Disk, b: Bundle, staging: string, a: Artifact)
    requires WellFormed(d) && TempFilled(d, Run(d, TempOps(d.next, b, TempPlace(staging), ARTIFACTS)), b)
    ensures var e := Run(d, TempOps(d.next, b, TempPlace(staging), ARTIFACTS));
            !At(e, Public(a)).Dir? && At(e, Public(a)) != At(e, Place(d.next, Tmp(a)))
  {
    var s, arts := d.next, ARTIFACTS;
    var ops := TempOps(s, b, TempPlace(staging), arts);
    var e := Run(d, ops);
    TempCreates(s, b, TempPlace(staging), arts);
    assert Unshared(d, s);
    CreatingRun(d, ops, s, {TempPlace(staging)});
    NameIsNoDir(d, a);
    hide Run, TempOps, Creates;
    assert Holds(e, Place(s, Tmp(a)), Get(b, a));
    assert At(e, Place(s, Tmp(a))).ino >= s;
    if At(d, Public(a)).File? { assert Public(a) in d.slots && At(d, Public(a)).ino < s; }
  }

  // ---- Moving in ------------------------------------------------------------------------

  /** All five names are synchronised files with these bytes. */
  ghost predicate HoldsAll(d: Disk, b: Bundle) { forall a :: Holds(d, Public(a), Get(b, a)) }

  lemma {:induction false} MovesIn(d: Disk, dir: nat, b: Bundle, arts: seq<Artifact>)
    requires arts == ARTIFACTS && TARGET < dir < d.next
    requires forall a :: Holds(d, Place(dir, Tmp(a)), Get(b, a))
    requires forall a :: !At(d, Public(a)).Dir? && At(d, Public(a)) != At(d, Place(dir, Tmp(a)))
    ensures AllEnabled(d, MoveInOps(dir, arts)) && HoldsAll(Run(d, MoveInOps(dir, arts)), b)
  {
    EveryArtifact();
    var move := ReplaceOps(dir, TARGET, arts);
    assert MoveInOps(dir, arts) == [SyncDir(dir)] + move + [SyncDir(TARGET)];
    var e := Exec(d, SyncDir(dir));
    SyncDirLooks(d, dir);
    RunOne(d, SyncDir(dir));
    EnabledOne(d, SyncDir(dir));
    hide Exec, Run, AllEnabled, ReplaceOps, MoveInOps;
    forall a ensures At(e, Public(a)) == At(d, Public(a)) && Holds(e, Place(dir, Tmp(a)), Get(b, a)) {
      assert Holds(d, Place(dir, Tmp(a)), Get(b, a));
    }
    ReplaceRun(e, dir, TARGET, arts);
    var f := Run(e, move);
    forall a ensures Holds(f, Public(a), Get(b, a)) { assert Holds(e, Place(dir, Tmp(a)), Get(b, a)); }
    LastSync(f, b);
    RunAppend(d, [SyncDir(dir)], move);
    EnabledAppend(d, [SyncDir(dir)], move);
    RunAppend(d, [SyncDir(dir)] + move, [SyncDir(TARGET)]);
    EnabledAppend(d, [SyncDir(dir)] + move, [SyncDir(TARGET)]);
  }

  lemma {:induction false} LastSync(d: Disk, b: Bundle)
    requires HoldsAll(d, b) && d.next > TARGET
    ensures AllEnabled(d, [SyncDir(TARGET)]) && HoldsAll(Run(d, [SyncDir(TARGET)]), b)
  {
    SyncDirLooks(d, TARGET);
    RunOne(d, SyncDir(TARGET));
    EnabledOne(d, SyncDir(TARGET));
    hide Exec, Run, AllEnabled;
    forall a ensures Holds(Exec(d, SyncDir(TARGET)), Public(a), Get(b, a)) { assert Holds(d, Public(a), Get(b, a)); }
  }

  lemma {:induction false} MoveInSynchronises(d: Disk, dir: nat, arts: seq<Artifact>)
    ensures Synchronised(Run(d, MoveInOps(dir, arts)), TARGET)
  {
    SyncedLast(d, [SyncDir(dir)] + ReplaceOps(dir, TARGET, arts), TARGET);
  }

  /** Every call of a plain deployment goes through, over any layout; all five names become the new files. */
  lemma {:induction false} PlainSucceeds(d: Disk, b: Bundle, staging: string)
    requires WellFormed(d) && At(d, TempPlace(staging)) == Absent
    ensures var ops := ReplaceAllOps(d.next, b, staging);
            && AllEnabled(d, ops) && WellFormed(Run(d, ops)) && HoldsAll(Run(d, ops), b)
            && Synchronised(Run(d, ops), TARGET)
  {
    var s, arts := d.next, ARTIFACTS;
    var temp := TempOps(s, b, TempPlace(staging), arts);
    var e := Run(d, temp);
    assert s > TARGET;
    MoveInSynchronises(e, s, arts);
    hide Synchronised;
    hide WellFormed, TempOps, MoveInOps, ReplaceAllOps, Run, AllEnabled;
    ReplaceAllParts(s, b, staging, arts);
    TempFills(d, b, staging);
    forall a ensures !At(e, Public(a)).Dir? && At(e, Public(a)) != At(e, Place(s, Tmp(a))) {
      TempIsNew(d, b, staging, a);
    }
    MovesIn(e, s, b, arts);
    RunAppend(d, temp, MoveInOps(s, arts));
    EnabledAppend(d, temp, MoveInOps(s, arts));
    WellFormedRun(d, temp + MoveInOps(s, arts));
  }

  lemma {:induction false} HoldsShows(d: Disk, b: Bundle)
    requires HoldsAll(d, b)
    ensures AllPlain(d) && Shows(d, b)
  {
    forall a ensures At(d, Public(a)).File? && Shown(d, a) == Some(Get(b, a)) { assert Holds(d, Public(a), Get(b, a)); }
  }

  // ---- With the removal of the temporary directory --------------------------------------

  lemma {:induction false} TidiedHolds(d: Disk, at: Place, e: Disk, b: Bundle)
    requires WellFormed(d) && HoldsAll(d, b) && at.dir == TARGET && at.name.Staging? && Tidied(d, at, e)
    ensures HoldsAll(e, b)
  {
    var contents := CONTENTS;
    var ops :| PartOfRemoval(d, at, ops) && e == Run(d, ops);
    TreeIsClear(d, at, contents, {});
    PartContained(d, at, contents, ops);
    var names := TreeNames(d, at, contents);
    assert ops[..|ops|] == ops && d.next > PINS;
    hide EmptyOps, TreeNames, Run, AllEnabled;
    assert Untouched(d, e, d.next, names);
    forall a ensures Holds(e, Public(a), Get(b, a)) {
      assert Holds(d, Public(a), Get(b, a)) && Public(a) in d.slots;
      assert !Free(Public(a), d.next, names) && Same(d, e, Public(a)) && SameInode(d, e, At(d, Public(a)).ino);
    }
  }

  /** When no call fails from outside, a plain deployment succeeds, and readers see the new five files. */
  lemma {:induction false} CalmPlainSucceeds(d: Disk, b: Bundle, staging: string, ok: bool, m: Disk, e: Disk)
    requires WellFormed(d) && At(d, TempPlace(staging)) == Absent
    requires Deployer.Replaced(d, b, staging, ok, m, e, true)
    ensures ok && AllPlain(e) && Shows(e, b)
  {
    var ops := ReplaceAllOps(d.next, b, staging);
    assert TempPlace(staging).name.Staging? && TempPlace(staging).dir == TARGET;
    hide ReplaceAllOps, Run, AllEnabled, WellFormed, Tidied, HoldsAll, AllPlain, Shows;
    PlainSucceeds(d, b, staging);
    Deployer.CalmSucceeds(d, ops, ok, m);
    TidiedHolds(m, TempPlace(staging), e, b);
    HoldsShows(e, b);
  }

  // ---- The layout that a killed migration leaves, from a new directory ------------------

  lemma {:induction false} ReplaceAllLeaves(d: Disk, b: Bundle, staging: string, p: Place)
    requires WellFormed(d) && p.dir <= PINS && p != TempPlace(staging) && !(p.dir == TARGET && p.name.Art?)
    ensures At(Run(d, ReplaceAllOps(d.next, b, staging)), p) == At(d, p)
  {
    var ops, arts := ReplaceAllOps(d.next, b, staging), ARTIFACTS;
    var names := {TempPlace(staging)} + Arts(TARGET, arts);
    ReplaceAllCreates(d, b, staging, arts);
    CreatingContained(d, ops, names);
    assert ops[..|ops|] == ops && p !in names;
    hide ReplaceAllOps, Run, Creates, Arts;
    assert !Free(p, d.next, names) && Same(d, Run(d, ops), p);
  }

  /** The calls of a plain deployment up to its tidying are a step of a history. */
  lemma {:induction false} PlainHappens(s: History.World, b: Bundle, staging: string)
    requires At(s.disk, TempPlace(staging)) == Absent
    requires AllEnabled(s.disk, ReplaceAllOps(s.disk.next, b, staging))
    ensures var main := ReplaceAllOps(s.disk.next, b, staging);
            var h := History.Ran(Replace(b, staging), |main|);
            && History.Proper(s, h) && History.Next(s, h).disk == Run(s.disk, main)
            && History.Next(s, h).drawn == s.drawn
  {
    var main := ReplaceAllOps(s.disk.next, b, staging);
    hide ReplaceAllOps, EmptyOps, Run, AllEnabled;
    assert PlainOps(s.disk, b, staging)[..|main|] == main;
  }

  /** A plain deployment into a new directory. */
  lemma {:induction false} FirstPlain(follows: bool, b: Bundle, staging: string) returns (s: History.World)
    ensures var n := History.New(follows);
            var main := ReplaceAllOps(n.disk.next, b, staging);
            var h := History.Ran(Replace(b, staging), |main|);
            && History.Proper(n, h) && s == History.Next(n, h)
            && s.drawn == map[] && s.disk == Run(n.disk, main)
            && History.Good(s) && AllPlain(s.disk)
  {
    var n := History.New(follows);
    var main := ReplaceAllOps(n.disk.next, b, staging);
    assert At(n.disk, TempPlace(staging)) == Absent && WellFormed(n.disk) && n.drawn == map[];
    hide *;
    PlainSucceeds(n.disk, b, staging);
    HoldsShows(Run(n.disk, main), b);
    PlainHappens(n, b, staging);
    History.NewIsGood(follows);
    s := History.Next(n, History.Ran(Replace(b, staging), |main|));
    History.GoodStep(n, History.Ran(Replace(b, staging), |main|));
  }

  lemma {:induction false} FirstPlainIsReady(follows: bool, b: Bundle, staging: string, d: Disk, p: Plan)
    requires Leftovers.DifferentNames(p)
    requires d == Run(History.New(follows).disk, ReplaceAllOps(History.New(follows).disk.next, b, staging))
    ensures NothingPending(d) && Drawn(d, p)
  {
    var n := History.New(follows).disk;
    assert WellFormed(n) && forall q :: At(n, q) == Absent;
    hide ReplaceAllOps, Run, WellFormed;
    forall q: Place | q.dir <= PINS && q != TempPlace(staging) && !(q.dir == TARGET && q.name.Art?)
      ensures At(d, q) == Absent
    {
      ReplaceAllLeaves(n, b, staging, q);
    }
    hide History.New;
    forall a ensures Unblocked(d, a) { assert At(d, PublicPending(a)) == Absent; }
    assert At(d, CURRENT) == Absent;
  }

  lemma {:induction false} OneHappens(s: History.World, h: History.Happening)
    requires History.Proper(s, h)
    ensures History.AllProper(s, [h]) && History.After(s, [h]) == History.Next(s, h)
  {
    assert [h][1..] == [];
  }

  lemma {:induction false} TwoHappen(s: History.World, h: History.Happening, i: History.Happening)
    requires History.Proper(s, h) && History.Proper(History.Next(s, h), i)
    ensures History.AllProper(s, [h, i]) && History.After(s, [h, i]) == History.Next(History.Next(s, h), i)
  {
    assert [h, i][1..] == [i];
    OneHappens(History.Next(s, h), i);
    hide History.Proper, History.Next;
  }

  /**
   From a new directory: a plain deployment, and then a deployment of a generation that is killed among its
   links. What follows is safe exactly when a hard link of a symbolic link is one of the file.
   */
  lemma {:induction false} MixedIsReachable(follows: bool, b: Bundle, staging: string, p: Plan)
    returns (happenings: seq<History.Happening>)
    requires Leftovers.DifferentNames(p)
    ensures var n := History.New(follows);
            var t := History.After(n, happenings);
            && History.AllProper(n, happenings) && Mixed(t.disk)
            && forall q: Plan :: Drawn(t.disk, q) && q.generation !in t.drawn && q.legacy !in t.drawn ==>
                 (CrashSafe(t.disk, q, t.drawn) <==> follows)
  {
    hide *;
    var n := History.New(follows);
    var h := History.Ran(Replace(b, staging), |ReplaceAllOps(n.disk.next, b, staging)|);
    var s := FirstPlain(follows, b, staging);
    FirstPlainIsReady(follows, b, staging, s.disk, p);
    var k := Leftovers.MixedArises(s, p);
    var i := History.Ran(Deploy(p), k);
    TwoHappen(n, h, i);
    happenings := [h, i];
    NewFollows(follows, b, staging);
  }

  lemma {:induction false} NewFollows(follows: bool, b: Bundle, staging: string)
    ensures var d := History.New(follows).disk; Run(d, ReplaceAllOps(d.next, b, staging)).follows == follows
  {
    var d := History.New(follows).disk;
    hide ReplaceAllOps, Run;
    Leftovers.RunFollows(d, ReplaceAllOps(d.next, b, staging));
  }
}
