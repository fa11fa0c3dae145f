/**
 The phases of a deployment after staging.

 Switching `current` takes four calls, of which the third, a rename, is the switch. Saving plain files
 links them into a new directory and publishes it. Installing links replaces one name after the other.
 Removing a directory lists it once. For each phase the lemmas say which names it touches, that it
 writes no file, and that `current` resolves throughout.
 */
module Switching {
  import opened Basics
  import opened FileSystem
  import opened Publication
  import opened Phases

  lemma {:induction false} RunNext(d: Disk, ops: seq<Op>, k: nat)
    requires k < |ops|
    ensures Run(d, ops[..k + 1]) == Exec(Run(d, ops[..k]), ops[k])
  {
    assert ops[..k + 1] == ops[..k] + [ops[k]];
    RunAppend(d, ops[..k], [ops[k]]);
    RunOne(Run(d, ops[..k]), ops[k]);
  }

  // ---- Switching `current` --------------------------------------------------------------

  const SWITCH := {CURRENT, CURRENT_PENDING}

  /** After k steps of a selection. The third step, the rename, is the switch. */
  ghost predicate Switched(d: Disk, e: Disk, g: string, k: nat) {
    && e.inodes == d.inodes && e.next == d.next
    && At(e, CURRENT) == (if k < 3 then At(d, CURRENT) else Symlink(ToGeneration(g)))
    && Possible(e, CURRENT) <= Possible(d, CURRENT) + {Symlink(ToGeneration(g))}
    && (k == 1 ==> At(e, CURRENT_PENDING) == Absent)
    && (k == 2 ==> At(e, CURRENT_PENDING) == Symlink(ToGeneration(g)))
    && (k >= 3 ==> At(e, CURRENT_PENDING) == Absent)
    && (k == 4 ==> Look(e, CURRENT).older == {})
    && (forall p :: p !in SWITCH ==> Same(d, e, p))
  }

  lemma {:induction false} SelectSteps(d: Disk, g: string, k: nat)
    requires k <= 4
    ensures Switched(d, Run(d, SelectOps(g)[..k]), g, k)
    decreases k
  {
    var ops := SelectOps(g);
    if k == 0 {
      assert ops[..0] == [];
    } else {
      SelectSteps(d, g, k - 1);
      RunNext(d, ops, k - 1);
      hide Run;
      SwitchStep(d, Run(d, ops[..k - 1]), g, k - 1);
    }
  }

  lemma {:induction false} SwitchStep(d: Disk, e: Disk, g: string, k: nat)
    requires k < 4 && Switched(d, e, g, k)
    ensures Switched(d, Exec(e, SelectOps(g)[k]), g, k + 1)
  {
  }

  lemma {:induction false} SelectEnds(d: Disk, g: string)
    ensures Switched(d, Run(d, SelectOps(g)), g, 4)
  {
    SelectSteps(d, g, 4);
    assert SelectOps(g)[..4] == SelectOps(g);
  }

  lemma {:induction false} SelectEnabled(d: Disk, g: string)
    requires d.next > PINS && !At(d, CURRENT).Dir? && !At(d, CURRENT_PENDING).Dir?
    ensures AllEnabled(d, SelectOps(g))
  {
    forall k: nat | k < 4 ensures EnabledAt(d, SelectOps(g), k) {
      SelectSteps(d, g, k);
      hide Run;
    }
  }

  lemma {:induction false} SelectContained(d: Disk, g: string)
    ensures Contained(d, SelectOps(g), SWITCH)
  {
    QuietContained(d, SelectOps(g), SWITCH);
  }

  /** At every moment of a switch to a sealed generation, `current` resolves. */
  lemma {:induction false} SelectResolves(d: Disk, g: string, allowed: map<string, Bundle>)
    requires WellFormed(d) && Resolves(d, allowed) && g in allowed && Sealed(d, g, allowed[g])
    ensures Throughout(d, SelectOps(g), e => Resolves(e, allowed))
    ensures Resolves(Run(d, SelectOps(g)), map[g := allowed[g]])
  {
    forall k | 0 <= k <= |SelectOps(g)| ensures Resolves(Run(d, SelectOps(g)[..k]), allowed) {
      SwitchResolves(d, g, allowed, k);
    }
    SwitchResolves(d, g, allowed, 4);
    SelectEnds(d, g);
    assert SelectOps(g)[..4] == SelectOps(g);
  }

  lemma {:induction false} SwitchResolves(d: Disk, g: string, allowed: map<string, Bundle>, k: nat)
    requires k <= 4 && WellFormed(d) && Resolves(d, allowed) && g in allowed && Sealed(d, g, allowed[g])
    ensures var e := Run(d, SelectOps(g)[..k]); Resolves(e, allowed) && Sealed(e, g, allowed[g])
  {
    var e := Run(d, SelectOps(g)[..k]);
    SelectSteps(d, g, k);
    SelectContained(d, g);
    hide Run;
    SealedKept(d, e, SWITCH, g, allowed[g]);
    forall n | n in Possible(e, CURRENT) ensures ResolvesTo(e, n, allowed) {
      if n != Symlink(ToGeneration(g)) {
        assert ResolvesTo(d, n, allowed);
        if n != Absent { SealedKept(d, e, SWITCH, n.to.id, allowed[n.to.id]); }
      }
    }
  }

  // ---- Compatibility links --------------------------------------------------------------

  function LinkNames(arts: seq<Artifact>): set<Place> {
    (set a | a in arts :: Public(a)) + (set a | a in arts :: PublicPending(a))
  }

  lemma {:induction false} LinkNamesCons(arts: seq<Artifact>)
    requires arts != []
    ensures Public(arts[0]) in LinkNames(arts) && PublicPending(arts[0]) in LinkNames(arts)
    ensures LinkNames(arts[1..]) <= LinkNames(arts)
  {
  }

  lemma {:induction false} LinkUpConfined(d: Disk, arts: seq<Artifact>, bound: nat, names: set<Place>)
    requires LinkNames(arts) <= names
    ensures forall op :: op in LinkUpOps(d, arts) ==> Confined(op, bound, names) && Quiet(op)
    decreases |arts|
  {
    if arts != [] {
      LinkNamesCons(arts);
      hide LinkNames, Run;
      LinkUpConfined(Run(d, LinkOneOps(d, arts[0])), arts[1..], bound, names);
    }
  }

  lemma {:induction false} EnsureConfined(d: Disk, bound: nat, names: set<Place>)
    requires LinkNames(ARTIFACTS) <= names
    ensures forall op :: op in EnsureOps(d) ==> Confined(op, bound, names) && Quiet(op)
  {
    var arts := ARTIFACTS;
    LinkUpConfined(d, arts, bound, names);
    hide LinkUpOps;
  }

  lemma {:induction false} EnsureContained(d: Disk)
    ensures Contained(d, EnsureOps(d), LinkNames(ARTIFACTS))
  {
    EnsureConfined(d, d.next, LinkNames(ARTIFACTS));
    hide EnsureOps;
    QuietContained(d, EnsureOps(d), LinkNames(ARTIFACTS));
  }

  // ---- Saving plain files ---------------------------------------------------------------

  lemma {:induction false} LinksConfined(dir: nat, arts: seq<Artifact>, bound: nat, names: set<Place>)
    requires dir >= bound
    ensures forall op :: op in LinkOps(dir, arts) ==> Confined(op, bound, names) && Quiet(op)
    decreases |arts|
  {
    if arts != [] { LinksConfined(dir, arts[1..], bound, names); }
  }

  lemma {:induction false} SaveConfined(dir: nat, staging: string, legacy: string, bound: nat)
    requires dir >= bound
    ensures forall op :: op in SaveLegacyOps(dir, staging, legacy) ==>
              Confined(op, bound, {StagePlace(staging), GenPlace(legacy)}) && Quiet(op)
  {
    var arts := ARTIFACTS;
    LinksConfined(dir, arts, bound, {StagePlace(staging), GenPlace(legacy)});
    PublishConfined(dir, staging, legacy, bound);
    hide LinkOps;
  }

  /** Paths through `current` end in this directory. */
  predicate LeadsTo(d: Disk, dir: nat) {
    match At(d, CURRENT)
    case Symlink(ToGeneration(g)) => At(d, GenPlace(g)) == Dir(dir)
    case _ => false
  }

  /** Entries of another directory do not matter for what is linked. */
  lemma {:induction false} SourceKept(d: Disk, e: Disk, p: Place, dir: nat)
    requires dir > PINS && !LeadsTo(d, dir) && p.dir != dir && e.follows == d.follows
    requires forall q: Place :: q.dir != dir ==> At(e, q) == At(d, q)
    ensures LinkSource(e, p) == LinkSource(d, p) && !LeadsTo(e, dir)
  {
  }

  lemma {:induction false} LinkOneFile(d: Disk, dir: nat, a: Artifact)
    requires PINS < dir && !LeadsTo(d, dir)
    ensures var m := Exec(d, Link(Public(a), Place(dir, Art(a))));
            && At(m, Place(dir, Art(a))) == LinkSource(d, Public(a)) && SameBut(d, m, {Place(dir, Art(a))})
            && m.next == d.next && m.inodes == d.inodes && m.follows == d.follows && !LeadsTo(m, dir)
            && forall c :: LinkSource(m, Public(c)) == LinkSource(d, Public(c))
  {
    var m := Exec(d, Link(Public(a), Place(dir, Art(a))));
    forall c ensures LinkSource(m, Public(c)) == LinkSource(d, Public(c)) && !LeadsTo(m, dir) {
      hide LinkSource, LeadsTo;
      SourceKept(d, m, Public(c), dir);
    }
  }

  lemma {:induction false} LinkRun(d: Disk, dir: nat, arts: seq<Artifact>)
    requires Distinct(arts) && PINS < dir < d.next && !LeadsTo(d, dir)
    requires forall a :: a in arts ==> LinkSource(d, Public(a)) != Absent && At(d, Place(dir, Art(a))) == Absent
    ensures var ops := LinkOps(dir, arts);
            var e := Run(d, ops);
            && AllEnabled(d, ops)
            && e.next == d.next && e.inodes == d.inodes && e.follows == d.follows
            && (forall a :: a in arts ==> At(e, Place(dir, Art(a))) == LinkSource(d, Public(a)))
            && SameBut(d, e, Arts(dir, arts))
    decreases |arts|
  {
    if arts != [] {
      hide Run, AllEnabled, Arts, Tmps, LinkSource, LeadsTo;
      var a := arts[0];
      var op := Link(Public(a), Place(dir, Art(a)));
      var m := Exec(d, op);
      LinkOneFile(d, dir, a);
      assert Enabled(d, op);
      hide Exec, Enabled;
      TmpsCons(dir, arts);
      LinkRun(m, dir, arts[1..]);
      var rest := LinkOps(dir, arts[1..]);
      assert LinkOps(dir, arts) == [op] + rest;
      RunOne(d, op);
      EnabledOne(d, op);
      RunAppend(d, [op], rest);
      EnabledAppend(d, [op], rest);
      SameButTransitive(d, m, Run(m, rest), {Place(dir, Art(a))}, Arts(dir, arts[1..]));
    }
  }

  /** The links exist only if there is something to link under every name. */
  lemma {:induction false} LinksNeedSources(d: Disk, dir: nat, arts: seq<Artifact>)
    requires Distinct(arts) && PINS < dir && !LeadsTo(d, dir) && AllEnabled(d, LinkOps(dir, arts))
    ensures forall a :: a in arts ==> LinkSource(d, Public(a)) != Absent
    decreases |arts|
  {
    if arts != [] {
      var op := Link(Public(arts[0]), Place(dir, Art(arts[0])));
      var rest := LinkOps(dir, arts[1..]);
      assert LinkOps(dir, arts) == [op] + rest;
      EnabledSplit(d, [op], rest);
      RunOne(d, op);
      assert EnabledAt(d, [op], 0) && [op][..0] == [];
      hide LinkOps, AllEnabled, LinkSource, LeadsTo;
      LinkOneFile(d, dir, arts[0]);
      LinksNeedSources(Exec(d, op), dir, arts[1..]);
      assert forall x :: x in arts <==> x == arts[0] || x in arts[1..];
    }
  }

  /** What a hard link of the public name is made of is a synchronised file with this content. */
  predicate SourceHolds(d: Disk, a: Artifact, data: Data) {
    var n := LinkSource(d, Public(a));
    n.File? && n.ino in d.inodes && d.inodes[n.ino] == Inode(data, true)
  }

  /** A new directory does not change what is linked. */
  lemma {:induction false} OpenedSource(d: Disk, e: Disk, staging: string, a: Artifact)
    requires WellFormed(d) && Opened(d, e, staging)
    ensures LinkSource(e, Public(a)) == LinkSource(d, Public(a)) && !LeadsTo(e, d.next)
  {
    assert forall p: Place :: p.dir < d.next && p != StagePlace(staging) ==> At(e, p) == At(d, p);
    match At(d, CURRENT)
    case Symlink(ToGeneration(g)) => if At(d, GenPlace(g)).Dir? { assert GenPlace(g) in d.slots; }
    case _ =>
  }

  lemma {:induction false} LinkFiles(d: Disk, e: Disk, b: Bundle, staging: string, arts: seq<Artifact>)
    requires WellFormed(d) && Distinct(arts) && Opened(d, e, staging)
    requires forall a :: a in arts ==> SourceHolds(d, a, Get(b, a))
    ensures var ops := LinkOps(d.next, arts);
            AllEnabled(e, ops) && Named(d, Run(e, ops), b, staging, arts)
  {
    var s := d.next;
    assert s > PINS;
    forall a ensures LinkSource(e, Public(a)) == LinkSource(d, Public(a)) && !LeadsTo(e, s) {
      OpenedSource(d, e, staging, a);
    }
    hide WellFormed, LinkSource, LeadsTo;
    forall a | a in arts ensures LinkSource(e, Public(a)) != Absent { assert SourceHolds(d, a, Get(b, a)); }
    LinkRun(e, s, arts);
    var f := Run(e, LinkOps(s, arts));
    hide Run, AllEnabled, LinkOps;
    forall a | a in arts ensures Holds(f, Place(s, Art(a)), Get(b, a)) {
      assert SourceHolds(d, a, Get(b, a));
    }
    assert forall p: Place :: p.dir < s ==> p !in Arts(s, arts);
  }

  lemma {:induction false} SaveLegacyPhase(d: Disk, b: Bundle, staging: string, legacy: string)
    requires WellFormed(d) && Unused(d, staging, legacy)
    requires forall a :: SourceHolds(d, a, Get(b, a))
    ensures Staged(d, SaveLegacyOps(d.next, staging, legacy), staging, legacy, b)
  {
    var s := d.next;
    var arts := ARTIFACTS;
    EveryArtifact();
    var make, links, publish := [MakeDir(StagePlace(staging))], LinkOps(s, arts), PublishOps(s, staging, legacy);
    OpenStaging(d, staging);
    var e := Run(d, make);
    LinkFiles(d, e, b, staging, arts);
    var f := Run(e, links);
    StageEnds(d, f, b, staging, legacy);
    RunAppend(d, make, links);
    EnabledAppend(d, make, links);
    RunAppend(d, make + links, publish);
    EnabledAppend(d, make + links, publish);
    var ops := SaveLegacyOps(s, staging, legacy);
    assert ops == make + links + publish;
    SaveConfined(s, staging, legacy, s);
    hide SaveLegacyOps, Run, AllEnabled;
    QuietContained(d, ops, {StagePlace(staging), GenPlace(legacy)});
  }

  // ---- Removing directories -------------------------------------------------------------

  function ContentNames(dir: nat, contents: seq<Name>): set<Place> { set n | n in contents :: Place(dir, n) }

  function TreeNames(d: Disk, at: Place, contents: seq<Name>): set<Place> {
    {at} + if At(d, at).Dir? then ContentNames(At(d, at).dir, contents) else {}
  }

  lemma {:induction false} UnlinksConfined(d: Disk, dir: nat, contents: seq<Name>, bound: nat, names: set<Place>)
    requires ContentNames(dir, contents) <= names
    ensures forall op :: op in UnlinkOps(d, dir, contents) ==> Confined(op, bound, names) && Quiet(op)
    decreases |contents|
  {
    if contents != [] {
      assert forall n :: n in contents <==> n == contents[0] || n in contents[1..];
      assert Place(dir, contents[0]) in ContentNames(dir, contents);
      UnlinksConfined(d, dir, contents[1..], bound, names);
    }
  }

  lemma {:induction false} EmptyConfined(d: Disk, at: Place, contents: seq<Name>, bound: nat)
    ensures forall op :: op in EmptyOps(d, at, contents) ==>
              Confined(op, bound, TreeNames(d, at, contents)) && Quiet(op)
  {
    if At(d, at).Dir? {
      UnlinksConfined(d, At(d, at).dir, contents, bound, TreeNames(d, at, contents));
    }
  }

  lemma {:induction false} EmptyContained(d: Disk, at: Place, contents: seq<Name>)
    ensures Contained(d, EmptyOps(d, at, contents), TreeNames(d, at, contents))
  {
    EmptyConfined(d, at, contents, d.next);
    hide EmptyOps, TreeNames;
    QuietContained(d, EmptyOps(d, at, contents), TreeNames(d, at, contents));
  }

  /** A directory is not shared, so removing one tree stays clear of the other generations. */
  lemma {:induction false} TreeIsClear(d: Disk, at: Place, contents: seq<Name>, gens: set<string>)
    requires WellFormed(d) && at.dir <= PINS && forall g :: g in gens ==> GenPlace(g) != at
    ensures Clear(d, TreeNames(d, at, contents), gens)
    ensures at != CURRENT ==> CURRENT !in TreeNames(d, at, contents)
    ensures forall a :: at != Public(a) ==> Public(a) !in TreeNames(d, at, contents)
  {
  }

  lemma {:induction false} EmptyResolves(d: Disk, at: Place, contents: seq<Name>, allowed: map<string, Bundle>)
    requires WellFormed(d) && Resolves(d, allowed) && at.dir <= PINS && at != CURRENT
    requires forall g :: g in allowed ==> GenPlace(g) != at
    ensures Throughout(d, EmptyOps(d, at, contents), e => Resolves(e, allowed))
  {
    EmptyContained(d, at, contents);
    TreeIsClear(d, at, contents, allowed.Keys);
    hide EmptyOps, TreeNames, Run, Resolves;
    ContainedResolves(d, EmptyOps(d, at, contents), TreeNames(d, at, contents), allowed);
  }

  /** A block that stays clear of `current` and of what it may name keeps it resolving. */
  lemma {:induction false} ContainedResolves(d: Disk, ops: seq<Op>, names: set<Place>, allowed: map<string, Bundle>)
    requires WellFormed(d) && Resolves(d, allowed) && Contained(d, ops, names)
    requires Clear(d, names, allowed.Keys) && CURRENT !in names
    ensures Throughout(d, ops, e => Resolves(e, allowed))
    ensures Resolves(Run(d, ops), allowed)
  {
    forall k | 0 <= k <= |ops| ensures Resolves(Run(d, ops[..k]), allowed) {
      ResolvesKept(d, Run(d, ops[..k]), names, allowed);
    }
    assert ops[..|ops|] == ops;
  }

  lemma {:induction false} RemoveAllResolves(d: Disk, victims: seq<string>, allowed: map<string, Bundle>)
    requires WellFormed(d) && Resolves(d, allowed) && forall g :: g in allowed ==> g !in victims
    ensures Throughout(d, RemoveAllOps(d, victims), e => Resolves(e, allowed))
    ensures AllEnabled(d, RemoveAllOps(d, victims)) ==>
              var e := Run(d, RemoveAllOps(d, victims)); WellFormed(e) && Resolves(e, allowed)
    decreases |victims|
  {
    if victims != [] {
      var at := GenPlace(victims[0]);
      assert victims[0] in victims && forall v :: v in victims[1..] ==> v in victims;
      var first := RemoveTreeOps(d, at);
      EmptyResolves(d, at, CONTENTS, allowed);
      var rest := RemoveAllOps(Run(d, first), victims[1..]);
      assert RemoveAllOps(d, victims) == first + rest;
      hide EmptyOps, RemoveAllOps, Resolves, WellFormed, Run, AllEnabled;
      if AllEnabled(d, first) {
        ThroughoutEnds(d, first, e => Resolves(e, allowed));
        WellFormedRun(d, first);
        RemoveAllResolves(Run(d, first), victims[1..], allowed);
      }
      ThroughoutAppend(d, first, rest, e => Resolves(e, allowed));
      if AllEnabled(d, first + rest) {
        EnabledSplit(d, first, rest);
        RunAppend(d, first, rest);
      }
    }
  }
}
