/**
 The deployer at work on one deployment directory.

 Each method issues its system calls one by one, in the loops and branches of the deployer. A call fails
 when the disk does not allow it, or for a reason outside the model, and a failure ends the method as the
 exception does; the removals of the `finally` clauses follow. The contract of a method says how far down
 its list of calls it came, and these lists are what the theorems about crashes, readers and histories
 speak of. Names that the deployer draws, modification times and the present time are parameters.
 */
module Deployer {
  import opened Basics
  import opened FileSystem
  import opened Publication
  import opened Phases
  import opened Switching
  import opened CrashConsistency
  import opened Snapshots
  import opened Immutability
  import opened Completion
  import opened Retention
  import Domains
  import Text

  datatype DeploymentError =
    | CountTooSmall | NegativeDays | NoDomain | UnsafeDomain | NoSuchGeneration
    | SystemError      // a call failed

  const DAY := 86_400_000_000_000   // nanoseconds

  datatype Options = Options(enabled: bool, count: Option<int>, days: Option<int>)

  function LimitsOf(o: Options, now: int): Limits {
    Limits(o.count, match o.days case Some(days) => Some(now - days * DAY) case None => None)
  }

  /** The generation directories that are not hidden. */
  function VisibleGenerations(d: Disk): set<string> {
    set p | p in d.slots && p.dir == GENERATIONS && p.name.Generation? && d.slots[p].now.Dir?
            && (p.name.id == "" || p.name.id[0] != '.')
      :: p.name.id
  }

  /** Those that are newer than this one: later, or at the same time with a greater name. */
  function NewerThan(d: Disk, mtime: string -> int, id: string): set<string> {
    set g | g in VisibleGenerations(d) && (mtime(g) > mtime(id) || (mtime(g) == mtime(id) && Text.Less(id, g)))
  }

  /** What a deployment removes, if the retention options are these. */
  predicate Expires(d: Disk, mtime: string -> int, generation: string, o: Options, now: int, id: string) {
    && At(d, GenPlace(id)).Dir? && (id == "" || id[0] != '.')
    && id != generation && At(d, Place(PINS, Pin(id))) == Absent
    && (o.count != None || o.days != None)
    && (o.count != None ==> |NewerThan(d, mtime, id)| >= o.count.value)
    && (o.days != None ==> mtime(id) < now - o.days.value * 86_400_000_000_000)
  }

  /** The name is a single path component. */
  predicate Retained(id: string) { id != "" && id != "." && id != ".." && '/' !in id }

  function CurrentOf(d: Disk): Option<string> {
    match At(d, CURRENT)
    case Symlink(ToGeneration(id)) => Some(id)
    case _ => None
  }

  function PinnedOf(d: Disk): set<string> {
    set p | p in d.slots && p.dir == PINS && p.name.Pin? && d.slots[p].now != Absent :: p.name.id
  }

  function GenerationsOf(d: Disk, mtime: string -> int): set<Gen> {
    set p | p in d.slots && p.dir == GENERATIONS && p.name.Generation? && d.slots[p].now.Dir?
      :: Gen(p.name.id, mtime(p.name.id))
  }

  function Names(gens: seq<Gen>): seq<string> {
    if gens == [] then [] else [gens[0].name] + Names(gens[1..])
  }

  lemma {:induction false} InNames(gens: seq<Gen>, id: string)
    ensures id in Names(gens) <==> exists g :: g in gens && g.name == id
  {
    if gens != [] {
      InNames(gens[1..], id);
      assert forall g :: g in gens <==> g == gens[0] || g in gens[1..];
    }
  }

  // ---- Calls that may fail --------------------------------------------------------------

  /** The calls before this one succeed and it fails: in calm conditions only because it is not enabled. */
  ghost predicate FailsAt(d: Disk, ops: seq<Op>, k: nat, e: Disk, calm: bool) {
    k < |ops| && StopsAfter(d, ops, k, e) && (calm ==> !Enabled(e, ops[k]))
  }

  /** The calls are issued one after the other, up to the first that fails. */
  ghost predicate Issued(d: Disk, ops: seq<Op>, ok: bool, e: Disk, calm: bool) {
    if ok then AllEnabled(d, ops) && e == Run(d, ops) else exists k: nat :: FailsAt(d, ops, k, e, calm)
  }

  lemma {:induction false} IssuedOne(d: Disk, op: Op, ok: bool, e: Disk, calm: bool)
    requires ok ==> Enabled(d, op) && e == Exec(d, op)
    requires !ok ==> e == d && (calm ==> !Enabled(d, op))
    ensures Issued(d, [op], ok, e, calm)
  {
    var ops := [op];
    assert ops[..0] == [];
    RunOne(d, op);
    if ok { EnabledOne(d, op); } else { assert FailsAt(d, ops, 0, e, calm); }
  }

  /** The list up to these last calls has been issued, and has led here. */
  ghost predicate Left(d: Disk, ops: seq<Op>, m: Disk, rest: seq<Op>) {
    |rest| <= |ops| && StopsAfter(d, ops, |ops| - |rest|, m) && ops[|ops| - |rest|..] == rest
  }

  lemma {:induction false} Begin(d: Disk, ops: seq<Op>)
    ensures Left(d, ops, d, ops)
  {
    assert ops[..0] == [];
  }

  lemma {:induction false} Finish(d: Disk, ops: seq<Op>, e: Disk, calm: bool)
    requires Left(d, ops, e, [])
    ensures Issued(d, ops, true, e, calm)
  {
    assert ops[..|ops|] == ops;
  }

  lemma {:induction false} LeftIs(d: Disk, front: seq<Op>, rest: seq<Op>, ops: seq<Op>, m: Disk)
    requires ops == front + rest && Left(d, ops, m, rest)
    ensures AllEnabled(d, front) && m == Run(d, front)
  {
    assert ops[..|front|] == front;
  }

  /** The next part of the list, issued. */
  lemma {:induction false} Issue(d: Disk, ops: seq<Op>, m: Disk, part: seq<Op>, rest: seq<Op>, ok: bool, e: Disk,
                                 calm: bool)
    requires Left(d, ops, m, part + rest) && Issued(m, part, ok, e, calm)
    ensures ok ==> Left(d, ops, e, rest)
    ensures !ok ==> Issued(d, ops, false, e, calm)
  {
    var i := |ops| - |part + rest|;
    var front := ops[..i];
    assert ops == front + (part + rest) && front + (part + rest) == front + part + rest;
    hide Enabled, Run, AllEnabled;
    if ok {
      assert ops[..i + |part|] == front + part && ops[i + |part|..] == rest;
      EnabledAppend(d, front, part);
      RunAppend(d, front, part);
    } else {
      var k: nat :| FailsAt(m, part, k, e, calm);
      assert ops[..i + k] == front + part[..k] && ops[i + k] == part[k];
      EnabledAppend(d, front, part[..k]);
      RunAppend(d, front, part[..k]);
      assert FailsAt(d, ops, i + k, e, calm);
    }
  }

  lemma {:induction false} FailedIsDisabled(d: Disk, ops: seq<Op>, e: Disk)
    requires Issued(d, ops, false, e, true)
    ensures !AllEnabled(d, ops)
  {
    var k: nat :| FailsAt(d, ops, k, e, true);
    assert !EnabledAt(d, ops, k);
  }

  /** When nothing outside fails, calls that are enabled succeed. */
  lemma {:induction false} CalmSucceeds(d: Disk, ops: seq<Op>, ok: bool, e: Disk)
    requires Issued(d, ops, ok, e, true) && AllEnabled(d, ops)
    ensures ok
  {
    hide *;
    if !ok { FailedIsDisabled(d, ops, e); }
  }

  /** A failure before the cleanup, whose removals follow; or everything, with the cleanup as far as it gets. */
  ghost predicate Deployed(d: Disk, p: Plan, ok: bool, m: Disk, e: Disk, calm: bool) {
    && Issued(d, BeforeCleanup(d, p), ok, m, calm)
    && if ok then exists cleaned :: Issued(m, CleanupOps(m, p.victims), cleaned, e, calm) else Aborted(m, p, e)
  }

  /** The temporary directory is removed in every case, as far as that succeeds. */
  ghost predicate Replaced(d: Disk, b: Bundle, staging: string, ok: bool, m: Disk, e: Disk, calm: bool) {
    Issued(d, ReplaceAllOps(d.next, b, staging), ok, m, calm) && Tidied(m, TempPlace(staging), e)
  }

  // ---- One step of each loop ------------------------------------------------------------

  lemma {:induction false} WriteStep(d: Disk, e: Disk, dir: nat, b: Bundle, arts: seq<Artifact>)
    requires arts != [] && Distinct(arts) && NoTmps(d, dir, arts)
    ensures var first := [Create(Place(dir, Tmp(arts[0]))), Write(d.next, Get(b, arts[0])), SyncFile(d.next)];
            && At(d, Place(dir, Tmp(arts[0]))) == Absent
            && WriteOps(dir, d.next, b, arts) == first + WriteOps(dir, d.next + 1, b, arts[1..])
            && (e == Run(d, first) ==> e.next == d.next + 1 && Distinct(arts[1..]) && NoTmps(e, dir, arts[1..]))
  {
    var first := [Create(Place(dir, Tmp(arts[0]))), Write(d.next, Get(b, arts[0])), SyncFile(d.next)];
    RunThree(d, first[0], first[1], first[2]);
    assert forall a :: a in arts[1..] ==> a in arts;
  }

  lemma {:induction false} ReplaceStep(from: nat, to: nat, arts: seq<Artifact>)
    requires arts != []
    ensures ReplaceOps(from, to, arts)
              == [Rename(Place(from, Tmp(arts[0])), Place(to, Art(arts[0])))] + ReplaceOps(from, to, arts[1..])
  {
  }

  lemma {:induction false} LinkStep(dir: nat, arts: seq<Artifact>)
    requires arts != []
    ensures LinkOps(dir, arts) == [Link(Public(arts[0]), Place(dir, Art(arts[0])))] + LinkOps(dir, arts[1..])
  {
  }

  lemma {:induction false} LinkUpStep(d: Disk, arts: seq<Artifact>, sync: seq<Op>)
    requires arts != []
    ensures var (a, pending) := (arts[0], PublicPending(arts[0]));
            var make, move := MakeSymlink(pending, ThroughCurrent(a)), Rename(pending, Public(a));
            LinkUpOps(d, arts) + sync ==
              if At(d, Public(a)).Symlink? then LinkUpOps(d, arts[1..]) + sync
              else [make] + ([move] + (LinkUpOps(Run(d, [make, move]), arts[1..]) + sync))
  {
    var a, one := arts[0], LinkOneOps(d, arts[0]);
    assert LinkUpOps(d, arts) == one + LinkUpOps(Run(d, one), arts[1..]);
    hide LinkUpOps, Run;
    if At(d, Public(a)).Symlink? {
      RunNone(d);
    } else {
      var make, move := MakeSymlink(PublicPending(a), ThroughCurrent(a)), Rename(PublicPending(a), Public(a));
      assert one == [make, move];
      assert [make, move] + LinkUpOps(Run(d, one), arts[1..]) + sync
          == [make] + ([move] + (LinkUpOps(Run(d, one), arts[1..]) + sync));
    }
  }

  lemma {:induction false} NothingToSweep(d: Disk, at: Place)
    ensures At(d, at) == Absent ==> RemoveTreeOps(d, at) == [] && Run(d, []) == d
  {
  }

  lemma {:induction false} UnlinkStep(listed: Disk, dir: nat, names: seq<Name>, last: seq<Op>)
    requires names != []
    ensures var at := Place(dir, names[0]);
            UnlinkOps(listed, dir, names) + last ==
              if At(listed, at).Absent? then UnlinkOps(listed, dir, names[1..]) + last
              else [Unlink(at)] + (UnlinkOps(listed, dir, names[1..]) + last)
  {
    var at := Place(dir, names[0]);
    assert UnlinkOps(listed, dir, names)
        == (if At(listed, at).Absent? then [] else [Unlink(at)]) + UnlinkOps(listed, dir, names[1..]);
  }

  // ---- The deployer ---------------------------------------------------------------------

  class Target {
    const faulty: nat -> bool    // which calls fail for reasons outside the model
    var disk: Disk
    var calls: nat

    constructor (disk: Disk, faulty: nat -> bool)
      ensures this.disk == disk && this.faulty == faulty
    {
      this.disk, this.faulty, calls := disk, faulty, 0;
    }

    ghost predicate Calm() { forall i :: !faulty(i) }

    /** One system call. A call that fails changes nothing. */
    method Do(op: Op) returns (ok: bool)
      modifies this
      ensures calls == old(calls) + 1
      ensures ok <==> Enabled(old(disk), op) && !faulty(old(calls))
      ensures disk == if ok then Exec(old(disk), op) else old(disk)
      ensures Issued(old(disk), [op], ok, disk, Calm())
    {
      ghost var start := disk;
      ok := Enabled(disk, op) && !faulty(calls);
      calls := calls + 1;
      if ok {
        disk := Exec(disk, op);
      }
      IssuedOne(start, op, ok, disk, Calm());
    }

    /** Makes a file, writes it through the open descriptor and synchronises it. */
    method WriteFsync(at: Place, data: Data) returns (ok: bool)
      requires At(disk, at) == Absent
      modifies this
      ensures Issued(old(disk), [Create(at), Write(old(disk).next, data), SyncFile(old(disk).next)], ok, disk, Calm())
    {
      ghost var start := disk;
      var ino := disk.next;
      ghost var ops := [Create(at), Write(ino, data), SyncFile(ino)];
      assert ops == [Create(at)] + ([Write(ino, data)] + ([SyncFile(ino)] + []));
      hide *;
      Begin(start, ops);
      ok := Do(Create(at));
      Issue(start, ops, start, [Create(at)], [Write(ino, data)] + ([SyncFile(ino)] + []), ok, disk, Calm());
      if !ok { return; }
      ghost var m := disk;
      ok := Do(Write(ino, data));
      Issue(start, ops, m, [Write(ino, data)], [SyncFile(ino)] + [], ok, disk, Calm());
      if !ok { return; }
      m := disk;
      ok := Do(SyncFile(ino));
      Issue(start, ops, m, [SyncFile(ino)], [], ok, disk, Calm());
      if ok { Finish(start, ops, disk, Calm()); }
    }

    /** Writes and synchronises the five files of a new directory under their temporary names. */
    method WriteTempArtifacts(dir: nat, b: Bundle) returns (ok: bool)
      requires forall a :: At(disk, Place(dir, Tmp(a))) == Absent
      modifies this
      ensures Issued(old(disk), WriteOps(dir, old(disk).next, b, ARTIFACTS), ok, disk, Calm())
    {
      var arts := ARTIFACTS;
      ghost var start, ops := disk, WriteOps(dir, disk.next, b, arts);
      EveryArtifact();
      assert arts[0..] == arts && NoTmps(disk, dir, arts);
      hide *;
      Begin(start, ops);
      for k := 0 to |arts|
        invariant Left(start, ops, disk, WriteOps(dir, disk.next, b, arts[k..]))
        invariant Distinct(arts[k..]) && NoTmps(disk, dir, arts[k..])
      {
        ghost var m, rest := disk, arts[k..];
        ghost var first := [Create(Place(dir, Tmp(arts[k]))), Write(m.next, Get(b, arts[k])), SyncFile(m.next)];
        WriteStep(m, Run(m, first), dir, b, rest);
        ok := WriteFsync(Place(dir, Tmp(arts[k])), Get(b, arts[k]));
        Issue(start, ops, m, first, WriteOps(dir, m.next + 1, b, rest[1..]), ok, disk, Calm());
        if !ok { return; }
        IssuedMeans(m, first, disk, Calm());
        assert rest[1..] == arts[k + 1..];
      }
      WriteNone(dir, disk.next, b);
      Finish(start, ops, disk, Calm());
      ok := true;
    }

    method ReplaceArtifacts(from: nat, to: nat) returns (ok: bool)
      modifies this
      ensures Issued(old(disk), ReplaceOps(from, to, ARTIFACTS), ok, disk, Calm())
    {
      var arts := ARTIFACTS;
      ghost var start, ops := disk, ReplaceOps(from, to, arts);
      assert arts[0..] == arts;
      hide *;
      Begin(start, ops);
      for k := 0 to |arts|
        invariant Left(start, ops, disk, ReplaceOps(from, to, arts[k..]))
      {
        ghost var m := disk;
        var op := Rename(Place(from, Tmp(arts[k])), Place(to, Art(arts[k])));
        ReplaceStep(from, to, arts[k..]);
        ok := Do(op);
        Issue(start, ops, m, [op], ReplaceOps(from, to, arts[k..][1..]), ok, disk, Calm());
        if !ok { return; }
        assert arts[k..][1..] == arts[k + 1..];
      }
      ReplaceNone(from, to);
      Finish(start, ops, disk, Calm());
      ok := true;
    }

    method SelectGenerationDirectory(g: string) returns (ok: bool)
      modifies this
      ensures Issued(old(disk), SelectOps(g), ok, disk, Calm())
    {
      var unlink, link := Unlink(CURRENT_PENDING), MakeSymlink(CURRENT_PENDING, ToGeneration(g));
      var move, sync := Rename(CURRENT_PENDING, CURRENT), SyncDir(TARGET);
      ghost var start, ops := disk, SelectOps(g);
      assert ops == [unlink] + ([link] + ([move] + ([sync] + [])));
      hide *;
      Begin(start, ops);
      ok := Do(unlink);
      Issue(start, ops, start, [unlink], [link] + ([move] + ([sync] + [])), ok, disk, Calm());
      if !ok { return; }
      ghost var m := disk;
      ok := Do(link);
      Issue(start, ops, m, [link], [move] + ([sync] + []), ok, disk, Calm());
      if !ok { return; }
      m := disk;
      ok := Do(move);
      Issue(start, ops, m, [move], [sync] + [], ok, disk, Calm());
      if !ok { return; }
      m := disk;
      ok := Do(sync);
      Issue(start, ops, m, [sync], [], ok, disk, Calm());
      if ok { Finish(start, ops, disk, Calm()); }
    }

    /** A leftover pending link is in the way of its successor, and stops the loop. */
    method EnsureCompatibilityLinks() returns (ok: bool)
      modifies this
      ensures Issued(old(disk), EnsureOps(old(disk)), ok, disk, Calm())
    {
      var arts := ARTIFACTS;
      ghost var start, ops, sync := disk, EnsureOps(disk), [SyncDir(TARGET)];
      assert arts[0..] == arts;
      assert ops == LinkUpOps(disk, arts) + sync by { hide LinkUpOps; }
      hide *;
      Begin(start, ops);
      for k := 0 to |arts|
        invariant Left(start, ops, disk, LinkUpOps(disk, arts[k..]) + sync)
      {
        ghost var m, later := disk, arts[k..][1..];
        LinkUpStep(m, arts[k..], sync);
        assert later == arts[k + 1..];
        if At(disk, Public(arts[k])).Symlink? {
          continue;
        }
        var make := MakeSymlink(PublicPending(arts[k]), ThroughCurrent(arts[k]));
        var move := Rename(PublicPending(arts[k]), Public(arts[k]));
        ghost var rest := LinkUpOps(Run(m, [make, move]), later) + sync;
        ok := Do(make);
        Issue(start, ops, m, [make], [move] + rest, ok, disk, Calm());
        if !ok { return; }
        ghost var made := disk;
        ok := Do(move);
        Issue(start, ops, made, [move], rest, ok, disk, Calm());
        if !ok { return; }
        IssuedMeans(m, [make], made, Calm());
        IssuedMeans(made, [move], disk, Calm());
        RunTwo(m, make, move);
      }
      LinkUpNone(disk);
      ghost var last := disk;
      ok := Do(SyncDir(TARGET));
      assert [] + sync == sync + [];
      Issue(start, ops, last, sync, [], ok, disk, Calm());
      if ok { Finish(start, ops, disk, Calm()); }
    }

    method LinkArtifacts(dir: nat) returns (ok: bool)
      modifies this
      ensures Issued(old(disk), LinkOps(dir, ARTIFACTS), ok, disk, Calm())
    {
      var arts := ARTIFACTS;
      ghost var start, ops := disk, LinkOps(dir, arts);
      assert arts[0..] == arts;
      hide *;
      Begin(start, ops);
      for k := 0 to |arts|
        invariant Left(start, ops, disk, LinkOps(dir, arts[k..]))
      {
        ghost var m := disk;
        var op := Link(Public(arts[k]), Place(dir, Art(arts[k])));
        LinkStep(dir, arts[k..]);
        ok := Do(op);
        Issue(start, ops, m, [op], LinkOps(dir, arts[k..][1..]), ok, disk, Calm());
        if !ok { return; }
        assert arts[k..][1..] == arts[k + 1..];
      }
      LinkNone(dir);
      Finish(start, ops, disk, Calm());
      ok := true;
    }

    /** Turns a staged directory into a generation that a crash cannot lose. */
    method PublishDirectory(dir: nat, staging: string, g: string) returns (ok: bool)
      modifies this
      ensures Issued(old(disk), PublishOps(dir, staging, g), ok, disk, Calm())
    {
      var files, move, name := SyncDir(dir), Rename(StagePlace(staging), GenPlace(g)), SyncDir(GENERATIONS);
      ghost var start, ops := disk, PublishOps(dir, staging, g);
      assert ops == [files] + ([move] + ([name] + []));
      hide *;
      Begin(start, ops);
      ok := Do(files);
      Issue(start, ops, start, [files], [move] + ([name] + []), ok, disk, Calm());
      if !ok { return; }
      ghost var m := disk;
      ok := Do(move);
      Issue(start, ops, m, [move], [name] + [], ok, disk, Calm());
      if !ok { return; }
      m := disk;
      ok := Do(name);
      Issue(start, ops, m, [name], [], ok, disk, Calm());
      if ok { Finish(start, ops, disk, Calm()); }
    }

    /** Removes a directory with its contents, if it is there. The first call that fails ends it. */
    method RemoveTree(at: Place) returns (ok: bool)
      modifies this
      ensures Issued(old(disk), RemoveTreeOps(old(disk), at), ok, disk, Calm())
    {
      ghost var start, ops, last := disk, RemoveTreeOps(disk, at), [RemoveDir(at)];
      var names, listed := CONTENTS, disk;
      TreeCalls(disk, at, names);
      hide *;
      Begin(start, ops);
      if !At(disk, at).Dir? {
        Finish(start, ops, disk, Calm());
        return true;
      }
      var dir := At(disk, at).dir;
      assert names[0..] == names;
      for k := 0 to |names|
        invariant Left(start, ops, disk, UnlinkOps(listed, dir, names[k..]) + last)
      {
        ghost var m, rest := disk, UnlinkOps(listed, dir, names[k + 1..]) + last;
        UnlinkStep(listed, dir, names[k..], last);
        assert names[k..][1..] == names[k + 1..];
        if At(listed, Place(dir, names[k])).Absent? {
          continue;
        }
        var op := Unlink(Place(dir, names[k]));
        ok := Do(op);
        Issue(start, ops, m, [op], rest, ok, disk, Calm());
        if !ok { return; }
      }
      UnlinkNone(listed, dir);
      ghost var emptied := disk;
      ok := Do(RemoveDir(at));
      assert [] + last == last + [];
      Issue(start, ops, emptied, last, [], ok, disk, Calm());
      if ok { Finish(start, ops, disk, Calm()); }
    }

    /** Of these calls none fails from outside. */
    ghost predicate Quiet(first: int, last: int) { forall i: nat :: first <= i < last ==> !faulty(i) }

    /**
     The last calls were the removal of a directory, from this disk on. If each of them was possible and none failed
     from outside, all of it was done.
     */
    ghost predicate Swept(m: Disk, at: Place)
      reads this
    {
      var ops := RemoveTreeOps(m, at);
      && |ops| <= calls
      && (AllEnabled(m, ops) && Quiet(calls - |ops|, calls) ==> disk == Run(m, ops))
    }

    lemma {:induction false} QuietAt(first: int, last: int, i: nat)
      requires Quiet(first, last) && first <= i < last
      ensures !faulty(i)
    {
    }

    lemma {:induction false} SweptBy(m: Disk, at: Place, first: nat)
      requires calls == first + |RemoveTreeOps(m, at)|
      requires AllEnabled(m, RemoveTreeOps(m, at)) && Quiet(first, calls) ==> disk == Run(m, RemoveTreeOps(m, at))
      ensures Swept(m, at)
    {
    }

    /** The same with errors ignored: every call of the removal is tried. */
    method TidyTree(at: Place)
      modifies this
      ensures Tidied(old(disk), at, disk) && Swept(old(disk), at)
      ensures calls == old(calls) + |RemoveTreeOps(old(disk), at)|
    {
      ghost var start, ops, last := disk, RemoveTreeOps(disk, at), [RemoveDir(at)];
      ghost var first := calls;
      ghost var calm := AllEnabled(start, ops) && Quiet(first, first + |ops|);
      var names, listed := CONTENTS, disk;
      TreeCalls(disk, at, names);
      hide *;
      if !At(disk, at).Dir? {
        NotTidied(disk, at);
        RunNone(disk);
        SweptBy(start, at, first);
        return;
      }
      SweepBegins(start, at, ops, calm);
      var dir := At(disk, at).dir;
      assert names[0..] == names;
      ghost var left := ops;
      for k := 0 to |names|
        invariant left == UnlinkOps(listed, dir, names[k..]) + last
        invariant Sweeping(start, at, ops, disk, left, calm) && calls + |left| == first + |ops|
      {
        ghost var m, rest := disk, UnlinkOps(listed, dir, names[k + 1..]) + last;
        UnlinkStep(listed, dir, names[k..], last);
        assert names[k..][1..] == names[k + 1..];
        if At(listed, Place(dir, names[k])).Absent? {
          continue;
        }
        var op := Unlink(Place(dir, names[k]));
        if calm { QuietAt(first, first + |ops|, calls); }
        var ok := Do(op);
        SweepNext(start, at, ops, m, op, rest, ok, disk, calm);
        left := rest;
      }
      UnlinkNone(listed, dir);
      assert [] + last == last + [];
      ghost var emptied := disk;
      if calm { QuietAt(first, first + |ops|, calls); }
      var ok := Do(RemoveDir(at));
      SweepNext(start, at, ops, emptied, RemoveDir(at), [], ok, disk, calm);
      SweepEnds(start, at, ops, disk, calm);
      SweptBy(start, at, first);
    }

    /** The calls of a migration after its staging directory is made. */
    method LinkAndSelect(ghost start: Disk, dir: nat, staging: string, legacy: string) returns (ok: bool)
      requires !NonePresent(start) && !AllSymlinks(start) && dir == start.next
      requires Left(start, MigrateOps(start, staging, legacy), disk, MigrateOps(start, staging, legacy)[1..])
      modifies this
      ensures Issued(start, MigrateOps(start, staging, legacy), ok, disk, Calm())
    {
      ghost var ops := MigrateOps(start, staging, legacy);
      ghost var links, publish := LinkOps(dir, ARTIFACTS), PublishOps(dir, staging, legacy);
      ghost var select := SelectOps(legacy);
      ghost var front, ensure := MigrateCalls(start, staging, legacy);
      hide *;
      ghost var m := disk;
      ok := LinkArtifacts(dir);
      Issue(start, ops, m, links, publish + (select + (ensure + [])), ok, disk, Calm());
      if !ok { return; }
      m := disk;
      ok := PublishDirectory(dir, staging, legacy);
      Issue(start, ops, m, publish, select + (ensure + []), ok, disk, Calm());
      if !ok { return; }
      m := disk;
      ok := SelectGenerationDirectory(legacy);
      Issue(start, ops, m, select, ensure + [], ok, disk, Calm());
      if !ok { return; }
      LeftIs(start, front, ensure + [], ops, disk);
      m := disk;
      ok := EnsureCompatibilityLinks();
      Issue(start, ops, m, ensure, [], ok, disk, Calm());
      if ok { Finish(start, ops, disk, Calm()); }
    }

    /** Saves plain files as a generation and puts links in their place. */
    method MigrateLegacyCompatibilityLinks(staging: string, legacy: string) returns (ok: bool, ghost m: Disk)
      modifies this
      ensures Issued(old(disk), MigrateOps(old(disk), staging, legacy), ok, m, Calm())
      ensures if ok then disk == m else Tidied(m, StagePlace(staging), disk)
      ensures !ok && At(old(disk), StagePlace(staging)) == Absent ==> Swept(m, StagePlace(staging))
    {
      ghost var start, ops, make := disk, MigrateOps(disk, staging, legacy), MakeDir(StagePlace(staging));
      m := disk;
      if NonePresent(disk) || AllSymlinks(disk) {
        Begin(start, ops);
        Finish(start, ops, disk, Calm());
        return true, disk;
      }
      MigrateStarts(start, staging, legacy);
      hide *;
      Begin(start, ops);
      var dir := disk.next;
      ok := Do(MakeDir(StagePlace(staging)));
      m := disk;
      Issue(start, ops, start, [make], ops[1..], ok, disk, Calm());
      if !ok {
        NotTidied(disk, StagePlace(staging));
        NothingToSweep(disk, StagePlace(staging));
        if At(disk, StagePlace(staging)) == Absent { SweptBy(disk, StagePlace(staging), calls); }
        return;
      }
      ok := LinkAndSelect(start, dir, staging, legacy);
      m := disk;
      // A migration that went through has renamed its staging directory: there is nothing to remove.
      if !ok {
        TidyTree(StagePlace(staging));
      }
    }

    /** The visible generation directories, in the order the directory gives them, which is any order. */
    method Listing(mtime: string -> int) returns (listing: seq<Gen>)
      ensures Members(listing) == VisibleOnly(GenerationsOf(disk, mtime))
      ensures forall i, j :: 0 <= i < j < |listing| ==> listing[i] != listing[j]
    {
      var all := GenerationsOf(disk, mtime);
      var left := all;
      listing := [];
      while left != {}
        invariant left <= all
        invariant Members(listing) == VisibleOnly(all - left)
        invariant forall i, j :: 0 <= i < j < |listing| ==> listing[i] != listing[j]
        decreases left
      {
        var g :| g in left;
        left := left - {g};
        if Visible(g) {
          assert g !in Members(listing);
          assert Members(listing + [g]) == Members(listing) + {g};
          listing := listing + [g];
        }
        assert all - left == (all - (left + {g})) + {g};
      }
      assert all - left == all;
    }

    /** The loop over the sorted generations. The first removal that fails ends it. */
    method RemoveObsolete(generations: seq<Gen>, current: Option<string>, pinned: set<string>, limits: Limits,
                          ghost all: set<Gen>)
      returns (r: Option<seq<Gen>>)
      requires Descending(generations) && Members(generations) == VisibleOnly(all)
      requires limits.count.Some? || limits.cutoff.Some?
      modifies this
      ensures var victims := Chosen(generations, Victims(all, current, pinned, limits));
              && Issued(old(disk), RemoveAllOps(old(disk), Names(victims)), r.Some?, disk, Calm())
              && (r.Some? ==> r.value == victims)
    {
      ghost var chosen := Victims(all, current, pinned, limits);
      ghost var victims := Chosen(generations, chosen);
      ghost var start := disk;
      var removed: seq<Gen> := [];
      assert generations[0..] == generations;
      assert forall k :: 0 <= k < |generations| ==> generations[k] in VisibleOnly(all) by {
        forall k | 0 <= k < |generations| ensures generations[k] in Members(generations) {}
      }
      RemovalStarts(start, victims);
      hide *;
      for index := 0 to |generations|
        invariant Removing(start, disk, removed, Chosen(generations[index..], chosen), victims)
      {
        var g := generations[index];
        ghost var m, later := disk, Chosen(generations[index + 1..], chosen);
        PositionIsRank(generations, all, index);
        LoopTest(g, all, current, pinned, limits, index);
        ChosenStep(generations, chosen, index);
        var exceedsCount := limits.count == None || index >= limits.count.value;
        var exceedsAge := limits.cutoff == None || g.mtime < limits.cutoff.value;
        if current == Some(g.name) || g.name in pinned || !(exceedsCount && exceedsAge) {
          continue;
        }
        var ok := RemoveTree(GenPlace(g.name));
        RemovalStep(start, m, removed, g, later, victims, ok, disk, Calm());
        if !ok { return None; }
        removed := removed + [g];
      }
      ChosenEnds(generations, chosen);
      RemovalEnds(start, disk, removed, victims, Calm());
      r := Some(removed);
    }

    /** Removes exactly the generations that the retention rules name, newest first, up to the first failure. */
    method CleanupGenerations(mtime: string -> int, limits: Limits)
      returns (r: Option<seq<Gen>>, ghost victims: seq<Gen>)
      modifies this
      ensures Members(victims)
                == Victims(GenerationsOf(old(disk), mtime), CurrentOf(old(disk)), PinnedOf(old(disk)), limits)
      ensures Descending(victims)
      ensures Issued(old(disk), CleanupOps(old(disk), Names(victims)), r.Some?, disk, Calm())
      ensures r.Some? ==> r.value == victims
      ensures r.Some? && WellFormed(old(disk)) ==>
                && Victims(GenerationsOf(disk, mtime), CurrentOf(disk), PinnedOf(disk), limits) == {}
                && (limits.count.Some? && limits.count.value >= 0 && limits.cutoff.None? ==>
                      |VisibleOnly(GenerationsOf(disk, mtime))| <= limits.count.value + |PinnedOf(disk)| + 1)
    {
      ghost var start, all := disk, GenerationsOf(disk, mtime);
      if limits.count == None && limits.cutoff == None {
        NothingToClean(disk, mtime, limits, Calm());
        return Some([]), [];
      }
      var current, pinned := CurrentOf(disk), PinnedOf(disk);
      var listing := Listing(mtime);
      var generations := SortNewest(listing);
      SortedMembers(listing, all);
      ghost var chosen := Victims(all, current, pinned, limits);
      VictimsAreVisible(all, current, pinned, limits);
      victims := Chosen(generations, chosen);
      ghost var removal, sync := CleanupCalls(disk, Names(victims));
      ghost var ops := CleanupOps(disk, Names(victims));
      hide *;
      ChosenAll(generations, chosen);
      NamesEmpty(victims);
      Begin(start, ops);
      r := RemoveObsolete(generations, current, pinned, limits, all);
      Issue(start, ops, start, removal, sync, r.Some?, disk, Calm());
      if r == None { return; }
      if r.value != [] {
        ghost var last := disk;
        var ok := Do(SyncDir(GENERATIONS));
        assert sync == sync + [];
        Issue(start, ops, last, sync, [], ok, disk, Calm());
        if !ok {
          r := None;
          return;
        }
      }
      Finish(start, ops, disk, Calm());
      IssuedMeans(start, ops, disk, Calm());
      if WellFormed(start) { CleanedUp(start, mtime, limits, victims); }
    }

    /** Fills the new directory and publishes it. */
    method StageFiles(dir: nat, b: Bundle, staging: string, generation: string) returns (ok: bool)
      requires disk.next == dir + 1 && forall a :: At(disk, Place(dir, Tmp(a))) == Absent
      modifies this
      ensures Issued(old(disk), StageRest(dir, b, staging, generation), ok, disk, Calm())
    {
      ghost var start, ops := disk, StageRest(dir, b, staging, generation);
      ghost var write, move := WriteOps(dir, dir + 1, b, ARTIFACTS), ReplaceOps(dir, dir, ARTIFACTS);
      ghost var publish := PublishOps(dir, staging, generation);
      assert ops == write + (move + (publish + []));
      hide *;
      Begin(start, ops);
      ghost var m := disk;
      ok := WriteTempArtifacts(dir, b);
      Issue(start, ops, m, write, move + (publish + []), ok, disk, Calm());
      if !ok { return; }
      m := disk;
      ok := ReplaceArtifacts(dir, dir);
      Issue(start, ops, m, move, publish + [], ok, disk, Calm());
      if !ok { return; }
      m := disk;
      ok := PublishDirectory(dir, staging, generation);
      Issue(start, ops, m, publish, [], ok, disk, Calm());
      if ok { Finish(start, ops, disk, Calm()); }
    }

    /** The calls of a publication after its staging directory is made. */
    method StageAndSelect(ghost start: Disk, ghost p: Plan, dir: nat, b: Bundle, generation: string, staging: string,
                          legacy: string, legacyStaging: string)
      returns (ok: bool, ghost m: Disk)
      requires WellFormed(start) && dir == start.next && p == Plan(b, generation, staging, legacy, legacyStaging, [])
      requires disk == Exec(start, MakeDir(StagePlace(staging)))
      requires Left(start, BeforeCleanup(start, p), disk, BeforeCleanup(start, p)[1..])
      modifies this
      ensures Issued(start, BeforeCleanup(start, p), ok, m, Calm())
      ensures if ok then disk == m else Tidied(m, StagePlace(legacyStaging), disk)
    {
      ghost var ops := BeforeCleanup(start, p);
      ghost var stage, select := StageRest(dir, b, staging, generation), SelectOps(generation);
      ghost var front, migrate, ensure := DeployCalls(start, p);
      NewDirectoryIsEmpty(start, StagePlace(staging));
      hide *;
      ghost var now := disk;
      ok := StageFiles(dir, b, staging, generation);
      m := disk;
      NotTidied(disk, StagePlace(legacyStaging));
      Issue(start, ops, now, stage, migrate + (select + (ensure + [])), ok, m, Calm());
      if !ok { return; }
      now := disk;
      LeftIs(start, StageOps(dir, b, staging, generation), migrate + (select + (ensure + [])), ops, disk);
      ok, m := MigrateLegacyCompatibilityLinks(legacyStaging, legacy);
      Issue(start, ops, now, migrate, select + (ensure + []), ok, m, Calm());
      if !ok { return; }
      ok := SelectGenerationDirectory(generation);
      now, m := m, disk;
      NotTidied(disk, StagePlace(legacyStaging));
      Issue(start, ops, now, select, ensure + [], ok, m, Calm());
      if !ok { return; }
      LeftIs(start, front, ensure + [], ops, disk);
      ok := EnsureCompatibilityLinks();
      now, m := m, disk;
      NotTidied(disk, StagePlace(legacyStaging));
      Issue(start, ops, now, ensure, [], ok, m, Calm());
      if ok { Finish(start, ops, m, Calm()); }
    }

    /**
     Publishes the artifacts as a new generation. The names are freshly drawn. A failure before the
     cleanup is reported after both staging directories are removed; one in the cleanup is not reported.
     */
    method DeployGeneration(b: Bundle, generation: string, staging: string, legacy: string, legacyStaging: string,
                            mtime: string -> int, limits: Limits)
      returns (ok: bool, ghost victims: seq<Gen>, ghost m: Disk)
      requires WellFormed(disk)
      modifies this
      ensures var p := Plan(b, generation, staging, legacy, legacyStaging, Names(victims));
              && Deployed(old(disk), p, ok, m, disk, Calm())
              && (ok ==> Members(victims) == Victims(GenerationsOf(m, mtime), Some(generation), PinnedOf(m), limits))
      ensures generation !in Names(victims)
      ensures !ok && At(old(disk), StagePlace(staging)) == Absent ==>
                exists x :: Tidied(m, StagePlace(legacyStaging), x) && Swept(x, StagePlace(staging))
    {
      ghost var start, make := disk, MakeDir(StagePlace(staging));
      ghost var p := Plan(b, generation, staging, legacy, legacyStaging, []);
      ghost var ops := BeforeCleanup(start, p);
      victims := [];
      assert Names(victims) == [] && start.next > TARGET;
      DeployStarts(start, p);
      hide *;
      Begin(start, ops);
      var dir := disk.next;
      ok := Do(MakeDir(StagePlace(staging)));
      m := disk;
      Issue(start, ops, start, [make], ops[1..], ok, m, Calm());
      if !ok {
        NotAborted(disk, p);
        FailedDeployment(start, p, m, disk, Calm());
        NotTidied(disk, StagePlace(legacyStaging));
        NothingToSweep(disk, StagePlace(staging));
        if At(disk, StagePlace(staging)) == Absent { SweptBy(disk, StagePlace(staging), calls); }
        return;
      }
      ok, m := StageAndSelect(start, p, dir, b, generation, staging, legacy, legacyStaging);
      if !ok {
        ghost var x := disk;
        TidyTree(StagePlace(staging));
        BothTidied(m, p, x, disk);
        FailedDeployment(start, p, m, disk, Calm());
        return;
      }
      IssuedMeans(start, ops, m, Calm());
      CurrentBeforeCleanup(start, p);
      CurrentIs(m, generation);
      var removed: Option<seq<Gen>>;
      removed, victims := CleanupGenerations(mtime, limits);
      SparesCurrent(GenerationsOf(m, mtime), generation, PinnedOf(m), limits, victims);
      FinishedDeployment(start, p, Names(victims), removed.Some?, m, disk, Calm());
    }

    /** The calls of a plain deployment after its temporary directory is made. */
    method WriteAndMove(ghost start: Disk, dir: nat, b: Bundle, ghost staging: string) returns (ok: bool)
      requires WellFormed(start) && dir == start.next && disk == Exec(start, MakeDir(TempPlace(staging)))
      requires Left(start, ReplaceAllOps(dir, b, staging), disk, ReplaceAllOps(dir, b, staging)[1..])
      modifies this
      ensures Issued(start, ReplaceAllOps(dir, b, staging), ok, disk, Calm())
    {
      ghost var ops := ReplaceAllOps(dir, b, staging);
      ghost var write, move := WriteOps(dir, dir + 1, b, ARTIFACTS), ReplaceOps(dir, TARGET, ARTIFACTS);
      ReplaceAllCalls(dir, b, staging);
      NewDirectoryIsEmpty(start, TempPlace(staging));
      hide *;
      ghost var m := disk;
      ok := WriteTempArtifacts(dir, b);
      Issue(start, ops, m, write, [SyncDir(dir)] + (move + ([SyncDir(TARGET)] + [])), ok, disk, Calm());
      if !ok { return; }
      m := disk;
      ok := Do(SyncDir(dir));
      Issue(start, ops, m, [SyncDir(dir)], move + ([SyncDir(TARGET)] + []), ok, disk, Calm());
      if !ok { return; }
      m := disk;
      ok := ReplaceArtifacts(dir, TARGET);
      Issue(start, ops, m, move, [SyncDir(TARGET)] + [], ok, disk, Calm());
      if !ok { return; }
      m := disk;
      ok := Do(SyncDir(TARGET));
      Issue(start, ops, m, [SyncDir(TARGET)], [], ok, disk, Calm());
      if ok { Finish(start, ops, disk, Calm()); }
    }

    /** Replaces the five files one by one. The temporary directory is removed in every case. */
    method DeployPlain(b: Bundle, staging: string) returns (ok: bool, ghost m: Disk)
      requires WellFormed(disk)
      modifies this
      ensures Replaced(old(disk), b, staging, ok, m, disk, Calm())
      ensures At(old(disk), TempPlace(staging)) == Absent ==> Swept(m, TempPlace(staging))
    {
      ghost var start, ops, make := disk, ReplaceAllOps(disk.next, b, staging), MakeDir(TempPlace(staging));
      ReplaceAllStarts(disk.next, b, staging);
      hide *;
      Begin(start, ops);
      var dir := disk.next;
      ok := Do(MakeDir(TempPlace(staging)));
      m := disk;
      Issue(start, ops, start, [make], ops[1..], ok, m, Calm());
      if !ok {
        NotTidied(disk, TempPlace(staging));
        NothingToSweep(disk, TempPlace(staging));
        if At(disk, TempPlace(staging)) == Absent { SweptBy(disk, TempPlace(staging), calls); }
        ReplacedMeans(start, b, staging, ok, m, disk, Calm());
        return;
      }
      ok := WriteAndMove(start, dir, b, staging);
      m := disk;
      TidyTree(TempPlace(staging));
      ReplacedMeans(start, b, staging, ok, m, disk, Calm());
    }

    /** Makes a retained generation current. */
    method SelectGeneration(id: string) returns (r: Result<(), DeploymentError>)
      modifies this
      ensures r == Err(NoSuchGeneration) <==>
                id == "" || id == "." || id == ".." || '/' in id || !At(old(disk), GenPlace(id)).Dir?
      ensures r == Err(NoSuchGeneration) ==> disk == old(disk)
      ensures r != Err(NoSuchGeneration) ==>
                (r.Ok? || r.error == SystemError) && Issued(old(disk), SelectOps(id), r.Ok?, disk, Calm())
    {
      if !Retained(id) {
        return Err(NoSuchGeneration);
      }
      if !At(disk, GenPlace(id)).Dir? {
        return Err(NoSuchGeneration);
      }
      var ok := SelectGenerationDirectory(id);
      return if ok then Ok(()) else Err(SystemError);
    }

    /** Protects a retained generation from cleanup. */
    method PinGeneration(id: string) returns (r: Result<(), DeploymentError>)
      modifies this
      ensures r == Err(NoSuchGeneration) <==>
                id == "" || id == "." || id == ".." || '/' in id || !At(old(disk), GenPlace(id)).Dir?
      ensures r == Err(NoSuchGeneration) ==> disk == old(disk)
      ensures r != Err(NoSuchGeneration) ==>
                (r.Ok? || r.error == SystemError) && Issued(old(disk), PinOps(id), r.Ok?, disk, Calm())
      ensures r.Ok? ==> id in PinnedOf(disk) && Synchronised(disk, PINS)
      ensures r.Ok? ==> forall q :: q != Place(PINS, Pin(id)) ==> At(disk, q) == At(old(disk), q)
    {
      if !Retained(id) || !At(disk, GenPlace(id)).Dir? {
        return Err(NoSuchGeneration);
      }
      ghost var start, ops := disk, PinOps(id);
      var touch, sync := Touch(Place(PINS, Pin(id))), SyncDir(PINS);
      assert ops == [touch] + ([sync] + []);
      PinShows(start, id);
      hide *;
      Begin(start, ops);
      var ok := Do(touch);
      Issue(start, ops, start, [touch], [sync] + [], ok, disk, Calm());
      if !ok { return Err(SystemError); }
      ghost var touched := disk;
      ok := Do(sync);
      Issue(start, ops, touched, [sync], [], ok, disk, Calm());
      if !ok { return Err(SystemError); }
      Finish(start, ops, disk, Calm());
      IssuedMeans(start, ops, disk, Calm());
      return Ok(());
    }

    /** Checks the options and the domains, then publishes or replaces. */
    method DeployCertificateArtifacts(o: Options, domains: seq<string>, b: Bundle, generation: string, staging: string,
                                      legacy: string, legacyStaging: string, mtime: string -> int, now: int)
      returns (r: Result<Option<string>, DeploymentError>, ghost p: Plan, ghost m: Disk)
      requires WellFormed(disk)
      modifies this
      ensures r.Err? && r.error != SystemError <==> Refused(o, domains)
      ensures Refused(o, domains) ==> disk == old(disk)
      ensures r == Err(CountTooSmall) <==> o.count.Some? && o.count.value < 1
      ensures r == Err(NegativeDays) <==> Counts(o) && o.days.Some? && o.days.value < 0
      ensures r == Err(NoDomain) <==> Counts(o) && Ages(o) && domains == []
      ensures r == Err(UnsafeDomain) <==> Counts(o) && Ages(o) && domains != [] && Unsafe(domains[0])
      ensures r.Err? ==> r.error != NoSuchGeneration
      ensures !Refused(o, domains) && !o.enabled ==>
                (r.Ok? ==> r.value == None) && Replaced(old(disk), b, staging, r.Ok?, m, disk, Calm())
      ensures !Refused(o, domains) && o.enabled ==>
                && p == Plan(b, generation, staging, legacy, legacyStaging, p.victims) && generation !in p.victims
                && (r.Ok? ==> r.value == Some(generation))
                && Deployed(old(disk), p, r.Ok?, m, disk, Calm())
      ensures o.enabled && r.Ok? ==> forall id :: id in p.victims <==> Expires(m, mtime, generation, o, now, id)
      ensures o.enabled && r.Ok? && o.count == None && o.days == None ==> p.victims == []
    {
      p, m := Plan(b, generation, staging, legacy, legacyStaging, []), disk;
      if o.count.Some? && o.count.value < 1 {
        r := Err(CountTooSmall);
        return;
      }
      if o.days.Some? && o.days.value < 0 {
        r := Err(NegativeDays);
        return;
      }
      if domains == [] {
        r := Err(NoDomain);
        return;
      }
      if Domains.DirectoryName(domains[0]).Err? {
        r := Err(UnsafeDomain);
        return;
      }
      hide Run, DeployOps, PlainOps, WellFormed, Deployed, Replaced;
      if o.enabled {
        var ok: bool;
        ghost var victims: seq<Gen>;
        ok, victims, m := DeployGeneration(b, generation, staging, legacy, legacyStaging, mtime, LimitsOf(o, now));
        p := p.(victims := Names(victims));
        if ok { VictimsExpire(m, mtime, generation, o, now, victims); }
        r := if ok then Ok(Some(generation)) else Err(SystemError);
        return;
      }
      var ok: bool;
      ok, m := DeployPlain(b, staging);
      r := if ok then Ok(None) else Err(SystemError);
    }
  }

  lemma {:induction false} ListedIffDir(d: Disk, mtime: string -> int, id: string)
    ensures Gen(id, mtime(id)) in GenerationsOf(d, mtime) <==> At(d, GenPlace(id)).Dir?
    ensures id in VisibleGenerations(d) <==> At(d, GenPlace(id)).Dir? && Visible(Gen(id, mtime(id)))
    ensures id in PinnedOf(d) <==> At(d, Place(PINS, Pin(id))) != Absent
  {
  }

  lemma {:induction false} SameCount(names: set<string>, gens: set<Gen>, mtime: string -> int)
    requires forall g :: g in gens ==> g.mtime == mtime(g.name) && g.name in names
    requires forall n :: n in names ==> Gen(n, mtime(n)) in gens
    ensures |names| == |gens|
    decreases names
  {
    if names == {} {
      assert gens == {};
    } else {
      var n :| n in names;
      var g := Gen(n, mtime(n));
      SameCount(names - {n}, gens - {g}, mtime);
      assert names == (names - {n}) + {n} && gens == (gens - {g}) + {g};
    }
  }

  /** The rank of a generation is the number of directories that are newer. */
  lemma {:induction false} RankCountsNewer(d: Disk, mtime: string -> int, id: string)
    ensures Rank(Gen(id, mtime(id)), GenerationsOf(d, mtime)) == |NewerThan(d, mtime, id)|
  {
    var all := GenerationsOf(d, mtime);
    var newer := set h | h in VisibleOnly(all) && Newer(h, Gen(id, mtime(id)));
    forall g | g in newer ensures g.mtime == mtime(g.name) && g.name in NewerThan(d, mtime, id) {
      ListedIffDir(d, mtime, g.name);
    }
    forall n | n in NewerThan(d, mtime, id) ensures Gen(n, mtime(n)) in newer { ListedIffDir(d, mtime, n); }
    hide GenerationsOf, NewerThan, VisibleOnly;
    SameCount(NewerThan(d, mtime, id), newer, mtime);
  }

  lemma {:induction false} VictimExpires(d: Disk, mtime: string -> int, generation: string, o: Options, now: int,
                                        g: Gen)
    requires g.mtime == mtime(g.name)
    ensures g in Victims(GenerationsOf(d, mtime), Some(generation), PinnedOf(d), LimitsOf(o, now)) <==>
              Expires(d, mtime, generation, o, now, g.name)
  {
    ListedIffDir(d, mtime, g.name);
    RankCountsNewer(d, mtime, g.name);
    hide GenerationsOf, NewerThan, Rank, PinnedOf, VisibleGenerations;
  }

  lemma {:induction false} VictimsExpire(d: Disk, mtime: string -> int, generation: string, o: Options, now: int,
                                         victims: seq<Gen>)
    requires Members(victims) == Victims(GenerationsOf(d, mtime), Some(generation), PinnedOf(d), LimitsOf(o, now))
    ensures forall id :: id in Names(victims) <==> Expires(d, mtime, generation, o, now, id)
    ensures o.count == None && o.days == None ==> Names(victims) == []
  {
    var all := Victims(GenerationsOf(d, mtime), Some(generation), PinnedOf(d), LimitsOf(o, now));
    assert forall g :: g in all ==> g in GenerationsOf(d, mtime) && g.mtime == mtime(g.name);
    assert forall g :: g in victims <==> g in Members(victims);
    hide Victims, GenerationsOf, Expires, LimitsOf, PinnedOf, Names, Members;
    forall id ensures id in Names(victims) <==> Expires(d, mtime, generation, o, now, id) {
      InNames(victims, id);
      VictimExpires(d, mtime, generation, o, now, Gen(id, mtime(id)));
      if id in Names(victims) {
        var g :| g in victims && g.name == id;
        assert g == Gen(id, mtime(id));
      }
    }
    if o.count == None && o.days == None && Names(victims) != [] {
      var id := Names(victims)[0];
      assert id in Names(victims);
      NothingExpires(d, mtime, generation, o, now, id);
    }
  }

  lemma {:induction false} NothingExpires(d: Disk, mtime: string -> int, generation: string, o: Options, now: int,
                                          id: string)
    requires o.count == None && o.days == None
    ensures !Expires(d, mtime, generation, o, now, id)
  {
  }

  predicate Counts(o: Options) { o.count.Some? ==> o.count.value >= 1 }

  predicate Ages(o: Options) { o.days.Some? ==> o.days.value >= 0 }

  /** Empty, one of the two dots, or with a slash of either kind. */
  predicate Unsafe(domain: string) {
    domain == "" || domain == "." || domain == ".." || '/' in domain || '\\' in domain
  }

  predicate Refused(o: Options, domains: seq<string>) {
    || (o.count.Some? && o.count.value < 1) || (o.days.Some? && o.days.value < 0)
    || domains == [] || Domains.DirectoryName(domains[0]).Err?
  }

  // ---- Parts of a list ------------------------------------------------------------------

  lemma {:induction false} IssuedMeans(d: Disk, ops: seq<Op>, e: Disk, calm: bool)
    requires Issued(d, ops, true, e, calm)
    ensures AllEnabled(d, ops) && e == Run(d, ops)
  {
  }

  lemma {:induction false} TidyMore(d: Disk, at: Place, m: Disk, op: Op, ok: bool, e: Disk)
    requires Tidied(d, at, m) && op in RemoveTreeOps(d, at)
    requires ok ==> Enabled(m, op) && e == Exec(m, op)
    requires !ok ==> e == m
    ensures Tidied(d, at, e)
  {
    hide EmptyOps, Run, AllEnabled, Exec, Enabled;
    if ok {
      var ops :| PartOfRemoval(d, at, ops) && m == Run(d, ops);
      EnabledOne(m, op);
      RunOne(m, op);
      EnabledAppend(d, ops, [op]);
      RunAppend(d, ops, [op]);
      assert PartOfRemoval(d, at, ops + [op]);
    }
  }

  /** The list ends in these calls. */
  ghost predicate Ahead(ops: seq<Op>, rest: seq<Op>) {
    |rest| <= |ops| && ops[|ops| - |rest|..] == rest
  }

  lemma {:induction false} AheadNext(ops: seq<Op>, op: Op, rest: seq<Op>)
    requires Ahead(ops, [op] + rest)
    ensures op in ops && Ahead(ops, rest)
  {
    var i := |ops| - |rest| - 1;
    assert ops[i..][1..] == rest && ops[i..][1..] == ops[i + 1..] && ops[i] == ops[i..][0];
  }

  /** A removal that ignores errors, with these calls left; in calm conditions it has skipped none. */
  ghost predicate Sweeping(d: Disk, at: Place, ops: seq<Op>, m: Disk, rest: seq<Op>, calm: bool) {
    Tidied(d, at, m) && Ahead(ops, rest) && (calm ==> Left(d, ops, m, rest))
  }

  lemma {:induction false} SweepBegins(d: Disk, at: Place, ops: seq<Op>, calm: bool)
    ensures Sweeping(d, at, ops, d, ops, calm)
  {
    NotTidied(d, at);
    Begin(d, ops);
    hide Left, Tidied;
  }

  lemma {:induction false} SweepNext(d: Disk, at: Place, ops: seq<Op>, m: Disk, op: Op, rest: seq<Op>, ok: bool,
                                     e: Disk, calm: bool)
    requires ops == RemoveTreeOps(d, at) && Sweeping(d, at, ops, m, [op] + rest, calm) && (calm ==> AllEnabled(d, ops))
    requires e == (if ok then Exec(m, op) else m) && (ok ==> Enabled(m, op)) && (calm && !ok ==> !Enabled(m, op))
    ensures Sweeping(d, at, ops, e, rest, calm) && |[op] + rest| == |rest| + 1
  {
    hide Left, Tidied, Enabled, Exec, AllEnabled, EmptyOps;
    AheadNext(ops, op, rest);
    TidyMore(d, at, m, op, ok, e);
    if calm { CalmIssue(d, ops, m, op, rest, ok, e); }
  }

  lemma {:induction false} SweepEnds(d: Disk, at: Place, ops: seq<Op>, e: Disk, calm: bool)
    requires Sweeping(d, at, ops, e, [], calm)
    ensures Tidied(d, at, e) && (calm ==> e == Run(d, ops))
  {
    hide Tidied, AllEnabled, Run, Left;
    if calm {
      Finish(d, ops, e, true);
      IssuedMeans(d, ops, e, true);
    }
  }

  lemma {:induction false} CalmIssue(d: Disk, ops: seq<Op>, m: Disk, op: Op, rest: seq<Op>, ok: bool, e: Disk)
    requires AllEnabled(d, ops) && Left(d, ops, m, [op] + rest)
    requires (ok <==> Enabled(m, op)) && e == if ok then Exec(m, op) else m
    ensures Left(d, ops, e, rest)
  {
    var i := |ops| - |rest| - 1;
    assert EnabledAt(d, ops, i) && ops[i] == ops[i..][0] == op;
    hide Run, AllEnabled, Issued, Left, Enabled, StopsAfter, Exec;
    IssuedOne(m, op, ok, e, true);
    Issue(d, ops, m, [op], rest, ok, e, true);
  }

  lemma {:induction false} TreeCalls(d: Disk, at: Place, names: seq<Name>)
    requires names == CONTENTS
    ensures RemoveTreeOps(d, at)
              == if At(d, at).Dir? then UnlinkOps(d, At(d, at).dir, names) + [RemoveDir(at)] else []
    ensures At(d, at).Dir? ==> Ahead(RemoveTreeOps(d, at), UnlinkOps(d, At(d, at).dir, names) + [RemoveDir(at)])
  {
    hide UnlinkOps;
  }

  lemma {:induction false} MigrateStarts(d: Disk, staging: string, legacy: string)
    requires !NonePresent(d) && !AllSymlinks(d)
    ensures var ops := MigrateOps(d, staging, legacy); ops != [] && ops == [MakeDir(StagePlace(staging))] + ops[1..]
  {
    var front, ensure := MigrateCalls(d, staging, legacy);
    hide MigrateOps, LinkOps, PublishOps, SelectOps;
  }

  /** Migration, call by call. */
  lemma {:induction false} MigrateCalls(d: Disk, staging: string, legacy: string)
    returns (front: seq<Op>, ensure: seq<Op>)
    requires !NonePresent(d) && !AllSymlinks(d)
    ensures var make, links := MakeDir(StagePlace(staging)), LinkOps(d.next, ARTIFACTS);
            var publish, select := PublishOps(d.next, staging, legacy), SelectOps(legacy);
            var ops, rest := MigrateOps(d, staging, legacy), links + (publish + (select + (ensure + [])));
            && ops == [make] + rest && ops[1..] == rest
            && ops == front + (ensure + []) && ensure == EnsureOps(Run(d, front))
  {
    var arts := ARTIFACTS;
    var make, links := [MakeDir(StagePlace(staging))], LinkOps(d.next, arts);
    var publish, select := PublishOps(d.next, staging, legacy), SelectOps(legacy);
    var save := SaveLegacyOps(d.next, staging, legacy);
    assert save == make + links + publish by { hide LinkOps, PublishOps; }
    MigrateParts(d, staging, legacy);
    hide *;
    front := save + select;
    RunAppend(d, save, select);
    ensure := EnsureOps(Run(d, front));
    var ops := MigrateOps(d, staging, legacy);
    assert ops == save + (select + ensure) == front + (ensure + []);
    assert ops == make + (links + (publish + (select + (ensure + []))));
  }

  lemma {:induction false} DeployStarts(d: Disk, p: Plan)
    ensures var ops := BeforeCleanup(d, p); ops != [] && ops == [MakeDir(StagePlace(p.staging))] + ops[1..]
  {
    var front, migrate, ensure := DeployCalls(d, p);
    hide *;
  }

  /** A deployment up to the cleanup, block by block. */
  lemma {:induction false} DeployCalls(d: Disk, p: Plan) returns (front: seq<Op>, migrate: seq<Op>, ensure: seq<Op>)
    ensures var make, stage := MakeDir(StagePlace(p.staging)), StageOps(d.next, p.bundle, p.staging, p.generation);
            var rest, select := StageRest(d.next, p.bundle, p.staging, p.generation), SelectOps(p.generation);
            var ops, after := BeforeCleanup(d, p), migrate + (select + (ensure + []));
            && ops == [make] + (rest + after) && ops[1..] == rest + after
            && ops == stage + after && ops == front + (ensure + [])
            && migrate == MigrateOps(Run(d, stage), p.legacyStaging, p.legacy) && ensure == EnsureOps(Run(d, front))
  {
    var make, rest := [MakeDir(StagePlace(p.staging))], StageRest(d.next, p.bundle, p.staging, p.generation);
    var select, ops := SelectOps(p.generation), BeforeCleanup(d, p);
    var stage := StageOps(d.next, p.bundle, p.staging, p.generation);
    StageStarts(d.next, p.bundle, p.staging, p.generation);
    migrate := MigrateOps(Run(d, stage), p.legacyStaging, p.legacy);
    assert FrontOps(d, p) == stage + migrate by { hide StageOps, MigrateOps, Run; }
    front := FrontOps(d, p) + select;
    ensure := EnsureOps(Run(d, front));
    assert ops == front + ensure by { hide FrontOps, SelectOps, EnsureOps, Run; }
    hide *;
    ListAssociates(make, rest, migrate, select, ensure);
    assert ensure + [] == ensure;
  }

  /** Staging after its directory is made. */
  function StageRest(dir: nat, b: Bundle, staging: string, g: string): seq<Op> {
    WriteOps(dir, dir + 1, b, ARTIFACTS) + (ReplaceOps(dir, dir, ARTIFACTS) + (PublishOps(dir, staging, g) + []))
  }

  lemma {:induction false} StageStarts(dir: nat, b: Bundle, staging: string, g: string)
    ensures StageOps(dir, b, staging, g) == [MakeDir(StagePlace(staging))] + StageRest(dir, b, staging, g)
  {
    var arts := ARTIFACTS;
    hide WriteOps, ReplaceOps, PublishOps;
  }

  lemma {:induction false} ListAssociates(a: seq<Op>, b: seq<Op>, c: seq<Op>, d: seq<Op>, e: seq<Op>)
    requires |a| == 1
    ensures var flat, after := a + b + c + d + e, c + (d + (e + []));
            flat == a + (b + after) && flat == (a + b) + after && flat[1..] == b + after
  {
  }

  lemma {:induction false} ReplaceAllStarts(dir: nat, b: Bundle, staging: string)
    ensures var ops := ReplaceAllOps(dir, b, staging); ops != [] && ops == [MakeDir(TempPlace(staging))] + ops[1..]
  {
    ReplaceAllCalls(dir, b, staging);
    hide *;
  }

  lemma {:induction false} ReplaceAllCalls(dir: nat, b: Bundle, staging: string)
    ensures var write, move := WriteOps(dir, dir + 1, b, ARTIFACTS), ReplaceOps(dir, TARGET, ARTIFACTS);
            var rest := write + ([SyncDir(dir)] + (move + ([SyncDir(TARGET)] + [])));
            var ops := ReplaceAllOps(dir, b, staging);
            ops == [MakeDir(TempPlace(staging))] + rest && ops[1..] == rest
  {
    var arts := ARTIFACTS;
    ReplaceAllParts(dir, b, staging, arts);
    var make, write := [MakeDir(TempPlace(staging))], WriteOps(dir, dir + 1, b, arts);
    var move := ReplaceOps(dir, TARGET, arts);
    assert TempOps(dir, b, TempPlace(staging), arts) == make + write;
    assert MoveInOps(dir, arts) == [SyncDir(dir)] + move + [SyncDir(TARGET)];
    hide *;
    assert make + write + ([SyncDir(dir)] + move + [SyncDir(TARGET)])
        == make + (write + ([SyncDir(dir)] + (move + ([SyncDir(TARGET)] + []))));
  }

  lemma {:induction false} BothTidied(m: Disk, p: Plan, x: Disk, e: Disk)
    requires Tidied(m, StagePlace(p.legacyStaging), x) && Tidied(x, StagePlace(p.staging), e)
    ensures Aborted(m, p, e)
  {
  }

  lemma {:induction false} FailedDeployment(d: Disk, p: Plan, m: Disk, e: Disk, calm: bool)
    requires Issued(d, BeforeCleanup(d, p), false, m, calm) && Aborted(m, p, e)
    ensures Deployed(d, p, false, m, e, calm)
  {
  }

  lemma {:induction false} FinishedDeployment(d: Disk, p: Plan, victims: seq<string>, cleaned: bool, m: Disk, e: Disk,
                                              calm: bool)
    requires Issued(d, BeforeCleanup(d, p), true, m, calm) && Issued(m, CleanupOps(m, victims), cleaned, e, calm)
    ensures Deployed(d, p.(victims := victims), true, m, e, calm)
  {
    SamePublication(d, p, p.(victims := victims));
    hide BeforeCleanup, Issued, CleanupOps;
  }

  /**
   When no call fails from outside, a deployment succeeds exactly when no pending link is left over and the
   five names are all missing, all links, or can all be linked.
   */
  lemma {:induction false} CalmDeploymentIff(d: Disk, p: Plan, ok: bool, m: Disk, e: Disk)
    requires WellFormed(d) && Drawn(d, p) && Deployed(d, p, ok, m, e, true)
    ensures ok <==> NothingPending(d) && (NonePresent(d) || AllSymlinks(d) || Linkable(d))
    ensures ok ==> Complete(m, p.generation, p.bundle) && At(m, CURRENT) == Symlink(ToGeneration(p.generation))
    ensures ok && Ours(d) ==> Settled(m, p.generation, p.bundle)
  {
    hide WellFormed, Drawn, NonePresent, AllSymlinks, Linkable, BeforeCleanup, Run, AllEnabled, CleanupOps;
    hide Settled, NothingPending, Ours, Complete;
    PublishSucceedsIff(d, p);
    if NothingPending(d) && Movable(d) {
      PublishSucceeds(d, p);
      CalmSucceeds(d, BeforeCleanup(d, p), ok, m);
    }
  }

  /** Whatever it reports, a deployment is a prefix of its calls, followed by removals if it failed. */
  lemma {:induction false} DeployedStops(d: Disk, p: Plan, ok: bool, m: Disk, e: Disk, calm: bool)
    returns (k: nat, x: Disk)
    requires Deployed(d, p, ok, m, e, calm)
    ensures StopsAfter(d, DeployOps(d, p), k, x) && Aborted(x, p, e)
    ensures ok ==> k >= |BeforeCleanup(d, p)| && x == e
    ensures !ok ==> k < |BeforeCleanup(d, p)| && x == m
  {
    DeployEnds(d, p);
    var before, cleanup := BeforeCleanup(d, p), CleanupOps(m, p.victims);
    hide BeforeCleanup, DeployOps, CleanupOps, Run, AllEnabled, Aborted;
    if ok {
      var cleaned :| Issued(m, cleanup, cleaned, e, calm);
      k := IssuedPrefix(m, cleanup, cleaned, e, calm);
      assert (before + cleanup)[..|before| + k] == before + cleanup[..k];
      EnabledAppend(d, before, cleanup[..k]);
      RunAppend(d, before, cleanup[..k]);
      k, x := |before| + k, e;
      NotAborted(e, p);
    } else {
      k :| FailsAt(d, before, k, m, calm);
      x := m;
      assert (before + CleanupOps(Run(d, before), p.victims))[..k] == before[..k];
    }
  }

  lemma {:induction false} IssuedPrefix(d: Disk, ops: seq<Op>, ok: bool, e: Disk, calm: bool) returns (k: nat)
    requires Issued(d, ops, ok, e, calm)
    ensures StopsAfter(d, ops, k, e)
  {
    if ok {
      k := |ops|;
      assert ops[..k] == ops;
    } else {
      k :| FailsAt(d, ops, k, e, calm);
    }
  }

  /** So a deployment that reports success or failure, and then a crash, is one the crash theorem is about. */
  lemma {:induction false} DeployedIsCrashSafe(d: Disk, p: Plan, keep: map<string, Bundle>, ok: bool, m: Disk, e: Disk,
                                               calm: bool, image: Disk)
    requires Start(d, p, keep) && Durable(d) && Deployed(d, p, ok, m, e, calm) && CrashImage(e, image)
    ensures Recoverable(image, Allowed(d, p, keep))
  {
    hide *;
    var k, x := DeployedStops(d, p, ok, m, e, calm);
    CrashConsistency.CrashConsistency(d, p, keep, k, x, e, image);
  }

  lemma {:induction false} ReplacedMeans(d: Disk, b: Bundle, staging: string, ok: bool, m: Disk, e: Disk, calm: bool)
    requires Issued(d, ReplaceAllOps(d.next, b, staging), ok, m, calm) && Tidied(m, TempPlace(staging), e)
    ensures Replaced(d, b, staging, ok, m, e, calm)
  {
  }

  // ---- The loop of the cleanup ----------------------------------------------------------

  /** The victims of a list, in its order. */
  function Chosen(gens: seq<Gen>, victims: set<Gen>): seq<Gen> {
    if gens == [] then []
    else (if gens[0] in victims then [gens[0]] else []) + Chosen(gens[1..], victims)
  }

  lemma {:induction false} ChosenStep(gens: seq<Gen>, victims: set<Gen>, i: nat)
    requires i < |gens|
    ensures var later := Chosen(gens[i + 1..], victims);
            Chosen(gens[i..], victims) == if gens[i] in victims then [gens[i]] + later else later
  {
    assert gens[i..][1..] == gens[i + 1..] && gens[i..][0] == gens[i];
  }

  lemma {:induction false} ChosenEnds(gens: seq<Gen>, victims: set<Gen>)
    ensures Chosen(gens[|gens|..], victims) == []
  {
  }

  /** Some victims are removed, these are left, and the disk is where that leads. */
  ghost predicate Removing(start: Disk, m: Disk, removed: seq<Gen>, left: seq<Gen>, victims: seq<Gen>) {
    && victims == removed + left
    && Left(start, RemoveAllOps(start, Names(victims)), m, RemoveAllOps(m, Names(left)))
  }

  lemma {:induction false} RemovalStarts(d: Disk, victims: seq<Gen>)
    ensures Removing(d, d, [], victims, victims)
  {
    hide RemoveAllOps, Names;
    Begin(d, RemoveAllOps(d, Names(victims)));
  }

  lemma {:induction false} RemovalStep(start: Disk, m: Disk, removed: seq<Gen>, g: Gen, later: seq<Gen>,
                                       victims: seq<Gen>, ok: bool, e: Disk, calm: bool)
    requires Removing(start, m, removed, [g] + later, victims)
    requires Issued(m, RemoveTreeOps(m, GenPlace(g.name)), ok, e, calm)
    ensures ok ==> Removing(start, e, removed + [g], later, victims)
    ensures !ok ==> Issued(start, RemoveAllOps(start, Names(victims)), false, e, calm)
  {
    assert (removed + [g]) + later == removed + ([g] + later);
    hide RemoveAllOps, EmptyOps, Names, Issued, Left, Run;
    var ops, first := RemoveAllOps(start, Names(victims)), RemoveTreeOps(m, GenPlace(g.name));
    RemoveStep(m, g, later);
    Issue(start, ops, m, first, RemoveAllOps(Run(m, first), Names(later)), ok, e, calm);
    if ok { IssuedMeans(m, first, e, calm); }
  }

  lemma {:induction false} RemovalEnds(start: Disk, m: Disk, removed: seq<Gen>, victims: seq<Gen>, calm: bool)
    requires Removing(start, m, removed, [], victims)
    ensures removed == victims && Issued(start, RemoveAllOps(start, Names(victims)), true, m, calm)
  {
    RemoveNone(m, {});
    hide RemoveAllOps, Names, Issued, Left;
    assert removed + [] == removed;
    Finish(start, RemoveAllOps(start, Names(victims)), m, calm);
  }

  lemma {:induction false} ChosenAll(gens: seq<Gen>, victims: set<Gen>)
    requires Descending(gens)
    ensures var c := Chosen(gens, victims);
            && (forall g :: g in c <==> g in gens && g in victims)
            && Descending(c)
            && (victims <= Members(gens) ==> Members(c) == victims)
  {
    if gens != [] {
      ChosenAll(gens[1..], victims);
      var rest := Chosen(gens[1..], victims);
      assert forall g :: g in gens <==> g == gens[0] || g in gens[1..];
      forall i | 0 <= i < |rest| ensures Newer(gens[0], rest[i]) {
        assert rest[i] in rest && rest[i] in gens[1..];
      }
    }
  }

  lemma {:induction false} RemoveStep(d: Disk, g: Gen, later: seq<Gen>)
    ensures var first := RemoveTreeOps(d, GenPlace(g.name));
            RemoveAllOps(d, Names([g] + later)) == first + RemoveAllOps(Run(d, first), Names(later))
  {
    assert ([g] + later)[1..] == later;
    assert Names([g] + later)[1..] == Names(later);
    hide EmptyOps, Run;
  }

  lemma {:induction false} CleanupCalls(d: Disk, victims: seq<string>) returns (removal: seq<Op>, sync: seq<Op>)
    ensures removal == RemoveAllOps(d, victims) && sync == if victims == [] then [] else [SyncDir(GENERATIONS)]
    ensures CleanupOps(d, victims) == removal + sync
  {
    removal, sync := RemoveAllOps(d, victims), if victims == [] then [] else [SyncDir(GENERATIONS)];
    hide RemoveAllOps;
  }

  lemma {:induction false} SortedMembers(listing: seq<Gen>, all: set<Gen>)
    requires forall i, j :: 0 <= i < j < |listing| ==> listing[i] != listing[j]
    requires Members(listing) == VisibleOnly(all)
    ensures Descending(SortNewest(listing)) && Members(SortNewest(listing)) == VisibleOnly(all)
  {
    hide SortNewest;
    assert forall g :: g in Members(SortNewest(listing)) <==> g in Members(listing);
  }

  /** Without a limit nothing is removed. */
  lemma {:induction false} NothingToClean(d: Disk, mtime: string -> int, limits: Limits, calm: bool)
    requires limits.count.None? && limits.cutoff.None?
    ensures Victims(GenerationsOf(d, mtime), CurrentOf(d), PinnedOf(d), limits) == {} == Members([])
    ensures Descending([]) && Issued(d, CleanupOps(d, Names([])), true, d, calm)
  {
    CleanupNone(d);
    Begin(d, []);
    Finish(d, [], d, calm);
  }

  lemma {:induction false} RemoveNone(d: Disk, victims: set<Gen>)
    ensures Chosen([], victims) == [] && Names([]) == [] && RemoveAllOps(d, []) == []
  {
  }

  lemma {:induction false} ReplaceNone(from: nat, to: nat)
    ensures ReplaceOps(from, to, []) == []
  {
  }

  lemma {:induction false} LinkNone(dir: nat)
    ensures LinkOps(dir, []) == []
  {
  }

  lemma {:induction false} PinShows(d: Disk, id: string)
    ensures AllEnabled(d, PinOps(id)) ==> id in PinnedOf(Run(d, PinOps(id)))
    ensures Synchronised(Run(d, PinOps(id)), PINS)
    ensures forall q :: q != Place(PINS, Pin(id)) ==> At(Run(d, PinOps(id)), q) == At(d, q)
  {
    var at := Place(PINS, Pin(id));
    var touched := Exec(d, Touch(at));
    var e := Exec(touched, SyncDir(PINS));
    RunTwo(d, Touch(at), SyncDir(PINS));
    SyncDirLooks(touched, PINS);
    if AllEnabled(d, PinOps(id)) {
      assert EnabledAt(d, PinOps(id), 0) && PinOps(id)[..0] == [];
      assert At(e, at) != Absent;
      assert at in e.slots && at.dir == PINS && at.name.Pin? && e.slots[at].now != Absent && at.name.id == id;
    }
  }

  // ---- What a cleanup leaves ------------------------------------------------------------

  lemma {:induction false} TreeGone(d: Disk, v: string, contents: seq<Name>)
    requires WellFormed(d) && AllEnabled(d, EmptyOps(d, GenPlace(v), contents))
    ensures var e := Run(d, EmptyOps(d, GenPlace(v), contents));
            && !At(e, GenPlace(v)).Dir?
            && forall p: Place :: p.dir <= PINS && p != GenPlace(v) ==> At(e, p) == At(d, p)
  {
    var at := GenPlace(v);
    var ops, names := EmptyOps(d, at, contents), TreeNames(d, at, contents);
    EmptyContained(d, at, contents);
    assert forall p: Place :: p in names ==> p == at || p.dir > PINS by {
      if At(d, at).Dir? { assert at in d.slots; }
    }
    assert ops[..|ops|] == ops;
    assert d.next > PINS;
    if At(d, at).Dir? { RemovedLast(d, UnlinkOps(d, At(d, at).dir, contents), at); }
    hide EmptyOps, TreeNames, AllEnabled, WellFormed;
    var e := Run(d, ops);
    forall p: Place | p.dir <= PINS && p != at ensures At(e, p) == At(d, p) {
      assert !Free(p, d.next, names) && Same(d, e, p);
    }
    if ops == [] { RunNone(d); }
  }

  lemma {:induction false} RemovedLast(d: Disk, unlink: seq<Op>, at: Place)
    ensures At(Run(d, unlink + [RemoveDir(at)]), at) == Absent
  {
    RunAppend(d, unlink, [RemoveDir(at)]);
    RunOne(Run(d, unlink), RemoveDir(at));
  }

  /** Exactly the victims are no directories any more; other names are as before. */
  ghost predicate Cleaned(d: Disk, e: Disk, victims: seq<string>) {
    && (forall v :: v in victims ==> !At(e, GenPlace(v)).Dir?)
    && forall p: Place :: p.dir <= PINS && (p.dir != GENERATIONS || !p.name.Generation? || p.name.id !in victims) ==>
         At(e, p) == At(d, p)
  }

  lemma {:induction false} CleanedMeans(d: Disk, e: Disk, victims: seq<string>, v: string)
    requires Cleaned(d, e, victims) && v in victims
    ensures !At(e, GenPlace(v)).Dir?
  {
  }

  lemma {:induction false} RemovalCleans(d: Disk, victims: seq<string>)
    requires WellFormed(d) && AllEnabled(d, RemoveAllOps(d, victims))
    ensures Cleaned(d, Run(d, RemoveAllOps(d, victims)), victims)
    decreases |victims|
  {
    if victims == [] {
      CleanupNone(d);
    } else {
      var v, later := victims[0], victims[1..];
      var first := EmptyOps(d, GenPlace(v), CONTENTS);
      var m := Run(d, first);
      hide EmptyOps, RemoveAllOps, Run, AllEnabled, WellFormed;
      RemoveAllCons(d, victims);
      EnabledSplit(d, first, RemoveAllOps(m, later));
      TreeGone(d, v, CONTENTS);
      WellFormedRun(d, first);
      RemovalCleans(m, later);
      RunAppend(d, first, RemoveAllOps(m, later));
      assert forall w :: w in victims <==> w == v || w in later;
      var e := Run(m, RemoveAllOps(m, later));
      if v !in later { assert At(e, GenPlace(v)) == At(m, GenPlace(v)); }
    }
  }

  lemma {:induction false} CleanupCleans(d: Disk, victims: seq<string>)
    requires WellFormed(d) && AllEnabled(d, CleanupOps(d, victims))
    ensures Cleaned(d, Run(d, CleanupOps(d, victims)), victims)
  {
    var removal := RemoveAllOps(d, victims);
    var sync: seq<Op> := if victims == [] then [] else [SyncDir(GENERATIONS)];
    assert CleanupOps(d, victims) == removal + sync by { hide RemoveAllOps; }
    hide RemoveAllOps, CleanupOps, Run, AllEnabled, WellFormed;
    EnabledSplit(d, removal, sync);
    RemovalCleans(d, victims);
    CleanupParts(d, victims);
    SyncDirLooks(Run(d, removal), GENERATIONS);
  }

  lemma {:induction false} GenerationAt(d: Disk, mtime: string -> int, g: Gen)
    ensures g in GenerationsOf(d, mtime) <==> At(d, GenPlace(g.name)).Dir? && g.mtime == mtime(g.name)
  {
    if At(d, GenPlace(g.name)).Dir? { assert GenPlace(g.name) in d.slots; }
  }

  lemma {:induction false} PinAt(d: Disk, id: string)
    ensures id in PinnedOf(d) <==> At(d, Place(PINS, Pin(id))) != Absent
  {
    if At(d, Place(PINS, Pin(id))) != Absent { assert Place(PINS, Pin(id)) in d.slots; }
  }

  lemma {:induction false} CleanedLists(d: Disk, e: Disk, mtime: string -> int, victims: seq<Gen>)
    requires Cleaned(d, e, Names(victims)) && Members(victims) <= GenerationsOf(d, mtime)
    ensures GenerationsOf(e, mtime) == GenerationsOf(d, mtime) - Members(victims)
    ensures PinnedOf(e) == PinnedOf(d) && CurrentOf(e) == CurrentOf(d)
  {
    assert At(e, CURRENT) == At(d, CURRENT);
    hide GenerationsOf, PinnedOf, Names;
    forall g: Gen ensures g in GenerationsOf(e, mtime) <==> g in GenerationsOf(d, mtime) - Members(victims) {
      GenerationAt(d, mtime, g);
      GenerationAt(e, mtime, g);
      InNames(victims, g.name);
      if g.name in Names(victims) {
        var h :| h in victims && h.name == g.name;
        assert h in Members(victims);
        GenerationAt(d, mtime, h);
      } else {
        assert At(e, GenPlace(g.name)) == At(d, GenPlace(g.name));
      }
    }
    forall id: string ensures id in PinnedOf(e) <==> id in PinnedOf(d) {
      PinAt(d, id);
      PinAt(e, id);
      assert At(e, Place(PINS, Pin(id))) == At(d, Place(PINS, Pin(id)));
    }
  }

  /** After a cleanup that goes through, the rules name nothing more, and the count limit holds. */
  lemma {:induction false} CleanedUp(d: Disk, mtime: string -> int, limits: Limits, victims: seq<Gen>)
    requires WellFormed(d) && AllEnabled(d, CleanupOps(d, Names(victims)))
    requires Members(victims) == Victims(GenerationsOf(d, mtime), CurrentOf(d), PinnedOf(d), limits)
    ensures var e := Run(d, CleanupOps(d, Names(victims)));
            && Victims(GenerationsOf(e, mtime), CurrentOf(e), PinnedOf(e), limits) == {}
            && (limits.count.Some? && limits.count.value >= 0 && limits.cutoff.None? ==>
                  |VisibleOnly(GenerationsOf(e, mtime))| <= limits.count.value + |PinnedOf(e)| + 1)
  {
    var e, all := Run(d, CleanupOps(d, Names(victims))), GenerationsOf(d, mtime);
    var current, pinned := CurrentOf(d), PinnedOf(d);
    VictimsAreVisible(all, current, pinned, limits);
    assert VisibleOnly(all) <= all;
    forall g, h | g in all && h in all && g.name == h.name ensures g == h {
      GenerationAt(d, mtime, g);
      GenerationAt(d, mtime, h);
    }
    hide Run, CleanupOps, AllEnabled, WellFormed, GenerationsOf, CurrentOf, PinnedOf, Victims, Cleaned;
    CleanupCleans(d, Names(victims));
    CleanedLists(d, e, mtime, victims);
    CleanupIsIdempotent(all, current, pinned, limits);
    if limits.count.Some? && limits.count.value >= 0 && limits.cutoff.None? {
      VisibleBound(all, current, pinned, limits.count.value);
    }
  }

  lemma {:induction false} VisibleBound(all: set<Gen>, current: Option<string>, pinned: set<string>, count: nat)
    requires forall g, h :: g in all && h in all && g.name == h.name ==> g == h
    ensures var left := all - Victims(all, current, pinned, Limits(Some(count), None));
            |VisibleOnly(left)| <= count + |pinned| + 1
  {
    var limits, seen := Limits(Some(count), None), VisibleOnly(all);
    assert VisibleOnly(seen) == seen;
    assert forall g :: Rank(g, seen) == Rank(g, all);
    assert Victims(seen, current, pinned, limits) == Victims(all, current, pinned, limits);
    CountBound(seen, current, pinned, count);
    assert VisibleOnly(all - Victims(all, current, pinned, limits)) == seen - Victims(seen, current, pinned, limits);
  }

  lemma {:induction false} CurrentIs(d: Disk, g: string)
    requires At(d, CURRENT) == Symlink(ToGeneration(g))
    ensures CurrentOf(d) == Some(g)
  {
  }

  lemma {:induction false} NewDirectoryIsEmpty(d: Disk, at: Place)
    requires WellFormed(d) && at.dir <= PINS
    ensures forall a :: At(Exec(d, MakeDir(at)), Place(d.next, Tmp(a))) == Absent
    ensures Exec(d, MakeDir(at)).next == d.next + 1
  {
  }

  lemma {:induction false} SamePublication(d: Disk, p: Plan, q: Plan)
    requires q == p.(victims := q.victims)
    ensures BeforeCleanup(d, q) == BeforeCleanup(d, p)
  {
  }

  /** The current generation is never a victim. */
  lemma {:induction false} SparesCurrent(all: set<Gen>, current: string, pinned: set<string>, limits: Limits,
                                         removed: seq<Gen>)
    requires Members(removed) == Victims(all, Some(current), pinned, limits)
    ensures current !in Names(removed)
  {
    InNames(removed, current);
    forall g | g in removed ensures g.name != current { assert g in Members(removed); }
  }

  lemma {:induction false} NamesEmpty(gens: seq<Gen>)
    ensures Names(gens) == [] <==> gens == []
  {
  }

  lemma {:induction false} WriteNone(dir: nat, ino: nat, b: Bundle)
    ensures WriteOps(dir, ino, b, []) == []
  {
  }

  lemma {:induction false} LinkUpNone(d: Disk)
    ensures LinkUpOps(d, []) == []
  {
  }

  lemma {:induction false} UnlinkNone(d: Disk, dir: nat)
    ensures UnlinkOps(d, dir, []) == []
  {
  }

  lemma {:induction false} CleanupNone(d: Disk)
    ensures RemoveAllOps(d, []) == [] && CleanupOps(d, []) == [] && Run(d, []) == d
  {
  }

  lemma {:induction false} CleanupParts(d: Disk, victims: seq<string>)
    ensures var m := Run(d, RemoveAllOps(d, victims));
            Run(d, CleanupOps(d, victims)) == if victims == [] then m else Exec(m, SyncDir(GENERATIONS))
  {
    var m := Run(d, RemoveAllOps(d, victims));
    hide RemoveAllOps, Exec;
    if victims == [] {
      assert CleanupOps(d, victims) == RemoveAllOps(d, victims);
    } else {
      RunAppend(d, RemoveAllOps(d, victims), [SyncDir(GENERATIONS)]);
      RunOne(m, SyncDir(GENERATIONS));
    }
  }

}
