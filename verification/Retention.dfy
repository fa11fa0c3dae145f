/**
 Which published generations a cleanup removes. The loop walks the generations from the newest to the
 oldest and compares positions with the limit; the specification is about each generation by itself.
 */
module Retention {
  import opened Basics
  import opened Text

  /** A directory below `generations`, with its modification time. */
  datatype Gen = Gen(name: string, mtime: int)

  datatype Limits = Limits(count: Option<int>, cutoff: Option<int>)

  predicate Visible(g: Gen) { g.name == "" || g.name[0] != '.' }

  /** Later by modification time, then by name. */
  predicate Newer(a: Gen, b: Gen) {
    a.mtime > b.mtime || (a.mtime == b.mtime && Less(b.name, a.name))
  }

  lemma {:induction false} NewerTotal(a: Gen, b: Gen)
    ensures a == b || Newer(a, b) || Newer(b, a)
  {
    LessTotal(a.name, b.name);
  }

  lemma {:induction false} NewerTransitive(a: Gen, b: Gen, c: Gen)
    requires Newer(a, b) && Newer(b, c)
    ensures Newer(a, c)
  {
    if a.mtime == b.mtime && b.mtime == c.mtime { LessTransitive(c.name, b.name, a.name); }
  }

  lemma {:induction false} NewerIrreflexive(a: Gen)
    ensures !Newer(a, a)
  {
    LessIrreflexive(a.name);
  }

  // ---- The specification ----------------------------------------------------------------

  function VisibleOnly(all: set<Gen>): set<Gen> { set g | g in all && Visible(g) }

  /** How many visible generations are newer. */
  function Rank(g: Gen, all: set<Gen>): nat { |set h | h in VisibleOnly(all) && Newer(h, g)| }

  predicate Kept(g: Gen, current: Option<string>, pinned: set<string>) {
    current == Some(g.name) || g.name in pinned
  }

  /** Beyond every configured limit, and at least one limit is configured. */
  predicate Exceeds(g: Gen, all: set<Gen>, limits: Limits) {
    && (limits.count.Some? || limits.cutoff.Some?)
    && (limits.count.Some? ==> Rank(g, all) >= limits.count.value)
    && (limits.cutoff.Some? ==> g.mtime < limits.cutoff.value)
  }

  function Victims(all: set<Gen>, current: Option<string>, pinned: set<string>, limits: Limits): set<Gen> {
    set g | g in VisibleOnly(all) && !Kept(g, current, pinned) && Exceeds(g, all, limits)
  }

  // ---- Sorting --------------------------------------------------------------------------

  predicate Descending(s: seq<Gen>) {
    forall i, j :: 0 <= i < j < |s| ==> Newer(s[i], s[j])
  }

  function Place(g: Gen, s: seq<Gen>): (r: seq<Gen>)
    requires Descending(s) && g !in s
    ensures Descending(r) && forall h :: h in r <==> h == g || h in s
  {
    if s == [] then [g]
    else if Newer(g, s[0]) then
      assert Descending([g] + s) by {
        forall j | 0 < j < |s| ensures Newer(g, s[j]) { NewerTransitive(g, s[0], s[j]); }
      }
      [g] + s
    else
      var rest := Place(g, s[1..]);
      assert Descending([s[0]] + rest) by {
        NewerTotal(g, s[0]);
        assert s[0] in s;
        forall j | 0 <= j < |rest| ensures Newer(s[0], rest[j]) { assert rest[j] in rest; }
      }
      [s[0]] + rest
  }

  /** Python's `sorted(..., reverse=True)` over a listing without repetition. */
  function SortNewest(listing: seq<Gen>): (r: seq<Gen>)
    requires forall i, j :: 0 <= i < j < |listing| ==> listing[i] != listing[j]
    ensures Descending(r) && forall h :: h in r <==> h in listing
  {
    if listing == [] then [] else
      assert forall h :: h in listing <==> h == listing[0] || h in listing[1..];
      assert listing[0] !in listing[1..];
      Place(listing[0], SortNewest(listing[1..]))
  }

  function Members(s: seq<Gen>): set<Gen> { set g | g in s }

  lemma {:induction false} MembersCount(s: seq<Gen>)
    requires Descending(s)
    ensures |Members(s)| == |s|
  {
    if s != [] {
      var front := s[..|s| - 1];
      var last := s[|s| - 1];
      MembersCount(front);
      if last in front {
        var i :| 0 <= i < |front| && front[i] == last;
        NewerIrreflexive(last);
      }
      assert Members(s) == Members(front) + {last};
    }
  }

  /** In a descending list of all visible generations the position is the rank. */
  lemma {:induction false} PositionIsRank(s: seq<Gen>, all: set<Gen>, i: nat)
    requires Descending(s) && Members(s) == VisibleOnly(all) && i < |s|
    ensures Rank(s[i], all) == i
  {
    var newer := set h | h in VisibleOnly(all) && Newer(h, s[i]);
    forall h ensures h in newer <==> h in s[..i] {
      if h in newer {
        assert h in Members(s);
        var k :| 0 <= k < |s| && s[k] == h;
        NewerIrreflexive(h);
        if k > i { NewerTransitive(h, s[i], h); }
        assert k < i && s[..i][k] == h;
      }
      if h in s[..i] {
        var k :| 0 <= k < i && s[k] == h;
        assert h in Members(s);
      }
    }
    assert newer == Members(s[..i]);
    MembersCount(s[..i]);
  }

  // ---- The test of the loop -------------------------------------------------------------

  /** The test of the loop, at the position that is the rank, picks the victims. */
  lemma {:induction false} LoopTest(g: Gen, all: set<Gen>, current: Option<string>, pinned: set<string>,
                                    limits: Limits, index: nat)
    requires g in VisibleOnly(all) && Rank(g, all) == index && (limits.count.Some? || limits.cutoff.Some?)
    ensures g in Victims(all, current, pinned, limits) <==>
              && current != Some(g.name) && g.name !in pinned
              && (limits.count.None? || index >= limits.count.value)
              && (limits.cutoff.None? || g.mtime < limits.cutoff.value)
  {
  }

  lemma {:induction false} VictimsAreVisible(all: set<Gen>, current: Option<string>, pinned: set<string>,
                                             limits: Limits)
    ensures Victims(all, current, pinned, limits) <= VisibleOnly(all)
  {
  }

  // ---- What the specification promises --------------------------------------------------

  lemma {:induction false} SortedListing(all: set<Gen>) returns (s: seq<Gen>)
    ensures Descending(s) && Members(s) == all
  {
    if all == {} {
      s := [];
    } else {
      var g :| g in all;
      var rest := SortedListing(all - {g});
      assert g !in Members(rest);
      s := Place(g, rest);
      assert all == (all - {g}) + {g};
    }
  }

  lemma {:induction false} RankShrinks(g: Gen, all: set<Gen>, fewer: set<Gen>)
    requires fewer <= all
    ensures Rank(g, fewer) <= Rank(g, all)
  {
    var a := set h | h in VisibleOnly(fewer) && Newer(h, g);
    var b := set h | h in VisibleOnly(all) && Newer(h, g);
    assert a <= b;
    assert b == a + (b - a);
  }

  /** A second cleanup at the same clock removes nothing. */
  lemma {:induction false} CleanupIsIdempotent(all: set<Gen>, current: Option<string>, pinned: set<string>,
                                               limits: Limits)
    ensures Victims(all - Victims(all, current, pinned, limits), current, pinned, limits) == {}
  {
    var left := all - Victims(all, current, pinned, limits);
    forall g | g in VisibleOnly(left) && !Kept(g, current, pinned) ensures !Exceeds(g, left, limits) {
      RankShrinks(g, all, left);
    }
  }

  lemma {:induction false} NamesBound(gens: set<Gen>, names: set<string>)
    requires forall g, h :: g in gens && h in gens && g.name == h.name ==> g == h
    requires forall g :: g in gens ==> g.name in names
    ensures |gens| <= |names|
    decreases gens
  {
    if gens != {} {
      var g :| g in gens;
      NamesBound(gens - {g}, names - {g.name});
      assert gens == (gens - {g}) + {g} && names == (names - {g.name}) + {g.name};
    }
  }

  lemma {:induction false} RankedBelow(all: set<Gen>, count: nat)
    ensures |set g | g in VisibleOnly(all) && Rank(g, all) < count| <= count
  {
    var s := SortedListing(VisibleOnly(all));
    var low := set g | g in VisibleOnly(all) && Rank(g, all) < count;
    var n := if count < |s| then count else |s|;
    forall g | g in low ensures g in s[..n] {
      assert g in Members(s);
      var i :| 0 <= i < |s| && s[i] == g;
      PositionIsRank(s, all, i);
      assert s[..n][i] == g;
    }
    MembersCount(s[..n]);
    assert low <= Members(s[..n]);
    assert Members(s[..n]) == low + (Members(s[..n]) - low);
  }

  /** With a count limit alone, the newest `count`, the pinned ones and the current one remain. */
  lemma {:induction false} CountBound(all: set<Gen>, current: Option<string>, pinned: set<string>, count: nat)
    requires forall g, h :: g in all && h in all && g.name == h.name ==> g == h
    requires forall g :: g in all ==> Visible(g)
    ensures var left := all - Victims(all, current, pinned, Limits(Some(count), None));
            |left| <= count + |pinned| + 1
  {
    var left := all - Victims(all, current, pinned, Limits(Some(count), None));
    var low := set g | g in VisibleOnly(all) && Rank(g, all) < count;
    var held := set g | g in all && Kept(g, current, pinned);
    RankedBelow(all, count);
    var names := pinned + if current.Some? then {current.value} else {};
    NamesBound(held, names);
    assert |names| <= |pinned| + 1;
    forall g | g in left ensures g in low + held {
      assert g in VisibleOnly(all);
    }
    assert low + held == left + ((low + held) - left);
    assert |low + held| <= |low| + |held|;
  }
}
