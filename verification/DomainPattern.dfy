/**
 The accepted domains as a regular expression, in the words of the source, and the proof that the label by label
 test accepts the same texts.
 */
module DomainPattern {
  import opened Basics
  import opened Text
  import opened Domains

  datatype Class = Letters | Alnums | AlnumsOrHyphen | Only(c: char)

  datatype Pattern =
    | One(of: Class)
    | Then(first: Pattern, second: Pattern)
    | Optional(p: Pattern)
    | Repeat(p: Pattern, least: nat, most: Option<nat>)

  predicate Member(c: char, of: Class) {
    match of
    case Letters => 'a' <= c <= 'z' || 'A' <= c <= 'Z'
    case Alnums => 'a' <= c <= 'z' || 'A' <= c <= 'Z' || '0' <= c <= '9'
    case AlnumsOrHyphen => 'a' <= c <= 'z' || 'A' <= c <= 'Z' || '0' <= c <= '9' || c == '-'
    case Only(d) => c == d
  }

  /** The whole text matches the pattern. */
  ghost predicate Matches(p: Pattern, s: string)
    decreases p, 0
  {
    match p
    case One(of) => |s| == 1 && Member(s[0], of)
    case Then(a, b) => exists i :: 0 <= i <= |s| && Matches(a, s[..i]) && Matches(b, s[i..])
    case Optional(a) => s == "" || Matches(a, s)
    case Repeat(a, least, most) => exists n: nat :: least <= n && (most.Some? ==> n <= most.value) && Times(a, n, s)
  }

  /** The text is so many matches one after the other. */
  ghost predicate Times(p: Pattern, n: nat, s: string)
    decreases p, n + 1
  {
    if n == 0 then s == ""
    else exists i :: 0 <= i <= |s| && Matches(p, s[..i]) && Times(p, n - 1, s[i..])
  }

  /** `[a-zA-Z0-9](?:[a-zA-Z0-9\-]{0,61}[a-zA-Z0-9])?` */
  const LABEL := Then(One(Alnums), Optional(Then(Repeat(One(AlnumsOrHyphen), 0, Some(61)), One(Alnums))))

  /** `(LABEL\.)+[a-zA-Z]{2,}` */
  const LABELS := Then(Repeat(Then(LABEL, One(Only('.'))), 1, None), Repeat(One(Letters), 2, None))

  /** `^(?:\*\.)?(LABEL\.)+[a-zA-Z]{2,}$` */
  const DOMAIN := Then(Optional(Then(One(Only('*')), One(Only('.')))), LABELS)

  ghost predicate AllOf(s: string, of: Class) { forall i :: 0 <= i < |s| ==> Member(s[i], of) }

  lemma {:induction false} TimesOne(of: Class, n: nat, s: string)
    ensures Times(One(of), n, s) <==> |s| == n && AllOf(s, of)
    decreases n
  {
    if n > 0 {
      if |s| == n && AllOf(s, of) {
        TimesOne(of, n - 1, s[1..]);
        assert Matches(One(of), s[..1]) && Times(One(of), n - 1, s[1..]);
      }
      if Times(One(of), n, s) {
        var i :| 0 <= i <= |s| && Matches(One(of), s[..i]) && Times(One(of), n - 1, s[i..]);
        TimesOne(of, n - 1, s[1..]);
        assert i == 1 && Member(s[0], of) && forall k :: 1 <= k < |s| ==> s[k] == s[1..][k - 1];
      }
    }
  }

  lemma {:induction false} RepeatOne(of: Class, least: nat, most: Option<nat>, s: string)
    ensures Matches(Repeat(One(of), least, most), s) <==>
              least <= |s| && (most.Some? ==> |s| <= most.value) && AllOf(s, of)
  {
    TimesOne(of, |s|, s);
    if n: nat :| least <= n && (most.Some? ==> n <= most.value) && Times(One(of), n, s) { TimesOne(of, n, s); }
  }

  /** The middle and the end of a label. */
  lemma {:induction false} RestOfLabel(s: string)
    ensures Matches(Then(Repeat(One(AlnumsOrHyphen), 0, Some(61)), One(Alnums)), s) <==>
              1 <= |s| <= 62 && Alnum(s[|s| - 1]) && AllOf(s[..|s| - 1], AlnumsOrHyphen)
  {
    var middle := Repeat(One(AlnumsOrHyphen), 0, Some(61));
    if s != "" {
      RepeatOne(AlnumsOrHyphen, 0, Some(61), s[..|s| - 1]);
      if Matches(middle, s[..|s| - 1]) && Alnum(s[|s| - 1]) {
        assert Matches(One(Alnums), s[|s| - 1..]);
        assert Matches(Then(middle, One(Alnums)), s);
      }
    }
    if Matches(Then(middle, One(Alnums)), s) {
      var i :| 0 <= i <= |s| && Matches(middle, s[..i]) && Matches(One(Alnums), s[i..]);
      assert i == |s| - 1;
    }
  }

  lemma {:induction false} ThenSplits(p: Pattern, q: Pattern, s: string) returns (i: nat)
    requires Matches(Then(p, q), s)
    ensures i <= |s| && Matches(p, s[..i]) && Matches(q, s[i..])
  {
    i :| 0 <= i <= |s| && Matches(p, s[..i]) && Matches(q, s[i..]);
  }

  lemma {:induction false} ThenJoins(p: Pattern, q: Pattern, s: string, t: string)
    requires Matches(p, s) && Matches(q, t)
    ensures Matches(Then(p, q), s + t)
  {
    assert (s + t)[..|s|] == s && (s + t)[|s|..] == t;
  }

  lemma {:induction false} TimesSplits(p: Pattern, n: nat, s: string) returns (i: nat)
    requires n > 0 && Times(p, n, s)
    ensures i <= |s| && Matches(p, s[..i]) && Times(p, n - 1, s[i..])
  {
    i :| 0 <= i <= |s| && Matches(p, s[..i]) && Times(p, n - 1, s[i..]);
  }

  lemma {:induction false} TimesJoins(p: Pattern, n: nat, s: string, t: string)
    requires Matches(p, s) && Times(p, n, t)
    ensures Times(p, n + 1, s + t)
  {
    assert (s + t)[..|s|] == s && (s + t)[|s|..] == t;
  }

  lemma {:induction false} OneMatches(of: Class, s: string)
    ensures Matches(One(of), s) <==> |s| == 1 && Member(s[0], of)
  {
  }

  /** A first character, and perhaps a rest. */
  lemma {:induction false} FirstAndRest(of: Class, rest: Pattern, s: string)
    ensures Matches(Then(One(of), Optional(rest)), s) <==>
              s != "" && Member(s[0], of) && (|s| == 1 || Matches(rest, s[1..]))
  {
    if s != "" && Member(s[0], of) && (|s| == 1 || Matches(rest, s[1..])) {
      assert Matches(Optional(rest), s[1..]) && s == s[..1] + s[1..];
      ThenJoins(One(of), Optional(rest), s[..1], s[1..]);
    }
    if Matches(Then(One(of), Optional(rest)), s) {
      var i := ThenSplits(One(of), Optional(rest), s);
      OneMatches(of, s[..i]);
    }
  }

  lemma {:induction false} LabelMatches(s: string)
    ensures Matches(LABEL, s) <==> ValidLabel(s)
  {
    FirstAndRest(Alnums, Then(Repeat(One(AlnumsOrHyphen), 0, Some(61)), One(Alnums)), s);
    if |s| > 1 {
      RestOfLabel(s[1..]);
      hide Matches;
      var middle := s[1..][..|s| - 2];
      assert s[1..][|s| - 2] == s[|s| - 1];
      assert forall k :: 0 <= k < |middle| ==> middle[k] == s[k + 1];
      assert forall k :: 1 <= k < |s| - 1 ==> s[k] == middle[k - 1];
    }
  }

  /** A label and its dot. */
  lemma {:induction false} StepMatches(s: string)
    ensures Matches(Then(LABEL, One(Only('.'))), s) <==>
              s != "" && s[|s| - 1] == '.' && ValidLabel(s[..|s| - 1])
  {
    hide Matches, ValidLabel;
    if s != "" && s[|s| - 1] == '.' && ValidLabel(s[..|s| - 1]) {
      LabelMatches(s[..|s| - 1]);
      OneMatches(Only('.'), s[|s| - 1..]);
      ThenJoins(LABEL, One(Only('.')), s[..|s| - 1], s[|s| - 1..]);
      assert s == s[..|s| - 1] + s[|s| - 1..];
    }
    if Matches(Then(LABEL, One(Only('.'))), s) {
      var i := ThenSplits(LABEL, One(Only('.')), s);
      LabelMatches(s[..i]);
      OneMatches(Only('.'), s[i..]);
    }
  }

  function Dotted(labels: seq<string>): string {
    if labels == [] then "" else labels[0] + "." + Dotted(labels[1..])
  }

  ghost predicate ValidLabels(labels: seq<string>) { forall i :: 0 <= i < |labels| ==> ValidLabel(labels[i]) }

  lemma {:induction false} NoTimes(p: Pattern, s: string)
    ensures Times(p, 0, s) <==> s == ""
  {
  }

  /** So many labels, each with its dot. */
  lemma {:induction false} LabelsMatch(n: nat, s: string) returns (labels: seq<string>)
    requires Times(Then(LABEL, One(Only('.'))), n, s)
    ensures |labels| == n && ValidLabels(labels) && s == Dotted(labels)
    decreases n
  {
    hide Matches, Times, ValidLabel;
    if n == 0 {
      NoTimes(Then(LABEL, One(Only('.'))), s);
      labels := [];
    } else {
      var i := TimesSplits(Then(LABEL, One(Only('.'))), n, s);
      StepMatches(s[..i]);
      var later := LabelsMatch(n - 1, s[i..]);
      var part := s[..i][..i - 1];
      assert s[..i] == part + "." && s == s[..i] + s[i..];
      labels := [part] + later;
      assert labels[1..] == later;
    }
  }

  lemma {:induction false} DottedMatches(labels: seq<string>)
    requires ValidLabels(labels)
    ensures Times(Then(LABEL, One(Only('.'))), |labels|, Dotted(labels))
    decreases |labels|
  {
    hide Matches, Times, ValidLabel;
    if labels == [] {
      NoTimes(Then(LABEL, One(Only('.'))), "");
    } else {
      var first := labels[0] + ".";
      assert first[..|first| - 1] == labels[0];
      StepMatches(first);
      DottedMatches(labels[1..]);
      TimesJoins(Then(LABEL, One(Only('.'))), |labels| - 1, first, Dotted(labels[1..]));
    }
  }

  lemma {:induction false} NoDotIsOneLabel(s: string)
    requires '.' !in s
    ensures Split(s) == [s]
  {
    if s != "" {
      NoDotIsOneLabel(s[1..]);
      assert s == [s[0]] + s[1..];
    }
  }

  lemma {:induction false} DottedCons(labels: seq<string>, last: string)
    requires labels != []
    ensures Dotted(labels) + last == labels[0] + "." + (Dotted(labels[1..]) + last)
  {
  }

  lemma {:induction false} DottedNone(last: string)
    ensures Dotted([]) + last == last
  {
  }

  lemma {:induction false} ValidHasNoDot(s: string)
    requires ValidLabel(s)
    ensures '.' !in s
  {
  }

  /** Cutting dotted labels and a last one at the dots gives them back. */
  lemma {:induction false} SplitDotted(labels: seq<string>, last: string)
    requires ValidLabels(labels) && '.' !in last
    ensures Split(Dotted(labels) + last) == labels + [last]
    decreases |labels|
  {
    hide Split, Dotted, ValidLabel;
    if labels == [] {
      DottedNone(last);
      NoDotIsOneLabel(last);
    } else {
      ValidHasNoDot(labels[0]);
      NoDotIsOneLabel(labels[0]);
      DottedCons(labels, last);
      SplitAtDot(labels[0], Dotted(labels[1..]) + last);
      SplitDotted(labels[1..], last);
      assert [labels[0]] + (labels[1..] + [last]) == labels + [last];
    }
  }

  lemma {:induction false} JoinDotted(labels: seq<string>, last: string)
    ensures Join(labels + [last]) == Dotted(labels) + last
    decreases |labels|
  {
    if labels != [] {
      JoinDotted(labels[1..], last);
      assert (labels + [last])[1..] == labels[1..] + [last];
    }
  }

  /** The text is labels with their dots and a last label. */
  ghost predicate CutsInto(body: string, labels: seq<string>, last: string) {
    labels != [] && ValidLabels(labels) && ValidTopLabel(last) && body == Dotted(labels) + last
  }

  lemma {:induction false} PatternCuts(body: string)
    ensures Matches(LABELS, body) <==> exists labels, last :: CutsInto(body, labels, last)
  {
    var front, back := Repeat(Then(LABEL, One(Only('.'))), 1, None), Repeat(One(Letters), 2, None);
    if Matches(LABELS, body) {
      var i :| 0 <= i <= |body| && Matches(front, body[..i]) && Matches(back, body[i..]);
      RepeatOne(Letters, 2, None, body[i..]);
      var n: nat :| 1 <= n && Times(Then(LABEL, One(Only('.'))), n, body[..i]);
      var labels := LabelsMatch(n, body[..i]);
      assert body == body[..i] + body[i..] && CutsInto(body, labels, body[i..]);
    }
    if labels, last :| CutsInto(body, labels, last) {
      DottedMatches(labels);
      RepeatOne(Letters, 2, None, last);
      var i := |Dotted(labels)|;
      assert body[..i] == Dotted(labels) && body[i..] == last;
      assert Matches(front, body[..i]) && Matches(back, body[i..]);
    }
  }

  /** The test of the label list. */
  ghost predicate Labelled(body: string) {
    var labels := Split(body);
    && |labels| >= 2
    && ValidTopLabel(labels[|labels| - 1])
    && forall i :: 0 <= i < |labels| - 1 ==> ValidLabel(labels[i])
  }

  lemma {:induction false} CutsAreLabels(body: string)
    ensures Labelled(body) <==> exists labels, last :: CutsInto(body, labels, last)
  {
    if labels, last :| CutsInto(body, labels, last) {
      hide Dotted, Split;
      SplitDotted(labels, last);
    }
    if Labelled(body) {
      var all := Split(body);
      var labels, last := all[..|all| - 1], all[|all| - 1];
      assert all == labels + [last];
      JoinSplit(body);
      hide Split, Join;
      JoinDotted(labels, last);
      assert CutsInto(body, labels, last);
    }
  }

  lemma {:induction false} BodyMatches(body: string)
    ensures Matches(LABELS, body) <==> Labelled(body)
  {
    PatternCuts(body);
    CutsAreLabels(body);
    hide *;
  }

  lemma {:induction false} DottedStarts(labels: seq<string>)
    requires labels != [] && labels[0] != ""
    ensures Dotted(labels) != "" && Dotted(labels)[0] == labels[0][0]
  {
  }

  /** A text without its wildcard starts with no star. */
  lemma {:induction false} StarIsNoLabel(body: string)
    requires Matches(LABELS, body)
    ensures body != "" && body[0] != '*'
  {
    PatternCuts(body);
    hide Matches;
    var labels, last :| CutsInto(body, labels, last);
    assert ValidLabel(labels[0]) && labels[0] != "" && labels[0][0] != '*';
    hide ValidLabel, ValidTopLabel;
    DottedStarts(labels);
  }

  lemma {:induction false} StarMatches(s: string)
    ensures Matches(Then(One(Only('*')), One(Only('.'))), s) <==> s == "*."
  {
    if s == "*." { assert Matches(One(Only('*')), s[..1]) && Matches(One(Only('.')), s[1..]); }
    if i :| 0 <= i <= |s| && Matches(One(Only('*')), s[..i]) && Matches(One(Only('.')), s[i..]) {
      assert s == s[..i] + s[i..];
    }
  }

  /** A name is accepted exactly when it matches the regular expression and is not too long without its wildcard. */
  lemma {:induction false} AcceptsThePattern(domain: string)
    ensures MatchesPattern(domain) <==> Matches(DOMAIN, domain)
    ensures Accepted(domain) <==>
              Matches(DOMAIN, domain) && (if "*." <= domain then |domain| - 2 else |domain|) <= 253
  {
    var star := Then(One(Only('*')), One(Only('.')));
    BodyMatches(Bare(domain));
    assert MatchesPattern(domain) == Labelled(Bare(domain));
    if Matches(LABELS, Bare(domain)) {
      var i := if Wildcard(domain) then 2 else 0;
      StarMatches(domain[..i]);
      assert domain[i..] == Bare(domain) && Matches(Optional(star), domain[..i]);
    }
    if i :| 0 <= i <= |domain| && Matches(Optional(star), domain[..i]) && Matches(LABELS, domain[i..]) {
      StarMatches(domain[..i]);
      if i == 0 {
        assert domain[..0] == "" && domain[0..] == domain;
        StarIsNoLabel(domain);
      } else {
        assert domain[..i] == "*." && Wildcard(domain) && Bare(domain) == domain[i..];
      }
    }
  }
}
