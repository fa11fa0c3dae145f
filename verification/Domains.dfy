/**
 The identity of a certificate request.

 Canonical domain lists, the DNS Persist scope, and the deployment directory of a primary domain.
 Characters are ASCII.
 */
module Domains {
  import opened Basics
  import opened Text

  predicate Letter(c: char) { 'a' <= c <= 'z' || 'A' <= c <= 'Z' }

  predicate Alnum(c: char) { Letter(c) || '0' <= c <= '9' }

  predicate Whitespace(c: char) { '\t' <= c <= '\r' || '\U{1c}' <= c <= ' ' }

  function LowerChar(c: char): char {
    if 'A' <= c <= 'Z' then 'a' + (c - 'A') else c
  }

  function Lower(s: string): (r: string)
    ensures |r| == |s| && forall i :: 0 <= i < |s| ==> r[i] == LowerChar(s[i])
  {
    seq(|s|, i requires 0 <= i < |s| => LowerChar(s[i]))
  }

  function StripLeft(s: string): string {
    if s != "" && Whitespace(s[0]) then StripLeft(s[1..]) else s
  }

  function StripRight(s: string): string {
    if s != "" && Whitespace(s[|s| - 1]) then StripRight(s[..|s| - 1]) else s
  }

  /** `domain.strip().lower()` */
  function Clean(domain: string): string {
    Lower(StripRight(StripLeft(domain)))
  }

  function CleanAll(domains: seq<string>): (r: seq<string>)
    ensures |r| == |domains| && forall i :: 0 <= i < |r| ==> r[i] == Clean(domains[i])
  {
    seq(|domains|, i requires 0 <= i < |domains| => Clean(domains[i]))
  }

  const MAX_FQDN_LENGTH := 253

  predicate Wildcard(domain: string) { "*." <= domain }

  /** `domain.removeprefix("*.")` */
  function Bare(domain: string): string {
    if Wildcard(domain) then domain[2..] else domain
  }

  /** `[a-zA-Z0-9](?:[a-zA-Z0-9\-]{0,61}[a-zA-Z0-9])?` */
  predicate ValidLabel(part: string) {
    && 1 <= |part| <= 63
    && Alnum(part[0]) && Alnum(part[|part| - 1])
    && forall i :: 0 <= i < |part| ==> Alnum(part[i]) || part[i] == '-'
  }

  /** `[a-zA-Z]{2,}` */
  predicate ValidTopLabel(part: string) {
    |part| >= 2 && forall i :: 0 <= i < |part| ==> Letter(part[i])
  }

  /** The accepted pattern, label by label. No label holds a dot, so cutting at dots is exact. */
  predicate MatchesPattern(domain: string) {
    var labels := Split(Bare(domain));
    && |labels| >= 2
    && ValidTopLabel(labels[|labels| - 1])
    && forall i :: 0 <= i < |labels| - 1 ==> ValidLabel(labels[i])
  }

  predicate Accepted(domain: string) {
    MatchesPattern(domain) && |Bare(domain)| <= MAX_FQDN_LENGTH
  }

  datatype DomainError = BadPattern(domain: string) | TooLong(domain: string)

  function FirstError(cleaned: seq<string>): (r: Option<DomainError>)
    ensures r.None? <==> forall d :: d in cleaned ==> Accepted(d)
  {
    if cleaned == [] then None
    else
      assert cleaned[0] in cleaned;
      if !MatchesPattern(cleaned[0]) then Some(BadPattern(cleaned[0]))
      else if |Bare(cleaned[0])| > MAX_FQDN_LENGTH then Some(TooLong(cleaned[0]))
      else
        assert forall d :: d in cleaned <==> d == cleaned[0] || d in cleaned[1..];
        FirstError(cleaned[1..])
  }

  function Without(xs: seq<string>, x: string): (r: seq<string>)
    ensures forall y :: y in r <==> y in xs && y != x
  {
    if xs == [] then []
    else if xs[0] == x then Without(xs[1..], x)
    else [xs[0]] + Without(xs[1..], x)
  }

  /** `[primary, *sorted(set(rest) - {primary})]` */
  function Canonical(cleaned: seq<string>): seq<string>
    requires cleaned != []
  {
    [cleaned[0]] + SortUnique(Without(cleaned[1..], cleaned[0]))
  }

  /** The validator of `CertificateCreate.domains`; the field itself demands one element. */
  function Normalize(domains: seq<string>): Result<seq<string>, DomainError>
    requires domains != []
  {
    var cleaned := CleanAll(domains);
    match FirstError(cleaned)
    case Some(e) => Err(e)
    case None => Ok(Canonical(cleaned))
  }

  /** What a normalised list looks like. */
  ghost predicate IsCanonical(list: seq<string>) {
    && list != []
    && Ascending(list[1..])
    && list[0] !in list[1..]
    && forall d :: d in list ==> Accepted(d) && Clean(d) == d
  }

  // ---- Normalisation --------------------------------------------------------------------

  lemma {:induction false} StripLeftHead(s: string)
    ensures StripLeft(s) == "" || !Whitespace(StripLeft(s)[0])
  {
    if s != "" && Whitespace(s[0]) { StripLeftHead(s[1..]); }
  }

  lemma {:induction false} StripRightEnds(s: string)
    ensures var r := StripRight(s); r <= s && (r == "" || !Whitespace(r[|r| - 1]))
  {
    if s != "" && Whitespace(s[|s| - 1]) { StripRightEnds(s[..|s| - 1]); }
  }

  lemma {:induction false} CleanIdempotent(domain: string)
    ensures Clean(Clean(domain)) == Clean(domain)
  {
    var l := StripLeft(domain);
    var r := StripRight(l);
    StripLeftHead(domain);
    StripRightEnds(l);
    var c := Lower(r);
    assert c != "" ==> r[0] == l[0] && !Whitespace(c[0]) && !Whitespace(c[|c| - 1]);
    assert StripRight(StripLeft(c)) == c;
    assert Lower(c) == c;
  }

  const BLANKS := {'\t', '\n', '\U{b}', '\U{c}', '\r', '\U{1c}', '\U{1d}', '\U{1e}', '\U{1f}', ' '}

  ghost predicate Blank(s: string) { forall i :: 0 <= i < |s| ==> s[i] in BLANKS }

  /** The same letter, in either case, or the same character. */
  predicate SameLetter(a: char, b: char) {
    var (x, y) := (a as int, b as int);
    x == y || ('A' <= a <= 'Z' && y == x + 32) || ('A' <= b <= 'Z' && x == y + 32)
  }

  ghost predicate SameLetters(s: string, t: string) {
    |s| == |t| && forall i :: 0 <= i < |s| ==> SameLetter(s[i], t[i])
  }

  lemma {:induction false} StripLeftBlank(left: string, s: string)
    requires Blank(left)
    ensures StripLeft(left + s) == StripLeft(s)
  {
    if left == "" {
      assert left + s == s;
    } else {
      assert (left + s)[0] == left[0] && (left + s)[1..] == left[1..] + s;
      StripLeftBlank(left[1..], s);
    }
  }

  lemma {:induction false} StripRightBlank(s: string, right: string)
    requires Blank(right)
    ensures StripRight(s + right) == StripRight(s)
  {
    if right == "" {
      assert s + right == s;
    } else {
      var n := |right| - 1;
      assert (s + right)[|s| + n] == right[n] && (s + right)[..|s| + n] == s + right[..n];
      StripRightBlank(s, right[..n]);
    }
  }

  /** Blanks behind a text do not change what is cut in front of it, unless all of it is cut. */
  lemma {:induction false} StripLeftBefore(s: string, right: string)
    requires Blank(right)
    ensures StripLeft(s + right) == if StripLeft(s) == "" then "" else StripLeft(s) + right
  {
    if s == "" {
      assert s + right == right && right + "" == right;
      StripLeftBlank(right, "");
    } else {
      assert (s + right)[0] == s[0] && (s + right)[1..] == s[1..] + right;
      if Whitespace(s[0]) { StripLeftBefore(s[1..], right); }
    }
  }

  lemma {:induction false} StripLeftLetters(s: string, t: string)
    requires SameLetters(s, t)
    ensures SameLetters(StripLeft(s), StripLeft(t))
  {
    if s != "" {
      assert SameLetter(s[0], t[0]);
      if Whitespace(s[0]) {
        forall i | 0 <= i < |s[1..]| ensures SameLetter(s[1..][i], t[1..][i]) {
          assert SameLetter(s[i + 1], t[i + 1]);
        }
        StripLeftLetters(s[1..], t[1..]);
      }
    }
  }

  lemma {:induction false} StripRightLetters(s: string, t: string)
    requires SameLetters(s, t)
    ensures SameLetters(StripRight(s), StripRight(t))
  {
    if s != "" {
      assert SameLetter(s[|s| - 1], t[|t| - 1]);
      if Whitespace(s[|s| - 1]) { StripRightLetters(s[..|s| - 1], t[..|t| - 1]); }
    }
  }

  /** Blanks around a name and the case of its letters make no difference. */
  lemma {:induction false} CleanForgets(left: string, name: string, right: string, other: string)
    requires Blank(left) && Blank(right) && SameLetters(name, other)
    ensures Clean(left + name + right) == Clean(other)
  {
    assert left + name + right == left + (name + right);
    StripLeftBlank(left, name + right);
    StripLeftBefore(name, right);
    StripRightBlank(StripLeft(name), right);
    StripLeftLetters(name, other);
    StripRightLetters(StripLeft(name), StripLeft(other));
    var a, b := StripRight(StripLeft(name)), StripRight(StripLeft(other));
    assert StripRight(StripLeft(left + name + right)) == a;
    hide StripLeft, StripRight;
    LowerLetters(a, b);
  }

  lemma {:induction false} LowerLetters(s: string, t: string)
    ensures Lower(s) == Lower(t) <==> SameLetters(s, t)
  {
    if Lower(s) == Lower(t) {
      forall i | 0 <= i < |s| ensures SameLetter(s[i], t[i]) { assert Lower(s)[i] == Lower(t)[i]; }
    }
    if SameLetters(s, t) {
      forall i | 0 <= i < |s| ensures Lower(s)[i] == Lower(t)[i] { assert SameLetter(s[i], t[i]); }
    }
  }

  /**
   Cleaning cuts the blanks at both ends, and nothing else: what is between them stays, with the ASCII letters
   in lower case.
   */
  lemma {:induction false} CleanMeans(left: string, name: string, right: string)
    requires Blank(left) && Blank(right)
    requires name != "" ==> name[0] !in BLANKS && name[|name| - 1] !in BLANKS
    ensures var c := Clean(left + name + right);
            |c| == |name| && forall i :: 0 <= i < |c| ==>
              if 'A' <= name[i] <= 'Z' then c[i] as int == name[i] as int + 32 else c[i] == name[i]
  {
    StripMeans(left, name, right);
    hide StripLeft, StripRight, Blank;
  }

  lemma {:induction false} StripMeans(left: string, name: string, right: string)
    requires Blank(left) && Blank(right)
    requires name != "" ==> name[0] !in BLANKS && name[|name| - 1] !in BLANKS
    ensures StripRight(StripLeft(left + name + right)) == name
  {
    hide Blank;
    assert left + name + right == left + (name + right);
    StripLeftBlank(left, name + right);
    StripLeftBefore(name, right);
    StripRightBlank(StripLeft(name), right);
    StripNothing(name);
    hide StripLeft, StripRight;
  }

  lemma {:induction false} StripNothing(name: string)
    requires name != "" ==> name[0] !in BLANKS && name[|name| - 1] !in BLANKS
    ensures StripLeft(name) == name && StripRight(name) == name && StripRight("") == ""
  {
    assert name != "" ==> !Whitespace(name[0]) && !Whitespace(name[|name| - 1]);
  }

  lemma {:induction false} CanonicalMembers(cleaned: seq<string>)
    requires cleaned != []
    ensures forall d :: d in Canonical(cleaned) <==> d in cleaned
    ensures Ascending(Canonical(cleaned)[1..]) && Canonical(cleaned)[0] !in Canonical(cleaned)[1..]
  {
  }

  /** A payload is accepted exactly when all its cleaned names are. */
  lemma {:induction false} NormalizeAccepts(domains: seq<string>)
    requires domains != []
    ensures Normalize(domains).Ok? <==> forall d :: d in CleanAll(domains) ==> Accepted(d)
  {
    hide Canonical, Accepted, MatchesPattern;
  }

  /** A refusal names the first name that does not match, or is too long. */
  lemma {:induction false} NormalizeBlames(domains: seq<string>, k: nat)
    requires k < |domains| && !Accepted(Clean(domains[k]))
    requires forall i :: 0 <= i < k ==> Accepted(Clean(domains[i]))
    ensures Normalize(domains) ==
              Err(if MatchesPattern(Clean(domains[k])) then TooLong(Clean(domains[k]))
                  else BadPattern(Clean(domains[k])))
  {
    hide Canonical, Clean, MatchesPattern, Bare;
    FirstBlamed(CleanAll(domains), k);
  }

  lemma {:induction false} FirstBlamed(cleaned: seq<string>, k: nat)
    requires k < |cleaned| && !Accepted(cleaned[k]) && forall i :: 0 <= i < k ==> Accepted(cleaned[i])
    ensures FirstError(cleaned) ==
              Some(if MatchesPattern(cleaned[k]) then TooLong(cleaned[k]) else BadPattern(cleaned[k]))
  {
    hide MatchesPattern, Bare;
    if k > 0 {
      assert Accepted(cleaned[0]);
      FirstBlamed(cleaned[1..], k - 1);
    }
  }

  lemma {:induction false} CleanedIsClean(domains: seq<string>)
    ensures forall d :: d in CleanAll(domains) ==> Clean(d) == d
  {
    var cleaned := CleanAll(domains);
    forall d | d in cleaned ensures Clean(d) == d {
      var i :| 0 <= i < |cleaned| && cleaned[i] == d;
      CleanIdempotent(domains[i]);
    }
  }

  /** An accepted payload comes out canonical. */
  lemma {:induction false} NormalizedIsCanonical(domains: seq<string>)
    requires domains != [] && Normalize(domains).Ok?
    ensures IsCanonical(Normalize(domains).value)
  {
    NormalizeAccepts(domains);
    CleanedIsClean(domains);
    CanonicalMembers(CleanAll(domains));
    hide Canonical, Accepted, Clean;
  }

  /** An accepted payload keeps exactly its names and its primary domain. */
  lemma {:induction false} NormalizedNames(domains: seq<string>)
    requires domains != [] && Normalize(domains).Ok?
    ensures Normalize(domains).value[0] == Clean(domains[0])
    ensures forall d :: d in Normalize(domains).value <==> d in CleanAll(domains)
  {
    CanonicalMembers(CleanAll(domains));
    hide Accepted, Clean;
  }

  /** A canonical list is a fixed point of the normaliser. */
  lemma {:induction false} CanonicalIsFixed(list: seq<string>)
    requires IsCanonical(list)
    ensures Normalize(list) == Ok(list)
  {
    var cleaned := CleanAll(list);
    assert cleaned == list by {
      forall i | 0 <= i < |list| ensures cleaned[i] == list[i] { assert list[i] in list; }
    }
    CanonicalMembers(list);
    forall y ensures y in Canonical(list)[1..] <==> y in list[1..] {
      assert y in list <==> y == list[0] || y in list[1..];
      assert y in Canonical(list) <==> y == list[0] || y in Canonical(list)[1..];
    }
    AscendingIsCanonical(Canonical(list)[1..], list[1..]);
    assert list == [list[0]] + list[1..];
  }

  /** The normaliser is idempotent. */
  lemma {:induction false} NormalizeIdempotent(domains: seq<string>)
    requires domains != [] && Normalize(domains).Ok?
    ensures Normalize(domains).value != []
    ensures Normalize(Normalize(domains).value) == Normalize(domains)
  {
    NormalizedIsCanonical(domains);
    CanonicalIsFixed(Normalize(domains).value);
  }

  /**
   Two requests get one list exactly when they have the same primary domain and the same set of
   names, whatever the order, letter case, surrounding space or repetition.
   */
  lemma {:induction false} SameListIffSameNames(a: seq<string>, b: seq<string>)
    requires a != [] && b != [] && Normalize(a).Ok? && Normalize(b).Ok?
    ensures Normalize(a) == Normalize(b) <==>
              Clean(a[0]) == Clean(b[0]) && forall d :: d in CleanAll(a) <==> d in CleanAll(b)
  {
    NormalizedIsCanonical(a);
    NormalizedIsCanonical(b);
    NormalizedNames(a);
    NormalizedNames(b);
    var x, y := Normalize(a).value, Normalize(b).value;
    if Clean(a[0]) == Clean(b[0]) && forall d :: d in CleanAll(a) <==> d in CleanAll(b) {
      forall d ensures d in x[1..] <==> d in y[1..] {
        assert d in x <==> d == x[0] || d in x[1..];
        assert d in y <==> d == y[0] || d in y[1..];
      }
      AscendingIsCanonical(x[1..], y[1..]);
      assert x == [x[0]] + x[1..] && y == [y[0]] + y[1..];
    }
  }

  // ---- DNS Persist scope ----------------------------------------------------------------

  datatype ScopeError = UnrelatedNames

  /** `dns_persist_scope`: the primary scope and the wildcard policy. */
  function DnsPersistScope(domains: seq<string>): Result<(string, bool), ScopeError>
    requires domains != []
  {
    var scope := Bare(domains[0]);
    if exists d :: d in domains && Bare(d) != scope && !EndsWith(Bare(d), "." + scope)
    then Err(UnrelatedNames)
    else Ok((scope, |domains| > 1 || Wildcard(domains[0])))
  }

  /** The string test accepts exactly when the scope's labels end the labels of every name. */
  lemma {:induction false} ScopeMeansLabelSuffix(domains: seq<string>)
    requires domains != []
    ensures DnsPersistScope(domains).Ok? <==>
              forall d :: d in domains ==> LabelSuffix(Split(Bare(domains[0])), Split(Bare(d)))
  {
    forall d { SuffixByLabels(Bare(d), Bare(domains[0])); }
  }

  /** Over a canonical list the wildcard policy is set exactly when some name is not the scope. */
  lemma {:induction false} WildcardPolicyMeansOtherName(domains: seq<string>)
    requires IsCanonical(domains) && DnsPersistScope(domains).Ok?
    ensures var (scope, wildcard) := DnsPersistScope(domains).value;
            wildcard <==> exists d :: d in domains && d != scope
  {
    var (scope, wildcard) := DnsPersistScope(domains).value;
    assert scope == Bare(domains[0]) && wildcard == (|domains| > 1 || Wildcard(domains[0]));
    hide DnsPersistScope;
    if |domains| > 1 {
      assert domains[1] in domains[1..] && domains[0] in domains && domains[1] in domains;
    } else {
      assert domains == [domains[0]] && forall d :: d in domains <==> d == domains[0];
      assert Wildcard(domains[0]) ==> |scope| < |domains[0]|;
      assert wildcard <==> domains[0] != scope;
      if wildcard { assert domains[0] in domains && domains[0] != scope; }
    }
  }

  // ---- Deployment directory -------------------------------------------------------------

  datatype DirectoryError = UnsafePrimaryDomain

  const WILDCARD_PREFIX := "@wildcard@."

  /** `deployment_directory_name` */
  function DirectoryName(primary: string): Result<string, DirectoryError> {
    if '/' in primary || '\\' in primary || primary in ["", ".", ".."] then Err(UnsafePrimaryDomain)
    else if Wildcard(primary) then Ok(WILDCARD_PREFIX + primary[2..])
    else Ok(primary)
  }

  /** Two primaries share a directory only as a wildcard and its literal spelling with `@`. */
  lemma {:induction false} DirectoryCollision(p: string, q: string)
    requires DirectoryName(p).Ok? && DirectoryName(q).Ok? && p != q
    ensures DirectoryName(p) == DirectoryName(q) <==>
              || (Wildcard(p) && q == WILDCARD_PREFIX + Bare(p))
              || (Wildcard(q) && p == WILDCARD_PREFIX + Bare(q))
  {
    assert Wildcard(p) ==> p == "*." + Bare(p) && DirectoryName(p).value[11..] == Bare(p);
    assert Wildcard(q) ==> q == "*." + Bare(q) && DirectoryName(q).value[11..] == Bare(q);
    assert Wildcard(p) ==> DirectoryName(p).value[0] == '@';
    assert Wildcard(q) ==> DirectoryName(q).value[0] == '@';
  }

  lemma {:induction false} JoinedChar(labels: seq<string>, c: char)
    requires |labels| >= 1 && c in Join(labels) && c != '.'
    ensures exists i :: 0 <= i < |labels| && c in labels[i]
  {
    if |labels| == 1 {
      assert c in labels[0];
    } else if c in labels[0] {
    } else {
      JoinedChar(labels[1..], c);
      var i :| 0 <= i < |labels[1..]| && c in labels[1..][i];
      assert c in labels[i + 1];
    }
  }

  lemma {:induction false} LabelChar(labels: seq<string>, i: nat, c: char)
    requires i < |labels| && c in labels[i]
    requires ValidTopLabel(labels[|labels| - 1])
    requires forall j :: 0 <= j < |labels| - 1 ==> ValidLabel(labels[j])
    ensures Alnum(c) || c == '-'
  {
  }

  lemma {:induction false} BareChar(domain: string, c: char)
    requires c in domain && c != '.' && c != '*'
    ensures c in Bare(domain)
  {
  }

  lemma {:induction false} PatternChar(domain: string, c: char)
    requires MatchesPattern(domain) && c in Bare(domain) && c != '.'
    ensures Alnum(c) || c == '-'
  {
    var body := Bare(domain);
    var labels := Split(body);
    assert Join(labels) == body by { JoinSplit(body); }
    hide Split, Join, Bare, ValidLabel, ValidTopLabel, Alnum;
    JoinedChar(labels, c);
    var i :| 0 <= i < |labels| && c in labels[i];
    LabelChar(labels, i, c);
  }

  lemma {:induction false} AcceptedChars(domain: string, c: char)
    requires Accepted(domain) && c in domain
    ensures Alnum(c) || c == '-' || c == '.' || c == '*'
  {
    if c != '.' && c != '*' {
      BareChar(domain, c);
      PatternChar(domain, c);
    }
  }

  /** Accepted names never collide: every one has a directory, and no two share it. */
  lemma {:induction false} DirectoriesAreDistinct(p: string, q: string)
    requires Accepted(p) && Accepted(q)
    ensures DirectoryName(p).Ok? && DirectoryName(q).Ok?
    ensures DirectoryName(p) == DirectoryName(q) <==> p == q
    ensures DirectoryName(p).value == if "*." <= p then "@wildcard@." + p[2..] else p
  {
    AcceptedHasDirectory(p);
    AcceptedHasDirectory(q);
    if p != q {
      DirectoryCollision(p, q);
      if '@' in p { AcceptedChars(p, '@'); }
      if '@' in q { AcceptedChars(q, '@'); }
      assert WILDCARD_PREFIX[0] == '@';
    }
  }

  lemma {:induction false} AcceptedHasDirectory(p: string)
    requires Accepted(p)
    ensures DirectoryName(p).Ok?
  {
    if '/' in p { AcceptedChars(p, '/'); }
    if '\\' in p { AcceptedChars(p, '\\'); }
    assert Split("") == [""];
    assert Split(".") == ["", ""] by { assert "."[1..] == ""; }
    assert Split("..") == ["", "", ""] by { assert ".."[1..] == "."; }
  }
}
