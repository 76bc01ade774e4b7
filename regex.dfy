/**
 * The regular expressions of the code fixers, as token lists matched the
 * way Python's `re` module matches them: `re.search` finds the leftmost
 * match, `re.sub` replaces every non-overlapping match from left to right.
 *
 * Each token is one piece of a pattern. In every pattern this model uses,
 * a greedy piece is followed by a piece that cannot start with a character
 * the greedy piece takes (or only the combined `\s*([^…]+)` piece needs to
 * give characters back, which `SpacedExcept` does itself), so matching
 * piece by piece, longest first, finds exactly the match Python finds.
 */
module Regex {
  import opened Wrappers
  import opened Text

  /**
   * Literal text; `\s*` (`Spaces(0)`) or `\s+` (`Spaces(1)`); a captured
   * `(\w+)`; `[^stop]*` or `[^stop]+`; a captured `\s*([^stop]+)`, whose
   * stop characters are not whitespace; a lazy `.*?` (any character) up to
   * and including the text `stop`.
   */
  datatype Tok =
    | Lit(text: string)
    | Spaces(least: nat)
    | Word1
    | Except(stop: string, least: nat)
    | SpacedExcept(stop: string)
    | LazyTo(stop: string)

  /** The length of a match and the texts of its groups, in order. */
  datatype Match = Match(len: nat, groups: seq<string>)

  /** The longest run at the start of `t` without a character of `stop`. */
  function ExceptRun(t: string, stop: string): (n: nat)
    ensures n <= |t| && (forall i :: 0 <= i < n ==> t[i] !in stop) && (n < |t| ==> t[n] in stop)
    decreases |t|
  {
    if |t| > 0 && t[0] !in stop then 1 + ExceptRun(t[1..], stop) else 0
  }

  /** Whether a token is a capturing group. */
  predicate Captures(tok: Tok) {
    tok.Word1? || tok.SpacedExcept?
  }

  /** The number of groups of a pattern. */
  function GroupCount(pat: seq<Tok>): nat
    decreases |pat|
  {
    if |pat| == 0 then 0 else (if Captures(pat[0]) then 1 else 0) + GroupCount(pat[1..])
  }

  /** How much of the start of `t` one token takes, and what it captures. */
  function TokMatch(t: string, tok: Tok): (r: Option<Match>)
    ensures r.Some? ==> r.value.len <= |t| && |r.value.groups| == (if Captures(tok) then 1 else 0)
    ensures r.Some? && tok.Lit? ==> StartsWith(t, tok.text) && r.value.len == |tok.text|
  {
    match tok
    case Lit(p) => if StartsWith(t, p) then Some(Match(|p|, [])) else None
    case Spaces(least) =>
      var n := SpaceRun(t);
      if n >= least then Some(Match(n, [])) else None
    case Word1 =>
      var n := WordCharRun(t);
      if n > 0 then Some(Match(n, [t[..n]])) else None
    case Except(stop, least) =>
      var n := ExceptRun(t, stop);
      if n >= least then Some(Match(n, [])) else None
    case SpacedExcept(stop) =>
      // `\s*` takes all the spaces; when nothing but a stop character or
      // the end follows, it gives its last space back to the group.
      var n := SpaceRun(t);
      var m := ExceptRun(t[n..], stop);
      if m > 0 then Some(Match(n + m, [t[n..n + m]]))
      else if n > 0 then Some(Match(n, [t[n - 1..n]]))
      else None
    case LazyTo(p) =>
      var i := IndexOf(t, p);
      if i < |t| then Some(Match(i + |p|, [])) else None
  }

  /** The match of a whole pattern at the start of `t`. */
  function MatchAt(t: string, pat: seq<Tok>): (r: Option<Match>)
    ensures r.Some? ==> r.value.len <= |t| && |r.value.groups| == GroupCount(pat)
    decreases |pat|
  {
    if |pat| == 0 then Some(Match(0, []))
    else match TokMatch(t, pat[0])
      case None => None
      case Some(a) =>
        match MatchAt(t[a.len..], pat[1..])
        case None => None
        case Some(b) => Some(Match(a.len + b.len, a.groups + b.groups))
  }

  /** A pattern that starts with non-empty literal text. */
  predicate Anchored(pat: seq<Tok>) {
    |pat| > 0 && pat[0].Lit? && |pat[0].text| > 0
  }

  /** A match of an anchored pattern starts with its literal and is not empty. */
  lemma {:induction false} MatchNeedsHead(t: string, pat: seq<Tok>)
    requires Anchored(pat) && MatchAt(t, pat).Some?
    ensures StartsWith(t, pat[0].text) && MatchAt(t, pat).value.len >= |pat[0].text| > 0
  {
  }

  /** `re.search`: the first position where the pattern matches. */
  function Search(t: string, pat: seq<Tok>): (r: Option<nat>)
    ensures r.Some? ==> r.value <= |t|
    decreases |t|
  {
    if MatchAt(t, pat).Some? then Some(0)
    else if |t| == 0 then None
    else match Search(t[1..], pat)
      case None => None
      case Some(i) => Some(i + 1)
  }

  /** `Search` finds a match, and the first one; it finds none only when there is none. */
  lemma {:induction false} SearchFirst(t: string, pat: seq<Tok>)
    ensures Search(t, pat).Some? ==> MatchAt(t[Search(t, pat).value..], pat).Some?
    ensures Search(t, pat).Some? ==> forall j :: 0 <= j < Search(t, pat).value ==> MatchAt(t[j..], pat).None?
    ensures Search(t, pat).None? ==> forall j :: 0 <= j <= |t| ==> MatchAt(t[j..], pat).None?
    decreases |t|
  {
    if MatchAt(t, pat).None? && |t| > 0 {
      SearchFirst(t[1..], pat);
      forall j | 1 <= j <= |t| ensures t[1..][j - 1..] == t[j..] {
      }
    } else if MatchAt(t, pat).None? {
      assert forall j :: 0 <= j <= |t| ==> t[j..] == t;
    }
  }

  /** The groups of the first match, `re.search(...).group(1)` and on; none without a match. */
  function Groups(t: string, pat: seq<Tok>): (g: seq<string>)
    ensures Search(t, pat).None? ==> g == []
    ensures Search(t, pat).Some? ==> |g| == GroupCount(pat)
  {
    match Search(t, pat)
    case None => []
    case Some(i) =>
      SearchFirst(t, pat);
      MatchAt(t[i..], pat).value.groups
  }

  /** Where `Search` finds an anchored pattern, the text has the pattern's first character. */
  lemma {:induction false} SearchHead(t: string, pat: seq<Tok>)
    requires Anchored(pat) && Search(t, pat).Some?
    ensures Search(t, pat).value < |t| && t[Search(t, pat).value] == pat[0].text[0]
  {
    var i := Search(t, pat).value;
    SearchFirst(t, pat);
    MatchNeedsHead(t[i..], pat);
    assert t[i..][0] == t[i];
  }

  /** `re.sub(pattern, repl, t)` for an anchored pattern and a replacement without backslashes. */
  function Sub(t: string, pat: seq<Tok>, repl: string): string
    requires Anchored(pat)
    decreases |t|
  {
    if |t| == 0 then ""
    else match MatchAt(t, pat)
      case Some(m) => MatchNeedsHead(t, pat); repl + Sub(t[m.len..], pat, repl)
      case None => [t[0]] + Sub(t[1..], pat, repl)
  }

  /** Text without a character of `p` does not start with `p`. */
  lemma {:induction false} NoCharNoPrefix(t: string, p: string, c: char)
    requires c in p && c !in t
    ensures !StartsWith(t, p)
  {
    var k :| 0 <= k < |p| && p[k] == c;
    if k < |t| {
      assert t[k] in t;
    }
  }

  /** Text without a character of the pattern's literal has no match, and `re.sub` leaves it alone. */
  lemma {:induction false} NoCharNoMatch(t: string, pat: seq<Tok>, repl: string, c: char)
    requires Anchored(pat) && c in pat[0].text && c !in t
    ensures Search(t, pat).None? && Sub(t, pat, repl) == t
    decreases |t|
  {
    NoCharNoPrefix(t, pat[0].text, c);
    if |t| > 0 {
      assert c !in t[1..] by {
        assert forall m :: 0 <= m < |t[1..]| ==> t[1..][m] == t[m + 1];
      }
      NoCharNoMatch(t[1..], pat, repl, c);
      assert [t[0]] + t[1..] == t;
    }
  }

  /** `re.sub` with no match returns its input. */
  lemma {:induction false} SubNoMatch(t: string, pat: seq<Tok>, repl: string)
    requires Anchored(pat) && Search(t, pat).None?
    ensures Sub(t, pat, repl) == t
    decreases |t|
  {
    if |t| > 0 {
      SubNoMatch(t[1..], pat, repl);
      assert [t[0]] + t[1..] == t;
    }
  }

  /** `re.sub` with a match puts the replacement into the text. */
  lemma {:induction false} SubInserts(t: string, pat: seq<Tok>, repl: string)
    requires Anchored(pat) && Search(t, pat).Some?
    ensures Contains(Sub(t, pat, repl), repl)
    decreases |t|
  {
    match MatchAt(t, pat)
    case Some(m) =>
      MatchNeedsHead(t, pat);
      ContainsSelf(repl);
      ContainsPrefix(repl, Sub(t[m.len..], pat, repl), repl);
    case None =>
      SubInserts(t[1..], pat, repl);
      var rest := Sub(t[1..], pat, repl);
      ContainsInPart([t[0]], rest, "", repl);
      assert [t[0]] + rest + "" == [t[0]] + rest;
  }

  /** Text before which the pattern's first character does not occur is copied through. */
  lemma {:induction false} SubSkipsPrefix(a: string, b: string, pat: seq<Tok>, repl: string)
    requires Anchored(pat) && pat[0].text[0] !in a
    ensures Sub(a + b, pat, repl) == a + Sub(b, pat, repl)
    decreases |a|
  {
    if |a| == 0 {
      assert a + b == b;
    } else {
      assert (a + b)[0] == a[0];
      assert MatchAt(a + b, pat).None?;
      assert (a + b)[1..] == a[1..] + b;
      SubSkipsPrefix(a[1..], b, pat, repl);
      Regroup([a[0]], a[1..], Sub(b, pat, repl));
      assert [a[0]] + a[1..] == a;
    }
  }

  /** A match of a pattern begins with a match of any front part of it. */
  lemma {:induction false} MatchPrefix(t: string, p: seq<Tok>, q: seq<Tok>)
    requires MatchAt(t, p + q).Some?
    ensures MatchAt(t, p).Some?
    decreases |p|
  {
    if |p| > 0 {
      assert (p + q)[0] == p[0] && (p + q)[1..] == p[1..] + q;
      var a := TokMatch(t, p[0]).value;
      MatchPrefix(t[a.len..], p[1..], q);
    }
  }

  /** Where a longer pattern is found, its front part is found there or earlier. */
  lemma {:induction false} SearchPrefix(t: string, p: seq<Tok>, q: seq<Tok>)
    requires Search(t, p + q).Some?
    ensures Search(t, p).Some? && Search(t, p).value <= Search(t, p + q).value
  {
    var i := Search(t, p + q).value;
    SearchFirst(t, p + q);
    MatchPrefix(t[i..], p, q);
    SearchFirst(t, p);
  }
}
