/**
 * String primitives with the semantics of Python's `str` methods and of the
 * character classes the pipeline's regular expressions use.  Strings are
 * `seq<char>`; `\s` and `str.isspace()` share one whitespace set; `\d` and
 * `\w` are taken in their ASCII reading.
 */
module Text {

  /** The characters Python's `str.isspace()` and the regex class `\s` accept. */
  predicate IsSpace(c: char) {
    || c == ' '
    || ('\t' <= c <= '\r')
    || ('\U{1c}' <= c <= '\U{1f}')
    || c == '\U{85}' || c == '\U{a0}' || c == '\U{1680}'
    || ('\U{2000}' <= c <= '\U{200a}')
    || c == '\U{2028}' || c == '\U{2029}' || c == '\U{202f}' || c == '\U{205f}' || c == '\U{3000}'
  }

  predicate IsDigit(c: char) {
    '0' <= c <= '9'
  }

  /** The regex class `\w`, ASCII reading. */
  predicate IsWordChar(c: char) {
    ('a' <= c <= 'z') || ('A' <= c <= 'Z') || IsDigit(c) || c == '_'
  }

  predicate AllDigits(s: string) {
    forall i :: 0 <= i < |s| ==> IsDigit(s[i])
  }

  predicate NoSpace(s: string) {
    forall i :: 0 <= i < |s| ==> !IsSpace(s[i])
  }

  predicate AllSpace(s: string) {
    forall i :: 0 <= i < |s| ==> IsSpace(s[i])
  }

  /** `s.startswith(p)` */
  predicate StartsWith(s: string, p: string) {
    |p| <= |s| && s[..|p|] == p
  }

  /** `p in s` for two strings: `p` occurs somewhere in `s`. */
  predicate Contains(s: string, p: string)
    decreases |s|
  {
    StartsWith(s, p) || (|s| > 0 && Contains(s[1..], p))
  }

  lemma {:induction false} ContainsAt(s: string, p: string, k: nat)
    requires k + |p| <= |s| && s[k..k + |p|] == p
    ensures Contains(s, p)
    decreases k
  {
    if k > 0 {
      assert s[1..][k - 1..k - 1 + |p|] == s[k..k + |p|];
      ContainsAt(s[1..], p, k - 1);
    }
  }

  lemma {:induction false} ContainsWitness(s: string, p: string) returns (k: nat)
    requires Contains(s, p)
    ensures k + |p| <= |s| && s[k..k + |p|] == p
    decreases |s|
  {
    if StartsWith(s, p) {
      k := 0;
    } else {
      var j := ContainsWitness(s[1..], p);
      k := j + 1;
      assert s[1..][j..j + |p|] == s[k..k + |p|];
    }
  }

  /** Whatever sits between `a` and `b` occurs in `a + x + b`. */
  lemma {:induction false} ContainsMiddle(a: string, x: string, b: string)
    ensures Contains(a + x + b, x)
  {
    assert (a + x + b)[|a|..|a| + |x|] == x;
    ContainsAt(a + x + b, x, |a|);
  }

  /** An occurrence inside a part is an occurrence in the whole. */
  lemma {:induction false} ContainsInPart(a: string, x: string, b: string, p: string)
    requires Contains(x, p)
    ensures Contains(a + x + b, p)
  {
    var k := ContainsWitness(x, p);
    assert (a + x + b)[|a| + k..|a| + k + |p|] == x[k..k + |p|];
    ContainsAt(a + x + b, p, |a| + k);
  }

  /** A text occurs in itself. */
  lemma {:induction false} ContainsSelf(p: string)
    ensures Contains(p, p)
  {
    assert p[0..|p|] == p;
    ContainsAt(p, p, 0);
  }

  /** An occurrence in a text is an occurrence in any extension of it. */
  lemma {:induction false} ContainsPrefix(s: string, u: string, p: string)
    requires Contains(s, p)
    ensures Contains(s + u, p)
  {
    var k := ContainsWitness(s, p);
    assert (s + u)[k..k + |p|] == s[k..k + |p|];
    ContainsAt(s + u, p, k);
  }

  /** An occurrence in a slice of `s` is an occurrence in `s`. */
  lemma {:induction false} ContainsSlice(s: string, i: nat, j: nat, p: string)
    requires i <= j <= |s| && Contains(s[i..j], p)
    ensures Contains(s, p)
  {
    assert s == s[..i] + s[i..j] + s[j..];
    ContainsInPart(s[..i], s[i..j], s[j..], p);
  }

  /**
   * Python's `s.replace(p, q)`: every occurrence of `p` found scanning from
   * the left, never overlapping an earlier one, is replaced by `q`.
   */
  function ReplaceAll(s: string, p: string, q: string): string
    requires |p| > 0
    decreases |s|
  {
    if StartsWith(s, p) then q + ReplaceAll(s[|p|..], p, q)
    else if |s| == 0 then ""
    else [s[0]] + ReplaceAll(s[1..], p, q)
  }

  /** Replacing a pattern that does not occur changes nothing. */
  lemma {:induction false} ReplaceAbsent(s: string, p: string, q: string)
    requires |p| > 0 && !Contains(s, p)
    ensures ReplaceAll(s, p, q) == s
    decreases |s|
  {
    if |s| > 0 {
      ReplaceAbsent(s[1..], p, q);
    }
  }

  /** When the pattern occurs, the replacement text appears in the result. */
  lemma {:induction false} ReplacePresent(s: string, p: string, q: string)
    requires |p| > 0 && Contains(s, p)
    ensures Contains(ReplaceAll(s, p, q), q)
    decreases |s|
  {
    if StartsWith(s, p) {
      ContainsMiddle([], q, ReplaceAll(s[|p|..], p, q));
      assert [] + q + ReplaceAll(s[|p|..], p, q) == ReplaceAll(s, p, q);
    } else {
      ReplacePresent(s[1..], p, q);
      ContainsInPart([s[0]], ReplaceAll(s[1..], p, q), [], q);
      assert [s[0]] + ReplaceAll(s[1..], p, q) + [] == ReplaceAll(s, p, q);
    }
  }

  /** Scanning a prefix that cannot start an occurrence copies it unchanged. */
  lemma {:induction false} ReplaceSkipsPrefix(a: string, b: string, p: string, q: string)
    requires |p| > 0 && p[0] !in a
    ensures ReplaceAll(a + b, p, q) == a + ReplaceAll(b, p, q)
    decreases |a|
  {
    if |a| > 0 {
      assert (a + b)[0] == a[0] && a[0] in a;
      assert !StartsWith(a + b, p);
      assert (a + b)[1..] == a[1..] + b;
      ReplaceSkipsPrefix(a[1..], b, p, q);
      calc {
        ReplaceAll(a + b, p, q);
        [a[0]] + ReplaceAll(a[1..] + b, p, q);
        [a[0]] + (a[1..] + ReplaceAll(b, p, q));
        { assert [a[0]] + a[1..] == a; }
        a + ReplaceAll(b, p, q);
      }
    } else {
      assert a + b == b;
    }
  }

  /** A text that disagrees with the start of `p` cannot start `p` however it continues. */
  lemma {:induction false} DisjointExtended(a: string, b: string, p: string)
    requires |a| > 0 && Disjoint(a, p)
    ensures !StartsWith(a + b, p)
  {
    if |a| <= |p| {
      assert (a + b)[..|a|] == a;
    } else {
      assert (a + b)[..|p|] == a[..|p|];
    }
  }

  /** One occurrence between texts that cannot start another is replaced, and nothing else changes. */
  lemma {:induction false} ReplaceOnce(a: string, p: string, q: string, b: string)
    requires |p| > 0 && p[0] !in a && p[0] !in b
    ensures ReplaceAll(a + p + b, p, q) == a + q + b
  {
    ReplaceSkipsPrefix(a, p + b, p, q);
    assert (p + b)[..|p|] == p && (p + b)[|p|..] == b;
    ReplaceSkipsPrefix(b, "", p, q);
    assert b + "" == b;
    Regroup(a, p, b);
  }

  /** One step of the scan: a character that cannot start `p` is copied. */
  lemma {:induction false} ReplaceCopiesHead(s: string, p: string, q: string)
    requires |p| > 0 && |s| > 0 && !StartsWith(s, p)
    ensures ReplaceAll(s, p, q) == [s[0]] + ReplaceAll(s[1..], p, q)
  {
  }

  /** Scanning a prefix none of whose tails agrees with the start of `p` copies it unchanged. */
  lemma {:induction false} ReplaceSkipsUnmatched(a: string, b: string, p: string, q: string)
    requires |p| > 0 && forall k :: 0 <= k < |a| ==> Disjoint(a[k..], p)
    ensures ReplaceAll(a + b, p, q) == a + ReplaceAll(b, p, q)
    decreases |a|
  {
    if |a| > 0 {
      assert Disjoint(a[0..], p) && a[0..] == a;
      DisjointExtended(a, b, p);
      ReplaceCopiesHead(a + b, p, q);
      forall k | 0 <= k < |a[1..]| ensures Disjoint(a[1..][k..], p) {
        assert a[1..][k..] == a[k + 1..];
      }
      assert (a + b)[1..] == a[1..] + b;
      ReplaceSkipsUnmatched(a[1..], b, p, q);
      assert [a[0]] + a[1..] == a;
      Regroup([a[0]], a[1..], ReplaceAll(b, p, q));
    } else {
      assert a + b == b;
    }
  }

  /** Replacing `p` keeps every occurrence of a text `x` that no occurrence of `p` can overlap. */
  lemma {:induction false} ReplaceKeepsOther(s: string, p: string, q: string, x: string)
    requires |p| > 0 && |x| > 0 && p[0] !in x && x[0] !in p && Contains(s, x)
    ensures Contains(ReplaceAll(s, p, q), x)
    decreases |s|
  {
    var k := ContainsWitness(s, x);
    assert s[k] == x[0];
    if StartsWith(s, p) {
      OtherAfterMatch(s, p, x, k);
      ReplaceKeepsOther(s[|p|..], p, q, x);
      ContainsInPart(q, ReplaceAll(s[|p|..], p, q), "", x);
      assert q + ReplaceAll(s[|p|..], p, q) + "" == ReplaceAll(s, p, q);
    } else if k == 0 {
      ReplaceKeepsHead(s, p, q, x);
    } else {
      assert s[1..][k - 1..k - 1 + |x|] == s[k..k + |x|];
      ContainsAt(s[1..], x, k - 1);
      ReplaceKeepsOther(s[1..], p, q, x);
      ContainsInPart([s[0]], ReplaceAll(s[1..], p, q), "", x);
      assert [s[0]] + ReplaceAll(s[1..], p, q) + "" == ReplaceAll(s, p, q);
    }
  }

  /** An occurrence of `x` that shares no character with `p` lies after a match of `p` at the head. */
  lemma {:induction false} OtherAfterMatch(s: string, p: string, x: string, k: nat)
    requires |x| > 0 && x[0] !in p && StartsWith(s, p)
    requires k + |x| <= |s| && s[k..k + |x|] == x
    ensures |p| <= k && Contains(s[|p|..], x)
  {
    assert s[k] == x[0];
    forall m | 0 <= m < |p| ensures s[m] == p[m] {
      assert s[..|p|][m] == s[m];
    }
    assert s[|p|..][k - |p|..k - |p| + |x|] == s[k..k + |x|];
    ContainsAt(s[|p|..], x, k - |p|);
  }

  /** `x` at the head of `s`, where `p` does not match, passes through the replacement unchanged. */
  lemma {:induction false} ReplaceKeepsHead(s: string, p: string, q: string, x: string)
    requires |p| > 0 && |x| > 0 && p[0] !in x && !StartsWith(s, p)
    requires |x| <= |s| && s[..|x|] == x
    ensures Contains(ReplaceAll(s, p, q), x)
  {
    var rest := s[|x|..];
    assert s[1..] == x[1..] + rest;
    ReplaceSkipsPrefix(x[1..], rest, p, q);
    assert ReplaceAll(s, p, q) == [s[0]] + x[1..] + ReplaceAll(rest, p, q);
    assert [s[0]] + x[1..] == x;
    ContainsMiddle([], x, ReplaceAll(rest, p, q));
    assert [] + x + ReplaceAll(rest, p, q) == ReplaceAll(s, p, q);
  }

  /** Replacing only brings in characters of the replacement. */
  lemma {:induction false} ReplaceChars(s: string, p: string, q: string)
    requires |p| > 0
    ensures forall c :: c in ReplaceAll(s, p, q) ==> c in s || c in q
    decreases |s|
  {
    if StartsWith(s, p) {
      ReplaceChars(s[|p|..], p, q);
      assert forall c :: c in s[|p|..] ==> c in s;
    } else if |s| > 0 {
      ReplaceChars(s[1..], p, q);
      assert forall c :: c in s[1..] ==> c in s;
    }
  }

  /** Neither string is a prefix of the other: they differ within their common length. */
  predicate Disjoint(a: string, b: string) {
    !StartsWith(a, b) && !StartsWith(b, a)
  }

  /**
   * No occurrence of `p` can straddle a copy of `q`: no tail of `q` agrees
   * with the start of `p`, and no proper tail of `p` agrees with the start
   * of `q`.
   */
  predicate Unoverlapping(p: string, q: string) {
    && |p| > 0
    && (forall k :: 0 <= k < |q| ==> Disjoint(q[k..], p))
    && (forall k :: 1 <= k < |p| ==> Disjoint(p[k..], q))
  }

  /** A text that cannot start an occurrence anywhere adds none in front of `x`. */
  lemma {:induction false} NotContainsAfter(a: string, x: string, p: string)
    requires |p| > 0 && !Contains(x, p)
    requires forall k :: 0 <= k < |a| ==> Disjoint(a[k..], p)
    ensures !Contains(a + x, p)
    decreases |a|
  {
    if |a| == 0 {
      assert a + x == x;
    } else {
      forall k | 0 <= k < |a[1..]| ensures Disjoint(a[1..][k..], p) {
        assert a[1..][k..] == a[k + 1..];
      }
      NotContainsAfter(a[1..], x, p);
      assert (a + x)[1..] == a[1..] + x;
      assert !StartsWith(a + x, p) by {
        assert a[0..] == a;
      }
    }
  }

  /** A result of the replacement that starts with a proper tail of `p` comes from a text that does. */
  lemma {:induction false} ReplaceKeepsStart(t: string, p: string, q: string, k: nat)
    requires Unoverlapping(p, q) && 1 <= k <= |p|
    requires StartsWith(ReplaceAll(t, p, q), p[k..])
    ensures StartsWith(t, p[k..])
    decreases |t|
  {
    var w := p[k..];
    if k == |p| {
      assert t[..0] == w;
    } else if StartsWith(t, p) {
      assert false;
    } else if |t| > 0 {
      var r := ReplaceAll(t[1..], p, q);
      assert ([t[0]] + r)[0] == w[0];
      assert r[..|w| - 1] == ([t[0]] + r)[..|w|][1..];
      assert p[k + 1..] == w[1..];
      ReplaceKeepsStart(t[1..], p, q, k + 1);
      assert t[..|w|] == [t[0]] + t[1..][..|w| - 1];
    }
  }

  /** Replacing `p` by a text it cannot overlap leaves no occurrence of `p`. */
  lemma {:induction false} ReplaceRemoves(s: string, p: string, q: string)
    requires Unoverlapping(p, q)
    ensures !Contains(ReplaceAll(s, p, q), p)
    decreases |s|
  {
    if StartsWith(s, p) {
      ReplaceRemoves(s[|p|..], p, q);
      NotContainsAfter(q, ReplaceAll(s[|p|..], p, q), p);
    } else if |s| > 0 {
      var t := ReplaceAll(s[1..], p, q);
      ReplaceRemoves(s[1..], p, q);
      if StartsWith([s[0]] + t, p) {
        assert ([s[0]] + t)[0] == p[0];
        if |p| > 1 {
          assert t[..|p| - 1] == ([s[0]] + t)[..|p|][1..];
          assert p[1..][..|p| - 1] == p[1..];
          ReplaceKeepsStart(s[1..], p, q, 1);
        }
        assert false;
      }
      assert ([s[0]] + t)[1..] == t;
    }
  }

  /** An occurrence of `b` in `a` carries every occurrence inside `b` along. */
  lemma {:induction false} ContainsTrans(a: string, b: string, c: string)
    requires Contains(a, b) && Contains(b, c)
    ensures Contains(a, c)
  {
    var i := ContainsWitness(a, b);
    assert a[i..i + |b|] == b;
    ContainsSlice(a, i, i + |b|, c);
  }

  /** Number of leading whitespace characters. */
  function SpaceRun(s: string): (n: nat)
    ensures n <= |s| && AllSpace(s[..n]) && (n < |s| ==> !IsSpace(s[n]))
    decreases |s|
  {
    if |s| > 0 && IsSpace(s[0]) then 1 + SpaceRun(s[1..]) else 0
  }

  /** Number of leading decimal digits. */
  function DigitRun(s: string): (n: nat)
    ensures n <= |s| && AllDigits(s[..n]) && (n < |s| ==> !IsDigit(s[n]))
    decreases |s|
  {
    if |s| > 0 && IsDigit(s[0]) then 1 + DigitRun(s[1..]) else 0
  }

  /** Number of leading characters that are not whitespace. */
  function WordRun(s: string): (n: nat)
    ensures n <= |s| && NoSpace(s[..n]) && (n < |s| ==> IsSpace(s[n]))
    decreases |s|
  {
    if |s| > 0 && !IsSpace(s[0]) then 1 + WordRun(s[1..]) else 0
  }

  /** Number of leading `\w` characters. */
  function WordCharRun(s: string): (n: nat)
    ensures n <= |s| && (forall i :: 0 <= i < n ==> IsWordChar(s[i])) && (n < |s| ==> !IsWordChar(s[n]))
    decreases |s|
  {
    if |s| > 0 && IsWordChar(s[0]) then 1 + WordCharRun(s[1..]) else 0
  }

  /** Position of the first `c` in `s`, or `|s|` when there is none. */
  function IndexOfChar(s: string, c: char): (n: nat)
    ensures n <= |s| && c !in s[..n] && (n < |s| ==> s[n] == c)
    decreases |s|
  {
    if |s| == 0 then 0
    else if s[0] == c then 0
    else
      var n := 1 + IndexOfChar(s[1..], c);
      assert s[..n] == [s[0]] + s[1..][..n - 1];
      n
  }

  /** `[^\n]*` from `k`: the text up to the end of the line, and where it ends. */
  function LineFrom(s: string, k: nat): (r: (string, nat))
    requires k <= |s|
    ensures k <= r.1 <= |s| && r.0 == s[k..r.1] && '\n' !in r.0
    ensures r.1 < |s| ==> s[r.1] == '\n'
  {
    var n := IndexOfChar(s[k..], '\n');
    (s[k..k + n], k + n)
  }

  lemma {:induction false} Regroup<T>(a: seq<T>, b: seq<T>, c: seq<T>)
    ensures a + (b + c) == a + b + c
  {
  }

  /** Dropping a prefix of the first part of a concatenation. */
  lemma {:induction false} DropAppend(a: string, b: string, n: nat)
    requires n <= |a|
    ensures (a + b)[n..] == a[n..] + b
  {
  }

  /** When `ch` does not occur in `c`, the first `ch` of `c + [ch] + rest` is the one after `c`. */
  lemma {:induction false} IndexOfCharAfter(c: string, ch: char, rest: string)
    requires ch !in c
    ensures IndexOfChar(c + [ch] + rest, ch) == |c|
    decreases |c|
  {
    if |c| > 0 {
      assert c[0] in c;
      assert (c + [ch] + rest)[1..] == c[1..] + [ch] + rest;
      IndexOfCharAfter(c[1..], ch, rest);
    }
  }

  /** Position of the first occurrence of `p` in `s`, or `|s|` when it does not occur. */
  function IndexOf(s: string, p: string): (n: nat)
    ensures n <= |s|
    ensures n < |s| || |p| == 0 ==> StartsWith(s[n..], p)
    decreases |s|
  {
    if StartsWith(s, p) then 0
    else if |s| == 0 then 0
    else 1 + IndexOf(s[1..], p)
  }

  /** `IndexOf` finds the first occurrence: none starts earlier. */
  lemma {:induction false} IndexOfFirst(s: string, p: string, k: nat)
    requires k < IndexOf(s, p)
    ensures !StartsWith(s[k..], p)
    decreases |s|
  {
    if k > 0 {
      assert s[1..][k - 1..] == s[k..];
      IndexOfFirst(s[1..], p, k - 1);
    }
  }

  /** `IndexOf` is `|s|` exactly when `p` does not occur (for a non-empty `p`). */
  lemma {:induction false} IndexOfAbsent(s: string, p: string)
    requires |p| > 0
    ensures IndexOf(s, p) == |s| <==> !Contains(s, p)
    decreases |s|
  {
    if |s| > 0 && !StartsWith(s, p) {
      IndexOfAbsent(s[1..], p);
    }
  }

  /** The first occurrence of `p` found by `IndexOf` leaves no occurrence before it. */
  lemma {:induction false} IndexOfPrefixFree(s: string, p: string)
    requires |p| > 0
    ensures !Contains(s[..IndexOf(s, p)], p)
  {
    var n := IndexOf(s, p);
    if Contains(s[..n], p) {
      var k := ContainsWitness(s[..n], p);
      assert s[k..][..|p|] == s[..n][k..k + |p|];
      IndexOfFirst(s, p, k);
      assert false;
    }
  }

  /** When the first character of `p` does not occur in `c`, `p` is first found right after `c`. */
  lemma {:induction false} IndexOfAfter(c: string, p: string, rest: string)
    requires |p| > 0 && p[0] !in c
    ensures IndexOf(c + p + rest, p) == |c|
    decreases |c|
  {
    var s := c + p + rest;
    if |c| == 0 {
      assert s[..|p|] == p;
    } else {
      assert s[0] == c[0] && c[0] in c;
      assert s[1..] == c[1..] + p + rest;
      IndexOfAfter(c[1..], p, rest);
    }
  }

  /** A digit run stops where the text stops being digits, so a non-digit tail does not extend it. */
  lemma {:induction false} DigitRunAppend(x: string, b: string)
    requires |b| > 0 ==> !IsDigit(b[0])
    ensures DigitRun(x + b) == DigitRun(x)
    decreases |x|
  {
    if |x| == 0 {
      assert x + b == b;
    } else if IsDigit(x[0]) {
      assert (x + b)[1..] == x[1..] + b;
      DigitRunAppend(x[1..], b);
    }
  }

  /** Position of the last `c` in `s`, or `|s|` when there is none. */
  function LastIndexOfChar(s: string, c: char): (n: nat)
    ensures n <= |s| && (n < |s| ==> s[n] == c && c !in s[n + 1..])
    ensures n == |s| ==> c !in s
    decreases |s|
  {
    if |s| == 0 then 0
    else if s[|s| - 1] == c then |s| - 1
    else
      var n := LastIndexOfChar(s[..|s| - 1], c);
      if n == |s| - 1 then
        assert s == s[..|s| - 1] + [s[|s| - 1]];
        |s|
      else
        assert s[n + 1..] == s[..|s| - 1][n + 1..] + [s[|s| - 1]];
        n
  }

  /** Python's `s.lstrip()`. */
  function LStrip(s: string): (r: string)
    ensures r == s[SpaceRun(s)..]
    decreases |s|
  {
    if |s| > 0 && IsSpace(s[0]) then LStrip(s[1..]) else s
  }

  /** Python's `s.rstrip()`. */
  function RStrip(s: string): (r: string)
    ensures |r| <= |s| && r == s[..|r|] && AllSpace(s[|r|..])
    ensures |r| > 0 ==> !IsSpace(r[|r| - 1])
    decreases |s|
  {
    if |s| > 0 && IsSpace(s[|s| - 1]) then
      var r := RStrip(s[..|s| - 1]);
      assert s[..|s| - 1][|r|..] + [s[|s| - 1]] == s[|r|..];
      r
    else s
  }

  /** Python's `s.strip()`: no whitespace at either end (what it removed is stated by `StripSlice`). */
  function Strip(s: string): (r: string)
    ensures |r| > 0 ==> !IsSpace(r[0]) && !IsSpace(r[|r| - 1])
  {
    RStrip(LStrip(s))
  }

  /** `s.strip()` is the slice of `s` between its leading and its trailing whitespace. */
  lemma {:induction false} StripSlice(s: string)
    ensures SpaceRun(s) + |Strip(s)| <= |s|
    ensures Strip(s) == s[SpaceRun(s)..SpaceRun(s) + |Strip(s)|]
    ensures AllSpace(s[..SpaceRun(s)]) && AllSpace(s[SpaceRun(s) + |Strip(s)|..])
  {
    var i := SpaceRun(s);
    var t := LStrip(s);
    var r := RStrip(t);
    assert t == s[i..] && r == t[..|r|];
  }

  /** Where `strip()` cuts `s`. */
  lemma {:induction false} StripBounds(s: string) returns (i: nat, j: nat)
    ensures i <= j <= |s| && Strip(s) == s[i..j]
    ensures AllSpace(s[..i]) && AllSpace(s[j..])
  {
    StripSlice(s);
    i := SpaceRun(s);
    j := i + |Strip(s)|;
  }

  /** A window of `s` that starts and ends in non-space characters lies between whitespace ends. */
  lemma {:induction false} WindowInside(s: string, i: nat, j: nat, k: nat, n: nat)
    requires i <= j <= |s| && AllSpace(s[..i]) && AllSpace(s[j..])
    requires 0 < n && k + n <= |s| && !IsSpace(s[k]) && !IsSpace(s[k + n - 1])
    ensures i <= k && k + n <= j
  {
    forall m | 0 <= m < i ensures IsSpace(s[m]) {
      assert s[..i][m] == s[m];
    }
    forall m | j <= m < |s| ensures IsSpace(s[m]) {
      assert s[j..][m - j] == s[m];
    }
  }

  /** A window of a slice is a window of the whole. */
  lemma {:induction false} SliceWindow(s: string, i: nat, j: nat, k: nat, n: nat)
    requires i <= k && k + n <= j <= |s|
    ensures s[i..j][k - i..k - i + n] == s[k..k + n]
  {
    var t := s[i..j];
    var u, w := t[k - i..k - i + n], s[k..k + n];
    forall m | 0 <= m < n ensures u[m] == w[m] {
      assert t[k - i + m] == s[k + m];
    }
  }

  /** Cutting whitespace off both ends keeps every occurrence of a pattern with non-space ends. */
  lemma {:induction false} TrimKeepsContains(s: string, i: nat, j: nat, p: string)
    requires i <= j <= |s| && AllSpace(s[..i]) && AllSpace(s[j..])
    requires Contains(s, p) && |p| > 0 && !IsSpace(p[0]) && !IsSpace(p[|p| - 1])
    ensures Contains(s[i..j], p)
  {
    var k := ContainsWitness(s, p);
    assert s[k..k + |p|][0] == s[k] && s[k..k + |p|][|p| - 1] == s[k + |p| - 1];
    WindowInside(s, i, j, k, |p|);
    SliceWindow(s, i, j, k, |p|);
    ContainsAt(s[i..j], p, k - i);
  }

  /** Stripping keeps every occurrence of a pattern that neither starts nor ends with whitespace. */
  lemma {:induction false} StripKeepsContains(s: string, p: string)
    requires Contains(s, p) && |p| > 0 && !IsSpace(p[0]) && !IsSpace(p[|p| - 1])
    ensures Contains(Strip(s), p)
  {
    var i, j := StripBounds(s);
    TrimKeepsContains(s, i, j, p);
  }

  /** `s.strip()` is empty exactly for an all-whitespace text. */
  lemma {:induction false} StripEmpty(s: string)
    ensures Strip(s) == "" <==> AllSpace(s)
  {
    var i, j := StripBounds(s);
    var r := Strip(s);
    if r == "" {
      assert s == s[..i] + s[j..];
    }
    if AllSpace(s) {
      assert i < |s| ==> IsSpace(s[i]);
    }
  }

  /** An occurrence of a non-empty pattern needs a non-empty text. */
  lemma {:induction false} ContainsNonEmpty(s: string, p: string)
    requires Contains(s, p) && |p| > 0
    ensures |s| > 0
  {
    var k := ContainsWitness(s, p);
  }

  /** `s.endswith(p)` */
  predicate EndsWith(s: string, p: string) {
    |p| <= |s| && s[|s| - |p|..] == p
  }

  /** A text that ends in a non-space is its own `rstrip()`. */
  lemma {:induction false} RStripKeeps(s: string)
    requires |s| > 0 && !IsSpace(s[|s| - 1])
    ensures RStrip(s) == s
  {
  }

  /** `rstrip()` removes trailing whitespace and nothing before it. */
  lemma {:induction false} RStripSpaces(s: string, w: string)
    requires AllSpace(w)
    ensures RStrip(s + w) == RStrip(s)
    decreases |w|
  {
    if |w| == 0 {
      assert s + w == s;
    } else {
      assert (s + w)[..|s + w| - 1] == s + w[..|w| - 1];
      RStripSpaces(s, w[..|w| - 1]);
    }
  }

  /** `rstrip()` keeps a prefix that ends in a non-space. */
  lemma {:induction false} RStripKeepsPrefix(s: string, p: string)
    requires StartsWith(s, p) && |p| > 0 && !IsSpace(p[|p| - 1])
    ensures StartsWith(RStrip(s), p)
  {
    var r := RStrip(s);
    assert forall m :: |r| <= m < |s| ==> IsSpace(s[m]) by {
      forall m | |r| <= m < |s| ensures IsSpace(s[m]) {
        assert s[|r|..][m - |r|] == s[m];
      }
    }
    assert s[|p| - 1] == p[|p| - 1];
    assert r[..|p|] == s[..|p|];
  }

  /** Stripping a string that has no whitespace at its ends changes nothing. */
  lemma {:induction false} StripTrimmed(s: string)
    requires |s| > 0 ==> !IsSpace(s[0]) && !IsSpace(s[|s| - 1])
    ensures Strip(s) == s
  {
  }

  /** Python's `s.split()`: the maximal runs of non-whitespace characters, in order. */
  function Words(s: string): (ws: seq<string>)
    ensures forall i :: 0 <= i < |ws| ==> |ws[i]| > 0 && NoSpace(ws[i])
    decreases |s|
  {
    var t := LStrip(s);
    if |t| == 0 then []
    else
      var n := WordRun(t);
      assert n > 0 by { assert !IsSpace(t[0]); }
      var rest := Words(t[n..]);
      assert |t[..n]| > 0 && NoSpace(t[..n]);
      WordsCons(t[..n], rest);
      [t[..n]] + rest
  }

  lemma {:induction false} WordsCons(w: string, ws: seq<string>)
    requires |w| > 0 && NoSpace(w)
    requires forall i :: 0 <= i < |ws| ==> |ws[i]| > 0 && NoSpace(ws[i])
    ensures forall i :: 0 <= i < |[w] + ws| ==> |([w] + ws)[i]| > 0 && NoSpace(([w] + ws)[i])
  {
  }

  /** `sep.join(xs)` */
  function Join(xs: seq<string>, sep: string): string {
    if |xs| == 0 then ""
    else if |xs| == 1 then xs[0]
    else xs[0] + sep + Join(xs[1..], sep)
  }

  /** Joining one more piece puts one separator and the piece at the end. */
  lemma {:induction false} JoinSnoc(xs: seq<string>, x: string, sep: string)
    requires |xs| > 0
    ensures Join(xs + [x], sep) == Join(xs, sep) + sep + x
    decreases |xs|
  {
    var ys := xs + [x];
    if |xs| == 1 {
      assert ys[1..] == [x];
    } else {
      assert ys[1..] == xs[1..] + [x];
      JoinSnoc(xs[1..], x, sep);
      AppendAssoc3(xs[0], sep, Join(xs[1..], sep), sep + x);
    }
  }

  lemma {:induction false} AppendAssoc3(a: string, b: string, c: string, d: string)
    ensures a + b + (c + d) == (a + b + c) + d
  {
  }

  /** Python's `int(s)` for a run of ASCII digits. */
  function ParseNat(s: string): nat
    requires AllDigits(s)
  {
    if |s| == 0 then 0
    else ParseNat(s[..|s| - 1]) * 10 + (s[|s| - 1] as int - '0' as int)
  }

  function DigitChar(d: nat): char
    requires d < 10
  {
    ('0' as int + d) as char
  }

  /** `str(n)` for a natural number. */
  function NatToString(n: nat): (r: string)
    ensures |r| > 0 && AllDigits(r)
    ensures ParseNat(r) == n
  {
    if n < 10 then [DigitChar(n)]
    else
      var r := NatToString(n / 10) + [DigitChar(n % 10)];
      assert r[..|r| - 1] == NatToString(n / 10);
      r
  }

  /** `str(i)` for an integer. */
  function IntToString(i: int): string {
    if i < 0 then "-" + NatToString(-i) else NatToString(i)
  }

  /** `f"{n:02d}"`: at least two digits, zero padded. */
  function Pad2(n: nat): (r: string)
    ensures |r| >= 2 && AllDigits(r) && ParseNat(r) == n
  {
    var r := if n < 10 then "0" + NatToString(n) else NatToString(n);
    assert n < 10 ==> r[..|r| - 1] == "0";
    r
  }

  /** ASCII case folding as `str.lower()` performs it on ASCII letters. */
  function LowerChar(c: char): char {
    if 'A' <= c <= 'Z' then (c as int + 32) as char else c
  }

  function Lower(s: string): (r: string)
    ensures |r| == |s| && forall i :: 0 <= i < |s| ==> r[i] == LowerChar(s[i])
  {
    seq(|s|, i requires 0 <= i < |s| => LowerChar(s[i]))
  }

  /** `s.split(c)[0]`: everything before the first `c`. */
  function BeforeChar(s: string, c: char): (r: string)
    ensures r == s[..IndexOfChar(s, c)] && c !in r
  {
    s[..IndexOfChar(s, c)]
  }
}
