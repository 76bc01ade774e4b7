/**
 * The script generator of `generate_script.py`: the parameter defaults that
 * shape the request, the `findall` over `[NEW CONCEPT] … [END CONCEPT|| Scene
 * description: … ]` blocks that turns a script into narrations and scene
 * descriptions, and the three-concept script used when the request fails.
 * The request itself is a parameter: `Some(text)` is the model's reply,
 * `None` an exception.
 */
module GenerateScript {
  import opened Wrappers
  import opened Text

  /** Sophistication levels other than 1, 2 and 3 fall back to 2. */
  function Level(level: int): (r: int)
    ensures r in {1, 2, 3}
    ensures level in {1, 2, 3} <==> r == level
  {
    if level in {1, 2, 3} then level else 2
  }

  /** The number of concepts asked for: 3, 5 or 7 up to that many minutes, 10 beyond. */
  function ConceptCount(durationMinutes: int): (n: int)
    ensures n in {3, 5, 7, 10}
    ensures durationMinutes <= 3 <==> n == 3
    ensures n == 10 <==> durationMinutes > 7
  {
    if durationMinutes <= 3 then 3
    else if durationMinutes <= 5 then 5
    else if durationMinutes <= 7 then 7
    else 10
  }

  /** Longer videos never ask for fewer concepts. */
  lemma {:induction false} ConceptCountMonotone(d1: int, d2: int)
    requires d1 <= d2
    ensures ConceptCount(d1) <= ConceptCount(d2)
  {
  }

  const NewMarker: string := "[NEW CONCEPT]"
  const EndMarker: string := "[END CONCEPT|| Scene description: "

  datatype Concept = Concept(narration: string, scene: string)

  /** A concept matched after the start marker, with the number of characters the match used. */
  datatype Found = Found(concept: Concept, len: nat)

  /**
   * The scan below is written for any pair of markers that open with `[`;
   * `extract_concepts` uses `NewMarker` and `EndMarker`.
   */
  predicate MarkersOk(start: string, end: string) {
    |start| > 0 && |end| > 0 && start[0] == '[' && end[0] == '['
  }

  lemma {:induction false} ConceptMarkersOk()
    ensures MarkersOk(NewMarker, EndMarker)
  {
  }

  /** The text a concept block occupies in a script. */
  function BlockOf(c: Concept, start: string, end: string): string {
    start + c.narration + end + c.scene + "]"
  }

  function Block(c: Concept): string {
    BlockOf(c, NewMarker, EndMarker)
  }

  /**
   * `t` opens with a narration, the end marker, a scene description and `]`,
   * together `n` characters long, where the narration holds no end marker
   * and the description no `]`: the lazy groups stopped at the first of each.
   */
  predicate ConceptFits(t: string, end: string, c: Concept, n: nat) {
    n <= |t| && t[..n] == c.narration + end + c.scene + "]"
    && !Contains(c.narration, end) && ']' !in c.scene
  }

  /**
   * What the pattern matches once the start marker has been read: the
   * narration runs lazily to the first end marker and the scene description
   * lazily to the first `]` after it; the number is how much of `t` the match
   * used.
   */
  function ConceptAfter(t: string, end: string): (r: Option<Found>)
    requires |end| > 0
  {
    var k := IndexOf(t, end);
    if k == |t| then None else ConceptFrom(t, end, k)
  }

  /** The rest of the match once the end marker is found at `k`: the description runs to the first `]`. */
  function ConceptFrom(t: string, end: string, k: nat): Option<Found>
    requires k + |end| <= |t|
  {
    var after := t[k + |end|..];
    var m := IndexOfChar(after, ']');
    if m == |after| then None
    else Some(Found(Concept(t[..k], after[..m]), k + |end| + m + 1))
  }

  /** No concept is matched exactly when the end marker is missing or no `]` follows it. */
  lemma {:induction false} ConceptAfterNone(t: string, end: string)
    requires |end| > 0
    ensures ConceptAfter(t, end).None? <==>
      IndexOf(t, end) == |t| || ']' !in t[IndexOf(t, end) + |end|..]
  {
    var k := IndexOf(t, end);
    if k < |t| {
      var after := t[k + |end|..];
      var m := IndexOfChar(after, ']');
      assert m < |after| ==> after[m] == ']';
      assert m == |after| ==> after[..m] == after;
    }
  }

  /** A concept `ConceptAfter` reports is a lazy match at the head of the text. */
  lemma {:induction false} ConceptAfterFits(t: string, end: string)
    requires |end| > 0
    ensures var r := ConceptAfter(t, end); r.Some? ==> ConceptFits(t, end, r.value.concept, r.value.len)
  {
    var k := IndexOf(t, end);
    if k < |t| {
      var m := IndexOfChar(t[k + |end|..], ']');
      if m < |t[k + |end|..]| {
        ConceptSplit(t, end, k, m);
        ConceptAfterFound(t, end, k, m);
      }
    }
  }

  lemma {:induction false} ConceptSplit(t: string, end: string, k: nat, m: nat)
    requires |end| > 0 && k == IndexOf(t, end) < |t|
    requires m == IndexOfChar(t[k + |end|..], ']') < |t[k + |end|..]|
    ensures ConceptFits(t, end, Concept(t[..k], t[k + |end|..][..m]), k + |end| + m + 1)
  {
    IndexOfPrefixFree(t, end);
    var after := t[k + |end|..];
    assert t[k..][..|end|] == end;
    ThreeSlices(t, k, k + |end|, k + |end| + m + 1);
    assert t[k + |end|..k + |end| + m + 1] == after[..m + 1];
    assert after[..m + 1] == after[..m] + "]";
  }

  /** `t[..l]` is the concatenation of the slices cut at `i` and `j`. */
  lemma {:induction false} ThreeSlices(t: string, i: nat, j: nat, l: nat)
    requires i <= j <= l <= |t|
    ensures t[..l] == t[..i] + t[i..j] + t[j..l] && t[i..j] == t[i..][..j - i]
  {
  }

  /** Every concept in `cs` is a block of `t`, with no end marker in its narration and no `]` in its description. */
  predicate AllFound(t: string, cs: seq<Concept>, start: string, end: string) {
    forall i :: 0 <= i < |cs| ==>
      Contains(t, BlockOf(cs[i], start, end))
      && !Contains(cs[i].narration, end) && ']' !in cs[i].scene
  }

  lemma {:induction false} FoundInSuffix(t: string, k: nat, cs: seq<Concept>, start: string, end: string)
    requires k <= |t| && AllFound(t[k..], cs, start, end)
    ensures AllFound(t, cs, start, end)
  {
    assert t[k..|t|] == t[k..];
    forall i | 0 <= i < |cs|
      ensures Contains(t, BlockOf(cs[i], start, end))
    {
      ContainsSlice(t, k, |t|, BlockOf(cs[i], start, end));
    }
  }

  /**
   * `re.findall` of the concept pattern with `re.DOTALL`: a match is tried at
   * every position from the left and the scan resumes after each match.
   */
  function Scan(t: string, start: string, end: string): (cs: seq<Concept>)
    requires MarkersOk(start, end)
    ensures AllFound(t, cs, start, end)
    ensures |cs| > 0 ==> Contains(t, start)
    decreases |t|
  {
    if |t| == 0 then []
    else if StartsWith(t, start) && ConceptAfter(t[|start|..], end).Some? then
      var c := ConceptAfter(t[|start|..], end).value.concept;
      var n := ConceptAfter(t[|start|..], end).value.len;
      var more := Scan(t[|start| + n..], start, end);
      ConceptAfterFits(t[|start|..], end);
      ScanStep(t, start, end, c, n);
      HeadContained(BlockOf(c, start, end), t[|start| + n..]);
      FoundInSuffix(t, |start| + n, more, start, end);
      FoundCons(t, c, more, start, end);
      [c] + more
    else
      var cs := Scan(t[1..], start, end);
      FoundInSuffix(t, 1, cs, start, end);
      cs
  }

  lemma {:induction false} FoundCons(t: string, c: Concept, more: seq<Concept>, start: string, end: string)
    requires Contains(t, BlockOf(c, start, end)) && !Contains(c.narration, end) && ']' !in c.scene
    requires AllFound(t, more, start, end)
    ensures AllFound(t, [c] + more, start, end)
  {
  }

  /** A match found at the head of `t` is a block of `t`. */
  lemma {:induction false} ScanStep(t: string, start: string, end: string, c: Concept, n: nat)
    requires StartsWith(t, start) && |start| + n <= |t|
    requires t[|start|..][..n] == c.narration + end + c.scene + "]"
    ensures t == BlockOf(c, start, end) + t[|start| + n..]
  {
    var m := |start| + n;
    assert BlockOf(c, start, end) == start + t[|start|..][..n];
    assert t[..m] == t[..|start|] + t[|start|..][..n];
    assert t == t[..m] + t[m..];
  }

  lemma {:induction false} HeadContained(b: string, rest: string)
    ensures Contains(b + rest, b)
  {
    ContainsSelf(b);
    ContainsPrefix(b, rest, b);
  }

  function Matches(t: string): (cs: seq<Concept>)
    ensures AllFound(t, cs, NewMarker, EndMarker)
    ensures |cs| > 0 ==> Contains(t, NewMarker)
  {
    ConceptMarkersOk();
    Scan(t, NewMarker, EndMarker)
  }

  /** The stripped narrations of `cs`, in order. */
  function Narrations(cs: seq<Concept>): (ns: seq<string>)
    ensures |ns| == |cs| && forall i :: 0 <= i < |cs| ==> ns[i] == Strip(cs[i].narration)
  {
    if |cs| == 0 then [] else [Strip(cs[0].narration)] + Narrations(cs[1..])
  }

  /** The stripped scene descriptions of `cs`, in order. */
  function Scenes(cs: seq<Concept>): (ss: seq<string>)
    ensures |ss| == |cs| && forall i :: 0 <= i < |cs| ==> ss[i] == Strip(cs[i].scene)
  {
    if |cs| == 0 then [] else [Strip(cs[0].scene)] + Scenes(cs[1..])
  }

  /**
   * `extract_concepts`: the stripped narrations and the stripped scene
   * descriptions, paired by position.
   */
  function ExtractConcepts(script: string): (r: (seq<string>, seq<string>))
    ensures |r.0| == |r.1| == |Matches(script)|
    ensures forall i :: 0 <= i < |r.0| ==> r.0[i] == Strip(Matches(script)[i].narration)
    ensures forall i :: 0 <= i < |r.1| ==> r.1[i] == Strip(Matches(script)[i].scene)
  {
    var cs := Matches(script);
    (Narrations(cs), Scenes(cs))
  }

  /** A text without `[NEW CONCEPT]` yields no concepts. */
  lemma {:induction false} NoMarkerNoConcepts(t: string)
    requires !Contains(t, NewMarker)
    ensures ExtractConcepts(t) == ([], [])
  {
  }

  /** A concept whose narration has no `[` and whose description has no `]` reads back as written. */
  predicate WellFormed(c: Concept) {
    '[' !in c.narration && ']' !in c.scene
  }

  /** Text free of `[` starts no match, so the scan passes over it. */
  lemma {:induction false} SkipPlain(a: string, rest: string, start: string, end: string)
    requires MarkersOk(start, end) && '[' !in a
    ensures Scan(a + rest, start, end) == Scan(rest, start, end)
    decreases |a|
  {
    if |a| > 0 {
      assert (a + rest)[0] == a[0];
      assert !StartsWith(a + rest, start);
      assert (a + rest)[1..] == a[1..] + rest;
      SkipPlain(a[1..], rest, start, end);
    } else {
      assert a + rest == rest;
    }
  }

  /** After the start marker, a well-formed concept's text is matched as exactly that concept. */
  lemma {:induction false} ConceptAfterBlock(c: Concept, rest: string, end: string)
    requires |end| > 0 && end[0] == '[' && WellFormed(c)
    ensures ConceptAfter(c.narration + end + (c.scene + "]" + rest), end)
      == Some(Found(c, |c.narration| + |end| + |c.scene| + 1))
  {
    var tail := c.scene + "]" + rest;
    var u := c.narration + end + tail;
    IndexOfAfter(c.narration, end, tail);
    BlockSlices(c.narration, end, c.scene, rest);
    IndexOfCharAfter(c.scene, ']', rest);
    ConceptAfterAt(u, end, c, tail);
  }

  /** The end marker found right after the narration and the `]` right after the description: the match is the concept. */
  lemma {:induction false} ConceptAfterAt(u: string, end: string, c: Concept, tail: string)
    requires |end| > 0 && IndexOf(u, end) == |c.narration| < |u|
    requires |c.narration| + |end| <= |u| && u[..|c.narration|] == c.narration
    requires u[|c.narration| + |end|..] == tail
    requires IndexOfChar(tail, ']') == |c.scene| < |tail| && tail[..|c.scene|] == c.scene
    ensures ConceptAfter(u, end) == Some(Found(c, |c.narration| + |end| + |c.scene| + 1))
  {
    ConceptAfterFound(u, end, |c.narration|, |c.scene|);
  }

  /** The slices of a block's text that hold its narration, its description and what follows the marker. */
  lemma {:induction false} BlockSlices(n: string, end: string, sc: string, rest: string)
    ensures var u := n + end + (sc + "]" + rest);
      && u[..|n|] == n && u[|n| + |end|..] == sc + "]" + rest
      && (sc + "]" + rest)[..|sc|] == sc
  {
    var u := n + end + (sc + "]" + rest);
    assert u[..|n|] == n;
    assert u[|n| + |end|..] == sc + "]" + rest;
  }

  /** Where the end marker and the closing bracket are found, the concept is the text around them. */
  lemma {:induction false} ConceptAfterFound(t: string, end: string, k: nat, m: nat)
    requires |end| > 0 && k == IndexOf(t, end) < |t|
    requires m == IndexOfChar(t[k + |end|..], ']') < |t[k + |end|..]|
    ensures ConceptAfter(t, end) == Some(Found(Concept(t[..k], t[k + |end|..][..m]), k + |end| + m + 1))
  {
    assert ConceptAfter(t, end) == ConceptFrom(t, end, k);
  }

  /** A well-formed block is read back as exactly its concept, and the scan goes on after it. */
  lemma {:induction false} BlockReadsBack(c: Concept, rest: string, start: string, end: string)
    requires MarkersOk(start, end) && WellFormed(c)
    ensures Scan(BlockOf(c, start, end) + rest, start, end) == [c] + Scan(rest, start, end)
  {
    var t := BlockOf(c, start, end) + rest;
    var u := c.narration + end + (c.scene + "]" + rest);
    var n := |c.narration| + |end| + |c.scene| + 1;
    assert t[|start|..] == u && StartsWith(t, start) by {
      assert t == start + u;
    }
    ConceptAfterBlock(c, rest, end);
    assert t[|start| + n..] == rest by {
      assert |BlockOf(c, start, end)| == |start| + n;
    }
  }

  /** Concepts written one after another, each block followed by a blank line. */
  function RenderWith(cs: seq<Concept>, start: string, end: string): string {
    if |cs| == 0 then "" else BlockOf(cs[0], start, end) + "\n\n" + RenderWith(cs[1..], start, end)
  }

  function Render(cs: seq<Concept>): string {
    RenderWith(cs, NewMarker, EndMarker)
  }

  lemma {:induction false} RenderScansBack(cs: seq<Concept>, start: string, end: string)
    requires MarkersOk(start, end)
    requires forall i :: 0 <= i < |cs| ==> WellFormed(cs[i])
    ensures Scan(RenderWith(cs, start, end), start, end) == cs
  {
    if |cs| > 0 {
      var tail := RenderWith(cs[1..], start, end);
      assert RenderWith(cs, start, end) == BlockOf(cs[0], start, end) + ("\n\n" + tail);
      BlockReadsBack(cs[0], "\n\n" + tail, start, end);
      SkipPlain("\n\n", tail, start, end);
      RenderScansBack(cs[1..], start, end);
    } else {
      assert Scan("", start, end) == [];
    }
  }

  /** Extraction inverts rendering: the concepts come back in order. */
  lemma {:induction false} RenderReadsBack(cs: seq<Concept>)
    requires forall i :: 0 <= i < |cs| ==> WellFormed(cs[i])
    ensures Matches(Render(cs)) == cs
  {
    ConceptMarkersOk();
    RenderScansBack(cs, NewMarker, EndMarker);
  }

  /** With trimmed fields, `extract_concepts` returns exactly the rendered narrations and descriptions. */
  lemma {:induction false} ExtractRendered(cs: seq<Concept>)
    requires forall i :: 0 <= i < |cs| ==> WellFormed(cs[i])
    requires forall i :: 0 <= i < |cs| ==> Trimmed(cs[i].narration) && Trimmed(cs[i].scene)
    ensures var (ns, ss) := ExtractConcepts(Render(cs));
      |ns| == |ss| == |cs|
      && forall i :: 0 <= i < |cs| ==> ns[i] == cs[i].narration && ss[i] == cs[i].scene
  {
    RenderReadsBack(cs);
    forall i | 0 <= i < |cs|
      ensures Strip(cs[i].narration) == cs[i].narration && Strip(cs[i].scene) == cs[i].scene
    {
      StripTrimmed(cs[i].narration);
      StripTrimmed(cs[i].scene);
    }
  }

  /** No whitespace at either end. */
  predicate Trimmed(s: string) {
    |s| > 0 ==> !IsSpace(s[0]) && !IsSpace(s[|s| - 1])
  }

  // The fallback script, one concept per block; the topic is spliced into three narrations and one description.

  const Welcome: string := "Welcome to this introduction to "
  const Title: string := "Show a title screen with \""
  const Thanks: string := "Thank you for learning about "

  // The longer texts are kept in pieces of at most forty characters.
  const WelcomeEndA: string := ". This is an important concept in "
  const WelcomeEndB: string := "mathematics that has many applications."
  const TitleEndA: string := "\" in large blue text on a white "
  const TitleEndB: string := "background. Include relevant "
  const TitleEndC: string := "mathematical symbols or simple "
  const TitleEndD: string := "illustrations around the title."
  const BasicsA: string := "Let's start by understanding the basic "
  const BasicsB: string := "definition and key properties of "
  const ThanksEndA: string := " with us today. We hope this "
  const ThanksEndB: string := "introduction has been helpful."
  const Scene2A: string := "Create a simple diagram illustrating "
  const Scene2B: string := "the core concept with labels for key "
  const Scene2C: string := "components. Use different colors to "
  const Scene2D: string := "highlight important elements."
  const Scene3A: string := "Show a summary screen with the key "
  const Scene3B: string := "points covered, using bullet points and "
  const Scene3C: string := "a small illustration of the main "
  const Scene3D: string := "concept."

  function WelcomeEnd(): string { WelcomeEndA + WelcomeEndB }
  function TitleEnd(): string { TitleEndA + TitleEndB + TitleEndC + TitleEndD }
  function Basics(): string { BasicsA + BasicsB }
  function ThanksEnd(): string { ThanksEndA + ThanksEndB }

  function FallbackNarration1(topic: string): string {
    Welcome + topic + WelcomeEnd()
  }

  function FallbackScene1(topic: string): string {
    Title + topic + TitleEnd()
  }

  function FallbackNarration2(topic: string): string {
    Basics() + topic + "."
  }

  function FallbackScene2(): string { Scene2A + Scene2B + Scene2C + Scene2D }

  function FallbackNarration3(topic: string): string {
    Thanks + topic + ThanksEnd()
  }

  function FallbackScene3(): string { Scene3A + Scene3B + Scene3C + Scene3D }

  /** The script used when the request fails; each narration sits on its own line. */
  function FallbackScript(topic: string): string {
    Block(Concept("\n" + FallbackNarration1(topic) + "\n", FallbackScene1(topic))) + "\n\n"
    + (Block(Concept("\n" + FallbackNarration2(topic) + "\n", FallbackScene2())) + "\n\n"
    + (Block(Concept("\n" + FallbackNarration3(topic) + "\n", FallbackScene3())) + "\n"))
  }

  predicate Plain(s: string) {
    '[' !in s && ']' !in s
  }

  lemma {:induction false} WelcomePlain() ensures Plain(Welcome) {}
  lemma {:induction false} TitlePlain() ensures Plain(Title) {}
  lemma {:induction false} ThanksPlain() ensures Plain(Thanks) {}
  lemma {:induction false} WelcomeEndAPlain() ensures Plain(WelcomeEndA) {}
  lemma {:induction false} WelcomeEndBPlain() ensures Plain(WelcomeEndB) {}
  lemma {:induction false} TitleEndAPlain() ensures Plain(TitleEndA) {}
  lemma {:induction false} TitleEndBPlain() ensures Plain(TitleEndB) {}
  lemma {:induction false} TitleEndCPlain() ensures Plain(TitleEndC) {}
  lemma {:induction false} TitleEndDPlain() ensures Plain(TitleEndD) {}
  lemma {:induction false} BasicsAPlain() ensures Plain(BasicsA) {}
  lemma {:induction false} BasicsBPlain() ensures Plain(BasicsB) {}
  lemma {:induction false} ThanksEndAPlain() ensures Plain(ThanksEndA) {}
  lemma {:induction false} ThanksEndBPlain() ensures Plain(ThanksEndB) {}
  lemma {:induction false} Scene2APlain() ensures Plain(Scene2A) {}
  lemma {:induction false} Scene2BPlain() ensures Plain(Scene2B) {}
  lemma {:induction false} Scene2CPlain() ensures Plain(Scene2C) {}
  lemma {:induction false} Scene2DPlain() ensures Plain(Scene2D) {}
  lemma {:induction false} Scene3APlain() ensures Plain(Scene3A) {}
  lemma {:induction false} Scene3BPlain() ensures Plain(Scene3B) {}
  lemma {:induction false} Scene3CPlain() ensures Plain(Scene3C) {}
  lemma {:induction false} Scene3DPlain() ensures Plain(Scene3D) {}

  lemma {:induction false} WelcomeEndPlain() ensures Plain(WelcomeEnd()) {
    WelcomeEndAPlain();
    WelcomeEndBPlain();
  }
  lemma {:induction false} TitleEndPlain() ensures Plain(TitleEnd()) {
    TitleEndAPlain();
    TitleEndBPlain();
    TitleEndCPlain();
    TitleEndDPlain();
  }
  lemma {:induction false} BasicsPlain() ensures Plain(Basics()) {
    BasicsAPlain();
    BasicsBPlain();
  }
  lemma {:induction false} ThanksEndPlain() ensures Plain(ThanksEnd()) {
    ThanksEndAPlain();
    ThanksEndBPlain();
  }
  lemma {:induction false} Scene2Plain() ensures Plain(FallbackScene2()) {
    Scene2APlain();
    Scene2BPlain();
    Scene2CPlain();
    Scene2DPlain();
  }
  lemma {:induction false} Scene3Plain() ensures Plain(FallbackScene3()) {
    Scene3APlain();
    Scene3BPlain();
    Scene3CPlain();
    Scene3DPlain();
  }

  /** Two texts around a bracket-free middle, between line breaks, hold no bracket. */
  lemma {:induction false} SplicedPlain(a: string, m: string, b: string)
    requires '[' !in a && ']' !in a && '[' !in m && ']' !in m && '[' !in b && ']' !in b
    ensures '[' !in "\n" + a + m + b + "\n" && ']' !in "\n" + a + m + b + "\n"
    ensures '[' !in a + m + b && ']' !in a + m + b
  {
  }

  /** The fallback's narrations and descriptions hold no bracket besides the topic's. */
  lemma {:induction false} FallbackWellFormed(topic: string)
    requires '[' !in topic && ']' !in topic
    ensures WellFormed(Concept("\n" + FallbackNarration1(topic) + "\n", FallbackScene1(topic)))
    ensures WellFormed(Concept("\n" + FallbackNarration2(topic) + "\n", FallbackScene2()))
    ensures WellFormed(Concept("\n" + FallbackNarration3(topic) + "\n", FallbackScene3()))
  {
    WelcomePlain();
    TitlePlain();
    ThanksPlain();
    WelcomeEndPlain();
    TitleEndPlain();
    BasicsPlain();
    ThanksEndPlain();
    Scene2Plain();
    Scene3Plain();
    SplicedPlain(Welcome, topic, WelcomeEnd());
    SplicedPlain(Title, topic, TitleEnd());
    SplicedPlain(Basics(), topic, ".");
    SplicedPlain(Thanks, topic, ThanksEnd());
  }

  /** A well-formed block followed by bracket-free text is read back, and the scan goes on after both. */
  lemma {:induction false} BlockThenPlain(c: Concept, gap: string, rest: string, start: string, end: string)
    requires MarkersOk(start, end) && WellFormed(c) && '[' !in gap
    ensures Scan(BlockOf(c, start, end) + gap + rest, start, end) == [c] + Scan(rest, start, end)
  {
    BlockReadsBack(c, gap + rest, start, end);
    SkipPlain(gap, rest, start, end);
    AppendAssoc(BlockOf(c, start, end), gap, rest);
  }

  lemma {:induction false} AppendAssoc(a: string, b: string, c: string)
    ensures a + b + c == a + (b + c)
  {
  }

  /** Three well-formed blocks separated by blank lines scan back as their three concepts. */
  lemma {:induction false} ThreeBlocks(c1: Concept, c2: Concept, c3: Concept, start: string, end: string)
    requires MarkersOk(start, end) && WellFormed(c1) && WellFormed(c2) && WellFormed(c3)
    ensures Scan(BlockOf(c1, start, end) + "\n\n" + (BlockOf(c2, start, end) + "\n\n"
      + (BlockOf(c3, start, end) + "\n")), start, end) == [c1, c2, c3]
  {
    var r3 := BlockOf(c3, start, end) + "\n";
    assert r3 == BlockOf(c3, start, end) + "\n" + "";
    var r2 := BlockOf(c2, start, end) + "\n\n" + r3;
    BlockThenPlain(c1, "\n\n", r2, start, end);
    BlockThenPlain(c2, "\n\n", r3, start, end);
    BlockThenPlain(c3, "\n", "", start, end);
  }

  /** A line break on both sides of a trimmed text is what `strip` removes. */
  lemma {:induction false} StripLine(x: string)
    requires |x| > 0 && Trimmed(x)
    ensures Strip("\n" + x + "\n") == x
  {
    var s := "\n" + x + "\n";
    assert s[1..] == x + "\n";
    assert LStrip(x + "\n") == x + "\n";
    assert LStrip(s) == x + "\n";
    assert (x + "\n")[..|x|] == x;
    assert RStrip(x + "\n") == RStrip(x);
    StripTrimmed(x);
  }

  /** Text that starts and ends with non-whitespace, whatever lies between, is trimmed. */
  lemma {:induction false} SplicedTrimmed(a: string, m: string, b: string)
    requires |a| > 0 && |b| > 0 && !IsSpace(a[0]) && !IsSpace(b[|b| - 1])
    ensures |a + m + b| > 0 && Trimmed(a + m + b)
  {
    assert (a + m + b)[0] == a[0];
    assert (a + m + b)[|a + m + b| - 1] == b[|b| - 1];
  }

  /** Every fallback text begins and ends with a letter or a full stop. */
  lemma {:induction false} FallbackTrimmed(topic: string)
    ensures |FallbackNarration1(topic)| > 0 && Trimmed(FallbackNarration1(topic))
    ensures |FallbackNarration2(topic)| > 0 && Trimmed(FallbackNarration2(topic))
    ensures |FallbackNarration3(topic)| > 0 && Trimmed(FallbackNarration3(topic))
    ensures Trimmed(FallbackScene1(topic)) && Trimmed(FallbackScene2()) && Trimmed(FallbackScene3())
  {
    assert Welcome[0] == 'W' && WelcomeEndB[|WelcomeEndB| - 1] == '.';
    SplicedTrimmed(Welcome, topic, WelcomeEnd());
    assert Title[0] == 'S' && TitleEndD[|TitleEndD| - 1] == '.';
    SplicedTrimmed(Title, topic, TitleEnd());
    assert BasicsA[0] == 'L';
    SplicedTrimmed(Basics(), topic, ".");
    assert Thanks[0] == 'T' && ThanksEndB[|ThanksEndB| - 1] == '.';
    SplicedTrimmed(Thanks, topic, ThanksEnd());
    assert Scene2A[0] == 'C' && Scene2D[|Scene2D| - 1] == '.';
    SplicedTrimmed(Scene2A, Scene2B + Scene2C, Scene2D);
    assert Scene3A[0] == 'S' && Scene3D[|Scene3D| - 1] == '.';
    SplicedTrimmed(Scene3A, Scene3B + Scene3C, Scene3D);
  }

  /** The three concepts the fallback script is made of. */
  function FallbackBlocks(topic: string): seq<Concept> {
    [Concept("\n" + FallbackNarration1(topic) + "\n", FallbackScene1(topic)),
     Concept("\n" + FallbackNarration2(topic) + "\n", FallbackScene2()),
     Concept("\n" + FallbackNarration3(topic) + "\n", FallbackScene3())]
  }

  lemma {:induction false} FallbackMatches(topic: string)
    requires '[' !in topic && ']' !in topic
    ensures Matches(FallbackScript(topic)) == FallbackBlocks(topic)
  {
    var cs := FallbackBlocks(topic);
    FallbackWellFormed(topic);
    ConceptMarkersOk();
    ThreeBlocks(cs[0], cs[1], cs[2], NewMarker, EndMarker);
  }

  /**
   * The fallback script yields exactly its three narrations and three scene
   * descriptions, with the topic in place, when the topic holds no square bracket.
   */
  lemma {:induction false} FallbackConcepts(topic: string)
    requires '[' !in topic && ']' !in topic
    ensures var (ns, ss) := ExtractConcepts(FallbackScript(topic));
      ns == [FallbackNarration1(topic), FallbackNarration2(topic), FallbackNarration3(topic)]
      && ss == [FallbackScene1(topic), FallbackScene2(), FallbackScene3()]
  {
    FallbackMatches(topic);
    ExtractThree(FallbackScript(topic));
    FallbackTrimmed(topic);
    StripThree(FallbackNarration1(topic), FallbackNarration2(topic), FallbackNarration3(topic),
      FallbackScene1(topic), FallbackScene2(), FallbackScene3());
  }

  /** Three concepts with trimmed texts, each narration on its own line, strip back to those texts. */
  lemma {:induction false} StripThree(x1: string, x2: string, x3: string, y1: string, y2: string, y3: string)
    requires |x1| > 0 && |x2| > 0 && |x3| > 0
    requires Trimmed(x1) && Trimmed(x2) && Trimmed(x3) && Trimmed(y1) && Trimmed(y2) && Trimmed(y3)
    ensures var cs := [Concept("\n" + x1 + "\n", y1), Concept("\n" + x2 + "\n", y2), Concept("\n" + x3 + "\n", y3)];
      [Strip(cs[0].narration), Strip(cs[1].narration), Strip(cs[2].narration)] == [x1, x2, x3]
      && [Strip(cs[0].scene), Strip(cs[1].scene), Strip(cs[2].scene)] == [y1, y2, y3]
  {
    var cs := [Concept("\n" + x1 + "\n", y1), Concept("\n" + x2 + "\n", y2), Concept("\n" + x3 + "\n", y3)];
    StripLine(x1);
    StripLine(x2);
    StripLine(x3);
    assert Strip(cs[0].narration) == x1 && Strip(cs[1].narration) == x2 && Strip(cs[2].narration) == x3;
    StripTrimmed(y1);
    StripTrimmed(y2);
    StripTrimmed(y3);
    assert Strip(cs[0].scene) == y1 && Strip(cs[1].scene) == y2 && Strip(cs[2].scene) == y3;
  }

  lemma {:induction false} ExtractThree(t: string)
    requires |Matches(t)| == 3
    ensures var cs := Matches(t);
      ExtractConcepts(t) == ([Strip(cs[0].narration), Strip(cs[1].narration), Strip(cs[2].narration)],
        [Strip(cs[0].scene), Strip(cs[1].scene), Strip(cs[2].scene)])
  {
    var cs := Matches(t);
    var r := ExtractConcepts(t);
    assert r.0 == [Strip(cs[0].narration), Strip(cs[1].narration), Strip(cs[2].narration)];
    assert r.1 == [Strip(cs[0].scene), Strip(cs[1].scene), Strip(cs[2].scene)];
  }

  /**
   * `generate_script`: the reply's concepts, or the fallback script's when the
   * request raised. The level and the concept count only shape the request.
   */
  function GenerateScript(reply: Option<string>, topic: string): (r: (seq<string>, seq<string>))
    ensures |r.0| == |r.1|
    ensures reply.Some? ==> r == ExtractConcepts(reply.value)
  {
    match reply
    case Some(text) => ExtractConcepts(text)
    case None => ExtractConcepts(FallbackScript(topic))
  }

  /** A failed request still produces three narrations and three scene descriptions. */
  lemma {:induction false} FailedRequestThreeConcepts(topic: string)
    requires '[' !in topic && ']' !in topic
    ensures |GenerateScript(None, topic).0| == 3 && |GenerateScript(None, topic).1| == 3
  {
    FallbackConcepts(topic);
  }

  /** Each fallback narration mentions the topic. */
  lemma {:induction false} NarrationsMentionTopic(topic: string)
    ensures Contains(FallbackNarration1(topic), topic)
    ensures Contains(FallbackNarration2(topic), topic)
    ensures Contains(FallbackNarration3(topic), topic)
  {
    ContainsMiddle(Welcome, topic, WelcomeEnd());
    ContainsMiddle(Basics(), topic, ".");
    ContainsMiddle(Thanks, topic, ThanksEnd());
  }
}
