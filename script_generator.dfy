/**
 * The text handling of src/backend/script_generator.py: time codes
 * `[mm:ss]`, `[SCENE]...[/SCENE]` blocks, the timing table, the narration
 * cleaner, the placeholder scripts and the small policy rules of
 * `generate_script` and `generate_math_tutorial_script`.
 *
 * Every `re.findall`/`re.sub` is a left-to-right scanner over the rest of
 * the string: at each position it either matches (and resumes after the
 * match) or moves on by one character, as Python's engine does.
 */
module ScriptGenerator {
  import opened Wrappers
  import opened Text

  // ---------------------------------------------------------------------
  // Time codes: r'\[(\d+):(\d+)\]'
  // ---------------------------------------------------------------------

  /** A time code's two numbers. */
  datatype Stamp = Stamp(minutes: nat, seconds: nat) {
    /** `minutes * 60 + seconds` */
    function Total(): nat { minutes * 60 + seconds }
  }

  /** A time code matched at the start of a string, and how many characters it spans. */
  datatype StampMatch = StampMatch(stamp: Stamp, len: nat)

  /** A digit field ended by `stop`: its value and its number of digits. */
  datatype Field = Field(value: nat, width: nat)

  /** `(\d+)` followed by the character `stop`, at the start of `t`. */
  function FieldAt(t: string, stop: char): (r: Option<Field>)
    ensures r.Some? ==> 0 < r.value.width < |t| && t[r.value.width] == stop
  {
    var a := DigitRun(t);
    if a == 0 || a == |t| || t[a] != stop then None
    else Some(Field(ParseNat(t[..a]), a))
  }

  /**
   * `\[(\d+):(\d+)\]` anchored at the start of `s`.  The digit runs are
   * maximal: backing off inside `\d+` never helps, since the next character
   * must be `:` or `]`.
   */
  function StampAt(s: string): (r: Option<StampMatch>)
    ensures r.Some? ==> 5 <= r.value.len <= |s| && s[0] == '['
  {
    if |s| == 0 || s[0] != '[' then None
    else match FieldAt(s[1..], ':')
      case None => None
      case Some(mins) =>
        match FieldAt(s[2 + mins.width..], ']')
        case None => None
        case Some(secs) => Some(StampMatch(Stamp(mins.value, secs.value), 3 + mins.width + secs.width))
  }

  /** `re.findall(r'\[(\d+):(\d+)\]', s)` with the groups converted by `int`. */
  function Stamps(s: string): seq<Stamp>
    decreases |s|
  {
    match StampAt(s)
    case Some(m) => [m.stamp] + Stamps(s[m.len..])
    case None => if |s| == 0 then [] else Stamps(s[1..])
  }

  /** `extract_last_time_code`: the last time code, or `None` when there is none. */
  function LastStamp(s: string): (r: Option<Stamp>)
    ensures r.None? <==> Stamps(s) == []
    ensures r.Some? ==> r.value == Stamps(s)[|Stamps(s)| - 1]
  {
    var all := Stamps(s);
    if |all| == 0 then None else Some(all[|all| - 1])
  }

  /** `[mm:ss]` as the scripts write it, with two-digit fields. */
  function StampText(st: Stamp): string {
    "[" + Pad2(st.minutes) + ":" + Pad2(st.seconds) + "]"
  }

  /** A run of digits followed by `stop` is read as one field. */
  lemma {:induction false} FieldOfDigits(d: string, stop: char, rest: string)
    requires |d| > 0 && AllDigits(d) && !IsDigit(stop)
    ensures FieldAt(d + [stop] + rest, stop) == Some(Field(ParseNat(d), |d|))
  {
    var t := d + [stop] + rest;
    assert t == d + ([stop] + rest);
    DigitRunAppend(d, [stop] + rest);
    DigitRunAll(d);
    assert t[..|d|] == d;
  }

  /** Where the pieces of a written time code sit. */
  lemma {:induction false} StampTextPieces(m: string, sec: string, rest: string)
    ensures var s := "[" + m + ":" + sec + "]" + rest;
      s[0] == '[' && s[1..] == m + [':'] + (sec + "]" + rest) && s[2 + |m|..] == sec + [']'] + rest
  {
  }

  lemma {:induction false} MinutesField(m: string, sec: string, rest: string)
    requires |m| > 0 && AllDigits(m)
    ensures FieldAt(("[" + m + ":" + sec + "]" + rest)[1..], ':') == Some(Field(ParseNat(m), |m|))
  {
    StampTextPieces(m, sec, rest);
    FieldOfDigits(m, ':', sec + "]" + rest);
  }

  lemma {:induction false} SecondsField(m: string, sec: string, rest: string)
    requires |sec| > 0 && AllDigits(sec)
    ensures FieldAt(("[" + m + ":" + sec + "]" + rest)[2 + |m|..], ']') == Some(Field(ParseNat(sec), |sec|))
  {
    StampTextPieces(m, sec, rest);
    FieldOfDigits(sec, ']', rest);
  }

  /** Two digit fields written between `[`, `:` and `]` are read back as a time code. */
  lemma {:induction false} StampOfFields(m: string, sec: string, rest: string)
    requires |m| > 0 && AllDigits(m) && |sec| > 0 && AllDigits(sec)
    ensures StampAt("[" + m + ":" + sec + "]" + rest).Some?
    ensures StampAt("[" + m + ":" + sec + "]" + rest).value
         == StampMatch(Stamp(ParseNat(m), ParseNat(sec)), 3 + |m| + |sec|)
  {
    assert ("[" + m + ":" + sec + "]" + rest)[0] == '[';
    MinutesField(m, sec, rest);
    SecondsField(m, sec, rest);
    StampOfTwoFields("[" + m + ":" + sec + "]" + rest, Field(ParseNat(m), |m|), Field(ParseNat(sec), |sec|));
  }

  lemma {:induction false} StampOfTwoFields(s: string, mins: Field, secs: Field)
    requires |s| > 0 && s[0] == '['
    requires FieldAt(s[1..], ':') == Some(mins)
    requires FieldAt(s[2 + mins.width..], ']') == Some(secs)
    ensures StampAt(s) == Some(StampMatch(Stamp(mins.value, secs.value), 3 + mins.width + secs.width))
  {
  }

  /** A written time code is read back as the same two numbers. */
  lemma {:induction false} StampTextRead(st: Stamp, rest: string)
    ensures StampAt(StampText(st) + rest).Some?
    ensures StampAt(StampText(st) + rest).value == StampMatch(st, |StampText(st)|)
  {
    StampOfFields(Pad2(st.minutes), Pad2(st.seconds), rest);
  }

  /** A tail starting with a character that is neither a digit nor `stop` does not change a field. */
  lemma {:induction false} FieldAppend(t: string, b: string, stop: char)
    requires |b| > 0 ==> !IsDigit(b[0]) && b[0] != stop
    ensures FieldAt(t + b, stop) == FieldAt(t, stop)
  {
    DigitRunAppend(t, b);
    var a := DigitRun(t);
    if a < |t| {
      assert (t + b)[..a] == t[..a];
    } else if |b| > 0 {
      assert (t + b)[a] == b[0];
    }
  }

  lemma {:induction false} DigitRunAll(d: string)
    requires AllDigits(d)
    ensures DigitRun(d) == |d|
    decreases |d|
  {
    if |d| > 0 {
      DigitRunAll(d[1..]);
    }
  }

  /** Text that follows a match and starts with `[` (or is empty) cannot change the match. */
  lemma {:induction false} StampAtAppend(x: string, b: string)
    requires |x| > 0 && (|b| > 0 ==> b[0] == '[')
    ensures StampAt(x + b) == StampAt(x)
  {
    var s := x + b;
    if x[0] == '[' {
      assert s[1..] == x[1..] + b;
      FieldAppend(x[1..], b, ':');
      var mins := FieldAt(x[1..], ':');
      if mins.Some? {
        assert s[2 + mins.value.width..] == x[2 + mins.value.width..] + b;
        FieldAppend(x[2 + mins.value.width..], b, ']');
      }
    }
  }

  /** Where the scanner resumes after looking at the start of `s`, and what it collected there. */
  function StampSkip(s: string): nat {
    match StampAt(s)
    case Some(m) => m.len
    case None => 1
  }

  function StampHead(s: string): seq<Stamp> {
    match StampAt(s)
    case Some(m) => [m.stamp]
    case None => []
  }

  /** One step of the scan, on `a` and on `a + b` alike. */
  lemma {:induction false} StampsStep(a: string, b: string)
    requires |a| > 0 && (|b| > 0 ==> b[0] == '[')
    ensures StampSkip(a) <= |a|
    ensures Stamps(a) == StampHead(a) + Stamps(a[StampSkip(a)..])
    ensures Stamps(a + b) == StampHead(a) + Stamps(a[StampSkip(a)..] + b)
  {
    StampAtAppend(a, b);
    DropAppend(a, b, StampSkip(a));
  }

  /** Scanning splits at any `[` that begins the second part. */
  lemma {:induction false} StampsAppend(a: string, b: string)
    requires |b| > 0 ==> b[0] == '['
    ensures Stamps(a + b) == Stamps(a) + Stamps(b)
    decreases |a|
  {
    if |a| == 0 {
      assert a + b == b;
    } else {
      StampsStep(a, b);
      var n := StampSkip(a);
      StampsAppend(a[n..], b);
      Regroup(StampHead(a), Stamps(a[n..]), Stamps(b));
    }
  }

  /** Text without a `[` holds no time code. */
  lemma {:induction false} StampsNone(s: string)
    requires '[' !in s
    ensures Stamps(s) == []
    decreases |s|
  {
    if |s| > 0 {
      assert s[0] in s;
      assert forall c :: c in s[1..] ==> c in s;
      StampsNone(s[1..]);
    }
  }

  /** A time code followed by text without `[` holds that one time code. */
  lemma {:induction false} StampsOfOne(t: string, b: string, st: Stamp)
    requires StampAt(t + b).Some? && StampAt(t + b).value == StampMatch(st, |t|)
    requires '[' !in b
    ensures Stamps(t + b) == [st]
  {
    assert (t + b)[|t|..] == b;
    StampsNone(b);
  }

  /** A time code written after any text, and followed by text without `[`, is the last one read. */
  lemma {:induction false} StampsWritten(a: string, st: Stamp, b: string)
    requires '[' !in b
    ensures Stamps(a + StampText(st) + b) == Stamps(a) + [st]
  {
    var t := StampText(st);
    StampTextRead(st, b);
    StampsOfOne(t, b, st);
    StampsAppend(a, t + b);
    Regroup(a, t, b);
  }

  lemma {:induction false} LastOfWritten(s: string, xs: seq<Stamp>, st: Stamp)
    requires Stamps(s) == xs + [st]
    ensures LastStamp(s) == Some(st)
  {
  }

  lemma {:induction false} LastStampWritten(a: string, st: Stamp, b: string)
    requires '[' !in b
    ensures LastStamp(a + StampText(st) + b) == Some(st)
  {
    StampsWritten(a, st, b);
    LastOfWritten(a + StampText(st) + b, Stamps(a), st);
  }

  // ---------------------------------------------------------------------
  // Scene blocks: r'\[SCENE\](.*?)\[/SCENE\]' with DOTALL
  // ---------------------------------------------------------------------

  const Open: string := "[SCENE]"
  const Close: string := "[/SCENE]"

  /**
   * The lazy `(.*?)` anchored at the start of `s`: the length of the
   * content up to the first `[/SCENE]` after the opening tag.
   */
  function SceneAt(s: string): (r: Option<nat>)
    ensures r.Some? ==> StartsWith(s, Open) && |Open| + r.value + |Close| <= |s|
    ensures r.Some? ==> s[|Open| + r.value..|Open| + r.value + |Close|] == Close
    ensures r.Some? ==> !Contains(s[|Open|..|Open| + r.value], Close)
  {
    if StartsWith(s, Open) && IndexOf(s[|Open|..], Close) < |s| - |Open| then
      var k := IndexOf(s[|Open|..], Close);
      IndexOfPrefixFree(s[|Open|..], Close);
      assert s[|Open|..][..k] == s[|Open|..|Open| + k];
      Some(k)
    else None
  }

  /** `re.findall(r'\[SCENE\](.*?)\[/SCENE\]', s, re.DOTALL)`: each content stops at its first closing tag. */
  function RawScenes(s: string): (r: seq<string>)
    ensures forall i :: 0 <= i < |r| ==> !Contains(r[i], Close)
    decreases |s|
  {
    match SceneAt(s)
    case Some(k) => [s[|Open|..|Open| + k]] + RawScenes(s[|Open| + k + |Close|..])
    case None => if |s| == 0 then [] else RawScenes(s[1..])
  }

  /** `extract_scenes_from_script`: the stripped contents of the scene blocks, in order. */
  function ExtractScenes(s: string): (r: seq<string>)
    ensures |r| == |RawScenes(s)|
    ensures forall i :: 0 <= i < |r| ==> r[i] == Strip(RawScenes(s)[i])
  {
    var raw := RawScenes(s);
    seq(|raw|, i requires 0 <= i < |raw| => Strip(raw[i]))
  }

  /** A scene block with its tags. */
  function Block(content: string): string {
    Open + content + Close
  }

  /** Position `k` holds a `[` that is last or followed by `S`: where a `[SCENE]` could begin. */
  predicate MayOpen(a: string, k: int)
    requires 0 <= k < |a|
  {
    a[k] == '[' && (k + 1 == |a| || a[k + 1] == 'S')
  }

  /** No `[SCENE]` can start anywhere in `a`, whatever follows it. */
  predicate NoOpening(a: string) {
    forall k :: 0 <= k < |a| ==> !MayOpen(a, k)
  }

  lemma {:induction false} NoOpeningConcat(x: string, y: string)
    requires NoOpening(x) && NoOpening(y)
    ensures NoOpening(x + y)
  {
    forall k | 0 <= k < |x + y|
      ensures !MayOpen(x + y, k)
    {
      if k < |x| {
        assert !MayOpen(x, k);
        if k + 1 < |x| { assert (x + y)[k + 1] == x[k + 1]; }
      } else {
        assert !MayOpen(y, k - |x|);
      }
    }
  }

  lemma {:induction false} NoOpeningPlain(x: string)
    requires '[' !in x
    ensures NoOpening(x)
  {
    forall k | 0 <= k < |x| ensures !MayOpen(x, k) {
      assert x[k] in x;
    }
  }

  /** A `[` followed only by text without `[` that does not start with `S`. */
  lemma {:induction false} NoOpeningBracketed(rest: string)
    requires |rest| > 0 && rest[0] != 'S' && '[' !in rest
    ensures NoOpening("[" + rest)
  {
    var t := "[" + rest;
    forall k | 0 <= k < |t| ensures !MayOpen(t, k) {
      if k == 0 {
        assert t[1] == rest[0];
      } else {
        assert t[k] == rest[k - 1] && rest[k - 1] in rest;
      }
    }
  }

  lemma {:induction false} FieldsWithoutBracket(m: string, sec: string)
    requires AllDigits(m) && AllDigits(sec)
    ensures '[' !in m + ":" + sec + "]"
  {
    var rest := m + ":" + sec + "]";
    forall i | 0 <= i < |rest| ensures rest[i] != '[' {
      if i < |m| {
        assert rest[i] == m[i];
      } else if |m| < i < |m| + 1 + |sec| {
        assert rest[i] == sec[i - |m| - 1];
      }
    }
  }

  lemma {:induction false} NoOpeningStamp(st: Stamp)
    ensures NoOpening(StampText(st))
  {
    var m := Pad2(st.minutes);
    var sec := Pad2(st.seconds);
    FieldsWithoutBracket(m, sec);
    assert (m + ":" + sec + "]")[0] == m[0];
    NoOpeningBracketed(m + ":" + sec + "]");
    assert StampText(st) == "[" + (m + ":" + sec + "]");
  }

  /** Text in which no scene can open is skipped by the scanner. */
  lemma {:induction false} ScenesSkip(a: string, b: string)
    requires NoOpening(a)
    ensures RawScenes(a + b) == RawScenes(b)
    decreases |a|
  {
    if |a| > 0 {
      var s := a + b;
      assert !StartsWith(s, Open) by {
        assert !MayOpen(a, 0);
        if a[0] == '[' {
          assert s[1] == a[1];
        } else {
          assert s[0] != Open[0];
        }
      }
      assert s[1..] == a[1..] + b;
      assert NoOpening(a[1..]) by {
        forall k | 0 <= k < |a[1..]| ensures !MayOpen(a[1..], k) {
          assert !MayOpen(a, k + 1);
        }
      }
      ScenesSkip(a[1..], b);
    } else {
      assert a + b == b;
    }
  }

  /** A block whose content has no `[` is read back as that content. */
  lemma {:induction false} ScenesBlock(c: string, rest: string)
    requires '[' !in c
    ensures RawScenes(Block(c) + rest) == [c] + RawScenes(rest)
  {
    IndexOfAfter(c, Close, rest);
    FramedSlices(Open, c, Close, rest);
  }

  /** The pieces of an opening, a content, a closing and a rest, found back by position. */
  lemma {:induction false} FramedSlices(o: string, c: string, cl: string, rest: string)
    ensures var s := o + c + cl + rest;
      s[..|o|] == o && s[|o|..] == c + cl + rest
      && s[|o|..|o| + |c|] == c && s[|o| + |c| + |cl|..] == rest
  {
    var s := o + c + cl + rest;
    assert s == o + (c + cl + rest);
  }

  // ---------------------------------------------------------------------
  // The placeholder scripts of `generate_script`
  // ---------------------------------------------------------------------

  // The fixed sentences of the placeholder scripts (long ones are written
  // in two pieces).
  const TitleLead: string := "# Math Tutorial: "
  const Welcome: string := "Welcome to this math tutorial on "
  const Explore: string := "In this video, we'll explore the key " + "concepts and applications."
  const Fundamental: string := " is a fundamental concept " + "in mathematics."
  const Understanding: string := "Understanding this concept " + "is important for many applications."
  const Concludes: string := "This concludes our brief " + "introduction to "
  const ShowTitle: string := "\nStart with a title screen showing \""
  const ShowTitleEnd: string := "\" in large blue text " + "on a white background.\n"
  const DetailedScene: string := "Show a detailed diagram and " + "explanation of the concept."
  const DryRunLast: string := "For more in-depth tutorials, " + "check out our other videos."
  const TimeoutSuffix: string := " (FALLBACK DUE TO API TIMEOUT)"
  const SimpleScene: string := "Show a simple diagram " + "illustrating the basic concept."
  const TimeoutLast: string := "Please try again later for " + "a more detailed explanation."

  // Each sentence of the placeholder scripts is free of `[`, so no time code
  // or scene tag can start inside one.

  lemma {:induction false} TitleLeadPlain()
    ensures '[' !in TitleLead
  {
  }

  lemma {:induction false} WelcomePlain()
    ensures '[' !in Welcome
  {
  }

  lemma {:induction false} ExplorePlain()
    ensures '[' !in Explore
  {
  }

  lemma {:induction false} FundamentalPlain()
    ensures '[' !in Fundamental
  {
  }

  lemma {:induction false} UnderstandingPlain()
    ensures '[' !in Understanding
  {
  }

  lemma {:induction false} ConcludesPlain()
    ensures '[' !in Concludes
  {
  }

  lemma {:induction false} ShowTitlePlain()
    ensures '[' !in ShowTitle
  {
  }

  lemma {:induction false} ShowTitleEndPlain()
    ensures '[' !in ShowTitleEnd
  {
  }

  lemma {:induction false} DetailedScenePlain()
    ensures '[' !in DetailedScene
  {
  }

  lemma {:induction false} DryRunLastPlain()
    ensures '[' !in DryRunLast
  {
  }

  lemma {:induction false} TimeoutSuffixPlain()
    ensures '[' !in TimeoutSuffix
  {
  }

  lemma {:induction false} SimpleScenePlain()
    ensures '[' !in SimpleScene
  {
  }

  lemma {:induction false} TimeoutLastPlain()
    ensures '[' !in TimeoutLast
  {
  }

  lemma {:induction false} OpeningSentencesPlain()
    ensures '[' !in TitleLead && '[' !in Welcome && '[' !in Explore
  {
    TitleLeadPlain();
    WelcomePlain();
    ExplorePlain();
  }

  lemma {:induction false} MiddleSentencesPlain()
    ensures '[' !in Fundamental && '[' !in Understanding && '[' !in Concludes
  {
    FundamentalPlain();
    UnderstandingPlain();
    ConcludesPlain();
  }

  lemma {:induction false} SceneSentencesPlain()
    ensures '[' !in ShowTitle && '[' !in ShowTitleEnd && '[' !in DetailedScene && '[' !in SimpleScene
  {
    ShowTitlePlain();
    ShowTitleEndPlain();
    DetailedScenePlain();
    SimpleScenePlain();
  }

  lemma {:induction false} ClosingSentencesPlain()
    ensures '[' !in DryRunLast && '[' !in TimeoutSuffix && '[' !in TimeoutLast
  {
    DryRunLastPlain();
    TimeoutSuffixPlain();
    TimeoutLastPlain();
  }

  /** One narration line `[mm:ss] text`. */
  function Line(st: Stamp, text: string): string {
    StampText(st) + " " + text + "\n"
  }

  function FirstSceneText(topic: string): string {
    ShowTitle + topic + ShowTitleEnd
  }

  /** Title and the two opening narration lines. */
  function Opening(topic: string, titleSuffix: string): string {
    TitleLead + topic + titleSuffix + "\n\n"
    + Line(Stamp(0, 0), Welcome + topic + ".")
    + Line(Stamp(0, 5), Explore)
    + "\n"
  }

  /** The two narration lines between the scene blocks. */
  function Middle(topic: string): string {
    "\n\n"
    + Line(Stamp(0, 15), topic + Fundamental)
    + Line(Stamp(0, 20), Understanding)
    + "\n"
  }

  /** The two closing narration lines. */
  function Closing(topic: string, lastLine: string): string {
    "\n\n"
    + Line(Stamp(0, 35), Concludes + topic + ".")
    + Line(Stamp(0, 40), lastLine)
  }

  /**
   * The shape shared by the dry-run script and the API-timeout fallback:
   * four narration lines around two scene blocks and two closing lines.
   */
  function Skeleton(topic: string, titleSuffix: string, secondScene: string, lastLine: string): string {
    Opening(topic, titleSuffix)
    + (Block(FirstSceneText(topic))
    + (Middle(topic)
    + (Block("\n" + secondScene + "\n")
    + Closing(topic, lastLine))))
  }

  /** The script returned when `dry_run` is set. */
  function DryRunScript(topic: string): string {
    Skeleton(topic, "", DetailedScene, DryRunLast)
  }

  /** The script returned when the API call times out. */
  function TimeoutScript(topic: string): string {
    Skeleton(topic, TimeoutSuffix, SimpleScene, TimeoutLast)
  }

  lemma {:induction false} NoOpeningLine(st: Stamp, text: string)
    requires '[' !in text
    ensures NoOpening(Line(st, text))
  {
    NoOpeningStamp(st);
    NoOpeningPlain(" " + text + "\n");
    NoOpeningConcat(StampText(st), " " + text + "\n");
    assert Line(st, text) == StampText(st) + (" " + text + "\n");
  }

  lemma {:induction false} NoOpeningTwoLines(pre: string, st1: Stamp, t1: string, st2: Stamp, t2: string, post: string)
    requires NoOpening(pre) && NoOpening(post) && '[' !in t1 && '[' !in t2
    ensures NoOpening(pre + Line(st1, t1) + Line(st2, t2) + post)
  {
    NoOpeningLine(st1, t1);
    NoOpeningLine(st2, t2);
    NoOpeningConcat(pre, Line(st1, t1));
    NoOpeningConcat(pre + Line(st1, t1), Line(st2, t2));
    NoOpeningConcat(pre + Line(st1, t1) + Line(st2, t2), post);
  }

  lemma {:induction false} NoOpeningOpening(topic: string, titleSuffix: string)
    requires '[' !in topic && '[' !in titleSuffix
    ensures NoOpening(Opening(topic, titleSuffix))
  {
    OpeningSentencesPlain();
    NoOpeningPlain(TitleLead + topic + titleSuffix + "\n\n");
    NoOpeningPlain("\n");
    NoOpeningTwoLines(TitleLead + topic + titleSuffix + "\n\n",
      Stamp(0, 0), Welcome + topic + ".", Stamp(0, 5), Explore, "\n");
  }

  lemma {:induction false} NoOpeningMiddle(topic: string)
    requires '[' !in topic
    ensures NoOpening(Middle(topic))
  {
    MiddleSentencesPlain();
    NoOpeningPlain("\n\n");
    NoOpeningPlain("\n");
    NoOpeningTwoLines("\n\n", Stamp(0, 15), topic + Fundamental, Stamp(0, 20), Understanding, "\n");
  }

  lemma {:induction false} NoOpeningClosing(topic: string, lastLine: string)
    requires '[' !in topic && '[' !in lastLine
    ensures NoOpening(Closing(topic, lastLine))
  {
    MiddleSentencesPlain();
    NoOpeningPlain("\n\n");
    NoOpeningPlain([]);
    NoOpeningTwoLines("\n\n", Stamp(0, 35), Concludes + topic + ".", Stamp(0, 40), lastLine, []);
    assert Closing(topic, lastLine) + [] == Closing(topic, lastLine);
  }

  /** Two scene blocks separated by text where no scene opens are the only scenes read. */
  lemma {:induction false} ScenesOfParts(o: string, c1: string, m: string, c2: string, y: string)
    requires NoOpening(o) && NoOpening(m) && NoOpening(y) && '[' !in c1 && '[' !in c2
    ensures RawScenes(o + (Block(c1) + (m + (Block(c2) + y)))) == [c1, c2]
  {
    ScenesSkip(o, Block(c1) + (m + (Block(c2) + y)));
    ScenesBlock(c1, m + (Block(c2) + y));
    ScenesSkip(m, Block(c2) + y);
    ScenesBlock(c2, y);
    ScenesSkip(y, []);
    assert y + [] == y;
  }

  /** The skeleton holds exactly two scene blocks: the title screen and the second scene. */
  lemma {:induction false} SkeletonScenes(topic: string, titleSuffix: string, secondScene: string, lastLine: string)
    requires '[' !in topic && '[' !in titleSuffix && '[' !in secondScene && '[' !in lastLine
    ensures RawScenes(Skeleton(topic, titleSuffix, secondScene, lastLine))
         == [FirstSceneText(topic), "\n" + secondScene + "\n"]
  {
    NoOpeningOpening(topic, titleSuffix);
    NoOpeningMiddle(topic);
    NoOpeningClosing(topic, lastLine);
    SceneSentencesPlain();
    ScenesOfParts(Opening(topic, titleSuffix), FirstSceneText(topic), Middle(topic),
                  "\n" + secondScene + "\n", Closing(topic, lastLine));
  }

  /** Text that ends with a narration line ends at that line's time code. */
  lemma {:induction false} LastStampOfLine(a: string, st: Stamp, text: string)
    requires '[' !in text
    ensures LastStamp(a + Line(st, text)) == Some(st)
  {
    var tail := " " + text + "\n";
    assert '[' !in tail by {
      forall i | 0 <= i < |tail| ensures tail[i] != '[' {
        if 0 < i <= |text| { assert tail[i] == text[i - 1] && text[i - 1] in text; }
      }
    }
    Regroup(StampText(st), " " + text, "\n");
    Regroup(StampText(st), " ", text);
    Regroup(" ", text, "\n");
    Regroup(a, StampText(st), tail);
    assert Line(st, text) == StampText(st) + tail;
    LastStampWritten(a, st, tail);
  }

  /** The last narration line of the skeleton carries the last time code, `[00:40]`. */
  lemma {:induction false} SkeletonEnd(topic: string, titleSuffix: string, secondScene: string, lastLine: string)
    requires '[' !in lastLine
    ensures LastStamp(Skeleton(topic, titleSuffix, secondScene, lastLine)) == Some(Stamp(0, 40))
  {
    var o := Opening(topic, titleSuffix);
    var b1 := Block(FirstSceneText(topic));
    var m := Middle(topic);
    var b2 := Block("\n" + secondScene + "\n");
    var p := "\n\n" + Line(Stamp(0, 35), Concludes + topic + ".");
    var last := Line(Stamp(0, 40), lastLine);
    assert Closing(topic, lastLine) == p + last;
    Regroup(b2, p, last);
    Regroup(m, b2 + p, last);
    Regroup(b1, m + (b2 + p), last);
    Regroup(o, b1 + (m + (b2 + p)), last);
    LastStampOfLine(o + (b1 + (m + (b2 + p))), Stamp(0, 40), lastLine);
  }

  lemma {:induction false} ExtractTwo(s: string, c1: string, c2: string)
    requires RawScenes(s) == [c1, c2]
    ensures ExtractScenes(s) == [Strip(c1), Strip(c2)]
  {
  }

  /** The stripped scenes and the last time code of the skeleton. */
  lemma {:induction false} SkeletonShape(topic: string, titleSuffix: string, secondScene: string, lastLine: string)
    requires '[' !in topic && '[' !in titleSuffix && '[' !in secondScene && '[' !in lastLine
    ensures ExtractScenes(Skeleton(topic, titleSuffix, secondScene, lastLine))
         == [Strip(FirstSceneText(topic)), Strip("\n" + secondScene + "\n")]
    ensures LastStamp(Skeleton(topic, titleSuffix, secondScene, lastLine)) == Some(Stamp(0, 40))
  {
    SkeletonScenes(topic, titleSuffix, secondScene, lastLine);
    ExtractTwo(Skeleton(topic, titleSuffix, secondScene, lastLine), FirstSceneText(topic), "\n" + secondScene + "\n");
    SkeletonEnd(topic, titleSuffix, secondScene, lastLine);
  }

  /** The dry-run script has exactly two scene blocks and ends at `[00:40]`. */
  lemma {:induction false} DryRunShape(topic: string)
    requires '[' !in topic
    ensures ExtractScenes(DryRunScript(topic)) == [Strip(FirstSceneText(topic)), Strip("\n" + DetailedScene + "\n")]
    ensures LastStamp(DryRunScript(topic)) == Some(Stamp(0, 40))
  {
    SceneSentencesPlain();
    ClosingSentencesPlain();
    assert '[' !in "";
    SkeletonShape(topic, "", DetailedScene, DryRunLast);
  }

  /** The timeout fallback has the same two blocks and also ends at `[00:40]`. */
  lemma {:induction false} TimeoutShape(topic: string)
    requires '[' !in topic
    ensures ExtractScenes(TimeoutScript(topic)) == [Strip(FirstSceneText(topic)), Strip("\n" + SimpleScene + "\n")]
    ensures LastStamp(TimeoutScript(topic)) == Some(Stamp(0, 40))
  {
    SceneSentencesPlain();
    ClosingSentencesPlain();
    SkeletonShape(topic, TimeoutSuffix, SimpleScene, TimeoutLast);
  }

  // ---------------------------------------------------------------------
  // Policy rules of generate_script / generate_math_tutorial_script
  // ---------------------------------------------------------------------

  /** The number of scenes asked of the model for a duration in minutes. */
  function SceneCount(durationMinutes: int): (n: int)
    ensures 3 <= n <= 6
    ensures durationMinutes <= 3 ==> n == 3
    ensures durationMinutes > 7 ==> n == 6
  {
    if durationMinutes <= 3 then 3
    else if durationMinutes <= 5 then 4
    else if durationMinutes <= 7 then 5
    else 6
  }

  /** Longer videos never get fewer scenes. */
  lemma {:induction false} SceneCountMonotone(d1: int, d2: int)
    requires d1 <= d2
    ensures SceneCount(d1) <= SceneCount(d2)
  {
  }

  /** The `level` argument of `generate_math_tutorial_script`. */
  datatype LevelArg = LevelInt(i: int) | LevelStr(s: string) | LevelOther

  /**
   * The sophistication level: an int in 1..3 is kept, a known word or digit
   * string maps case-insensitively, and anything else falls back to 1.
   */
  function LevelOf(level: LevelArg): (n: int)
    ensures 1 <= n <= 3
    ensures level.LevelInt? && 1 <= level.i <= 3 ==> n == level.i
    ensures level.LevelInt? && !(1 <= level.i <= 3) ==> n == 1
    ensures level.LevelOther? ==> n == 1
    ensures level.LevelStr? && Lower(level.s) in ["2", "intermediate", "medium"] ==> n == 2
    ensures level.LevelStr? && Lower(level.s) in ["3", "advanced", "expert"] ==> n == 3
    ensures level.LevelStr? && n != 1 ==> Lower(level.s) in ["2", "intermediate", "medium", "3", "advanced", "expert"]
  {
    match level
    case LevelInt(i) => if 1 <= i <= 3 then i else 1
    case LevelStr(s) =>
      var l := Lower(s);
      if l in ["1", "beginner", "basic"] then 1
      else if l in ["2", "intermediate", "medium"] then 2
      else if l in ["3", "advanced", "expert"] then 3
      else 1
    case LevelOther => 1
  }

  lemma {:induction false} LowerIdempotent(s: string)
    ensures Lower(Lower(s)) == Lower(s)
  {
  }

  /** Case does not matter: a string level and its lower-cased form map alike. */
  lemma {:induction false} LevelCaseInsensitive(s: string)
    ensures LevelOf(LevelStr(s)) == LevelOf(LevelStr(Lower(s)))
  {
    LowerIdempotent(s);
  }

  const WarningLead: string := "\n\nWARNING: Script may be too short. " + "Last time code is "
  const WarningMid: string := " but requested duration was "
  const WarningEnd: string := " minutes.\n"

  /** The text `generate_script` appends when the script ends too early. */
  function ShortWarning(last: Stamp, durationMinutes: int): string {
    WarningLead + StampText(last) + WarningTail(durationMinutes)
  }

  function WarningTail(durationMinutes: int): string {
    WarningMid + IntToString(durationMinutes) + WarningEnd
  }

  /**
   * The post-check of `generate_script`: the warning is appended exactly
   * when the last time code, in seconds, falls more than 30 seconds short
   * of the requested duration.
   */
  function CheckLength(script: string, durationMinutes: int): (r: string)
    ensures StartsWith(r, script)
    ensures r != script <==>
      LastStamp(script).Some? && LastStamp(script).value.Total() < durationMinutes * 60 - 30
    ensures r != script ==> r == script + ShortWarning(LastStamp(script).value, durationMinutes)
  {
    match LastStamp(script)
    case Some(last) =>
      if last.Total() < durationMinutes * 60 - 30 then
        var r := script + ShortWarning(last, durationMinutes);
        assert r[..|script|] == script;
        r
      else script
    case None => script
  }

  lemma {:induction false} WarningSentencesPlain()
    ensures '[' !in WarningMid && '[' !in WarningEnd
  {
  }

  lemma {:induction false} NumberPlain(i: int)
    ensures '[' !in IntToString(i)
  {
    var digits := NatToString(if i < 0 then -i else i);
    forall k | 0 <= k < |digits| ensures digits[k] != '[' {
      assert IsDigit(digits[k]);
    }
  }

  /** The text of the warning after its time code holds no `[`. */
  lemma {:induction false} WarningTailPlain(durationMinutes: int)
    ensures '[' !in WarningTail(durationMinutes)
  {
    WarningSentencesPlain();
    NumberPlain(durationMinutes);
    var n := IntToString(durationMinutes);
    var w := WarningTail(durationMinutes);
    forall i | 0 <= i < |w| ensures w[i] != '[' {
      if i < |WarningMid| {
        assert w[i] == WarningMid[i] && WarningMid[i] in WarningMid;
      } else if i < |WarningMid| + |n| {
        assert w[i] == n[i - |WarningMid|] && n[i - |WarningMid|] in n;
      } else {
        assert w[i] == WarningEnd[i - |WarningMid| - |n|] && WarningEnd[i - |WarningMid| - |n|] in WarningEnd;
      }
    }
  }

  lemma {:induction false} LastStampAfterLead(script: string, lead: string, last: Stamp, post: string)
    requires '[' !in post
    ensures LastStamp(script + (lead + StampText(last) + post)) == Some(last)
  {
    Regroup(lead, StampText(last), post);
    Regroup(script, lead, StampText(last) + post);
    Regroup(script + lead, StampText(last), post);
    LastStampWritten(script + lead, last, post);
  }

  /** A script with the warning appended ends at the time code the warning quotes. */
  lemma {:induction false} WarningKeepsLastStamp(script: string, last: Stamp, durationMinutes: int)
    ensures LastStamp(script + ShortWarning(last, durationMinutes)) == Some(last)
  {
    WarningTailPlain(durationMinutes);
    LastStampAfterLead(script, WarningLead, last, WarningTail(durationMinutes));
  }

  /** The warning repeats the last time code, so the checked script still ends at the same time. */
  lemma {:induction false} CheckLengthKeepsLastStamp(script: string, durationMinutes: int)
    ensures LastStamp(CheckLength(script, durationMinutes)) == LastStamp(script)
  {
    if CheckLength(script, durationMinutes) != script {
      WarningKeepsLastStamp(script, LastStamp(script).value, durationMinutes);
    }
  }

  // ---------------------------------------------------------------------
  // extract_timing_from_script:
  //   r'\[(\d+):(\d+)\]\s*(?:\{([^}]*)\}|([^[\n{][^\n]*))'
  // ---------------------------------------------------------------------

  /** Position of the last character of `x` that is not a newline, or `|x|` when all are. */
  function LastNotNewline(x: string): (n: nat)
    ensures n <= |x|
    ensures n < |x| ==> x[n] != '\n' && forall j :: n < j < |x| ==> x[j] == '\n'
    ensures n == |x| ==> forall j :: 0 <= j < |x| ==> x[j] == '\n'
    decreases |x|
  {
    if |x| == 0 then 0
    else if x[|x| - 1] != '\n' then |x| - 1
    else
      var n := LastNotNewline(x[..|x| - 1]);
      if n == |x| - 1 then |x| else n
  }

  /** The text captured after a time code, and how many characters the match used after it. */
  datatype TextMatch = TextMatch(text: string, len: nat)

  /**
   * The part of the timing pattern after the time code, anchored at the
   * start of `r`.  `\s*` first takes the whole whitespace run; at its end
   * a `{...}` group (the first `}` closes it) or a line that does not start
   * with `[`, `{` or a newline is captured.  Otherwise the engine backs off
   * into the run, to its last character that is not a newline, and
   * captures from there to the end of the line.
   */
  function TextAt(r: string): (t: Option<TextMatch>)
    ensures t.Some? ==> 0 < t.value.len <= |r|
  {
    var w := SpaceRun(r);
    if w < |r| && r[w] == '{' && IndexOfChar(r[w + 1..], '}') < |r| - w - 1 then
      var j := IndexOfChar(r[w + 1..], '}');
      Some(TextMatch(r[w + 1..w + 1 + j], w + j + 2))
    else if w < |r| && r[w] != '[' && r[w] != '{' then
      var (text, e) := LineFrom(r, w);
      Some(TextMatch(text, e))
    else
      var k := LastNotNewline(r[..w]);
      if k < w then
        var (text, e) := LineFrom(r, k);
        Some(TextMatch(text, e))
      else None
  }

  /** One match of the timing pattern: the time code and the captured text. */
  datatype TimedLine = TimedLine(stamp: Stamp, text: string)

  /** The timing pattern anchored at the start of `s`, with the length of the whole match. */
  function TimedLineAt(s: string): (r: Option<(TimedLine, nat)>)
    ensures r.Some? ==> 0 < r.value.1 <= |s|
  {
    match StampAt(s)
    case None => None
    case Some(m) =>
      match TextAt(s[m.len..])
      case None => None
      case Some(t) => Some((TimedLine(m.stamp, t.text), m.len + t.len))
  }

  /** `re.findall` of the timing pattern, the two alternatives merged into one text. */
  function TimedLines(s: string): seq<TimedLine>
    decreases |s|
  {
    match TimedLineAt(s)
    case Some(hit) => [hit.0] + TimedLines(s[hit.1..])
    case None => if |s| == 0 then [] else TimedLines(s[1..])
  }

  /** The text after a time code, one space in, is captured up to the end of its line. */
  lemma {:induction false} TextAtLine(text: string, rest: string)
    requires |text| > 0 && !IsSpace(text[0]) && text[0] != '[' && text[0] != '{' && '\n' !in text
    ensures TextAt(" " + text + "\n" + rest) == Some(TextMatch(text, 1 + |text|))
  {
    var r := " " + text + "\n" + rest;
    assert r[1..] == text + ['\n'] + rest;
    assert SpaceRun(r[1..]) == 0;
    assert SpaceRun(r) == 1;
    IndexOfCharAfter(text, '\n', rest);
    assert r[1..1 + |text|] == text;
  }

  /** A time code followed by a text makes one match of the timing pattern. */
  lemma {:induction false} TimedLineOfParts(t: string, r: string, st: Stamp, text: string, len: nat)
    requires StampAt(t + r) == Some(StampMatch(st, |t|))
    requires TextAt(r) == Some(TextMatch(text, len))
    ensures TimedLineAt(t + r) == Some((TimedLine(st, text), |t| + len))
  {
    assert (t + r)[|t|..] == r;
  }

  /** One row of `timing_data`. */
  datatype TimingEntry = TimingEntry(time: nat, text: string, wordCount: nat)

  /** The value `extract_timing_from_script` returns. */
  datatype Timing = Timing(entries: seq<TimingEntry>, totalWords: nat, totalDuration: nat, wordsPerMinute: real)

  /** The row built from one match: seconds from the start, the stripped text and its word count. */
  function EntryOf(l: TimedLine): TimingEntry {
    TimingEntry(l.stamp.Total(), Strip(l.text), |Words(Strip(l.text))|)
  }

  /** The sum of the rows' word counts. */
  function SumWords(es: seq<TimingEntry>): nat
    decreases |es|
  {
    if |es| == 0 then 0 else SumWords(es[..|es| - 1]) + es[|es| - 1].wordCount
  }

  lemma {:induction false} SumWordsAppend(es: seq<TimingEntry>, e: TimingEntry)
    ensures SumWords(es + [e]) == SumWords(es) + e.wordCount
  {
    assert (es + [e])[..|es|] == es;
  }

  /** `(total_words / total_duration) * 60`, or 100 when the duration is zero. */
  function Pace(totalWords: nat, totalDuration: nat): real {
    if totalDuration != 0 then totalWords as real / totalDuration as real * 60.0 else 100.0
  }

  /** The rows for a run of matches, one per match in order. */
  function EntriesOf(ls: seq<TimedLine>): (es: seq<TimingEntry>)
    ensures |es| == |ls|
    decreases |ls|
  {
    if |ls| == 0 then [] else EntriesOf(ls[..|ls| - 1]) + [EntryOf(ls[|ls| - 1])]
  }

  /**
   * The loop of `extract_timing_from_script` over the matches: the rows,
   * the word total, the time of the last row (300 seconds when there is
   * none) and the speaking pace.
   */
  method TimingOf(matches: seq<TimedLine>) returns (t: Timing)
    ensures t.entries == EntriesOf(matches)
    ensures t.totalWords == SumWords(t.entries)
    ensures |t.entries| == 0 ==> t.totalDuration == 300
    ensures |t.entries| > 0 ==> t.totalDuration == t.entries[|t.entries| - 1].time
    ensures t.wordsPerMinute == Pace(t.totalWords, t.totalDuration)
  {
    var entries: seq<TimingEntry> := [];
    var totalWords: nat := 0;
    for i := 0 to |matches|
      invariant entries == EntriesOf(matches[..i])
      invariant totalWords == SumWords(entries)
    {
      var entry := EntryOf(matches[i]);
      totalWords := totalWords + entry.wordCount;
      SumWordsAppend(entries, entry);
      assert matches[..i + 1][..i] == matches[..i];
      entries := entries + [entry];
    }
    assert matches[..|matches|] == matches;
    var totalDuration: nat := if |entries| > 0 then entries[|entries| - 1].time else 300;
    t := Timing(entries, totalWords, totalDuration, Pace(totalWords, totalDuration));
  }

  /** `extract_timing_from_script`: the timing table of the script's matches. */
  method ExtractTiming(script: string) returns (t: Timing)
    ensures t.entries == EntriesOf(TimedLines(script))
    ensures t.totalWords == SumWords(t.entries)
    ensures |t.entries| == 0 ==> t.totalDuration == 300
    ensures |t.entries| > 0 ==> t.totalDuration == t.entries[|t.entries| - 1].time
    ensures t.wordsPerMinute == Pace(t.totalWords, t.totalDuration)
  {
    t := TimingOf(TimedLines(script));
  }

  // ---------------------------------------------------------------------
  // clean_script_for_narration: eight rewrites in a row
  // ---------------------------------------------------------------------

  predicate NoBrace(s: string) {
    '{' !in s && '}' !in s
  }

  /** Step 1, `re.sub(r'\[SCENE\].*?\[/SCENE\]', '', s, flags=re.DOTALL)`. */
  function DropScenes(s: string): string
    decreases |s|
  {
    match SceneAt(s)
    case Some(k) => DropScenes(s[|Open| + k + |Close|..])
    case None => if |s| == 0 then "" else [s[0]] + DropScenes(s[1..])
  }

  /** Step 2, `re.sub(r'\[\d+:\d+\]\s*\{', '', s)`: a time code, any whitespace and an opening brace. */
  function DropOpenedStamps(s: string): string
    decreases |s|
  {
    match StampAt(s)
    case Some(m) =>
      var w := SpaceRun(s[m.len..]);
      if m.len + w < |s| && s[m.len + w] == '{' then DropOpenedStamps(s[m.len + w + 1..])
      else [s[0]] + DropOpenedStamps(s[1..])
    case None => if |s| == 0 then "" else [s[0]] + DropOpenedStamps(s[1..])
  }

  /** Step 3, `re.sub(r'\[\d+:\d+\]', '', s)`. */
  function DropStamps(s: string): string
    decreases |s|
  {
    match StampAt(s)
    case Some(m) => DropStamps(s[m.len..])
    case None => if |s| == 0 then "" else [s[0]] + DropStamps(s[1..])
  }

  /** Step 4, `re.sub(r'[{}]', '', s)`: no brace survives and nothing else is lost. */
  function DropBraces(s: string): (r: string)
    ensures NoBrace(r)
    ensures forall c :: c in r ==> c in s
    ensures forall c :: c in s && c != '{' && c != '}' ==> c in r
    decreases |s|
  {
    if |s| == 0 then ""
    else
      var rest := DropBraces(s[1..]);
      assert forall c :: c in s ==> c == s[0] || c in s[1..];
      if s[0] == '{' || s[0] == '}' then rest else [s[0]] + rest
  }

  /** Step 5, `re.sub(r'\n\s*\n', '\n\n', s)`: only newlines are brought in. */
  function SquashBlankLines(s: string): (r: string)
    ensures forall c :: c in r ==> c in s || c == '\n'
    decreases |s|
  {
    if |s| == 0 then ""
    else if s[0] == '\n' && LastIndexOfChar(s[1..1 + SpaceRun(s[1..])], '\n') < SpaceRun(s[1..]) then
      var j := LastIndexOfChar(s[1..1 + SpaceRun(s[1..])], '\n');
      var rest := SquashBlankLines(s[j + 2..]);
      assert forall c :: c in s[j + 2..] ==> c in s;
      "\n\n" + rest
    else
      var rest := SquashBlankLines(s[1..]);
      assert forall c :: c in s[1..] ==> c in s;
      [s[0]] + rest
  }

  /**
   * Step 6, `re.sub(r'^\s+', '', s, flags=re.MULTILINE)`: `atLineStart`
   * says whether `^` holds at the start of `s`.
   */
  function DropLineIndents(s: string, atLineStart: bool): (r: string)
    ensures forall c :: c in r ==> c in s
    decreases |s|
  {
    if |s| == 0 then ""
    else if atLineStart && IsSpace(s[0]) then
      var w := SpaceRun(s);
      var rest := DropLineIndents(s[w..], s[w - 1] == '\n');
      assert forall c :: c in s[w..] ==> c in s;
      rest
    else
      var rest := DropLineIndents(s[1..], s[0] == '\n');
      assert forall c :: c in s[1..] ==> c in s;
      [s[0]] + rest
  }

  /**
   * Step 7, `re.sub(r'\s+$', '', s, flags=re.MULTILINE)`: a whitespace run
   * is cut back to its last newline, or dropped when it ends the text.
   */
  function DropLineTrails(s: string): (r: string)
    ensures forall c :: c in r ==> c in s
    decreases |s|
  {
    if |s| == 0 then ""
    else if IsSpace(s[0]) && SpaceRun(s) == |s| then ""
    else if IsSpace(s[0]) && LastIndexOfChar(s[1..SpaceRun(s)], '\n') < SpaceRun(s) - 1 then
      var j := LastIndexOfChar(s[1..SpaceRun(s)], '\n');
      var rest := DropLineTrails(s[1 + j..]);
      assert forall c :: c in s[1 + j..] ==> c in s;
      rest
    else
      var rest := DropLineTrails(s[1..]);
      assert forall c :: c in s[1..] ==> c in s;
      [s[0]] + rest
  }

  /** Positions `i` and `i + 1` both hold whitespace. */
  predicate SpacePair(s: string, i: int)
    requires 0 <= i < |s| - 1
  {
    IsSpace(s[i]) && IsSpace(s[i + 1])
  }

  predicate NoDoubleSpace(s: string) {
    forall i :: 0 <= i < |s| - 1 ==> !SpacePair(s, i)
  }

  /**
   * Step 8, `re.sub(r'\s+', ' ', s)`: every whitespace run becomes one
   * space, so no two whitespace characters are adjacent.
   */
  function SquashSpaces(s: string): (r: string)
    ensures NoDoubleSpace(r)
    ensures forall c :: c in r ==> c in s || c == ' '
    ensures |s| > 0 ==> |r| > 0 && (IsSpace(r[0]) <==> IsSpace(s[0]))
    decreases |s|
  {
    if |s| == 0 then ""
    else if IsSpace(s[0]) then
      var w := SpaceRun(s);
      var rest := SquashSpaces(s[w..]);
      assert forall c :: c in s[w..] ==> c in s;
      assert |rest| > 0 ==> !IsSpace(rest[0]);
      var r := " " + rest;
      assert forall i :: 1 <= i < |r| - 1 ==> !SpacePair(r, i) by {
        forall i | 1 <= i < |r| - 1 ensures !SpacePair(r, i) {
          assert !SpacePair(rest, i - 1);
        }
      }
      r
    else
      var rest := SquashSpaces(s[1..]);
      assert forall c :: c in s[1..] ==> c in s;
      var r := [s[0]] + rest;
      assert forall i :: 1 <= i < |r| - 1 ==> !SpacePair(r, i) by {
        forall i | 1 <= i < |r| - 1 ensures !SpacePair(r, i) {
          assert !SpacePair(rest, i - 1);
        }
      }
      r
  }

  /** A piece cut out of text without adjacent whitespace has none either. */
  lemma {:induction false} NoDoubleSpaceSlice(s: string, i: nat, j: nat)
    requires i <= j <= |s| && NoDoubleSpace(s)
    ensures NoDoubleSpace(s[i..j])
  {
    forall k | 0 <= k < j - i - 1 ensures !SpacePair(s[i..j], k) {
      assert !SpacePair(s, i + k);
    }
  }

  lemma {:induction false} SliceKeeps(s: string, r: string, i: nat, j: nat)
    requires i <= j <= |s| && r == s[i..j] && NoDoubleSpace(s) && NoBrace(s)
    ensures NoDoubleSpace(r) && NoBrace(r)
  {
    NoDoubleSpaceSlice(s, i, j);
    forall k | 0 <= k < |r| ensures r[k] != '{' && r[k] != '}' {
      assert r[k] == s[i + k] && s[i + k] in s;
    }
  }

  lemma {:induction false} StripKeeps(s: string)
    requires NoDoubleSpace(s) && NoBrace(s)
    ensures NoDoubleSpace(Strip(s)) && NoBrace(Strip(s))
  {
    StripSlice(s);
    SliceKeeps(s, Strip(s), SpaceRun(s), SpaceRun(s) + |Strip(s)|);
  }

  /**
   * `clean_script_for_narration`: the script after its seven substitutions
   * holds no brace, no two whitespace characters are adjacent and the ends
   * are not whitespace. Scene blocks and time codes are removed where they
   * match when the scan reaches them; one formed only by a later removal
   * (`[1{}:2]` becomes `[1:2]`) stays.
   */
  function CleanForNarration(script: string): (r: string)
    ensures NoBrace(r) && NoDoubleSpace(r)
    ensures |r| > 0 ==> !IsSpace(r[0]) && !IsSpace(r[|r| - 1])
  {
    var s4 := DropBraces(DropStamps(DropOpenedStamps(DropScenes(script))));
    var s7 := DropLineTrails(DropLineIndents(SquashBlankLines(s4), true));
    var tabs := ReplaceAll(s7, "\t", " ");
    ReplaceChars(s7, "\t", " ");
    var squashed := SquashSpaces(tabs);
    StripKeeps(squashed);
    Strip(squashed)
  }
}
