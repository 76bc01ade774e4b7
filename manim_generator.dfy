/**
 * The deterministic text work of src/backend/manim_generator.py: reading
 * timing instructions out of a scene description, the animation skeleton
 * built from them, the code template, the topic line and the fallback
 * scene. The clean-up of a model's reply and the fixes applied to
 * generated code are in the module ManimCode.
 *
 * As in the script generator, every `re.findall` is a left-to-right
 * scanner: at each position it either matches (and resumes after the
 * match) or moves on by one character.
 */
module ManimGenerator {
  import opened Wrappers
  import opened Text
  import ScriptGenerator

  // ---------------------------------------------------------------------
  // Timing instructions
  //   spoken:    r'At\s+(\d+):(\d+),\s+(.*?)(?=\.\s+At|\.$|$)'
  //   bracketed: r'\[(\d+):(\d+)\](.*?)(?=\[\d+:\d+\]|\.$|$)'
  // both with re.DOTALL
  // ---------------------------------------------------------------------

  /** A non-empty run of ASCII digits, as `(\d+)` captures it. */
  type Digits = s: string | |s| > 0 && AllDigits(s) witness "0"

  /** One `(minutes, seconds, action)` tuple; the numbers stay the text that was matched. */
  datatype Instruction = Instruction(minutes: Digits, seconds: Digits, action: string)

  /** An instruction matched at the start of a string, and how many characters the match spans. */
  datatype Hit = Hit(ins: Instruction, len: nat)

  /** Which of the two patterns is being scanned for. */
  datatype Style = Spoken | Bracketed

  /** The width of `(\d+)` followed by `stop` at the start of `t`, or 0 when there is no such field. */
  function FieldEnd(t: string, stop: char): (w: nat)
    ensures w > 0 ==> w < |t| && t[w] == stop && AllDigits(t[..w])
  {
    var a := DigitRun(t);
    if a == 0 || a == |t| || t[a] != stop then 0 else a
  }

  /** `$` without MULTILINE: the end of the string, or the position of a final newline. */
  predicate AtEnd(s: string, i: nat) {
    i == |s| || (i + 1 == |s| && s[i] == '\n')
  }

  /** `\s+At` at the start of `t`. */
  predicate SpokenResumes(t: string) {
    var w := SpaceRun(t);
    w > 0 && StartsWith(t[w..], "At")
  }

  /** The lookahead that ends an action: another instruction, a final full stop, or the end. */
  predicate Lookahead(style: Style, s: string, e: nat)
    requires e <= |s|
  {
    || AtEnd(s, e)
    || (e < |s| && s[e] == '.' && AtEnd(s, e + 1))
    || (match style
        case Spoken => e < |s| && s[e] == '.' && SpokenResumes(s[e + 1..])
        case Bracketed => ScriptGenerator.StampAt(s[e..]).Some?)
  }

  /** `(.*?)` followed by the lookahead: the first position from `e` on where the lookahead holds. */
  function ActionEnd(style: Style, s: string, e: nat): (r: nat)
    requires e <= |s|
    ensures e <= r <= |s| && Lookahead(style, s, r)
    ensures forall k :: e <= k < r ==> !Lookahead(style, s, k)
    decreases |s| - e
  {
    if Lookahead(style, s, e) then e else ActionEnd(style, s, e + 1)
  }

  /**
   * The spoken pattern anchored at the start of `s`.  Both `\s+` runs are
   * maximal (what follows each is not whitespace), and the digit runs are
   * maximal since `:` or `,` must follow them.
   */
  function SpokenAt(s: string): (r: Option<Hit>)
    ensures r.Some? ==> 0 < r.value.len <= |s|
  {
    if !StartsWith(s, "At") then None
    else
      var i := 2 + SpaceRun(s[2..]);
      var m := FieldEnd(s[i..], ':');
      var j := i + m + 1;
      if i == 2 || m == 0 then None
      else
        var n := FieldEnd(s[j..], ',');
        var a := j + n + 1;
        if n == 0 || a + SpaceRun(s[a..]) == a then None
        else
          var b := a + SpaceRun(s[a..]);
          var e := ActionEnd(Spoken, s, b);
          assert s[i..][..m] == s[i..i + m] && s[j..][..n] == s[j..j + n];
          Some(Hit(Instruction(s[i..i + m], s[j..j + n], s[b..e]), e))
  }

  /** The bracketed pattern anchored at the start of `s`. */
  function BracketedAt(s: string): (r: Option<Hit>)
    ensures r.Some? ==> 0 < r.value.len <= |s|
  {
    if |s| == 0 || s[0] != '[' then None
    else
      var m := FieldEnd(s[1..], ':');
      var j := m + 2;
      if m == 0 then None
      else
        var n := FieldEnd(s[j..], ']');
        if n == 0 then None
        else
          var e := ActionEnd(Bracketed, s, j + n + 1);
          assert s[1..][..m] == s[1..1 + m] && s[j..][..n] == s[j..j + n];
          Some(Hit(Instruction(s[1..1 + m], s[j..j + n], s[j + n + 1..e]), e))
  }

  function HitAt(style: Style, s: string): (r: Option<Hit>)
    ensures r.Some? ==> 0 < r.value.len <= |s|
  {
    match style
    case Spoken => SpokenAt(s)
    case Bracketed => BracketedAt(s)
  }

  /** `re.findall` of one of the two patterns. */
  function InstructionsOf(style: Style, s: string): seq<Instruction>
    decreases |s|
  {
    match HitAt(style, s)
    case Some(h) => [h.ins] + InstructionsOf(style, s[h.len..])
    case None => if |s| == 0 then [] else InstructionsOf(style, s[1..])
  }

  /** What `extract_timing_instructions` matched: the bracketed form only when the spoken one finds nothing. */
  function MatchedInstructions(desc: string): seq<Instruction> {
    var spoken := InstructionsOf(Spoken, desc);
    if |spoken| > 0 then spoken else InstructionsOf(Bracketed, desc)
  }

  /** The sort key `(int(minutes), int(seconds))`. */
  datatype TimeKey = TimeKey(minutes: nat, seconds: nat) {
    function Total(): int { minutes * 60 + seconds }
  }

  function Key(x: Instruction): TimeKey {
    TimeKey(ParseNat(x.minutes), ParseNat(x.seconds))
  }

  /** Tuple order on keys. */
  predicate NotAfter(a: TimeKey, b: TimeKey) {
    a.minutes < b.minutes || (a.minutes == b.minutes && a.seconds <= b.seconds)
  }

  predicate SortedByTime(xs: seq<Instruction>) {
    forall i, j :: 0 <= i < j < |xs| ==> NotAfter(Key(xs[i]), Key(xs[j]))
  }

  /** Puts `x` before the first element that is not earlier than it. */
  function InsertByTime(x: Instruction, ys: seq<Instruction>): seq<Instruction>
    decreases |ys|
  {
    if |ys| == 0 || NotAfter(Key(x), Key(ys[0])) then [x] + ys
    else [ys[0]] + InsertByTime(x, ys[1..])
  }

  /** `sorted(xs, key=...)`, which is stable. */
  function SortByTime(xs: seq<Instruction>): seq<Instruction>
    decreases |xs|
  {
    if |xs| == 0 then [] else InsertByTime(xs[0], SortByTime(xs[1..]))
  }

  /** `extract_timing_instructions` */
  function ExtractTimingInstructions(desc: string): seq<Instruction> {
    SortByTime(MatchedInstructions(desc))
  }

  /** The instructions at time `k`, in order. */
  function AtTime(xs: seq<Instruction>, k: TimeKey): seq<Instruction>
    decreases |xs|
  {
    if |xs| == 0 then [] else (if Key(xs[0]) == k then [xs[0]] else []) + AtTime(xs[1..], k)
  }

  /** A key not after `x` nor after any of `ys` is not after anything of the insertion. */
  lemma {:induction false} InsertBounded(x: Instruction, ys: seq<Instruction>, b: TimeKey)
    requires NotAfter(b, Key(x)) && forall j :: 0 <= j < |ys| ==> NotAfter(b, Key(ys[j]))
    ensures forall k :: 0 <= k < |InsertByTime(x, ys)| ==> NotAfter(b, Key(InsertByTime(x, ys)[k]))
    decreases |ys|
  {
    if |ys| > 0 && !NotAfter(Key(x), Key(ys[0])) {
      InsertBounded(x, ys[1..], b);
      var r := InsertByTime(x, ys[1..]);
      assert InsertByTime(x, ys) == [ys[0]] + r;
    }
  }

  lemma {:induction false} InsertPermutes(x: Instruction, ys: seq<Instruction>)
    ensures multiset(InsertByTime(x, ys)) == multiset(ys) + multiset{x}
    decreases |ys|
  {
    if |ys| > 0 && !NotAfter(Key(x), Key(ys[0])) {
      InsertPermutes(x, ys[1..]);
      assert ys == [ys[0]] + ys[1..];
    }
  }

  lemma {:induction false} InsertSorted(x: Instruction, ys: seq<Instruction>)
    requires SortedByTime(ys)
    ensures SortedByTime(InsertByTime(x, ys))
    decreases |ys|
  {
    if |ys| == 0 || NotAfter(Key(x), Key(ys[0])) {
      assert forall j :: 0 <= j < |ys| ==> NotAfter(Key(ys[0]), Key(ys[j]));
    } else {
      var r := InsertByTime(x, ys[1..]);
      InsertSorted(x, ys[1..]);
      InsertBounded(x, ys[1..], Key(ys[0]));
      assert ys == [ys[0]] + ys[1..];
      assert InsertByTime(x, ys) == [ys[0]] + r;
    }
  }

  lemma {:induction false} InsertAtTime(x: Instruction, ys: seq<Instruction>, k: TimeKey)
    ensures AtTime(InsertByTime(x, ys), k) == (if Key(x) == k then [x] else []) + AtTime(ys, k)
    decreases |ys|
  {
    var r := InsertByTime(x, ys);
    if |ys| == 0 || NotAfter(Key(x), Key(ys[0])) {
      assert r[0] == x && r[1..] == ys;
    } else {
      InsertAtTime(x, ys[1..], k);
      assert r[0] == ys[0] && r[1..] == InsertByTime(x, ys[1..]);
    }
  }

  /**
   * The instructions come back ordered by time, as a rearrangement of the
   * matches, and instructions that share a time keep their order.
   */
  lemma {:induction false} SortByTimeCorrect(xs: seq<Instruction>)
    ensures SortedByTime(SortByTime(xs))
    ensures multiset(SortByTime(xs)) == multiset(xs)
    ensures forall k :: AtTime(SortByTime(xs), k) == AtTime(xs, k)
    decreases |xs|
  {
    if |xs| > 0 {
      SortByTimeCorrect(xs[1..]);
      InsertSorted(xs[0], SortByTime(xs[1..]));
      InsertPermutes(xs[0], SortByTime(xs[1..]));
      assert xs == [xs[0]] + xs[1..];
      forall k ensures AtTime(SortByTime(xs), k) == AtTime(xs, k) {
        InsertAtTime(xs[0], SortByTime(xs[1..]), k);
      }
    }
  }

  /** `extract_timing_instructions` sorts what it matched, stably. */
  lemma {:induction false} TimingInstructionsSorted(desc: string)
    ensures var r := ExtractTimingInstructions(desc);
      && SortedByTime(r)
      && multiset(r) == multiset(MatchedInstructions(desc))
      && forall k :: AtTime(r, k) == AtTime(MatchedInstructions(desc), k)
  {
    SortByTimeCorrect(MatchedInstructions(desc));
  }
  // ---------------------------------------------------------------------
  // The animation skeleton: generate_animation_sequence
  // ---------------------------------------------------------------------

  /** `f"        # At {mins}:{secs} - {action.strip()}"` */
  function AtLine(x: Instruction): string {
    "        # At " + (x.minutes + ":" + x.seconds + " - " + Strip(x.action))
  }

  /** `f"        self.wait({w})  # Wait for {w} seconds"` */
  function WaitLine(w: int): string {
    "        self.wait(" + (IntToString(w) + ")  # Wait for " + IntToString(w) + " seconds")
  }

  /** `f"        # TODO: Action - {action.strip()}\n"` */
  function TodoLine(x: Instruction): string {
    "        # TODO: Action - " + (Strip(x.action) + "\n")
  }

  /** Seconds from `prev` to `cur`, counted field by field as the source does. */
  function Gap(prev: TimeKey, cur: TimeKey): int {
    (cur.minutes - prev.minutes) * 60 + (cur.seconds - prev.seconds)
  }

  /** The lines one instruction contributes, given the instruction before it (if any). */
  function Block(x: Instruction, prev: Option<Instruction>): seq<string> {
    var wait := if prev.Some? && Gap(Key(prev.value), Key(x)) > 0 then [WaitLine(Gap(Key(prev.value), Key(x)))] else [];
    [AtLine(x)] + wait + [TodoLine(x)]
  }

  function Previous(ins: seq<Instruction>, i: nat): Option<Instruction>
    requires i < |ins|
  {
    if i == 0 then None else Some(ins[i - 1])
  }

  /** The `code_lines` the loop collects: each instruction's block, in order. */
  function AnimationLines(ins: seq<Instruction>): seq<string>
    decreases |ins|
  {
    if |ins| == 0 then []
    else AnimationLines(ins[..|ins| - 1]) + Block(ins[|ins| - 1], Previous(ins, |ins| - 1))
  }

  /** `generate_animation_sequence` */
  method GenerateAnimationSequence(ins: seq<Instruction>) returns (code: string)
    ensures code == Join(AnimationLines(ins), "\n")
  {
    var lines: seq<string> := [];
    var last := TimeKey(0, 0);
    for i := 0 to |ins|
      invariant lines == AnimationLines(ins[..i])
      invariant last == if i == 0 then TimeKey(0, 0) else Key(ins[i - 1])
    {
      var current := Key(ins[i]);
      var wait := Gap(last, current);
      ghost var before := lines;
      lines := lines + [AtLine(ins[i])];
      if i > 0 && wait > 0 {
        lines := lines + [WaitLine(wait)];
      }
      lines := lines + [TodoLine(ins[i])];
      last := current;
      BlockAppended(before, ins, i, wait, lines);
    }
    assert ins[..|ins|] == ins;
    code := Join(lines, "\n");
  }

  /** One turn of the loop adds the block of instruction `i`. */
  lemma {:induction false} BlockAppended(before: seq<string>, ins: seq<Instruction>, i: nat, wait: int, lines: seq<string>)
    requires i < |ins| && before == AnimationLines(ins[..i])
    requires i > 0 ==> wait == Gap(Key(ins[i - 1]), Key(ins[i]))
    requires lines == before + [AtLine(ins[i])] + (if i > 0 && wait > 0 then [WaitLine(wait)] else []) + [TodoLine(ins[i])]
    ensures lines == AnimationLines(ins[..i + 1])
  {
    var w := if i > 0 && wait > 0 then [WaitLine(wait)] else [];
    assert Block(ins[i], Previous(ins, i)) == [AtLine(ins[i])] + w + [TodoLine(ins[i])];
    Regroup(before, [AtLine(ins[i])] + w, [TodoLine(ins[i])]);
    AnimationLinesStep(ins, i);
  }

  lemma {:induction false} AnimationLinesStep(ins: seq<Instruction>, i: nat)
    requires i < |ins|
    ensures AnimationLines(ins[..i + 1]) == AnimationLines(ins[..i]) + Block(ins[i], Previous(ins, i))
  {
    var front := ins[..i + 1];
    assert front[..i] == ins[..i];
    assert Previous(front, i) == Previous(ins, i);
  }

  /** The positive gaps between consecutive instructions: the waits the skeleton should contain. */
  function Waits(ins: seq<Instruction>): seq<int>
    decreases |ins|
  {
    if |ins| < 2 then []
    else
      var g := Gap(Key(ins[|ins| - 2]), Key(ins[|ins| - 1]));
      Waits(ins[..|ins| - 1]) + (if g > 0 then [g] else [])
  }

  /** The comment pair of every instruction, in input order. */
  function Comments(ins: seq<Instruction>): seq<string>
    decreases |ins|
  {
    if |ins| == 0 then [] else Comments(ins[..|ins| - 1]) + [AtLine(ins[|ins| - 1]), TodoLine(ins[|ins| - 1])]
  }

  predicate IsWaitLine(l: string) {
    StartsWith(l, "        self.wait(")
  }

  function WaitLinesOf(ls: seq<string>): seq<string>
    decreases |ls|
  {
    if |ls| == 0 then []
    else WaitLinesOf(ls[..|ls| - 1]) + (if IsWaitLine(ls[|ls| - 1]) then [ls[|ls| - 1]] else [])
  }

  function OtherLinesOf(ls: seq<string>): seq<string>
    decreases |ls|
  {
    if |ls| == 0 then []
    else OtherLinesOf(ls[..|ls| - 1]) + (if IsWaitLine(ls[|ls| - 1]) then [] else [ls[|ls| - 1]])
  }

  function WaitLinesFor(ws: seq<int>): seq<string>
    decreases |ws|
  {
    if |ws| == 0 then [] else WaitLinesFor(ws[..|ws| - 1]) + [WaitLine(ws[|ws| - 1])]
  }

  lemma {:induction false} LineFiltersAppend(a: seq<string>, b: seq<string>)
    ensures WaitLinesOf(a + b) == WaitLinesOf(a) + WaitLinesOf(b)
    ensures OtherLinesOf(a + b) == OtherLinesOf(a) + OtherLinesOf(b)
    decreases |b|
  {
    if |b| > 0 {
      assert (a + b)[..|a + b| - 1] == a + b[..|b| - 1];
      LineFiltersAppend(a, b[..|b| - 1]);
    } else {
      assert a + b == a;
    }
  }

  /** A string that differs from `p` at position `i` inside both does not start with `p`. */
  lemma {:induction false} DiffersAt(a: string, rest: string, p: string, i: nat)
    requires i < |a| && i < |p| && a[i] != p[i]
    ensures !StartsWith(a + rest, p)
  {
  }

  lemma {:induction false} StartsWithPrefix(a: string, rest: string)
    ensures StartsWith(a + rest, a)
  {
    assert (a + rest)[..|a|] == a;
  }

  lemma {:induction false} CommentLinesPlain(x: Instruction)
    ensures !IsWaitLine(AtLine(x)) && !IsWaitLine(TodoLine(x))
  {
    DiffersAt("        # At ", x.minutes + ":" + x.seconds + " - " + Strip(x.action), "        self.wait(", 8);
    DiffersAt("        # TODO: Action - ", Strip(x.action) + "\n", "        self.wait(", 8);
  }

  lemma {:induction false} WaitLineIsWait(w: int)
    ensures IsWaitLine(WaitLine(w))
  {
    StartsWithPrefix("        self.wait(", IntToString(w) + ")  # Wait for " + IntToString(w) + " seconds");
  }

  lemma {:induction false} BlockLines(x: Instruction, prev: Option<Instruction>)
    ensures var g := if prev.Some? then Gap(Key(prev.value), Key(x)) else 0;
      && WaitLinesOf(Block(x, prev)) == (if prev.Some? && g > 0 then [WaitLine(g)] else [])
      && OtherLinesOf(Block(x, prev)) == [AtLine(x), TodoLine(x)]
  {
    CommentLinesPlain(x);
    var b := Block(x, prev);
    if prev.Some? && Gap(Key(prev.value), Key(x)) > 0 {
      var w := WaitLine(Gap(Key(prev.value), Key(x)));
      WaitLineIsWait(Gap(Key(prev.value), Key(x)));
      assert b == [AtLine(x), w, TodoLine(x)];
      assert b[..2] == [AtLine(x), w];
      assert b[..2][..1] == [AtLine(x)];
      assert b[..2][..1][..0] == [];
      assert WaitLinesOf(b[..2][..1]) == [];
      assert OtherLinesOf(b[..2][..1]) == [AtLine(x)];
    } else {
      assert b == [AtLine(x), TodoLine(x)];
      assert b[..1] == [AtLine(x)];
      assert b[..1][..0] == [];
      assert WaitLinesOf(b[..1]) == [];
      assert OtherLinesOf(b[..1]) == [AtLine(x)];
    }
  }

  /**
   * Read back, the skeleton holds exactly one wait line per positive gap,
   * with that gap as its value, and apart from them the two comment lines
   * of every instruction in input order.
   */
  lemma {:induction false} AnimationLinesSplit(ins: seq<Instruction>)
    ensures WaitLinesOf(AnimationLines(ins)) == WaitLinesFor(Waits(ins))
    ensures OtherLinesOf(AnimationLines(ins)) == Comments(ins)
    decreases |ins|
  {
    if |ins| > 0 {
      var n := |ins|;
      var front := ins[..n - 1];
      var x := ins[n - 1];
      var prev := Previous(ins, n - 1);
      var b := Block(x, prev);
      AnimationLinesSplit(front);
      assert AnimationLines(ins) == AnimationLines(front) + b;
      LineFiltersAppend(AnimationLines(front), b);
      BlockLines(x, prev);
      assert Comments(ins) == Comments(front) + [AtLine(x), TodoLine(x)];
      WaitsStep(ins);
      var g := if prev.Some? then Gap(Key(prev.value), Key(x)) else 0;
      WaitLinesForAppend(Waits(front), if prev.Some? && g > 0 then [g] else []);
    }
  }

  /** The waits of a list are those of its front, then the gap to its last instruction when positive. */
  lemma {:induction false} WaitsStep(ins: seq<Instruction>)
    requires |ins| > 0
    ensures var prev := Previous(ins, |ins| - 1);
      var g := if prev.Some? then Gap(Key(prev.value), Key(ins[|ins| - 1])) else 0;
      Waits(ins) == Waits(ins[..|ins| - 1]) + (if prev.Some? && g > 0 then [g] else [])
  {
    var n := |ins|;
    if n >= 2 {
      var front := ins[..n - 1];
      assert front[|front| - 1] == ins[n - 2];
    }
  }

  lemma {:induction false} WaitLinesForAppend(ws: seq<int>, more: seq<int>)
    requires |more| <= 1
    ensures WaitLinesFor(ws + more) == WaitLinesFor(ws) + (if |more| == 1 then [WaitLine(more[0])] else [])
  {
    if |more| == 1 {
      assert (ws + more)[..|ws + more| - 1] == ws;
    } else {
      assert ws + more == ws;
    }
  }

  function Sum(ws: seq<int>): int
    decreases |ws|
  {
    if |ws| == 0 then 0 else Sum(ws[..|ws| - 1]) + ws[|ws| - 1]
  }

  /** Instruction times never decrease along the list. */
  predicate TimesNonDecreasing(ins: seq<Instruction>) {
    forall i :: 0 < i < |ins| ==> Key(ins[i - 1]).Total() <= Key(ins[i]).Total()
  }

  /** When times never go back, the waits add up to the span from the first instruction to the last. */
  lemma {:induction false} WaitsSpan(ins: seq<Instruction>)
    requires |ins| > 0 && TimesNonDecreasing(ins)
    ensures Sum(Waits(ins)) == Key(ins[|ins| - 1]).Total() - Key(ins[0]).Total()
    decreases |ins|
  {
    if |ins| >= 2 {
      var front := ins[..|ins| - 1];
      assert TimesNonDecreasing(front);
      WaitsSpan(front);
      var g := Gap(Key(ins[|ins| - 2]), Key(ins[|ins| - 1]));
      assert g == Key(ins[|ins| - 1]).Total() - Key(ins[|ins| - 2]).Total();
      var tail := if g > 0 then [g] else [];
      assert Sum(Waits(front) + tail) == Sum(Waits(front)) + Sum(tail) by {
        if g > 0 {
          assert (Waits(front) + tail)[..|Waits(front) + tail| - 1] == Waits(front);
        } else {
          assert Waits(front) + tail == Waits(front);
        }
      }
    }
  }

  /** Sorted instructions whose seconds are below 60 have non-decreasing times. */
  lemma {:induction false} SortedTimesNonDecreasing(ins: seq<Instruction>)
    requires SortedByTime(ins)
    requires forall i :: 0 <= i < |ins| ==> Key(ins[i]).seconds < 60
    ensures TimesNonDecreasing(ins)
  {
    forall i | 0 < i < |ins| ensures Key(ins[i - 1]).Total() <= Key(ins[i]).Total() {
      assert NotAfter(Key(ins[i - 1]), Key(ins[i]));
    }
  }

  // ---------------------------------------------------------------------
  // The code template: create_base_code_with_timing
  // ---------------------------------------------------------------------

  // `BASE_TEMPLATE`, cut around its `{animations}` placeholder; the `{{}}`
  // before it is literal text, the template being no f-string.
  function TemplateHead(): string { ImportLine + ClassLine + DefLine + TrackLine + ObjectsLine }
  const DefLine: string := "\n    def construct(self):\n"
  const TrackLine: string := "        # Track objects for reference\n"
  const ObjectsLine: string := "        objects = "
  const TemplateBraces: string := "{{}}"
  const TemplateGap: string := "\n        \n"
  const Placeholder: string := "{animations}"
  function TemplateTail(): string { "\n        \n" + "        # Final pause\n" + "        self.wait(2)\n" }
  function BaseTemplate(): string { TemplateHead() + TemplateBraces + TemplateGap + Placeholder + TemplateTail() }

  /** The animation put into the template when no timing instruction was found. */
  const BasicAnimation: string := "        # Basic animation\n        title = Text(\"Math Concept\", font_size=48)\n        self.play(Write(title))"

  const ClassLine: string := "class UserAnimationScene(Scene):"

  lemma {:induction false} ImportLinePlain() ensures '{' !in ImportLine {}
  lemma {:induction false} ClassLinePlain() ensures '{' !in ClassLine {}
  lemma {:induction false} DefLinePlain() ensures '{' !in DefLine {}
  lemma {:induction false} TrackLinePlain() ensures '{' !in TrackLine {}
  lemma {:induction false} ObjectsLinePlain() ensures '{' !in ObjectsLine {}

  lemma {:induction false} NotInFive(c: char, a: string, b: string, d: string, e: string, f: string)
    requires c !in a && c !in b && c !in d && c !in e && c !in f
    ensures c !in a + b + d + e + f
  {
  }

  lemma {:induction false} TemplateHeadPlain()
    ensures '{' !in TemplateHead()
  {
    ImportLinePlain();
    ClassLinePlain();
    DefLinePlain();
    TrackLinePlain();
    ObjectsLinePlain();
    NotInFive('{', ImportLine, ClassLine, DefLine, TrackLine, ObjectsLine);
  }

  lemma {:induction false} TemplateGapPlain()
    ensures '{' !in TemplateGap
  {
  }

  lemma {:induction false} TemplateTailPlain()
    ensures '{' !in TemplateTail()
  {
    assert '{' !in "\n        \n";
    assert '{' !in "        # Final pause\n";
    assert '{' !in "        self.wait(2)\n";
  }

  lemma {:induction false} BracesUnmatched()
    ensures forall k :: 0 <= k < |TemplateBraces| ==> Disjoint(TemplateBraces[k..], Placeholder)
  {
    forall k | 0 <= k < |TemplateBraces| ensures Disjoint(TemplateBraces[k..], Placeholder) {
      if k < 2 {
        assert TemplateBraces[k..][1] != Placeholder[1];
      } else {
        assert TemplateBraces[k..][0] != Placeholder[0];
      }
    }
  }

  /** Filling a template whose one placeholder `p` sits between texts that cannot start another. */
  lemma {:induction false} FillParts(h: string, br: string, g: string, p: string, t: string, body: string)
    requires |p| > 0 && p[0] !in h && p[0] !in g && p[0] !in t
    requires forall k :: 0 <= k < |br| ==> Disjoint(br[k..], p)
    ensures ReplaceAll(h + br + g + p + t, p, body) == h + br + g + body + t
  {
    var pt := p + t;
    ReplaceTail(p, t, body);
    ReplaceSkipsPrefix(g, pt, p, body);
    ReplaceSkipsUnmatched(br, g + pt, p, body);
    ReplaceSkipsPrefix(h, br + (g + pt), p, body);
    Regroup5(h, br, g, p, t);
    Regroup5(h, br, g, body, t);
  }

  /** The placeholder followed by a text that cannot start another. */
  lemma {:induction false} ReplaceTail(p: string, t: string, body: string)
    requires |p| > 0 && p[0] !in t
    ensures ReplaceAll(p + t, p, body) == body + t
  {
    ReplaceSkipsPrefix(t, "", p, body);
    assert t + "" == t;
    assert (p + t)[..|p|] == p && (p + t)[|p|..] == t;
  }

  lemma {:induction false} Regroup5(a: string, b: string, c: string, d: string, e: string)
    ensures a + b + c + d + e == a + (b + (c + (d + e)))
  {
  }

  /** `BASE_TEMPLATE.replace("{animations}", body)` puts `body` where the placeholder was. */
  lemma {:induction false} FillTemplate(body: string)
    ensures ReplaceAll(BaseTemplate(), Placeholder, body) == TemplateHead() + TemplateBraces + TemplateGap + body + TemplateTail()
  {
    TemplateHeadPlain();
    TemplateGapPlain();
    TemplateTailPlain();
    BracesUnmatched();
    FillParts(TemplateHead(), TemplateBraces, TemplateGap, Placeholder, TemplateTail(), body);
  }

  /**
   * `create_base_code_with_timing`: the template around the animation
   * skeleton of the sorted instructions, or around the basic title
   * animation when there are none.
   */
  method CreateBaseCodeWithTiming(desc: string) returns (code: string)
    ensures var ins := ExtractTimingInstructions(desc);
      && (|ins| == 0 ==> code == TemplateHead() + TemplateBraces + TemplateGap + BasicAnimation + TemplateTail())
      && (|ins| > 0 ==> code == TemplateHead() + TemplateBraces + TemplateGap + Join(AnimationLines(ins), "\n") + TemplateTail())
  {
    var ins := ExtractTimingInstructions(desc);
    if |ins| == 0 {
      FillTemplate(BasicAnimation);
      return ReplaceAll(BaseTemplate(), Placeholder, BasicAnimation);
    }
    var body := GenerateAnimationSequence(ins);
    FillTemplate(body);
    code := ReplaceAll(BaseTemplate(), Placeholder, body);
  }

  // ---------------------------------------------------------------------
  // The topic line: extract_scene_topic
  // ---------------------------------------------------------------------

  /**
   * `extract_scene_topic`: the text before the first `.`, and when that is
   * longer than 30 characters its first 30 characters followed by `...`.
   */
  function ExtractSceneTopic(desc: string): (r: string)
    ensures |r| <= 30 ==> StartsWith(desc, r) && '.' !in r && (|r| == |desc| || desc[|r|] == '.')
    ensures |r| > 30 ==> |desc| > 30 && |r| == 33 && r == desc[..30] + "..." && '.' !in desc[..31]
  {
    var first := BeforeChar(desc, '.');
    if |first| > 30 then
      assert desc[..31] == first[..31];
      first[..30] + "..."
    else first
  }

  /** A description of at most 30 characters without a `.` is its own topic. */
  lemma {:induction false} ShortTopicKept(desc: string)
    requires '.' !in desc && |desc| <= 30
    ensures ExtractSceneTopic(desc) == desc
  {
    var r := ExtractSceneTopic(desc);
    assert forall i :: 0 <= i < |desc| ==> desc[i] != '.';
    assert desc[..|r|] == r;
  }

  /** The topic never exceeds 33 characters. */
  lemma {:induction false} SceneTopicShort(desc: string)
    ensures |ExtractSceneTopic(desc)| <= 33
  {
  }

  // ---------------------------------------------------------------------
  // The fallback scene: create_fallback_code
  // ---------------------------------------------------------------------

  /** The fallback scene up to the opening quote of the topic's `Text('…')`. */
  function FallbackHead(): string { ImportLine + ClassLine + FallbackSetup }
  const ImportLine: string := "from manim import *\n\n"
  const FallbackSetup: string :=
    "\n    def construct(self):\n"
    + "        title = Text('Scene Generation Fallback', color=RED)\n"
    + "        self.play(Write(title))\n"
    + "        self.wait(1)\n"
    + "        explanation = Text('Unable to generate custom animation', color=WHITE, font_size=24)\n"
    + "        explanation.next_to(title, DOWN)\n"
    + "        self.play(FadeIn(explanation))\n"
    + "        self.wait(1)\n"
    + "        scene_topic = Text('"

  /** The rest of the topic's line after the topic text, up to its line break. */
  const TopicArgs: string := ", color=BLUE, font_size=30)"

  /** The fallback scene from the closing quote of the topic on. */
  function FallbackTail(): string { "'" + TopicArgs + FallbackRest }
  const FallbackRest: string :=
    "\n        scene_topic.next_to(explanation, DOWN, buff=0.5)\n"
    + "        self.play(Create(scene_topic))\n"
    + "        self.wait(2)\n"
    + "        circle = Circle(color=BLUE)\n"
    + "        square = Square(color=RED)\n"
    + "        square.next_to(circle, RIGHT)\n"
    + "        self.play(Create(circle), run_time=1)\n"
    + "        self.play(Create(square), run_time=1)\n"
    + "        self.play(circle.animate.scale(0.5), square.animate.scale(0.5))\n"
    + "        self.wait(1)\n"
    + "        desc = Text('Scene description preview:', color=YELLOW, font_size=20)\n"
    + "        desc.to_edge(DOWN, buff=1.5)\n"
    + "        self.play(Write(desc))\n"
    + "        short_desc = Text('Description preview unavailable', color=GREEN, font_size=18)\n"
    + "        short_desc.next_to(desc, DOWN)\n"
    + "        self.play(Write(short_desc))\n"
    + "        self.wait(2)\n"

  /** What an escape sequence `\e` stands for inside a Python string literal. */
  function Unescape(e: char): string {
    if e == '\\' then "\\"
    else if e == '\'' then "'"
    else if e == '"' then "\""
    else if e == 'n' then "\n"
    else if e == 'r' then "\r"
    else if e == 't' then "\t"
    else if e == '\n' then ""
    else ['\\', e]
  }

  /**
   * Python reading a single-quoted string literal, from just after its
   * opening quote: the value, and how many characters up to and including
   * the closing quote; `None` when the line or the text ends first, which
   * is a syntax error.
   */
  function ReadLiteral(s: string): Option<(string, nat)>
    decreases |s|
  {
    if |s| == 0 || s[0] == '\n' || s[0] == '\r' then None
    else if s[0] == '\'' then Some(("", 1))
    else if s[0] == '\\' && |s| >= 2 then
      match ReadLiteral(s[2..])
      case None => None
      case Some(v) => Some((Unescape(s[1]) + v.0, v.1 + 2))
    else
      match ReadLiteral(s[1..])
      case None => None
      case Some(v) => Some(([s[0]] + v.0, v.1 + 1))
  }

  /** `topic.replace("'", "\\'")`: the escaping the source applies. */
  function EscapeQuotes(t: string): string {
    ReplaceAll(t, "'", "\\'")
  }

  /** Every quote of the escaped topic has a backslash before it. */
  lemma {:induction false} QuotesEscaped(t: string)
    ensures var r := EscapeQuotes(t);
      forall i :: 0 <= i < |r| && r[i] == '\'' ==> i > 0 && r[i - 1] == '\\'
    decreases |t|
  {
    if |t| > 0 {
      QuotesEscaped(t[1..]);
      var r := EscapeQuotes(t[1..]);
      if StartsWith(t, "'") {
        assert EscapeQuotes(t) == "\\'" + r;
      } else {
        assert EscapeQuotes(t) == [t[0]] + r;
        assert t[0] != '\'' by { assert t[..1] == [t[0]]; }
      }
    }
  }

  /** The escape a literal needs for one character: backslash, quote and line breaks. */
  function EscapeChar(c: char): string {
    if c == '\\' then "\\\\"
    else if c == '\'' then "\\'"
    else if c == '\n' then "\\n"
    else if c == '\r' then "\\r"
    else [c]
  }

  function EscapeLiteral(t: string): string
    decreases |t|
  {
    if |t| == 0 then "" else EscapeChar(t[0]) + EscapeLiteral(t[1..])
  }

  /** Reading an escaped character, then the rest. */
  lemma {:induction false} ReadEscaped(c: char, tail: string)
    ensures ReadLiteral(EscapeChar(c) + tail) ==
      match ReadLiteral(tail)
      case None => None
      case Some(v) => Some(([c] + v.0, v.1 + |EscapeChar(c)|))
  {
    var s := EscapeChar(c) + tail;
    if |EscapeChar(c)| == 2 {
      assert s[2..] == tail;
    } else {
      assert s[1..] == tail;
    }
  }

  /** An escaped text followed by a quote reads back as exactly that text. */
  lemma {:induction false} LiteralRoundTrip(t: string, rest: string)
    ensures ReadLiteral(EscapeLiteral(t) + "'" + rest) == Some((t, |EscapeLiteral(t)| + 1))
    decreases |t|
  {
    if |t| == 0 {
      assert (EscapeLiteral(t) + "'" + rest)[0] == '\'';
    } else {
      LiteralRoundTrip(t[1..], rest);
      var tail := EscapeLiteral(t[1..]) + "'" + rest;
      ReadEscaped(t[0], tail);
      assert EscapeLiteral(t) + "'" + rest == EscapeChar(t[0]) + tail;
      assert [t[0]] + t[1..] == t;
    }
  }

  /** For a topic with no backslash and no line break, the source's escaping is the right one. */
  lemma {:induction false} EscapeQuotesSuffices(t: string)
    requires '\\' !in t && '\n' !in t && '\r' !in t
    ensures EscapeQuotes(t) == EscapeLiteral(t)
    decreases |t|
  {
    if |t| > 0 {
      assert t[..1] == [t[0]];
      EscapeQuotesSuffices(t[1..]);
    }
  }

  /** `create_fallback_code` as written. */
  function FallbackCode(desc: string): string {
    FallbackHead() + EscapeQuotes(ExtractSceneTopic(desc)) + FallbackTail()
  }

  /** The fallback scene with its topic escaped completely. */
  function FallbackCodeEscaped(desc: string): string {
    FallbackHead() + EscapeLiteral(ExtractSceneTopic(desc)) + FallbackTail()
  }

  /** Between any head and a tail opening with the closing quote, the escaped text reads back. */
  lemma {:induction false} ReadsBackBetween(head: string, t: string, tail: string)
    requires |tail| > 0 && tail[0] == '\''
    ensures exists lit :: head + EscapeLiteral(t) + tail == head + lit && ReadLiteral(lit) == Some((t, |EscapeLiteral(t)| + 1))
  {
    var e := EscapeLiteral(t);
    assert tail == "'" + tail[1..];
    LiteralRoundTrip(t, tail[1..]);
    Regroup(head, e, tail);
    Regroup(e, "'", tail[1..]);
    assert head + e + tail == head + (e + "'" + tail[1..]);
  }

  /** With the complete escaping, the topic's literal reads back as the topic. */
  lemma {:induction false} FallbackTopicReadsBack(desc: string)
    ensures var t := ExtractSceneTopic(desc);
      exists lit :: FallbackCodeEscaped(desc) == FallbackHead() + lit && ReadLiteral(lit) == Some((t, |EscapeLiteral(t)| + 1))
  {
    assert FallbackTail()[0] == '\'';
    ReadsBackBetween(FallbackHead(), ExtractSceneTopic(desc), FallbackTail());
  }

  /** Not a quote, a backslash or a line break: read as itself inside a literal. */
  predicate PlainChar(c: char) {
    c != '\'' && c != '\\' && c != '\n' && c != '\r'
  }

  lemma {:induction false} TopicArgsChars()
    ensures forall i :: 0 <= i < |TopicArgs| ==> PlainChar(TopicArgs[i])
  {
  }

  lemma {:induction false} TopicArgsPlain()
    ensures '\'' !in TopicArgs && '\\' !in TopicArgs && '\n' !in TopicArgs && '\r' !in TopicArgs
  {
    TopicArgsChars();
  }

  /** A literal that meets a line break before any quote or backslash is unterminated. */
  lemma {:induction false} UnterminatedAtLineBreak(x: string, rest: string)
    requires '\'' !in x && '\\' !in x && '\n' !in x && '\r' !in x
    ensures ReadLiteral(x + "\n" + rest) == None
    decreases |x|
  {
    var s := x + "\n" + rest;
    if |x| == 0 {
      assert s[0] == '\n';
    } else {
      assert s[0] == x[0] && x[0] in x;
      assert s[1..] == x[1..] + "\n" + rest;
      UnterminatedAtLineBreak(x[1..], rest);
    }
  }

  /** A text without the character `c` has no occurrence of `[c]`. */
  lemma {:induction false} NoCharNoOccurrence(s: string, c: char)
    requires c !in s
    ensures !Contains(s, [c])
    decreases |s|
  {
    if |s| > 0 {
      assert s[0] in s && s[..1] == [s[0]];
      assert forall m :: 0 <= m < |s[1..]| ==> s[1..][m] == s[m + 1];
      NoCharNoOccurrence(s[1..], c);
    }
  }

  /** Between any head and tail, a quote-free text with a line break ends its literal at the break. */
  lemma {:induction false} BreaksBetween(head: string, x: string, y: string, tail: string)
    requires '\'' !in x && '\\' !in x && '\n' !in x && '\r' !in x && '\'' !in y
    ensures exists lit :: head + EscapeQuotes(x + "\n" + y) + tail == head + lit && ReadLiteral(lit) == None
  {
    var t := x + "\n" + y;
    assert '\'' !in t;
    NoCharNoOccurrence(t, '\'');
    ReplaceAbsent(t, "'", "\\'");
    UnterminatedAtLineBreak(x, y + tail);
    assert head + t + tail == head + (x + "\n" + (y + tail));
  }

  /**
   * A description whose first sentence is short and holds a line break
   * makes the fallback scene a syntax error: the topic's literal ends at
   * the break.
   */
  lemma {:induction false} FallbackLineBreakBreaks(x: string, y: string)
    requires '\'' !in x && '\\' !in x && '\n' !in x && '\r' !in x && '.' !in x
    requires '\'' !in y && '.' !in y && |x| + 1 + |y| <= 30
    ensures ExtractSceneTopic(x + "\n" + y) == x + "\n" + y
    ensures exists lit :: FallbackCode(x + "\n" + y) == FallbackHead() + lit && ReadLiteral(lit) == None
  {
    var t := x + "\n" + y;
    assert '.' !in t;
    ShortTopicKept(t);
    BreaksBetween(FallbackHead(), x, y, FallbackTail());
  }

  /** The smallest such description: `"Intro\nCircle"`. */
  lemma {:induction false} FallbackIntroCircleBreaks()
    ensures exists lit :: FallbackCode("Intro\nCircle") == FallbackHead() + lit && ReadLiteral(lit) == None
  {
    assert "Intro\nCircle" == "Intro" + "\n" + "Circle";
    FallbackLineBreakBreaks("Intro", "Circle");
  }

  /** An occurrence inside the head of a text is an occurrence in the whole. */
  lemma {:induction false} InHead(a: string, x: string, b: string, topic: string, tail: string)
    ensures Contains(a + x + b + topic + tail, x)
  {
    ContainsAt(x, x, 0);
    assert x[0..|x|] == x;
    ContainsInPart(a, x, b + topic + tail, x);
    assert a + x + (b + topic + tail) == a + x + b + topic + tail;
  }

  /** Both fallback scenes define the scene class the renderer looks for. */
  lemma {:induction false} FallbackDefinesScene(desc: string)
    ensures Contains(FallbackCode(desc), ClassLine) && Contains(FallbackCodeEscaped(desc), ClassLine)
  {
    InHead(ImportLine, ClassLine, FallbackSetup, EscapeQuotes(ExtractSceneTopic(desc)), FallbackTail());
    InHead(ImportLine, ClassLine, FallbackSetup, EscapeLiteral(ExtractSceneTopic(desc)), FallbackTail());
  }
}
