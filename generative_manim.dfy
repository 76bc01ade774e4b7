/**
 * The text work of src/backend/generative_manim_integration.py around the
 * model call: taking the code out of a fenced reply and renaming its scene
 * class, the regular-expression repairs of `post_process_code`, and the
 * fixed scene `create_fallback_code` returns when the call fails.
 */
module GenerativeManim {
  import opened Wrappers
  import opened Text
  import opened Regex

  // ---------------------------------------------------------------------
  // The reply: fences and the scene class name
  // ---------------------------------------------------------------------

  const Fence: string := "```"
  const PythonFence: string := "```python"

  /** `s.split(p, 1)[1].split("```", 1)[0]`: from after the first `p` up to the next fence. */
  function Between(s: string, p: string): (r: string)
    requires |p| > 0 && Contains(s, p)
    ensures !Contains(r, Fence)
  {
    IndexOfAbsent(s, p);
    var after := s[IndexOf(s, p) + |p|..];
    IndexOfPrefixFree(after, Fence);
    after[..IndexOf(after, Fence)]
  }

  /** The code of a reply: inside the first ```` ```python ```` fence, else the first fence, stripped. */
  function StripFences(raw: string): string {
    if Contains(raw, PythonFence) then Strip(Between(raw, PythonFence))
    else if Contains(raw, Fence) then Strip(Between(raw, Fence))
    else raw
  }

  /** A text without `p` has no `p` in any slice. */
  lemma {:induction false} NotInSlice(s: string, i: nat, j: nat, p: string)
    requires i <= j <= |s| && !Contains(s, p)
    ensures !Contains(s[i..j], p)
  {
    if Contains(s[i..j], p) {
      ContainsSlice(s, i, j, p);
      assert false;
    }
  }

  /** A reply with a fence gives code without one; a reply without gives itself. */
  lemma {:induction false} FencesRemoved(raw: string)
    ensures Contains(raw, Fence) ==> !Contains(StripFences(raw), Fence)
    ensures !Contains(raw, Fence) ==> StripFences(raw) == raw
  {
    if Contains(raw, PythonFence) {
      StrippedNoFence(Between(raw, PythonFence));
      assert PythonFence[..|Fence|] == Fence;
      ContainsAt(PythonFence, Fence, 0);
      ContainsTrans(raw, PythonFence, Fence);
    } else if Contains(raw, Fence) {
      StrippedNoFence(Between(raw, Fence));
    }
  }

  /** Stripping the space around a text without a fence leaves none. */
  lemma {:induction false} StrippedNoFence(b: string)
    requires !Contains(b, Fence)
    ensures !Contains(Strip(b), Fence)
  {
    var i, j := StripBounds(b);
    NotInSlice(b, i, j, Fence);
  }

  /** Code put in a ```` ```python ```` fence comes back stripped, whatever follows the fence. */
  lemma {:induction false} PythonFenceRoundTrip(body: string, rest: string)
    requires '`' !in body
    ensures StripFences(PythonFence + body + Fence + rest) == Strip(body)
  {
    var raw := PythonFence + body + Fence + rest;
    Regroup(PythonFence, body, Fence + rest);
    assert raw == PythonFence + (body + Fence + rest);
    assert raw[..|PythonFence|] == PythonFence;
    ContainsAt(raw, PythonFence, 0);
    IndexOfAbsent(raw, PythonFence);
    assert IndexOf(raw, PythonFence) == 0;
    assert raw[|PythonFence|..] == body + Fence + rest;
    IndexOfAfter(body, Fence, rest);
    assert (body + Fence + rest)[..|body|] == body;
  }

  const GenSceneLine: string := "class GenScene(Scene):"
  const SceneLine: string := "class UserAnimationScene(Scene):"

  /** `cleaned_code.replace("class GenScene(Scene):", "class UserAnimationScene(Scene):")` */
  function RenameScene(code: string): string {
    ReplaceAll(code, GenSceneLine, SceneLine)
  }

  /** Texts that differ in their first character, or in their second, start no occurrence of each other. */
  lemma {:induction false} EarlyMismatch(a: string, b: string)
    requires |a| >= 2 && |b| >= 2 && (a[0] != b[0] || a[1] != b[1])
    ensures Disjoint(a, b)
  {
  }

  lemma {:induction false} SceneLineTailsDisjoint()
    ensures forall k :: 0 <= k < |SceneLine| ==> Disjoint(SceneLine[k..], GenSceneLine)
  {
    forall k | 0 <= k < |SceneLine| ensures Disjoint(SceneLine[k..], GenSceneLine) {
      SceneLineTailDisjoint(k);
    }
  }

  lemma {:induction false} SceneLineTailDisjoint(k: nat)
    requires k < |SceneLine|
    ensures Disjoint(SceneLine[k..], GenSceneLine)
  {
    var p, q := GenSceneLine, SceneLine;
    if k == 0 {
      assert q[k..][6] != p[6];
    } else if k == |q| - 1 {
      assert q[k..][0] != p[0];
    } else {
      EarlyMismatch(q[k..], p);
    }
  }

  lemma {:induction false} GenSceneLineTailsDisjoint()
    ensures forall k :: 1 <= k < |GenSceneLine| ==> Disjoint(GenSceneLine[k..], SceneLine)
  {
    var p, q := GenSceneLine, SceneLine;
    forall k | 1 <= k < |p| ensures Disjoint(p[k..], q) {
      if k == |p| - 1 {
        assert p[k..][0] != q[0];
      } else {
        EarlyMismatch(p[k..], q);
      }
    }
  }

  /** No `GenScene` header can overlap a `UserAnimationScene` header put in its place. */
  lemma {:induction false} SceneLinesUnoverlapping()
    ensures Unoverlapping(GenSceneLine, SceneLine)
  {
    SceneLineTailsDisjoint();
    GenSceneLineTailsDisjoint();
  }

  /** After the rename no `GenScene` header is left, and a renamed one is there. */
  lemma {:induction false} RenameSceneDone(code: string)
    ensures !Contains(RenameScene(code), GenSceneLine)
    ensures Contains(code, GenSceneLine) ==> Contains(RenameScene(code), SceneLine)
  {
    SceneLinesUnoverlapping();
    ReplaceRemoves(code, GenSceneLine, SceneLine);
    if Contains(code, GenSceneLine) {
      ReplacePresent(code, GenSceneLine, SceneLine);
    }
  }

  // ---------------------------------------------------------------------
  // post_process_code
  // ---------------------------------------------------------------------

  /** `right_angle\s*=\s*RightAngle\s*\(\s*(\w+)\s*,` */
  const RightAnglePattern: seq<Tok> := [
    Lit("right_angle"), Spaces(0), Lit("="), Spaces(0), Lit("RightAngle"), Spaces(0), Lit("("),
    Spaces(0), Word1, Spaces(0), Lit(",")]

  /** The same followed by `[^)]+\)`: the whole call that is replaced. */
  const RightAngleCall: seq<Tok> := RightAnglePattern + [Except(")", 1), Lit(")")]

  /** The lines that build the right angle from two sides of the polygon `n`. */
  function RightAngleLines(n: string): string {
    "\n        # Create lines for the right angle\n"
    + "        line1 = Line(" + n + ".get_vertices()[0], " + n + ".get_vertices()[1])\n"
    + "        line2 = Line(" + n + ".get_vertices()[0], " + n + ".get_vertices()[2])\n"
    + "        right_angle = RightAngle(line1, line2)\n"
  }

  function RightAngleReplacement(n: string): string {
    "# Original right angle code replaced\n" + RightAngleLines(n)
  }

  /** The polygon named in the first `right_angle = RightAngle(name, …` of the code. */
  function PolygonName(code: string): (r: Option<string>)
    ensures r.Some? ==> Search(code, RightAnglePattern).Some?
  {
    if Search(code, RightAnglePattern).Some? then
      Some(Groups(code, RightAnglePattern)[0])
    else None
  }

  /** Repair 1: a right angle on a polygon is rebuilt from two of its sides. */
  function FixRightAngle(code: string): string {
    if Contains(code, "RightAngle") && Contains(code, "Polygon") then
      match PolygonName(code)
      case None => code
      case Some(n) =>
        if Contains(code, n + " = Polygon") then Sub(code, RightAngleCall, RightAngleReplacement(n))
        else code
    else code
  }

  /** `Sector\s*\(\s*outer_radius\s*=\s*([^,]+)` */
  const SectorPattern: seq<Tok> := [
    Lit("Sector"), Spaces(0), Lit("("), Spaces(0), Lit("outer_radius"), Spaces(0), Lit("="), SpacedExcept(",")]

  /** Repair 2: `outer_radius=` of a sector becomes `radius=`, with the first match's value everywhere. */
  function FixSector(code: string): string {
    if Contains(code, "Sector") && Search(code, SectorPattern).Some? then
      Sub(code, SectorPattern, "Sector(radius=" + Groups(code, SectorPattern)[0])
    else code
  }

  /** `angle_highlight\s*=\s*Angle\s*\(\s*([^,]+),\s*([^,]+),\s*([^,\)]+)` */
  const AnglePattern: seq<Tok> := [
    Lit("angle_highlight"), Spaces(0), Lit("="), Spaces(0), Lit("Angle"), Spaces(0), Lit("("),
    SpacedExcept(","), Lit(","), SpacedExcept(","), Lit(","), SpacedExcept(",)")]

  /** The same followed by `[^)]*\)`: the whole call that is replaced. */
  const AngleCall: seq<Tok> := AnglePattern + [Except(")", 0), Lit(")")]

  /** An angle between the lines from the first point to the two others. */
  function AngleReplacement(p1: string, p2: string, p3: string): string {
    "angle_highlight = Angle(Line(" + p1 + ", " + p2 + "), Line(" + p1 + ", " + p3 + "))"
  }

  /** Repair 3: an angle given by three points is rebuilt from two lines, with the first match's points. */
  function FixAngle(code: string): string {
    if Contains(code, "Angle") && Search(code, AnglePattern).Some? then
      var g := Groups(code, AnglePattern);
      Sub(code, AngleCall, AngleReplacement(g[0], g[1], g[2]))
    else code
  }

  /** Repair 4 as the source writes it: `Tex(` becomes `Text(`, then `MathTex(` becomes `Text(`. */
  function TexFixAsWritten(code: string): string {
    ReplaceAll(ReplaceAll(code, "Tex(", "Text("), "MathTex(", "Text(")
  }

  /** Repair 4 as intended: `MathTex(` is rewritten before `Tex(` can turn it into `MathText(`. */
  function TexFix(code: string): string {
    ReplaceAll(ReplaceAll(code, "MathTex(", "Text("), "Tex(", "Text(")
  }

  /** `post_process_code` as the source writes it. */
  function PostProcessAsWritten(code: string): string {
    TexFixAsWritten(FixAngle(FixSector(FixRightAngle(code))))
  }

  /** `post_process_code` with repair 4 in the intended order. */
  function PostProcess(code: string): string {
    TexFix(FixAngle(FixSector(FixRightAngle(code))))
  }

  /** No `Tex(` can overlap a `Text(` put in its place. */
  lemma {:induction false} TexUnoverlapping()
    ensures Unoverlapping("Tex(", "Text(")
  {
    var p, q := "Tex(", "Text(";
    forall k | 0 <= k < |q| ensures Disjoint(q[k..], p) {
      if k == 0 {
        assert q[k..][3] != p[3];
      } else {
        assert q[k..][0] != p[0];
      }
    }
    forall k | 1 <= k < |p| ensures Disjoint(p[k..], q) {
      assert p[k..][0] != q[0];
    }
  }

  /** A text without `Tex(` has no `MathTex(` either. */
  lemma {:induction false} NoTexNoMathTex(s: string)
    requires !Contains(s, "Tex(")
    ensures !Contains(s, "MathTex(")
  {
    if Contains(s, "MathTex(") {
      assert "MathTex("[4..8] == "Tex(";
      ContainsAt("MathTex(", "Tex(", 4);
      ContainsTrans(s, "MathTex(", "Tex(");
      assert false;
    }
  }

  /**
   * Either order of repair 4 leaves no `Tex(`; as written, the `MathTex(`
   * rewrite never fires, since the `Tex(` rewrite has already removed
   * every `MathTex(`.
   */
  lemma {:induction false} NoTexLeft(code: string)
    ensures !Contains(TexFix(code), "Tex(")
    ensures !Contains(TexFixAsWritten(code), "Tex(")
    ensures TexFixAsWritten(code) == ReplaceAll(code, "Tex(", "Text(")
  {
    TexUnoverlapping();
    ReplaceRemoves(ReplaceAll(code, "MathTex(", "Text("), "Tex(", "Text(");
    var once := ReplaceAll(code, "Tex(", "Text(");
    ReplaceRemoves(code, "Tex(", "Text(");
    NoTexNoMathTex(once);
    ReplaceAbsent(once, "MathTex(", "Text(");
  }

  /** As written, `MathTex(` turns into `MathText(`, a name Manim does not have. */
  lemma {:induction false} MathTexAsWritten()
    ensures TexFixAsWritten("MathTex(x)") == "MathText(x)"
  {
    ReplaceOnce("Math", "Tex(", "Text(", "x)");
    assert "Math" + "Tex(" + "x)" == "MathTex(x)";
    assert "Math" + "Text(" + "x)" == "MathText(x)";
    NoTexLeft("MathTex(x)");
  }

  /** With the intended order, `MathTex(` becomes `Text(`. */
  lemma {:induction false} MathTexFixed()
    ensures TexFix("MathTex(x)") == "Text(x)"
  {
    ReplaceOnce("", "MathTex(", "Text(", "x)");
    assert "" + "MathTex(" + "x)" == "MathTex(x)";
    assert "" + "Text(" + "x)" == "Text(x)";
    assert "Text(x)"[3] != "Tex("[3];
    ReplaceCopiesHead("Text(x)", "Tex(", "Text(");
    ReplaceSkipsPrefix("ext(x)", "", "Tex(", "Text(");
    assert "ext(x)" + "" == "Text(x)"[1..];
  }

  /** A text without a part of `w` has no `w`. */
  lemma {:induction false} NoPartNoWhole(s: string, w: string, k: nat, part: string)
    requires k + |part| <= |w| && w[k..k + |part|] == part && !Contains(s, part)
    ensures !Contains(s, w)
  {
    if Contains(s, w) {
      ContainsAt(w, part, k);
      ContainsTrans(s, w, part);
      assert false;
    }
  }

  /** Code without `Sector`, `Angle` or `Tex(` passes through both versions unchanged. */
  lemma {:induction false} PostProcessUnchanged(code: string)
    requires !Contains(code, "Sector") && !Contains(code, "Angle") && !Contains(code, "Tex(")
    ensures PostProcessAsWritten(code) == code && PostProcess(code) == code
  {
    assert "RightAngle"[5..10] == "Angle";
    NoPartNoWhole(code, "RightAngle", 5, "Angle");
    NoTexNoMathTex(code);
    ReplaceAbsent(code, "Tex(", "Text(");
    ReplaceAbsent(code, "MathTex(", "Text(");
  }

  /**
   * Repair 1 changes code only when it mentions `RightAngle` and `Polygon`
   * and the polygon named in the first right angle is assigned a
   * `Polygon`; then, when the whole call is there, its lines are put in.
   */
  lemma {:induction false} RightAngleFixed(code: string)
    ensures FixRightAngle(code) != code ==>
      && Contains(code, "RightAngle") && Contains(code, "Polygon") && PolygonName(code).Some?
      && Contains(code, PolygonName(code).value + " = Polygon")
    ensures Contains(code, "RightAngle") && Contains(code, "Polygon") && Search(code, RightAngleCall).Some? ==>
      && PolygonName(code).Some?
      && (Contains(code, PolygonName(code).value + " = Polygon") ==>
            Contains(FixRightAngle(code), RightAngleReplacement(PolygonName(code).value)))
  {
    if Search(code, RightAngleCall).Some? {
      SearchPrefix(code, RightAnglePattern, [Except(")", 1), Lit(")")]);
      SubInserts(code, RightAngleCall, RightAngleReplacement(PolygonName(code).value));
    }
  }

  /** Repair 2 puts `Sector(radius=` and the first match's value in; without a match it changes nothing. */
  lemma {:induction false} SectorFixed(code: string)
    ensures Contains(code, "Sector") && Search(code, SectorPattern).Some? ==>
      Contains(FixSector(code), "Sector(radius=" + Groups(code, SectorPattern)[0])
    ensures Search(code, SectorPattern).None? ==> FixSector(code) == code
  {
    if Contains(code, "Sector") && Search(code, SectorPattern).Some? {
      SubInserts(code, SectorPattern, "Sector(radius=" + Groups(code, SectorPattern)[0]);
    }
  }

  /** Repair 3 puts in the two-line angle built from the first match's points when a whole call is there. */
  lemma {:induction false} AngleFixed(code: string)
    ensures Contains(code, "Angle") && Search(code, AngleCall).Some? ==>
      && |Groups(code, AnglePattern)| == 3
      && var g := Groups(code, AnglePattern);
         Contains(FixAngle(code), AngleReplacement(g[0], g[1], g[2]))
    ensures Search(code, AnglePattern).None? ==> FixAngle(code) == code
  {
    if Contains(code, "Angle") && Search(code, AngleCall).Some? {
      SearchPrefix(code, AnglePattern, [Except(")", 0), Lit(")")]);
      var g := Groups(code, AnglePattern);
      SubInserts(code, AngleCall, AngleReplacement(g[0], g[1], g[2]));
    }
  }

  /** After either version of `post_process_code` no `Tex(` is left. */
  lemma {:induction false} PostProcessNoTex(code: string)
    ensures !Contains(PostProcess(code), "Tex(") && !Contains(PostProcessAsWritten(code), "Tex(")
  {
    NoTexLeft(FixAngle(FixSector(FixRightAngle(code))));
  }

  // ---------------------------------------------------------------------
  // create_fallback_code
  // ---------------------------------------------------------------------

  /** `s[:n]` */
  function Take(s: string, n: nat): (r: string)
    ensures |r| == (if n < |s| then n else |s|) && StartsWith(s, r)
  {
    if n < |s| then s[..n] else s
  }

  /** `scene_description.split('.')[0][:30] + "..."` */
  function FallbackTopic(desc: string): (r: string)
    ensures |r| <= 33 && EndsWith(r, "...")
    ensures StartsWith(desc, r[..|r| - 3]) && '.' !in r[..|r| - 3]
    ensures |r| - 3 == (if |BeforeChar(desc, '.')| < 30 then |BeforeChar(desc, '.')| else 30)
  {
    var first := BeforeChar(desc, '.');
    var t := Take(first, 30);
    assert (t + "...")[..|t|] == t;
    assert forall i :: 0 <= i < |t| ==> t[i] == first[i];
    t + "..."
  }

  const ImportLine: string := "from manim import *\n\n"

  /** The fallback scene after its class line, up to the opening quote of the topic. */
  const FallbackSetup: string :=
    "\n"
    + "    def construct(self):\n"
    + "        # Create a title\n"
    + "        title = Text(\"Scene Generation Fallback\", color=RED)\n"
    + "        self.play(Write(title))\n"
    + "        self.wait(1)\n"
    + "        \n"
    + "        # Move title to top\n"
    + "        self.play(title.animate.to_edge(UP))\n"
    + "        \n"
    + "        # Show topic\n"
    + "        topic_text = Text(\""

  /** The fallback scene from the closing quote of the topic on. */
  const FallbackRest: string :=
    "\", color=BLUE, font_size=24)\n"
    + "        self.play(Write(topic_text))\n"
    + "        self.wait(1)\n"
    + "        \n"
    + "        # Create some basic shapes\n"
    + "        circle = Circle(color=BLUE)\n"
    + "        square = Square(color=RED)\n"
    + "        triangle = Polygon([-1, -1, 0], [1, -1, 0], [0, 1, 0], color=GREEN)\n"
    + "        \n"
    + "        # Position shapes\n"
    + "        shapes_group = Group(circle, square, triangle).arrange(RIGHT, buff=0.5)\n"
    + "        self.play(Create(shapes_group), run_time=2)\n"
    + "        self.wait(1)\n"
    + "        \n"
    + "        # Animate shapes\n"
    + "        self.play(\n"
    + "            circle.animate.scale(0.7),\n"
    + "            square.animate.rotate(PI/4),\n"
    + "            triangle.animate.shift(UP*0.5)\n"
    + "        )\n"
    + "        self.wait(2)\n"

  /** `create_fallback_code`: the fixed scene with the topic put in unescaped. */
  function FallbackCode(desc: string): string {
    ImportLine + SceneLine + FallbackSetup + FallbackTopic(desc) + FallbackRest
  }

  /** Both a header part and a middle part of a five-part text occur in it. */
  lemma {:induction false} FivePartsContain(a: string, b: string, c: string, d: string, e: string)
    ensures Contains(a + b + c + d + e, b) && Contains(a + b + c + d + e, d)
  {
    ContainsMiddle(a, b, c + d + e);
    assert a + b + (c + d + e) == a + b + c + d + e;
    ContainsMiddle(a + b + c, d, e);
  }

  /** The fallback scene always defines `UserAnimationScene` and shows the topic. */
  lemma {:induction false} FallbackDefinesScene(desc: string)
    ensures Contains(FallbackCode(desc), SceneLine)
    ensures Contains(FallbackCode(desc), FallbackTopic(desc))
  {
    FivePartsContain(ImportLine, SceneLine, FallbackSetup, FallbackTopic(desc), FallbackRest);
  }

  // ---------------------------------------------------------------------
  // generate_manim_code_with_generative_manim, after the model call
  // ---------------------------------------------------------------------

  /**
   * The code returned for a scene: the reply's code, renamed and repaired
   * by `post_process_code` as written, or the fallback scene when the call
   * raised (`None`).
   */
  function GeneratedCode(reply: Option<string>, desc: string): string {
    match reply
    case None => FallbackCode(desc)
    case Some(raw) => PostProcessAsWritten(RenameScene(StripFences(raw)))
  }

  /** The same with the `MathTex(` repair in its intended order. */
  function GeneratedCodeFixed(reply: Option<string>, desc: string): string {
    match reply
    case None => FallbackCode(desc)
    case Some(raw) => PostProcess(RenameScene(StripFences(raw)))
  }

  /**
   * Generated code has no `Tex(`, and it defines the scene class when the
   * fallback was used; both hold with the repair as written and as intended.
   */
  lemma {:induction false} GeneratedCodeShape(reply: Option<string>, desc: string)
    ensures reply.Some? ==> !Contains(GeneratedCode(reply, desc), "Tex(")
    ensures reply.Some? ==> !Contains(GeneratedCodeFixed(reply, desc), "Tex(")
    ensures reply.None? ==> Contains(GeneratedCode(reply, desc), SceneLine)
    ensures reply.None? ==> GeneratedCodeFixed(reply, desc) == GeneratedCode(reply, desc)
  {
    match reply
    case None => FallbackDefinesScene(desc);
    case Some(raw) => PostProcessNoTex(RenameScene(StripFences(raw)));
  }
}
