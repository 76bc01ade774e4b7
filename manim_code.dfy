/**
 * The clean-up and repair passes src/backend/manim_generator.py applies to
 * scene code: taking the code out of a model's reply
 * (`clean_api_response_code`, with the compatibility block of
 * `add_compatibility_imports`), the fixes of `validate_and_fix_manim_code`,
 * and the five steps of `fix_common_code_issues`.
 */
module ManimCode {
  import opened Wrappers
  import opened Text
  import opened Json
  import opened Regex

  const StarImport: string := "from manim import *"

  // ---------------------------------------------------------------------
  // add_compatibility_imports
  // ---------------------------------------------------------------------

  /** The alias that makes `ShowCreation` work on newer Manim. */
  const AliasLine: string := "ShowCreation = Create"

  /** The constant that makes `FRAME_WIDTH` work on newer Manim. */
  const FrameLine: string := "FRAME_WIDTH = config.frame_width"

  const CompatHead: string :=
    "\n"
    + "# Compatibility imports for different Manim versions\n"
    + "if 'ShowCreation' not in globals():\n"
    + "    "

  const CompatMid: string :=
    "  # Updated name in newer Manim versions\n"
    + "\n"
    + "if 'FRAME_WIDTH' not in globals():\n"
    + "    "

  const CompatRest: string :=
    "  # Updated in newer Manim versions\n"
    + "    FRAME_HEIGHT = config.frame_height\n"
    + "\n"
    + "# Add missing shapes/objects that might be referenced\n"
    + "if 'Checkmark' not in globals():\n"
    + "    class Checkmark(VMobject):\n"
    + "        def __init__(self, **kwargs):\n"
    + "            super().__init__(**kwargs)\n"
    + "            self.set_points_as_corners([\n"
    + "                UP + LEFT, DOWN, RIGHT + UP,\n"
    + "            ])\n"
    + "            self.scale(0.5)\n"
    + "\n"
    + "if 'Pyramid' not in globals():\n"
    + "    class Pyramid(ThreeDObject):\n"
    + "        def __init__(self, base_side_length=2, height=3, color=BLUE, **kwargs):\n"
    + "            super().__init__(**kwargs)\n"
    + "            self.base_side_length = base_side_length\n"
    + "            self.height = height\n"
    + "            self.set_color(color)\n"
    + "            self.create_pyramid()\n"
    + "            \n"
    + "        def create_pyramid(self):\n"
    + "            # Create square base\n"
    + "            base = Square(side_length=self.base_side_length)\n"
    + "            base.rotate(PI/4, axis=UP)  # Rotate to diamond shape\n"
    + "            \n"
    + "            # Create apex point\n"
    + "            apex = Dot3D(point=OUT * self.height)\n"
    + "            \n"
    + "            # Create triangular faces\n"
    + "            square_vertices = base.get_vertices()\n"
    + "            self.add(base)\n"
    + "            \n"
    + "            for i in range(4):\n"
    + "                face = Polygon(\n"
    + "                    square_vertices[i],\n"
    + "                    square_vertices[(i+1) % 4],\n"
    + "                    apex.get_center(),\n"
    + "                    color=self.color,\n"
    + "                    fill_opacity=0.7\n"
    + "                )\n"
    + "                self.add(face)\n"

  /** `add_compatibility_imports()`: the block that makes older scene code run on newer Manim. */
  function AddCompatibilityImports(): string {
    CompatHead + AliasLine + CompatMid + FrameLine + CompatRest
  }

  // ---------------------------------------------------------------------
  // validate_and_fix_manim_code: the physics block of fix 4
  // ---------------------------------------------------------------------

  /** The comment that marks the physics block as present. */
  const PhysicsMarker: string := "# Physics compatibility imports"

  const PhysicsRest: string :=
    "\n"
    + "from manim import VGroup, Dot, Line, Circle, Arrow, VMobject, ThreeDObject, Polygon, ThreeDScene\n"
    + "\n"
    + "# Define missing physics classes\n"
    + "if 'Pendulum' not in globals():\n"
    + "    class Pendulum(VGroup):\n"
    + "        def __init__(self, length=3, angle=PI/4, weight_diameter=0.5, **kwargs):\n"
    + "            super().__init__(**kwargs)\n"
    + "            self.length = length\n"
    + "            self.angle = angle\n"
    + "            self.weight_diameter = weight_diameter\n"
    + "            self.pivot = Dot(ORIGIN, color=WHITE)\n"
    + "            self.rod = Line(ORIGIN, length * RIGHT, color=GRAY)\n"
    + "            self.rod.rotate(angle, about_point=ORIGIN)\n"
    + "            self.bob = Circle(radius=weight_diameter/2, color=BLUE, fill_opacity=1)\n"
    + "            self.bob.move_to(self.rod.get_end())\n"
    + "            self.add(self.pivot, self.rod, self.bob)\n"
    + "            \n"
    + "        def get_angle(self):\n"
    + "            return self.angle\n"
    + "\n"
    + "if 'GravityForce' not in globals():\n"
    + "    class GravityForce(Arrow):\n"
    + "        def __init__(self, obj, length=1, **kwargs):\n"
    + "            super().__init__(obj.get_center(), obj.get_center() + DOWN * length, **kwargs)\n"
    + "            self.add_updater(lambda m: m.put_start_and_end_on(obj.get_center(), obj.get_center() + DOWN * length))\n"
    + "\n"
    + "if 'Spring' not in globals():\n"
    + "    class Spring(VMobject):\n"
    + "        def __init__(self, start=ORIGIN, end=RIGHT*3, num_coils=5, radius=0.2, **kwargs):\n"
    + "            super().__init__(**kwargs)\n"
    + "            self.start = start\n"
    + "            self.end = end\n"
    + "            self.num_coils = num_coils\n"
    + "            self.radius = radius\n"
    + "            self.create_spring()\n"
    + "            \n"
    + "        def create_spring(self):\n"
    + "            points = []\n"
    + "            length = np.linalg.norm(self.end - self.start)\n"
    + "            direction = (self.end - self.start) / length\n"
    + "            normal = np.array([-direction[1], direction[0], 0])\n"
    + "            \n"
    + "            # Create coils\n"
    + "            segment_length = length / (2 * self.num_coils + 2)\n"
    + "            points.append(self.start)\n"
    + "            points.append(self.start + direction * segment_length)\n"
    + "            \n"
    + "            for i in range(self.num_coils):\n"
    + "                points.append(self.start + direction * ((2*i+1) * segment_length) + normal * self.radius)\n"
    + "                points.append(self.start + direction * ((2*i+2) * segment_length) - normal * self.radius)\n"
    + "            \n"
    + "            points.append(self.end - direction * segment_length)\n"
    + "            points.append(self.end)\n"
    + "            \n"
    + "            self.set_points_as_corners(points)\n"

  /** The physics block fix 4 inserts after the star import. */
  function PhysicsImports(): string {
    "\n" + PhysicsMarker + PhysicsRest
  }

  /** The compatibility block defines both aliases that fixes 1 and 2 of validation look for. */
  lemma {:induction false} CompatHasAliases()
    ensures Contains(AddCompatibilityImports(), AliasLine)
    ensures Contains(AddCompatibilityImports(), FrameLine)
  {
    ContainsMiddle(CompatHead, AliasLine, CompatMid + FrameLine + CompatRest);
    Regroup(CompatHead + AliasLine, CompatMid + FrameLine, CompatRest);
    Regroup(CompatHead + AliasLine, CompatMid, FrameLine);
    ContainsMiddle(CompatHead + AliasLine + CompatMid, FrameLine, CompatRest);
  }

  // ---------------------------------------------------------------------
  // clean_api_response_code
  // ---------------------------------------------------------------------

  const Fence: string := "```"

  /** The optional `python` tag of a fence, when the text right after the fence carries it. */
  function AfterTag(t: string): (r: string)
    ensures r == t || (StartsWith(t, "python") && r == t[6..])
  {
    if StartsWith(t, "python") then t[6..] else t
  }

  /**
   * `re.findall(r"```(?:python)?(.*?)```", s, re.DOTALL)`: the bodies of the
   * fenced blocks, scanning left to right. A fence opens a block only when a
   * closing fence follows; the lazy body ends at the first one. Dropping the
   * tag never changes whether a closing fence exists, because a closing fence
   * cannot start inside the word `python`.
   */
  function Fences(s: string): (bs: seq<string>)
    decreases |s|
  {
    if |s| == 0 then []
    else if StartsWith(s, Fence) then
      var body := AfterTag(s[3..]);
      var k := IndexOf(body, Fence);
      if k < |body| then [body[..k]] + Fences(body[k + 3..]) else Fences(s[1..])
    else Fences(s[1..])
  }

  /** A block is enclosed in fences in the reply, possibly after the tag. */
  predicate Enclosed(s: string, b: string) {
    Contains(s, Fence + b + Fence) || Contains(s, Fence + "python" + b + Fence)
  }

  /** A text made of an opening and a body with a closing fence encloses the body's front. */
  lemma {:induction false} EnclosedBody(s: string, opening: string, body: string, k: nat)
    requires s == opening + body && k + 3 <= |body| && body[k..k + 3] == Fence
    ensures Contains(s, opening + body[..k] + Fence)
  {
    assert s[..|opening| + k + 3] == opening + body[..k] + Fence;
    ContainsAt(s, opening + body[..k] + Fence, 0);
  }

  /** A text split after its first `n` characters. */
  lemma {:induction false} SplitAt(s: string, n: nat)
    requires n <= |s|
    ensures s == s[..n] + s[n..]
  {
  }

  /** The opening fence, the tag and a body ending at a closing fence sit at the start of the text. */
  lemma {:induction false} EnclosedAtStart(s: string, k: nat)
    requires StartsWith(s, Fence)
    requires k < |AfterTag(s[3..])| && k == IndexOf(AfterTag(s[3..]), Fence)
    ensures Enclosed(s, AfterTag(s[3..])[..k])
  {
    var t := s[3..];
    var body := AfterTag(t);
    SplitAt(s, 3);
    if StartsWith(t, "python") {
      SplitAt(t, 6);
      Regroup(Fence, "python", body);
      EnclosedBody(s, Fence + "python", body, k);
    } else {
      EnclosedBody(s, Fence, body, k);
    }
  }

  /** An enclosed block of a tail is an enclosed block of the whole. */
  lemma {:induction false} EnclosedInTail(s: string, i: nat, b: string)
    requires i <= |s| && Enclosed(s[i..], b)
    ensures Enclosed(s, b)
  {
    assert s[i..] == s[i..|s|];
    if Contains(s[i..], Fence + b + Fence) {
      ContainsSlice(s, i, |s|, Fence + b + Fence);
    } else {
      ContainsSlice(s, i, |s|, Fence + "python" + b + Fence);
    }
  }

  /** Every block the scan returns lies between two fences of the reply and holds no fence itself. */
  lemma {:induction false} FencedBlocks(s: string)
    ensures forall b :: b in Fences(s) ==> Enclosed(s, b) && !Contains(b, Fence)
    decreases |s|, 1
  {
    if |s| == 0 {
    } else if StartsWith(s, Fence) && IndexOf(AfterTag(s[3..]), Fence) < |AfterTag(s[3..])| {
      FencedBlockFirst(s);
    } else {
      assert Fences(s) == Fences(s[1..]);
      FencedBlocks(s[1..]);
      BlocksOfTail(s, 1);
    }
  }

  /** A reply opening with a complete block: that block, then the blocks after its closing fence. */
  lemma {:induction false} FencedBlockFirst(s: string)
    requires StartsWith(s, Fence) && IndexOf(AfterTag(s[3..]), Fence) < |AfterTag(s[3..])|
    ensures forall b :: b in Fences(s) ==> Enclosed(s, b) && !Contains(b, Fence)
    decreases |s|, 0
  {
    var body := AfterTag(s[3..]);
    var k := IndexOf(body, Fence);
    var off := |s| - |body|;
    assert body == s[off..];
    assert body[k + 3..] == s[off + k + 3..];
    assert Fences(s) == [body[..k]] + Fences(s[off + k + 3..]);
    FencedBlocks(s[off + k + 3..]);
    BlocksOfTail(s, off + k + 3);
    EnclosedAtStart(s, k);
    IndexOfPrefixFree(body, Fence);
    BlocksJoin(s, body[..k], Fences(s[off + k + 3..]));
  }

  /** A block and the blocks after it, each enclosed and fence-free, make a list of such blocks. */
  lemma {:induction false} BlocksJoin(s: string, first: string, rest: seq<string>)
    requires Enclosed(s, first) && !Contains(first, Fence)
    requires forall b :: b in rest ==> Enclosed(s, b) && !Contains(b, Fence)
    ensures forall b :: b in [first] + rest ==> Enclosed(s, b) && !Contains(b, Fence)
  {
  }

  /** The blocks of a tail of the reply, enclosed there, are enclosed in the whole reply. */
  lemma {:induction false} BlocksOfTail(s: string, i: nat)
    requires i <= |s|
    requires forall b :: b in Fences(s[i..]) ==> Enclosed(s[i..], b) && !Contains(b, Fence)
    ensures forall b :: b in Fences(s[i..]) ==> Enclosed(s, b) && !Contains(b, Fence)
  {
    forall b | b in Fences(s[i..]) ensures Enclosed(s, b) {
      EnclosedInTail(s, i, b);
    }
  }

  /** A reply without a fence has no blocks. */
  lemma {:induction false} NoFenceNoBlocks(s: string)
    requires !Contains(s, Fence)
    ensures Fences(s) == []
    decreases |s|
  {
    if |s| > 0 {
      NoFenceNoBlocks(s[1..]);
    }
  }

  /** `"class" in b and "Scene" in b` */
  predicate SceneLike(b: string) {
    Contains(b, "class") && Contains(b, "Scene")
  }

  /** Position of the first scene-like block, `|bs|` when there is none. */
  function FirstScene(bs: seq<string>): (i: nat)
    ensures i <= |bs| && (i < |bs| ==> SceneLike(bs[i]))
    ensures forall j :: 0 <= j < i ==> !SceneLike(bs[j])
  {
    if |bs| == 0 then 0
    else if SceneLike(bs[0]) then 0
    else 1 + FirstScene(bs[1..])
  }

  /** The block `clean_api_response_code` keeps: the first scene-like one, else the first. */
  function ChosenBlock(bs: seq<string>): (r: string)
    requires |bs| > 0
    ensures exists i :: (0 <= i < |bs| && r == bs[i] && (forall j :: 0 <= j < i ==> !SceneLike(bs[j]))
      && (SceneLike(r) || (i == 0 && forall j :: 0 <= j < |bs| ==> !SceneLike(bs[j]))))
  {
    var i := FirstScene(bs);
    if i < |bs| then bs[i] else bs[0]
  }

  /** The selection loop of `clean_api_response_code`, with its `break`. */
  method PickBlock(bs: seq<string>) returns (code: string)
    requires |bs| > 0
    ensures code == ChosenBlock(bs)
  {
    code := "";
    var i := 0;
    while i < |bs|
      invariant 0 <= i <= |bs| && code == ""
      invariant forall j :: 0 <= j < i ==> !SceneLike(bs[j])
    {
      if SceneLike(bs[i]) {
        code := bs[i];
        break;
      }
      i := i + 1;
    }
    if code == "" {
      code := bs[0];
    }
  }

  /**
   * Inserting a block of definitions: after every star import when there is
   * one (`str.replace` replaces them all), otherwise in front of the code
   * behind a star import of its own.
   */
  function WithBlock(code: string, block: string): string {
    if Contains(code, StarImport) then ReplaceAll(code, StarImport, StarImport + "\n" + block)
    else StarImport + "\n" + block + "\n" + code
  }

  /** Whatever the inserted block contains, the result contains. */
  lemma {:induction false} WithBlockHas(code: string, block: string, x: string)
    requires Contains(block, x)
    ensures Contains(WithBlock(code, block), x)
  {
    if Contains(code, StarImport) {
      var q := StarImport + "\n" + block;
      ReplacePresent(code, StarImport, q);
      ContainsInPart(StarImport + "\n", block, "", x);
      assert StarImport + "\n" + block + "" == q;
      ContainsTrans(ReplaceAll(code, StarImport, q), q, x);
    } else {
      ContainsInPart(StarImport + "\n", block, "\n" + code, x);
      Regroup(StarImport + "\n" + block, "\n", code);
    }
  }

  /** The compatibility block put into scene code. */
  function WithCompat(code: string): string {
    WithBlock(code, AddCompatibilityImports())
  }

  /** Code with the compatibility block defines both aliases. */
  lemma {:induction false} WithCompatAliases(code: string)
    ensures Contains(WithCompat(code), AliasLine) && Contains(WithCompat(code), FrameLine)
  {
    CompatHasAliases();
    WithBlockHas(code, AddCompatibilityImports(), AliasLine);
    WithBlockHas(code, AddCompatibilityImports(), FrameLine);
  }

  /**
   * The text the reply stands for. A reply that looks like a JSON object
   * (after stripping) and parses (`decoded`, `None` when `json.loads` fails)
   * gives its `code` member when it has one; a `code` member that is not a
   * string makes the later `re.findall` raise, which is `None` here.
   */
  function ReplyText(raw: string, decoded: Option<map<string, JsonValue>>): (r: Option<string>)
    ensures r.None? <==> (StartsWith(Strip(raw), "{") && EndsWith(Strip(raw), "}") && decoded.Some?
      && "code" in decoded.value && !decoded.value["code"].JString?)
    ensures r.Some? ==> (r == Some(raw) || (decoded.Some? && "code" in decoded.value
      && decoded.value["code"] == JString(r.value)))
  {
    var t := Strip(raw);
    if StartsWith(t, "{") && EndsWith(t, "}") && decoded.Some? && "code" in decoded.value then
      match decoded.value["code"]
      case JString(c) => Some(c)
      case _ => None
    else Some(raw)
  }

  /**
   * `clean_api_response_code(raw)`: `""` for a blank reply; otherwise the
   * chosen fenced block with the compatibility block, stripped; otherwise,
   * for text that mentions a scene class, the stripped text with the
   * compatibility block; otherwise the stripped text.
   */
  function CleanedCode(raw: string, decoded: Option<map<string, JsonValue>>): Option<string> {
    if Strip(raw) == "" then Some("")
    else match ReplyText(raw, decoded)
      case None => None
      case Some(text) =>
        var bs := Fences(text);
        if |bs| > 0 then Some(Strip(WithCompat(ChosenBlock(bs))))
        else if SceneLike(text) then Some(WithCompat(Strip(text)))
        else Some(Strip(text))
  }

  /** A pattern with non-space ends that the block contains survives stripping. */
  lemma {:induction false} StrippedWithBlockHas(code: string, block: string, x: string)
    requires Contains(block, x) && |x| > 0 && !IsSpace(x[0]) && !IsSpace(x[|x| - 1])
    ensures Contains(Strip(WithBlock(code, block)), x)
  {
    WithBlockHas(code, block, x);
    StripKeepsContains(WithBlock(code, block), x);
  }

  /** Neither alias line starts or ends with whitespace. */
  lemma {:induction false} AliasEnds()
    ensures |AliasLine| > 0 && !IsSpace(AliasLine[0]) && !IsSpace(AliasLine[|AliasLine| - 1])
    ensures |FrameLine| > 0 && !IsSpace(FrameLine[0]) && !IsSpace(FrameLine[|FrameLine| - 1])
  {
  }

  /** Stripping code that carries the compatibility block keeps both aliases. */
  lemma {:induction false} StrippedCompatAliases(code: string)
    ensures Contains(Strip(WithCompat(code)), AliasLine) && Contains(Strip(WithCompat(code)), FrameLine)
  {
    CompatHasAliases();
    AliasEnds();
    StrippedWithBlockHas(code, AddCompatibilityImports(), AliasLine);
    StrippedWithBlockHas(code, AddCompatibilityImports(), FrameLine);
  }

  /** Both aliases survive into the cleaned code whenever a block or a scene class was found. */
  lemma {:induction false} CleanedHasAliases(raw: string, decoded: Option<map<string, JsonValue>>, text: string)
    requires Strip(raw) != "" && ReplyText(raw, decoded) == Some(text)
    requires |Fences(text)| > 0 || SceneLike(text)
    ensures CleanedCode(raw, decoded).Some?
    ensures Contains(CleanedCode(raw, decoded).value, AliasLine)
    ensures Contains(CleanedCode(raw, decoded).value, FrameLine)
  {
    var bs := Fences(text);
    if |bs| > 0 {
      StrippedCompatAliases(ChosenBlock(bs));
    } else {
      WithCompatAliases(Strip(text));
    }
  }

  /** A blank reply gives empty code; a reply that is not a JSON object gives empty code only when blank. */
  lemma {:induction false} CleanedBlank(raw: string, decoded: Option<map<string, JsonValue>>)
    ensures AllSpace(raw) ==> CleanedCode(raw, decoded) == Some("")
    ensures ReplyText(raw, decoded) == Some(raw) && CleanedCode(raw, decoded) == Some("") ==> AllSpace(raw)
  {
    StripEmpty(raw);
    if !AllSpace(raw) && ReplyText(raw, decoded) == Some(raw) {
      if |Fences(raw)| > 0 || SceneLike(raw) {
        CleanedHasAliases(raw, decoded, raw);
        ContainsNonEmpty(CleanedCode(raw, decoded).value, AliasLine);
      }
    }
  }

  /** `clean_api_response_code`, step by step, with the block selection loop. */
  method CleanApiResponseCode(raw: string, decoded: Option<map<string, JsonValue>>) returns (r: Option<string>)
    ensures r == CleanedCode(raw, decoded)
  {
    if Strip(raw) == "" {
      return Some("");
    }
    var reply := ReplyText(raw, decoded);
    if reply.None? {
      return None;
    }
    var text := reply.value;
    var matches := Fences(text);
    if |matches| > 0 {
      var code := PickBlock(matches);
      var compat := AddCompatibilityImports();
      if Contains(code, StarImport) {
        code := ReplaceAll(code, StarImport, StarImport + "\n" + compat);
      } else {
        code := StarImport + "\n" + compat + "\n" + code;
      }
      return Some(Strip(code));
    }
    if SceneLike(text) {
      var code := Strip(text);
      var compat := AddCompatibilityImports();
      if Contains(code, StarImport) {
        code := ReplaceAll(code, StarImport, StarImport + "\n" + compat);
      } else {
        code := StarImport + "\n" + compat + "\n" + code;
      }
      return Some(code);
    }
    return Some(Strip(text));
  }

  // ---------------------------------------------------------------------
  // validate_and_fix_manim_code
  // ---------------------------------------------------------------------

  /** The scene class line the generator asks for. */
  const SceneClass: string := "class UserAnimationScene(Scene)"

  /** The same class on a 3D scene. */
  const ThreeDClass: string := "class UserAnimationScene(ThreeDScene)"

  /** Fix 1: `ShowCreation(` becomes `Create(` unless the alias is defined. */
  function FixShowCreation(code: string): string {
    if Contains(code, "ShowCreation") && !Contains(code, AliasLine) then
      ReplaceAll(code, "ShowCreation(", "Create(")
    else code
  }

  /** No occurrence of `ShowCreation(` can overlap a `Create(` put in its place. */
  lemma {:induction false} ShowCreationUnoverlapping()
    ensures Unoverlapping("ShowCreation(", "Create(")
  {
    var p, q := "ShowCreation(", "Create(";
    forall k | 0 <= k < |q| ensures Disjoint(q[k..], p) {
      assert q[k..][0] != p[0];
    }
    forall k | 1 <= k < |p| ensures Disjoint(p[k..], q) {
      if k == 4 {
        assert p[k..][5] != q[5];
      } else {
        assert p[k..][0] != q[0];
      }
    }
  }

  /** When fix 1 fires, no `ShowCreation(` call is left. */
  lemma {:induction false} ShowCreationFixed(code: string)
    requires Contains(code, "ShowCreation") && !Contains(code, AliasLine)
    ensures !Contains(FixShowCreation(code), "ShowCreation(")
  {
    ShowCreationUnoverlapping();
    ReplaceRemoves(code, "ShowCreation(", "Create(");
  }

  /** Fix 2: `FRAME_WIDTH` becomes `config.frame_width` unless the constant is defined. */
  function FixFrameWidth(code: string): string {
    if Contains(code, "FRAME_WIDTH") && !Contains(code, FrameLine) then
      ReplaceAll(code, "FRAME_WIDTH", "config.frame_width")
    else code
  }

  /** No occurrence of `FRAME_WIDTH` can overlap a `config.frame_width` put in its place. */
  lemma {:induction false} FrameWidthUnoverlapping()
    ensures Unoverlapping("FRAME_WIDTH", "config.frame_width")
  {
    var p, q := "FRAME_WIDTH", "config.frame_width";
    forall k | 0 <= k < |q| ensures Disjoint(q[k..], p) {
      assert q[k..][0] != p[0];
    }
    forall k | 1 <= k < |p| ensures Disjoint(p[k..], q) {
      assert p[k..][0] != q[0];
    }
  }

  /** When fix 2 fires, no `FRAME_WIDTH` is left. */
  lemma {:induction false} FrameWidthFixed(code: string)
    requires Contains(code, "FRAME_WIDTH") && !Contains(code, FrameLine)
    ensures !Contains(FixFrameWidth(code), "FRAME_WIDTH")
  {
    FrameWidthUnoverlapping();
    ReplaceRemoves(code, "FRAME_WIDTH", "config.frame_width");
  }

  /** Code cleaned through a fenced block or a scene class is left alone by fixes 1 and 2. */
  lemma {:induction false} CleanedSkipsRenames(raw: string, decoded: Option<map<string, JsonValue>>, text: string)
    requires Strip(raw) != "" && ReplyText(raw, decoded) == Some(text)
    requires |Fences(text)| > 0 || SceneLike(text)
    ensures CleanedCode(raw, decoded).Some?
    ensures FixShowCreation(CleanedCode(raw, decoded).value) == CleanedCode(raw, decoded).value
    ensures FixFrameWidth(CleanedCode(raw, decoded).value) == CleanedCode(raw, decoded).value
  {
    CleanedHasAliases(raw, decoded, text);
  }

  /** Fix 3: a scene using `ThreeDObject` becomes a 3D scene. */
  function ThreeDFix(code: string): string {
    if Contains(code, "ThreeDObject") && Contains(code, SceneClass) then
      ReplaceAll(code, SceneClass, ThreeDClass)
    else code
  }

  /** When fix 3 fires, the 3D class line is there. */
  lemma {:induction false} ThreeDFixed(code: string)
    requires Contains(code, "ThreeDObject") && Contains(code, SceneClass)
    ensures Contains(ThreeDFix(code), ThreeDClass)
  {
    ReplacePresent(code, SceneClass, ThreeDClass);
  }

  /** The physics helpers fix 4 looks for. */
  const PhysicsClasses: seq<string> := ["GravityForce", "Pendulum", "Spring", "Pyramid", "Wave", "ArrowVectorField"]

  /** `any(cls in code for cls in physics_classes)` */
  predicate MentionsPhysics(code: string) {
    exists i :: 0 <= i < |PhysicsClasses| && Contains(code, PhysicsClasses[i])
  }

  /**
   * Fix 4 with a given physics block: a scene using a physics helper becomes
   * a 3D scene, and the block goes in after the star import unless its
   * marker is there already.
   */
  function PhysicsFixWith(code: string, block: string): string {
    if MentionsPhysics(code) && Contains(code, SceneClass) then
      var c := ReplaceAll(code, SceneClass, ThreeDClass);
      if Contains(c, StarImport) && !Contains(c, PhysicsMarker) then
        ReplaceAll(c, StarImport, StarImport + "\n" + block)
      else c
    else code
  }

  /** Fix 4 of `validate_and_fix_manim_code`. */
  function PhysicsFix(code: string): string {
    PhysicsFixWith(code, PhysicsImports())
  }

  /** The physics block carries its marker. */
  lemma {:induction false} PhysicsHasMarker()
    ensures Contains(PhysicsImports(), PhysicsMarker)
  {
    ContainsMiddle("\n", PhysicsMarker, PhysicsRest);
  }

  /** Putting a block after every star import, when there is one, brings in what the block contains. */
  lemma {:induction false} AfterImportHas(c: string, block: string, x: string)
    requires Contains(c, StarImport) && Contains(block, x)
    ensures Contains(ReplaceAll(c, StarImport, StarImport + "\n" + block), x)
  {
    WithBlockHas(c, block, x);
  }

  /** When fix 4 fires on code with a star import, a block with the marker leaves the marker in the code. */
  lemma {:induction false} PhysicsFixWithMarker(code: string, block: string)
    requires MentionsPhysics(code) && Contains(code, SceneClass) && Contains(code, StarImport)
    requires Contains(block, PhysicsMarker)
    ensures Contains(PhysicsFixWith(code, block), PhysicsMarker)
  {
    var c := ReplaceAll(code, SceneClass, ThreeDClass);
    assert SceneClass[0] !in StarImport && StarImport[0] !in SceneClass;
    ReplaceKeepsOther(code, SceneClass, ThreeDClass, StarImport);
    if !Contains(c, PhysicsMarker) {
      AfterImportHas(c, block, PhysicsMarker);
    }
  }

  /** When fix 4 fires on code with a star import, the physics block is present afterwards. */
  lemma {:induction false} PhysicsFixed(code: string)
    requires MentionsPhysics(code) && Contains(code, SceneClass) && Contains(code, StarImport)
    ensures Contains(PhysicsFix(code), PhysicsMarker)
  {
    PhysicsHasMarker();
    PhysicsFixWithMarker(code, PhysicsImports());
  }

  /** A symbol and the import statement that provides it. */
  datatype Requirement = Requirement(symbol: string, statement: string)

  /** The `required_imports` table of fix 5, in its order. */
  const RequiredImports: seq<Requirement> := [
    Requirement("Polygon", "from manim import Polygon"),
    Requirement("ThreeDObject", "from manim import ThreeDObject"),
    Requirement("ThreeDScene", "from manim import ThreeDScene")
  ]

  /** The statement of a requirement is the import of its symbol from Manim. */
  predicate ImportsItsSymbol(req: Requirement) {
    req.statement == "from manim import " + req.symbol
  }

  /** Every entry of the table imports its own symbol. */
  lemma {:induction false} RequiredImportsWellFormed()
    ensures forall i :: 0 <= i < |RequiredImports| ==> ImportsItsSymbol(RequiredImports[i])
  {
  }

  /**
   * One step of fix 5: code that uses the symbol but lacks its import gets
   * the import after every star import, or in front when there is none.
   */
  function AddImport(code: string, req: Requirement): (r: string)
    ensures Contains(code, req.statement) ==> r == code
    ensures !Contains(code, req.symbol) ==> r == code
  {
    if Contains(code, req.symbol) && !Contains(code, req.statement)
      && !Contains(code, "from manim import " + req.symbol)
    then
      if Contains(code, StarImport) then
        ReplaceAll(code, StarImport, StarImport + "\n# Added import\n" + req.statement)
      else req.statement + "\n" + code
    else code
  }

  /** After the step, code that uses the symbol has its import. */
  lemma {:induction false} AddImportProvides(code: string, req: Requirement)
    requires ImportsItsSymbol(req) && Contains(code, req.symbol)
    ensures Contains(AddImport(code, req), req.statement)
  {
    if !Contains(code, req.statement) {
      if Contains(code, StarImport) {
        var q := StarImport + "\n# Added import\n" + req.statement;
        ReplacePresent(code, StarImport, q);
        ContainsInPart(StarImport + "\n# Added import\n", req.statement, "", req.statement);
        assert StarImport + "\n# Added import\n" + req.statement + "" == q;
        ContainsSelf(req.statement);
        ContainsTrans(ReplaceAll(code, StarImport, q), q, req.statement);
      } else {
        ContainsMiddle([], req.statement, "\n" + code);
        assert [] + req.statement + ("\n" + code) == AddImport(code, req);
      }
    }
  }

  /** The step is idempotent: a second application adds nothing. */
  lemma {:induction false} AddImportIdempotent(code: string, req: Requirement)
    requires ImportsItsSymbol(req)
    ensures AddImport(AddImport(code, req), req) == AddImport(code, req)
  {
    if Contains(code, req.symbol) {
      AddImportProvides(code, req);
    }
  }

  /** Fix 5 over the first requirements of a table, in order. */
  function AddImports(code: string, reqs: seq<Requirement>): string
    decreases |reqs|
  {
    if |reqs| == 0 then code
    else AddImport(AddImports(code, reqs[..|reqs| - 1]), reqs[|reqs| - 1])
  }

  /** What `validate_and_fix_manim_code` returns: fixes 1 to 5 in order. */
  function ValidatedCode(code: string): string {
    AddImports(PhysicsFix(ThreeDFix(FixFrameWidth(FixShowCreation(code)))), RequiredImports)
  }

  /** Fix 5 leaves the 3D scene import in any code that names a 3D scene when its last step starts. */
  lemma {:induction false} RequiredImportsProvideThreeDScene(base: string)
    requires Contains(AddImports(base, RequiredImports[..2]), "ThreeDScene")
    ensures Contains(AddImports(base, RequiredImports), "from manim import ThreeDScene")
  {
    assert RequiredImports[..3] == RequiredImports;
    AddImportProvides(AddImports(base, RequiredImports[..2]), RequiredImports[2]);
  }

  /** The loop of fix 5 over the required imports. */
  method AddRequiredImports(base: string) returns (fixed: string)
    ensures fixed == AddImports(base, RequiredImports)
  {
    fixed := base;
    for i := 0 to |RequiredImports|
      invariant fixed == AddImports(base, RequiredImports[..i])
    {
      var req := RequiredImports[i];
      if Contains(fixed, req.symbol) && !Contains(fixed, req.statement)
        && !Contains(fixed, "from manim import " + req.symbol)
      {
        if Contains(fixed, StarImport) {
          fixed := ReplaceAll(fixed, StarImport, StarImport + "\n# Added import\n" + req.statement);
        } else {
          fixed := req.statement + "\n" + fixed;
        }
      }
      assert RequiredImports[..i + 1][..i] == RequiredImports[..i];
    }
    assert RequiredImports[..|RequiredImports|] == RequiredImports;
  }

  /** Fixes 1 to 3, reassigning the code. */
  method ApplyRenames(code: string) returns (fixed: string)
    ensures fixed == ThreeDFix(FixFrameWidth(FixShowCreation(code)))
  {
    fixed := code;
    if Contains(fixed, "ShowCreation") && !Contains(fixed, AliasLine) {
      fixed := ReplaceAll(fixed, "ShowCreation(", "Create(");
    }
    if Contains(fixed, "FRAME_WIDTH") && !Contains(fixed, FrameLine) {
      fixed := ReplaceAll(fixed, "FRAME_WIDTH", "config.frame_width");
    }
    if Contains(fixed, "ThreeDObject") && Contains(fixed, SceneClass) {
      fixed := ReplaceAll(fixed, SceneClass, ThreeDClass);
    }
  }

  /** Fix 4, reassigning the code. */
  method ApplyPhysicsFix(code: string) returns (fixed: string)
    ensures fixed == PhysicsFix(code)
  {
    fixed := code;
    if MentionsPhysics(fixed) && Contains(fixed, SceneClass) {
      fixed := ReplaceAll(fixed, SceneClass, ThreeDClass);
      var physics := PhysicsImports();
      if Contains(fixed, StarImport) && !Contains(fixed, PhysicsMarker) {
        fixed := ReplaceAll(fixed, StarImport, StarImport + "\n" + physics);
      }
    }
  }

  /** `validate_and_fix_manim_code`: the five fixes in order. */
  method ValidateAndFixManimCode(code: string) returns (fixed: string)
    ensures fixed == ValidatedCode(code)
  {
    fixed := ApplyRenames(code);
    fixed := ApplyPhysicsFix(fixed);
    fixed := AddRequiredImports(fixed);
  }

  // ---------------------------------------------------------------------
  // fix_common_code_issues
  // ---------------------------------------------------------------------

  /** `class\s+UserAnimationScene\s*\(\s*Scene\s*\)` */
  const SceneHeader: seq<Tok> :=
    [Lit("class"), Spaces(1), Lit("UserAnimationScene"), Spaces(0), Lit("("), Spaces(0), Lit("Scene"), Spaces(0), Lit(")")]

  /** `class\s+\w+\s*\([^)]*\)` */
  const ClassHeader: seq<Tok> := [Lit("class"), Spaces(1), Word1, Spaces(0), Lit("("), Except(")", 0), Lit(")")]

  /** `def\s+construct\s*\(\s*self\s*\)` */
  const ConstructHeader: seq<Tok> :=
    [Lit("def"), Spaces(1), Lit("construct"), Spaces(0), Lit("("), Spaces(0), Lit("self"), Spaces(0), Lit(")")]

  /** `def\s+\w+\s*\(\s*self\s*\)` */
  const MethodHeader: seq<Tok> :=
    [Lit("def"), Spaces(1), Word1, Spaces(0), Lit("("), Spaces(0), Lit("self"), Spaces(0), Lit(")")]

  /** `def\s+construct\s*\(.*?\):` with `re.DOTALL`. */
  const ConstructStart: seq<Tok> := [Lit("def"), Spaces(1), Lit("construct"), Spaces(0), Lit("("), LazyTo("):")]

  const ConstructLine := "def construct(self)"

  /** Step 1: code that does not start with the star import gets it, and a blank line, in front. */
  function EnsureStarImport(code: string): (r: string)
    ensures StartsWith(r, StarImport)
    ensures r == code || (!StartsWith(code, StarImport) && EndsWith(r, code) && |r| == |StarImport| + 2 + |code|)
  {
    if StartsWith(code, StarImport) then code else StarImport + "\n\n" + code
  }

  /** Step 2: without a `UserAnimationScene(Scene)` header, every class header is renamed to it. */
  function ClassFix(code: string): string
  {
    if Search(code, SceneHeader).Some? then code else Sub(code, ClassHeader, SceneClass)
  }

  /** Step 3: without a `construct(self)` method, every `self`-only method header is renamed to it. */
  function DefFix(code: string): string
  {
    if Search(code, ConstructHeader).Some? then code else Sub(code, MethodHeader, ConstructLine)
  }

  /** After step 2 there is a scene class header, or there was no class header to rename. */
  lemma {:induction false} ClassFixed(code: string)
    ensures Search(code, SceneHeader).None? && Search(code, ClassHeader).Some? ==>
      Contains(ClassFix(code), SceneClass)
    ensures Search(code, ClassHeader).None? ==> ClassFix(code) == code
  {
    if Search(code, SceneHeader).None? {
      if Search(code, ClassHeader).Some? {
        SubInserts(code, ClassHeader, SceneClass);
      } else {
        SubNoMatch(code, ClassHeader, SceneClass);
      }
    }
  }

  /** After step 3 there is a `construct(self)` header, or there was no method header to rename. */
  lemma {:induction false} DefFixed(code: string)
    ensures Search(code, ConstructHeader).None? && Search(code, MethodHeader).Some? ==>
      Contains(DefFix(code), ConstructLine)
    ensures Search(code, MethodHeader).None? ==> DefFix(code) == code
  {
    if Search(code, ConstructHeader).None? {
      if Search(code, MethodHeader).Some? {
        SubInserts(code, MethodHeader, ConstructLine);
      } else {
        SubNoMatch(code, MethodHeader, ConstructLine);
      }
    }
  }

  /** `-?\d+\.?\d*` at the start of `t`: the length of the number. */
  function NumberLen(t: string): (r: Option<nat>)
    ensures r.Some? ==> 0 < r.value <= |t|
  {
    var a := if |t| > 0 && t[0] == '-' then 1 else 0;
    var d := DigitRun(t[a..]);
    if d == 0 then None
    else
      var b := a + d;
      var c := if b < |t| && t[b] == '.' then b + 1 else b;
      Some(c + DigitRun(t[c..]))
  }

  /** `\s*` and then a number from position `i`: the number's text and the position after it. */
  function SpacedNumber(t: string, i: nat): (r: Option<(string, nat)>)
    requires i <= |t|
    ensures r.Some? ==> i < r.value.1 <= |t|
  {
    var j := i + SpaceRun(t[i..]);
    match NumberLen(t[j..])
    case None => None
    case Some(n) => Some((t[j..j + n], j + n))
  }

  /** `\s*` and then the character `c` from position `i`: the position after it. */
  function SpacedChar(t: string, i: nat, c: char): (r: Option<nat>)
    requires i <= |t|
    ensures r.Some? ==> i < r.value <= |t|
  {
    var j := i + SpaceRun(t[i..]);
    if j < |t| && t[j] == c then Some(j + 1) else None
  }

  /** The three numbers of a coordinate triple and the length of its text. */
  datatype Triple = Triple(x: string, y: string, z: string, len: nat)

  /** `\[\s*(-?\d+\.?\d*)\s*,\s*(-?\d+\.?\d*)\s*,\s*(-?\d+\.?\d*)\s*\]` at the start of `t`. */
  function TripleAt(t: string): (r: Option<Triple>)
    ensures r.Some? ==> 0 < r.value.len <= |t| && t[0] == '['
  {
    if |t| == 0 || t[0] != '[' then None
    else match SpacedNumber(t, 1)
      case None => None
      case Some((x, i)) => match SpacedChar(t, i, ',')
        case None => None
        case Some(j) => match SpacedNumber(t, j)
          case None => None
          case Some((y, k)) => match SpacedChar(t, k, ',')
            case None => None
            case Some(l) => match SpacedNumber(t, l)
              case None => None
              case Some((z, m)) => match SpacedChar(t, m, ']')
                case None => None
                case Some(e) => Some(Triple(x, y, z, e))
  }

  /**
   * Step 4: every coordinate triple is rewritten with its x clamped to
   * [-7, 7] and its y to [-4, 4]. `show(g, b)` stands for Python's text of
   * `min(max(float(g), -b), b)`, which this model does not compute.
   */
  function Clamp(t: string, show: (string, int) -> string): string
    decreases |t|
  {
    if |t| == 0 then ""
    else match TripleAt(t)
      case Some(m) => "[" + show(m.x, 7) + ", " + show(m.y, 4) + ", " + m.z + "]" + Clamp(t[m.len..], show)
      case None => [t[0]] + Clamp(t[1..], show)
  }

  /** Text before which no `[` occurs is copied through by step 4. */
  lemma {:induction false} ClampSkipsPrefix(a: string, b: string, show: (string, int) -> string)
    requires '[' !in a
    ensures Clamp(a + b, show) == a + Clamp(b, show)
    decreases |a|
  {
    if |a| == 0 {
      assert a + b == b;
    } else {
      assert (a + b)[0] == a[0];
      assert (a + b)[1..] == a[1..] + b;
      ClampSkipsPrefix(a[1..], b, show);
      Regroup([a[0]], a[1..], Clamp(b, show));
      assert [a[0]] + a[1..] == a;
    }
  }

  /** Text without `[` has no coordinate triple and is left alone by step 4. */
  lemma {:induction false} ClampNoBracket(t: string, show: (string, int) -> string)
    requires '[' !in t
    ensures Clamp(t, show) == t
  {
    ClampSkipsPrefix(t, "", show);
    assert t + "" == t;
  }

  /** `self\.wait\s*\(\s*[1-9]\s*\)\s*$` occurs in `t`. */
  predicate EndsWithWait(t: string) {
    var u := RStrip(t);
    |u| > 0 && u[|u| - 1] == ')' &&
    var v := RStrip(u[..|u| - 1]);
    |v| > 0 && '1' <= v[|v| - 1] <= '9' &&
    var w := RStrip(v[..|v| - 1]);
    |w| > 0 && w[|w| - 1] == '(' &&
    EndsWith(RStrip(w[..|w| - 1]), "self.wait")
  }

  const WaitTail := "\n        self.wait(2)\n"

  /** `rstrip()` keeps a last non-space character, and what precedes it. */
  lemma {:induction false} PeelLast(s: string, c: char)
    requires !IsSpace(c)
    ensures RStrip(s + [c]) == s + [c] && (s + [c])[..|s|] == s
  {
    RStripKeeps(s + [c]);
  }

  /** A wait call with a digit 1 to 9, and whitespace after it, ends the code. */
  lemma {:induction false} WaitCallEnds(a: string, d: char, w: string)
    requires EndsWith(a, "self.wait") && '1' <= d <= '9' && AllSpace(w)
    ensures EndsWithWait(a + ['('] + [d] + [')'] + w)
  {
    RStripSpaces(a + ['('] + [d] + [')'], w);
    PeelLast(a + ['('] + [d], ')');
    PeelLast(a + ['('], d);
    PeelLast(a, '(');
    assert a[|a| - 1] == 't';
    RStripKeeps(a);
  }

  /** Code with the closing wait appended ends with a wait call. */
  lemma {:induction false} WaitTailEnds(x: string)
    ensures EndsWithWait(x + WaitTail)
  {
    var a := x + "\n        self.wait";
    assert a[|a| - 9..] == "self.wait";
    assert x + WaitTail == a + ['('] + ['2'] + [')'] + "\n";
    WaitCallEnds(a, '2', "\n");
  }

  /**
   * Step 5 as the source writes it: without a closing wait the code gets
   * one, but where a `construct` method is found the code is cut down to
   * the text from `def construct` on before the wait is added.
   */
  function FinalWaitAsWritten(code: string): string
  {
    if EndsWithWait(code) then code
    else match Search(code, ConstructStart)
      case Some(i) => code[i..] + WaitTail
      case None => RStrip(code) + WaitTail
  }

  /** Step 5 as intended: the whole code is kept and the wait appended. */
  function FinalWait(code: string): (r: string)
    ensures EndsWithWait(r)
    ensures StartsWith(r, RStrip(code))
  {
    WaitTailEnds(code);
    WaitTailEnds(RStrip(code));
    if EndsWithWait(code) then code
    else if Search(code, ConstructStart).Some? then code + WaitTail
    else RStrip(code) + WaitTail
  }

  /** Step 5 makes no further change to its own output. */
  lemma {:induction false} FinalWaitIdempotent(code: string)
    ensures FinalWait(FinalWait(code)) == FinalWait(code)
    ensures FinalWaitAsWritten(FinalWaitAsWritten(code)) == FinalWaitAsWritten(code)
  {
    WaitTailEnds(code);
    WaitTailEnds(RStrip(code));
    match Search(code, ConstructStart)
    case Some(i) => WaitTailEnds(code[i..]);
    case None =>
  }

  /** `fix_common_code_issues` as the source writes it. */
  function FixCommonCodeIssuesAsWritten(code: string, show: (string, int) -> string): string
  {
    FinalWaitAsWritten(Clamp(DefFix(ClassFix(EnsureStarImport(code))), show))
  }

  /** `fix_common_code_issues` with step 5 keeping the code before `construct`. */
  function FixCommonCodeIssues(code: string, show: (string, int) -> string): string
  {
    FinalWait(Clamp(DefFix(ClassFix(EnsureStarImport(code))), show))
  }

  /** Steps 1 to 4 give code that starts with the star import. */
  lemma {:induction false} FirstStepsKeepImport(code: string, show: (string, int) -> string)
    ensures StartsWith(Clamp(DefFix(ClassFix(EnsureStarImport(code))), show), StarImport)
  {
    var c1 := EnsureStarImport(code);
    var rest := c1[|StarImport|..];
    assert c1 == StarImport + rest;
    assert 'c' !in StarImport && 'd' !in StarImport && '[' !in StarImport;
    var rest2 := if Search(c1, SceneHeader).Some? then rest else Sub(rest, ClassHeader, SceneClass);
    if Search(c1, SceneHeader).None? {
      SubSkipsPrefix(StarImport, rest, ClassHeader, SceneClass);
    }
    assert ClassFix(c1) == StarImport + rest2;
    var rest3 := if Search(ClassFix(c1), ConstructHeader).Some? then rest2 else Sub(rest2, MethodHeader, ConstructLine);
    if Search(ClassFix(c1), ConstructHeader).None? {
      SubSkipsPrefix(StarImport, rest2, MethodHeader, ConstructLine);
    }
    assert DefFix(ClassFix(c1)) == StarImport + rest3;
    ClampSkipsPrefix(StarImport, rest3, show);
    assert (StarImport + Clamp(rest3, show))[..|StarImport|] == StarImport;
  }

  /** With step 5 corrected, the fixed code keeps its import and ends with a wait call. */
  lemma {:induction false} FixCommonKeepsImport(code: string, show: (string, int) -> string)
    ensures StartsWith(FixCommonCodeIssues(code, show), StarImport)
    ensures EndsWithWait(FixCommonCodeIssues(code, show))
  {
    var c4 := Clamp(DefFix(ClassFix(EnsureStarImport(code))), show);
    FirstStepsKeepImport(code, show);
    RStripKeepsPrefix(c4, StarImport);
    var r := FinalWait(c4);
    assert r[..|StarImport|] == RStrip(c4)[..|StarImport|];
  }

  /** As written, step 5 returns text that starts at `def construct` whenever it finds one. */
  lemma {:induction false} FinalWaitAsWrittenCuts(c: string)
    requires !EndsWithWait(c) && Search(c, ConstructStart).Some?
    ensures |FinalWaitAsWritten(c)| > 0 && FinalWaitAsWritten(c)[0] == 'd'
  {
    var i := Search(c, ConstructStart).value;
    assert ConstructStart[0].text[0] == 'd';
    SearchHead(c, ConstructStart);
    var head := c[i..];
    assert FinalWaitAsWritten(c) == head + WaitTail;
    assert (head + WaitTail)[0] == c[i];
  }

  /**
   * As written, step 5 drops the import (and everything else before
   * `def construct`) from any code that lacks a closing wait call and has
   * a `construct` method.
   */
  lemma {:induction false} FixCommonAsWrittenDropsImport(code: string, show: (string, int) -> string)
    requires var c4 := Clamp(DefFix(ClassFix(EnsureStarImport(code))), show);
      !EndsWithWait(c4) && Search(c4, ConstructStart).Some?
    ensures !StartsWith(FixCommonCodeIssuesAsWritten(code, show), StarImport)
  {
    var c4 := Clamp(DefFix(ClassFix(EnsureStarImport(code))), show);
    FinalWaitAsWrittenCuts(c4);
    assert StarImport[0] == 'f';
  }
}
