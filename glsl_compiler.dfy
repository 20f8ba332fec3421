/** The shader-constant compiler of main.js (`shaderConfigToGLSL`) and the
    splice that places its output after the precision guard of the fragment
    shader (`init`). Number formatting and trigonometry come from the
    JavaScript runtime and are left uninterpreted: they are the fields of a
    `Formatter` passed in. */
module GlslCompiler {
  import opened Wrappers
  import opened CatConfig

  /** The text of a formatted number (digits, sign, point, exponent, "NaN"):
      never a line break. */
  type NumText = s: string | '\n' !in s witness "0"

  /** The runtime services the compiler calls, left uninterpreted. */
  datatype Formatter = Formatter(
    fixed5: real -> NumText,  // Number.prototype.toFixed(5)
    show: real -> NumText,    // the default number-to-string conversion
    cos: real -> real,       // Math.cos
    sin: real -> real)       // Math.sin

  /** The keys emitted as `const int` (`INT_KEYS`). */
  const IntKeys: set<string> := {"TAIL_SDF_SAMPLES", "RAYMARCH_STEPS", "SHADOW_STEPS"}

  // ---------------------------------------------------------------------------
  // Text helpers
  // ---------------------------------------------------------------------------

  function DigitChar(d: nat): (c: char)
    requires d < 10
    ensures '0' <= c <= '9'
  {
    "0123456789"[d]
  }

  /** The decimal form of an array length, as `"vec" + val.length` writes it. */
  function NatStr(n: nat): (s: string)
    ensures |s| >= 1
    ensures forall i :: 0 <= i < |s| ==> '0' <= s[i] <= '9'
    decreases n
  {
    if n < 10 then [DigitChar(n)] else NatStr(n / 10) + [DigitChar(n % 10)]
  }

  /** `Array.prototype.join`: the parts with `sep` between consecutive ones. */
  function Join(parts: seq<string>, sep: string): string
    decreases |parts|
  {
    if |parts| == 0 then ""
    else if |parts| == 1 then parts[0]
    else parts[0] + sep + Join(parts[1..], sep)
  }

  /** Every line followed by a newline. */
  function Terminated(lines: seq<string>): string
    decreases |lines|
  {
    if lines == [] then "" else lines[0] + "\n" + Terminated(lines[1..])
  }

  /** `lines.join("\n") + "\n"` puts a newline after every line. */
  lemma {:induction false} JoinTerminated(lines: seq<string>)
    requires |lines| >= 1
    ensures Join(lines, "\n") + "\n" == Terminated(lines)
    decreases |lines|
  {
    if |lines| > 1 {
      JoinTerminated(lines[1..]);
      calc {
        Join(lines, "\n") + "\n";
        lines[0] + "\n" + Join(lines[1..], "\n") + "\n";
        { assert lines[0] + "\n" + Join(lines[1..], "\n") + "\n"
            == lines[0] + "\n" + (Join(lines[1..], "\n") + "\n"); }
        lines[0] + "\n" + Terminated(lines[1..]);
      }
    }
  }

  /** The position of the first `c` in `s`, or `|s|` when there is none. */
  function IndexOfChar(s: string, c: char): (k: nat)
    ensures k <= |s|
    ensures k < |s| ==> s[k] == c
    ensures forall j :: 0 <= j < k ==> s[j] != c
    decreases |s|
  {
    if s == [] then 0 else if s[0] == c then 0 else 1 + IndexOfChar(s[1..], c)
  }

  /** Reads newline-terminated text back as its lines. */
  function SplitTerminated(s: string): seq<string>
    decreases |s|
  {
    if s == [] then []
    else
      var k := IndexOfChar(s, '\n');
      if k == |s| then [s] else [s[..k]] + SplitTerminated(s[k + 1..])
  }

  predicate NewlineFree(line: string) {
    '\n' !in line
  }

  /** Newline-free lines are read back exactly from their terminated text. */
  lemma {:induction false} SplitTerminatedInverse(lines: seq<string>)
    requires forall i :: 0 <= i < |lines| ==> NewlineFree(lines[i])
    ensures SplitTerminated(Terminated(lines)) == lines
    decreases |lines|
  {
    if lines != [] {
      var head, rest := lines[0], Terminated(lines[1..]);
      var s := Terminated(lines);
      assert s == head + "\n" + rest;
      FirstNewline(head, rest);
      assert s[..|head|] == head;
      assert s[|head| + 1..] == rest;
      SplitTerminatedInverse(lines[1..]);
      assert lines == [head] + lines[1..];
    }
  }

  /** The first newline after a newline-free line is the one that ends it. */
  lemma FirstNewline(head: string, rest: string)
    requires NewlineFree(head)
    ensures IndexOfChar(head + "\n" + rest, '\n') == |head|
  {
    var s := head + "\n" + rest;
    assert forall j :: 0 <= j < |head| ==> s[j] == head[j];
    assert s[|head|] == '\n';
  }

  // ---------------------------------------------------------------------------
  // Declarations
  // ---------------------------------------------------------------------------

  /** The GLSL type of a constant: an array is tested first, so an array of
      length N is a `vecN` whatever its key; an integer key gives `int`; every
      other scalar gives `float`. */
  function DeclType(key: string, v: Value): (t: string)
    ensures v.Vec? ==> t == "vec" + NatStr(|v.xs|)
    ensures v.Scalar? && key in IntKeys ==> t == "int"
    ensures v.Scalar? && key !in IntKeys ==> t == "float"
  {
    match v
    case Vec(xs) => "vec" + NatStr(|xs|)
    case Scalar(_) => if key in IntKeys then "int" else "float"
  }

  /** The initialiser: a vector constructor over the default forms of the
      elements, the default form of an integer constant, or five fixed
      decimals. */
  function Literal(key: string, v: Value, fmt: Formatter): string {
    match v
    case Vec(xs) =>
      DeclType(key, v) + "(" + Join(seq(|xs|, i requires 0 <= i < |xs| => fmt.show(xs[i])), ", ") + ")"
    case Scalar(x) => if key in IntKeys then fmt.show(x) else fmt.fixed5(x)
  }

  function DeclLine(key: string, v: Value, fmt: Formatter): string {
    "const " + DeclType(key, v) + " " + key + " = " + Literal(key, v, fmt) + ";"
  }

  /** `Number(cfg.HALFTONE_ANGLE)`: a scalar is itself, an empty array is 0, a
      one-element array is its element; anything else, and a missing key, is
      NaN (None). */
  function AngleNumber(v: Option<Value>): Option<real> {
    match v
    case None => None
    case Some(Scalar(x)) => Some(x)
    case Some(Vec(xs)) => if |xs| == 0 then Some(0.0) else if |xs| == 1 then Some(xs[0]) else None
  }

  /** `Number` on the property's value: a number is itself, an empty array
      is 0, a one-element array is its element, and a missing property or a
      longer array is NaN. */
  lemma AngleCoercion(v: Option<Value>)
    ensures v.None? ==> AngleNumber(v).None?
    ensures v.Some? && v.value.Scalar? ==> AngleNumber(v) == Some(v.value.x)
    ensures v == Some(Vec([])) ==> AngleNumber(v) == Some(0.0)
    ensures v.Some? && v.value.Vec? && |v.value.xs| == 1 ==> AngleNumber(v) == Some(v.value.xs[0])
    ensures v.Some? && v.value.Vec? && |v.value.xs| > 1 ==> AngleNumber(v).None?
  {
  }

  function HalftoneLine(name: string, f: real -> real, angle: Option<real>, fmt: Formatter): string {
    "const float " + name + " = " + (if angle.Some? then fmt.fixed5(f(angle.value)) else "NaN") + ";"
  }

  /** The declaration lines: one per entry, in input order, then the cosine
      and the sine of the halftone angle. */
  function Lines(cfg: Config, fmt: Formatter): (lines: seq<string>)
    ensures |lines| == |cfg| + 2
  {
    EntryLines(cfg, fmt) + HalftoneLines(cfg, fmt)
  }

  function EntryLines(cfg: Config, fmt: Formatter): (lines: seq<string>)
    ensures |lines| == |cfg|
  {
    seq(|cfg|, i requires 0 <= i < |cfg| => DeclLine(cfg[i].0, cfg[i].1, fmt))
  }

  function HalftoneLines(cfg: Config, fmt: Formatter): (lines: seq<string>)
    ensures |lines| == 2
  {
    var angle := AngleNumber(Lookup(cfg, "HALFTONE_ANGLE"));
    [HalftoneLine("HALFTONE_COS", fmt.cos, angle, fmt),
     HalftoneLine("HALFTONE_SIN", fmt.sin, angle, fmt)]
  }

  lemma {:induction false} JoinNewlineFree(parts: seq<string>, sep: string)
    requires NewlineFree(sep)
    requires forall i :: 0 <= i < |parts| ==> NewlineFree(parts[i])
    ensures NewlineFree(Join(parts, sep))
    decreases |parts|
  {
    if |parts| > 1 {
      JoinNewlineFree(parts[1..], sep);
    }
  }

  lemma DeclLineNewlineFree(key: string, v: Value, fmt: Formatter)
    requires NewlineFree(key)
    ensures NewlineFree(DeclLine(key, v, fmt))
  {
    var t := DeclType(key, v);
    if v.Vec? {
      var digits := NatStr(|v.xs|);
      assert NewlineFree(digits);
      assert NewlineFree(t);
      var parts := seq(|v.xs|, j requires 0 <= j < |v.xs| => fmt.show(v.xs[j]));
      JoinNewlineFree(parts, ", ");
      assert NewlineFree(Literal(key, v, fmt));
    } else {
      assert NewlineFree(t);
      assert NewlineFree(Literal(key, v, fmt));
    }
  }

  lemma HalftoneLineNewlineFree(name: string, f: real -> real, angle: Option<real>, fmt: Formatter)
    requires NewlineFree(name)
    ensures NewlineFree(HalftoneLine(name, f, angle, fmt))
  {
  }

  lemma LinesNewlineFree(cfg: Config, fmt: Formatter)
    requires forall i :: 0 <= i < |cfg| ==> NewlineFree(cfg[i].0)
    ensures forall i :: 0 <= i < |Lines(cfg, fmt)| ==> NewlineFree(Lines(cfg, fmt)[i])
  {
    var lines := Lines(cfg, fmt);
    forall i | 0 <= i < |cfg|
      ensures NewlineFree(lines[i])
    {
      DeclLineNewlineFree(cfg[i].0, cfg[i].1, fmt);
    }
    var angle := AngleNumber(Lookup(cfg, "HALFTONE_ANGLE"));
    HalftoneLineNewlineFree("HALFTONE_COS", fmt.cos, angle, fmt);
    HalftoneLineNewlineFree("HALFTONE_SIN", fmt.sin, angle, fmt);
  }

  // ---------------------------------------------------------------------------
  // The compiler
  // ---------------------------------------------------------------------------

  /** `shaderConfigToGLSL`: one declaration line per entry, in input order,
      then the two halftone lines, every line ending in a newline; reading the
      text back line by line gives exactly those lines. */
  method ShaderConfigToGLSL(cfg: Config, fmt: Formatter) returns (glsl: string)
    ensures glsl == Terminated(Lines(cfg, fmt))
    ensures (forall i :: 0 <= i < |cfg| ==> NewlineFree(cfg[i].0)) ==> SplitTerminated(glsl) == Lines(cfg, fmt)
  {
    var lines: seq<string> := [];
    for i := 0 to |cfg|
      invariant |lines| == i
      invariant forall j :: 0 <= j < i ==> lines[j] == DeclLine(cfg[j].0, cfg[j].1, fmt)
    {
      var (key, val) := cfg[i];
      lines := lines + [DeclLine(key, val, fmt)];
    }
    var a := AngleNumber(Lookup(cfg, "HALFTONE_ANGLE"));
    lines := lines + [HalftoneLine("HALFTONE_COS", fmt.cos, a, fmt)];
    lines := lines + [HalftoneLine("HALFTONE_SIN", fmt.sin, a, fmt)];
    assert lines == Lines(cfg, fmt);
    glsl := Join(lines, "\n") + "\n";
    JoinTerminated(lines);
    if forall i :: 0 <= i < |cfg| ==> NewlineFree(cfg[i].0) {
      LinesNewlineFree(cfg, fmt);
      SplitTerminatedInverse(lines);
    }
  }

  /** The line of an entry whose value is an array of length N declares a
      `vecN`, even under an integer key, and initialises it with a `vecN`
      constructor over the default forms of the elements, comma-separated. */
  lemma VecEntryLine(cfg: Config, fmt: Formatter, i: nat)
    requires i < |cfg| && cfg[i].1.Vec?
    ensures var (key, v) := cfg[i];
      var t := "vec" + NatStr(|v.xs|);
      var parts := seq(|v.xs|, j requires 0 <= j < |v.xs| => fmt.show(v.xs[j]));
      Lines(cfg, fmt)[i] == "const " + t + " " + key + " = " + (t + "(" + Join(parts, ", ") + ")") + ";"
  {
    EntryLineAt(cfg, fmt, i);
  }

  /** The first lines are the entries' declarations, in order. */
  lemma EntryLineAt(cfg: Config, fmt: Formatter, i: nat)
    requires i < |cfg|
    ensures Lines(cfg, fmt)[i] == DeclLine(cfg[i].0, cfg[i].1, fmt)
  {
    assert Lines(cfg, fmt)[i] == EntryLines(cfg, fmt)[i];
  }

  lemma ConstPrefixes()
    ensures "const " + "int" + " " == "const int "
    ensures "const " + "float" + " " == "const float "
  {
  }

  /** The line of a scalar entry under an integer key is a `const int` with the
      default form of the number, not truncated. */
  lemma IntEntryLine(cfg: Config, fmt: Formatter, i: nat)
    requires i < |cfg| && cfg[i].0 in IntKeys && cfg[i].1.Scalar?
    ensures Lines(cfg, fmt)[i] == "const int " + cfg[i].0 + " = " + fmt.show(cfg[i].1.x) + ";"
  {
    EntryLineAt(cfg, fmt, i);
    ConstPrefixes();
  }

  /** Every other scalar is a `const float` with five fixed decimals. */
  lemma FloatEntryLine(cfg: Config, fmt: Formatter, i: nat)
    requires i < |cfg| && cfg[i].0 !in IntKeys && cfg[i].1.Scalar?
    ensures Lines(cfg, fmt)[i] == "const float " + cfg[i].0 + " = " + fmt.fixed5(cfg[i].1.x) + ";"
  {
    EntryLineAt(cfg, fmt, i);
    ConstPrefixes();
  }

  /** With a numeric HALFTONE_ANGLE `x`, the two halftone lines declare the
      cosine and the sine of `x`: each is the halftone line of `x`, which
      `HalftoneLineOfAngle` spells out. */
  lemma AngleHalftoneLines(cfg: Config, fmt: Formatter, x: real)
    requires Lookup(cfg, "HALFTONE_ANGLE") == Some(Scalar(x))
    ensures HalftoneLines(cfg, fmt) ==
      [HalftoneLine("HALFTONE_COS", fmt.cos, Some(x), fmt), HalftoneLine("HALFTONE_SIN", fmt.sin, Some(x), fmt)]
  {
    ScalarAngle(cfg, x);
  }

  /** With a numeric HALFTONE_ANGLE `x`, the line right after the entries
      is the cosine declaration, with five fixed decimals. */
  lemma CosineLineText(cfg: Config, fmt: Formatter, x: real)
    requires Lookup(cfg, "HALFTONE_ANGLE") == Some(Scalar(x))
    ensures Lines(cfg, fmt)[|cfg|] == "const float HALFTONE_COS = " + fmt.fixed5(fmt.cos(x)) + ";"
  {
    HalftonePairText(cfg, fmt, x);
    LastLines(cfg, fmt);
  }

  /** With a numeric HALFTONE_ANGLE `x`, the second line after the entries
      is the sine declaration, with five fixed decimals. */
  lemma SineLineText(cfg: Config, fmt: Formatter, x: real)
    requires Lookup(cfg, "HALFTONE_ANGLE") == Some(Scalar(x))
    ensures Lines(cfg, fmt)[|cfg| + 1] == "const float HALFTONE_SIN = " + fmt.fixed5(fmt.sin(x)) + ";"
  {
    HalftonePairText(cfg, fmt, x);
    LastLines(cfg, fmt);
  }

  /** The two halftone lines of a numeric angle, spelled out. */
  lemma HalftonePairText(cfg: Config, fmt: Formatter, x: real)
    requires Lookup(cfg, "HALFTONE_ANGLE") == Some(Scalar(x))
    ensures HalftoneLines(cfg, fmt) ==
      ["const float HALFTONE_COS = " + fmt.fixed5(fmt.cos(x)) + ";",
       "const float HALFTONE_SIN = " + fmt.fixed5(fmt.sin(x)) + ";"]
  {
    AngleHalftoneLines(cfg, fmt, x);
    HalftoneLineOfAngle("HALFTONE_COS", fmt.cos, x, fmt);
    HalftoneLineOfAngle("HALFTONE_SIN", fmt.sin, x, fmt);
    assert "const float " + "HALFTONE_COS" + " = " == "const float HALFTONE_COS = ";
    assert "const float " + "HALFTONE_SIN" + " = " == "const float HALFTONE_SIN = ";
  }

  lemma ScalarAngle(cfg: Config, x: real)
    requires Lookup(cfg, "HALFTONE_ANGLE") == Some(Scalar(x))
    ensures AngleNumber(Lookup(cfg, "HALFTONE_ANGLE")) == Some(x)
  {
  }

  /** The two lines after the entries are the halftone lines of the angle. */
  lemma LastLines(cfg: Config, fmt: Formatter)
    ensures Lines(cfg, fmt)[|cfg|] == HalftoneLines(cfg, fmt)[0]
    ensures Lines(cfg, fmt)[|cfg| + 1] == HalftoneLines(cfg, fmt)[1]
  {
    assert Lines(cfg, fmt) == EntryLines(cfg, fmt) + HalftoneLines(cfg, fmt);
  }

  /** A halftone line of a number `x` declares the constant `name` as the
      five-decimal text of `f(x)`. */
  lemma HalftoneLineOfAngle(name: string, f: real -> real, x: real, fmt: Formatter)
    ensures HalftoneLine(name, f, Some(x), fmt) == "const float " + name + " = " + fmt.fixed5(f(x)) + ";"
  {
  }

  /** A halftone line of NaN prints NaN. */
  lemma HalftoneLineOfNaN(name: string, f: real -> real, fmt: Formatter)
    ensures HalftoneLine(name, f, None, fmt) == "const float " + name + " = " + "NaN" + ";"
  {
  }

  /** Without a HALFTONE_ANGLE the angle is `undefined`, and both halftone
      lines are those of NaN. */
  lemma HalftoneLinesMissing(cfg: Config, fmt: Formatter)
    requires "HALFTONE_ANGLE" !in Keys(cfg)
    ensures Lines(cfg, fmt)[|cfg|] == HalftoneLine("HALFTONE_COS", fmt.cos, None, fmt)
    ensures Lines(cfg, fmt)[|cfg| + 1] == HalftoneLine("HALFTONE_SIN", fmt.sin, None, fmt)
  {
    LookupNone(cfg, "HALFTONE_ANGLE");
    LastLines(cfg, fmt);
  }

  /** The compiled shader constants end with the halftone lines of 0.26,
      whatever the quality. */
  lemma ShaderHalftoneLines(query: Option<string>, fmt: Formatter)
    ensures |Shader(query)| == 17
    ensures Lines(Shader(query), fmt)[17] == HalftoneLine("HALFTONE_COS", fmt.cos, Some(0.26), fmt)
    ensures Lines(Shader(query), fmt)[18] == HalftoneLine("HALFTONE_SIN", fmt.sin, Some(0.26), fmt)
  {
    ShaderEntryOrder(query);
    HalftoneAnglePresent(query);
    AngleHalftoneLines(Shader(query), fmt, 0.26);
    LastLines(Shader(query), fmt);
  }

  lemma IntKeysArePresetKeys()
    ensures IntKeys == set k | k in PresetKeys
  {
  }

  /** Both presets put the three integer keys last, each as a scalar, so the
      last three entry lines of the shader constants are `const int`
      declarations of the preset's step counts. */
  lemma {:induction false} IntKeysEmittedAsInt(query: Option<string>, fmt: Formatter, j: nat)
    requires j < 3
    ensures var cfg, preset := Shader(query), SelectPreset(query);
      |cfg| == 17 && |preset| == 3 && preset[j].1.Scalar? &&
      Lines(cfg, fmt)[14 + j] == "const int " + PresetKeys[j] + " = " + fmt.show(preset[j].1.x) + ";"
  {
    var preset := SelectPreset(query);
    var cfg := Shader(query);
    assert |cfg| == 17 && cfg[14 + j] == preset[j] by { ShaderEntryOrder(query); }
    assert preset[j].0 == PresetKeys[j] && preset[j].1.Scalar? by {
      PresetShape(preset);
      assert preset[j].0 == Keys(preset)[j];
    }
    assert PresetKeys[j] in IntKeys;
    IntEntryLine(cfg, fmt, 14 + j);
  }

  // ---------------------------------------------------------------------------
  // Splicing the constants into the fragment shader
  // ---------------------------------------------------------------------------

  const EndifToken: string := "#endif"
  const MissingEndif: string := "cat.frag: missing #endif precision guard"

  predicate MatchAt(s: string, pat: string, i: nat) {
    i + |pat| <= |s| && s[i..i + |pat|] == pat
  }

  /** `i` is the first position where `pat` occurs in `s`. */
  predicate FirstMatch(s: string, pat: string, i: nat) {
    MatchAt(s, pat, i) && forall j :: 0 <= j < i ==> !MatchAt(s, pat, j)
  }

  /** `String.prototype.indexOf(pat, from)`, with None for -1. */
  function IndexOf(s: string, pat: string, from: nat): (r: Option<nat>)
    ensures r.Some? ==>
      from <= r.value && MatchAt(s, pat, r.value) &&
      forall j :: from <= j < r.value ==> !MatchAt(s, pat, j)
    ensures r.None? ==> forall j :: from <= j ==> !MatchAt(s, pat, j)
    decreases |s| - from
  {
    if from + |pat| > |s| then None
    else if MatchAt(s, pat, from) then Some(from)
    else IndexOf(s, pat, from + 1)
  }

  /** The fragment source with a newline and the compiled constants inserted
      right after the first `#endif`; an error when there is none. */
  function InjectConfig(frag: string, glsl: string): (r: Result<string, string>)
    ensures r.Failure? <==> forall j :: !MatchAt(frag, EndifToken, j)
    ensures r.Failure? ==> r.error == MissingEndif
    ensures forall i: nat :: FirstMatch(frag, EndifToken, i) ==>
      r == Success(frag[..i + |EndifToken|] + "\n" + glsl + frag[i + |EndifToken|..])
  {
    match IndexOf(frag, EndifToken, 0)
    case None => Failure(MissingEndif)
    case Some(endifIdx) =>
      var insertPos := endifIdx + |EndifToken|;
      Success(frag[..insertPos] + "\n" + glsl + frag[insertPos..])
  }

  /** Cutting the inserted newline and constants out again gives back the
      fragment source, and the constants sit right after the guard. */
  lemma InjectConfigRoundTrip(frag: string, glsl: string, i: nat)
    requires FirstMatch(frag, EndifToken, i)
    ensures InjectConfig(frag, glsl).Success?
    ensures var out := InjectConfig(frag, glsl).value;
      var n := i + |EndifToken|;
      |out| == |frag| + 1 + |glsl| &&
      out[..n] + out[n + 1 + |glsl|..] == frag &&
      out[i..n] == EndifToken &&
      out[n] == '\n' &&
      out[n + 1..n + 1 + |glsl|] == glsl
  {
    var n := i + |EndifToken|;
    var out := InjectConfig(frag, glsl).value;
    assert out == frag[..n] + "\n" + glsl + frag[n..];
    assert out[..n] == frag[..n];
    assert out[n + 1 + |glsl|..] == frag[n..];
    assert frag[..n] + frag[n..] == frag;
  }
}
