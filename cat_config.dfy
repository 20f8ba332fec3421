/** The static configuration of the cat demo (cat-config.js): the quality
    presets and the choice between them, the shader constants injected into the
    fragment shader, the camera ranges and the animation constants, including
    the table of pose transitions that may not be entered directly. */
module CatConfig {
  import opened Wrappers

  // ---------------------------------------------------------------------------
  // Poses
  // ---------------------------------------------------------------------------

  /** A pose index: Standing(0), Sit(1), Loaf(2), Stretch(3), Walk(4),
      OnBack(5), UprightSit(6). */
  type Pose = p: int | 0 <= p <= 6

  const Standing: Pose := 0
  const Sit: Pose := 1
  const Loaf: Pose := 2
  const Stretch: Pose := 3
  const Walk: Pose := 4
  const OnBack: Pose := 5
  const UprightSit: Pose := 6

  // ---------------------------------------------------------------------------
  // Shader constants
  // ---------------------------------------------------------------------------

  /** A shader constant is a number or an array of numbers; no other shape can
      be written down. */
  datatype Value = Scalar(x: real) | Vec(xs: seq<real>)

  /** An ordered list of (key, value) entries, in the order that
      `Object.entries` enumerates them. */
  type Config = seq<(string, Value)>

  /** The keys of the entries, in order. */
  function Keys(cfg: Config): (ks: seq<string>)
    ensures |ks| == |cfg|
  {
    seq(|cfg|, i requires 0 <= i < |cfg| => cfg[i].0)
  }

  /** No key occurs twice, as in any object literal. */
  predicate UniqueKeys(cfg: Config) {
    forall i, j :: 0 <= i < j < |cfg| ==> cfg[i].0 != cfg[j].0
  }

  /** Property lookup `cfg[key]`: the value of the entry with that key. */
  function Lookup(cfg: Config, key: string): (r: Option<Value>)
    ensures r.Some? ==> (key, r.value) in cfg
    decreases |cfg|
  {
    if cfg == [] then None
    else if cfg[0].0 == key then Some(cfg[0].1) else Lookup(cfg[1..], key)
  }

  /** A property read finds nothing exactly when no entry has the key. */
  lemma {:induction false} LookupNone(cfg: Config, key: string)
    ensures Lookup(cfg, key).None? <==> key !in Keys(cfg)
    decreases |cfg|
  {
    if cfg != [] {
      KeysCons(cfg);
      LookupNone(cfg[1..], key);
    }
  }

  lemma KeysCons(cfg: Config)
    requires cfg != []
    ensures Keys(cfg) == [cfg[0].0] + Keys(cfg[1..])
  {
  }

  /** One property definition of an object literal: an existing key keeps its
      position and takes the new value, a new key is appended. */
  function Put(cfg: Config, key: string, v: Value): (r: Config)
    ensures key in Keys(cfg) ==> Keys(r) == Keys(cfg)
    ensures key !in Keys(cfg) ==> r == cfg + [(key, v)]
    decreases |cfg|
  {
    if cfg == [] then [(key, v)]
    else
      KeysCons(cfg);
      if cfg[0].0 == key then
        var r := [(key, v)] + cfg[1..];
        KeysCons(r);
        assert r[1..] == cfg[1..];
        r
      else
        var rest := Put(cfg[1..], key, v);
        var r := [cfg[0]] + rest;
        KeysCons(r);
        assert r[1..] == rest;
        r
  }

  /** A defined property reads back as its new value, and every other
      property reads as before. */
  lemma {:induction false} PutLookup(cfg: Config, key: string, v: Value)
    ensures Lookup(Put(cfg, key, v), key) == Some(v)
    ensures forall k :: k != key ==> Lookup(Put(cfg, key, v), k) == Lookup(cfg, k)
    decreases |cfg|
  {
    if cfg != [] && cfg[0].0 != key {
      PutLookup(cfg[1..], key, v);
      var r := Put(cfg, key, v);
      assert r == [cfg[0]] + Put(cfg[1..], key, v);
      assert r[1..] == Put(cfg[1..], key, v);
    } else if cfg != [] {
      var r := Put(cfg, key, v);
      assert r[1..] == cfg[1..];
    }
  }

  /** The object spread `{ ...base, ...extra }`: the entries of `extra` are
      defined on top of `base`, one after the other. */
  function Spread(base: Config, extra: Config): Config
    decreases |extra|
  {
    if extra == [] then base
    else Spread(Put(base, extra[0].0, extra[0].1), extra[1..])
  }

  /** The keys of `base` keep their places in a spread, the result has
      exactly the keys of both objects, and a key that `extra` does not
      define keeps its value from `base`. */
  lemma {:induction false} SpreadKeys(base: Config, extra: Config)
    ensures |Spread(base, extra)| >= |base|
    ensures Keys(Spread(base, extra))[..|base|] == Keys(base)
    ensures forall k :: k in Keys(Spread(base, extra)) <==> k in Keys(base) || k in Keys(extra)
    ensures forall k :: k !in Keys(extra) ==> Lookup(Spread(base, extra), k) == Lookup(base, k)
    decreases |extra|
  {
    if extra != [] {
      var base' := Put(base, extra[0].0, extra[0].1);
      PutLookup(base, extra[0].0, extra[0].1);
      SpreadKeys(base', extra[1..]);
      var r := Spread(base', extra[1..]);
      assert r == Spread(base, extra);
      KeysCons(extra);
      assert Keys(base')[..|base|] == Keys(base) by {
        if extra[0].0 !in Keys(base) {
          KeysAppend(base, [(extra[0].0, extra[0].1)]);
        }
      }
      assert Keys(r)[..|base|] == Keys(r)[..|base'|][..|base|];
      assert forall k :: k in Keys(base') <==> k in Keys(base) || k == extra[0].0 by {
        if extra[0].0 !in Keys(base) {
          KeysAppend(base, [(extra[0].0, extra[0].1)]);
          assert Keys([(extra[0].0, extra[0].1)]) == [extra[0].0];
        }
      }
      forall k | k !in Keys(extra)
        ensures Lookup(r, k) == Lookup(base, k)
      {
        assert k != extra[0].0 && k !in Keys(extra[1..]);
      }
    }
  }

  /** When `extra` shares no key with `base` and has no repeated key, the
      spread appends its entries after those of `base`, in order. */
  lemma {:induction false} SpreadDisjoint(base: Config, extra: Config)
    requires UniqueKeys(extra)
    requires forall i :: 0 <= i < |extra| ==> extra[i].0 !in Keys(base)
    ensures Spread(base, extra) == base + extra
    decreases |extra|
  {
    if extra != [] {
      var base' := Put(base, extra[0].0, extra[0].1);
      assert base' == base + [extra[0]];
      forall i | 0 <= i < |extra[1..]|
        ensures extra[1..][i].0 !in Keys(base')
      {
        KeysAppend(base, [extra[0]]);
        assert extra[1..][i].0 != extra[0].0;
      }
      SpreadDisjoint(base', extra[1..]);
      assert base' + extra[1..] == base + extra;
    }
  }

  lemma {:induction false} KeysAppend(a: Config, b: Config)
    ensures Keys(a + b) == Keys(a) + Keys(b)
  {
    assert |Keys(a + b)| == |Keys(a) + Keys(b)|;
    forall i | 0 <= i < |a + b|
      ensures Keys(a + b)[i] == (Keys(a) + Keys(b))[i]
    {
    }
  }

  // ---------------------------------------------------------------------------
  // Quality presets (cat-config.js lines 1-16)
  // ---------------------------------------------------------------------------

  const FastPreset: Config :=
    [("RAYMARCH_STEPS", Scalar(48.0)), ("SHADOW_STEPS", Scalar(16.0)), ("TAIL_SDF_SAMPLES", Scalar(8.0))]

  const HighPreset: Config :=
    [("RAYMARCH_STEPS", Scalar(96.0)), ("SHADOW_STEPS", Scalar(32.0)), ("TAIL_SDF_SAMPLES", Scalar(16.0))]

  /** `QUALITY_PRESETS`, as a closed table. */
  const QualityPresets: map<string, Config> := map["fast" := FastPreset, "high" := HighPreset]

  /** The quality name: the query value, or "fast" when the parameter is
      missing or empty (`get("quality") || "fast"`). */
  function QualityName(query: Option<string>): (name: string)
    ensures name != ""
    ensures query.Some? && query.value != "" ==> name == query.value
    ensures query.None? || query == Some("") ==> name == "fast"
  {
    match query
    case None => "fast"
    case Some(q) => if q == "" then "fast" else q
  }

  /** `QUALITY_PRESETS[quality] || QUALITY_PRESETS.fast`. */
  function SelectPreset(query: Option<string>): (preset: Config)
    ensures preset == FastPreset || preset == HighPreset
    ensures preset == HighPreset <==> query == Some("high")
  {
    var name := QualityName(query);
    assert FastPreset[0] != HighPreset[0];
    if name in QualityPresets then QualityPresets[name] else QualityPresets["fast"]
  }

  /** The fourteen constants that do not depend on the quality preset, in the
      order of the object literal. */
  const FixedShader: Config := [
    ("CAM_TARGET", Vec([0.0, 0.05, 0.0])),
    ("CAM_FOCAL", Scalar(2.0)),
    ("LIGHT_POS", Vec([-2.0, 4.0, 4.0])),
    ("PAPER", Vec([0.941, 0.925, 0.894])),
    ("BODY_YAW", Scalar(-0.8)),
    ("STRIDE_PERIOD", Scalar(0.82)),
    ("INK", Vec([0.102, 0.102, 0.118])),
    ("HALFTONE_ANGLE", Scalar(0.26)),
    ("HALFTONE_DOT_MAX", Scalar(0.55)),
    ("TAIL_BLEND_K", Scalar(0.035)),
    ("TAIL_BASE_HOLD", Scalar(0.22)),
    ("TAIL_TAPER_EXP", Scalar(1.65)),
    ("TAIL_TIP_RADIUS_MUL", Scalar(0.96)),
    ("TAIL_TIP_ROUND_MUL", Scalar(1.1))
  ]

  /** `CAT_CONFIG.shader`: the fixed constants with the selected preset spread
      over them. The fixed keys come first, in their own order, and the keys
      are exactly the fixed ones and the preset's. */
  function Shader(query: Option<string>): (cfg: Config)
    ensures |cfg| >= |FixedShader| && Keys(cfg)[..|FixedShader|] == Keys(FixedShader)
    ensures forall k :: k in Keys(cfg) <==> k in Keys(FixedShader) || k in PresetKeys
  {
    PresetShape(SelectPreset(query));
    SpreadKeys(FixedShader, SelectPreset(query));
    Spread(FixedShader, SelectPreset(query))
  }

  const PresetKeys: seq<string> := ["RAYMARCH_STEPS", "SHADOW_STEPS", "TAIL_SDF_SAMPLES"]

  lemma PresetShape(preset: Config)
    requires preset == FastPreset || preset == HighPreset
    ensures Keys(preset) == PresetKeys
    ensures UniqueKeys(preset)
    ensures forall i :: 0 <= i < |preset| ==> preset[i].1.Scalar?
  {
  }

  lemma PresetKeysNotFixed()
    ensures forall i :: 0 <= i < |PresetKeys| ==> PresetKeys[i] !in Keys(FixedShader)
  {
    var fixedKeys := Keys(FixedShader);
    forall i, j | 0 <= i < 3 && 0 <= j < 14
      ensures PresetKeys[i] != fixedKeys[j]
    {
      assert PresetKeys[i][0] != fixedKeys[j][0] || PresetKeys[i][1] != fixedKeys[j][1]
        || PresetKeys[i][5] != fixedKeys[j][5];
    }
  }

  /** The preset keys collide with no fixed key, so the shader constants are
      the fourteen fixed entries followed by the three preset entries. */
  lemma ShaderEntryOrder(query: Option<string>)
    ensures Shader(query) == FixedShader + SelectPreset(query)
    ensures |Shader(query)| == 17
    ensures Keys(Shader(query))[14..] == PresetKeys
  {
    var preset := SelectPreset(query);
    PresetShape(preset);
    PresetKeysNotFixed();
    SpreadDisjoint(FixedShader, preset);
    KeysAppend(FixedShader, preset);
  }

  /** Lookup finds the first entry with the given key. */
  lemma {:induction false} LookupFirst(cfg: Config, i: nat)
    requires i < |cfg|
    requires forall j :: 0 <= j < i ==> cfg[j].0 != cfg[i].0
    ensures Lookup(cfg, cfg[i].0) == Some(cfg[i].1)
  {
    if i > 0 {
      LookupFirst(cfg[1..], i - 1);
    }
  }

  /** Whatever follows the fixed constants, the halftone angle is found
      among them. */
  lemma {:induction false} HalftoneAngleFixed(extra: Config)
    ensures Lookup(FixedShader + extra, "HALFTONE_ANGLE") == Some(Scalar(0.26))
  {
    var cfg := FixedShader + extra;
    forall j | 0 <= j < 7
      ensures cfg[j].0 != cfg[7].0
    {
      assert cfg[j] == FixedShader[j];
      assert FixedShader[j].0[0] != 'H';
    }
    LookupFirst(cfg, 7);
  }

  /** `HALFTONE_ANGLE` is present as a scalar whatever the quality. */
  lemma HalftoneAnglePresent(query: Option<string>)
    ensures Lookup(Shader(query), "HALFTONE_ANGLE") == Some(Scalar(0.26))
  {
    ShaderEntryOrder(query);
    HalftoneAngleFixed(SelectPreset(query));
  }

  // ---------------------------------------------------------------------------
  // Camera and animation constants (cat-config.js lines 39-62)
  // ---------------------------------------------------------------------------

  const ElevMin: real := -0.3
  const ElevMax: real := 1.2
  const DistMin: real := 0.6
  const DistMax: real := 5.0
  const DragSensitivity: real := 0.005
  const ZoomSensitivity: real := 0.001

  const BlendSeconds: real := 0.8
  const LickSeconds: real := 5.0
  const HeadTurnSpeed: real := 6.0
  const HeadTurnMax: real := 0.5

  /** `blockedTransitions`: OnBack can be entered and left only through
      Standing. */
  const BlockedTransitions: set<(Pose, Pose)> := {
    (5, 6), (6, 5),
    (5, 1), (1, 5),
    (5, 2), (2, 5),
    (5, 3), (3, 5),
    (5, 4), (4, 5)
  }

  predicate Blocked(src: Pose, dest: Pose) {
    (src, dest) in BlockedTransitions
  }

  /** The table blocks exactly the pairs made of OnBack and another pose other
      than Standing, in both directions. */
  lemma BlockedIff(a: Pose, b: Pose)
    ensures Blocked(a, b) <==>
      (a == OnBack && b in {Sit, Loaf, Stretch, Walk, UprightSit}) ||
      (b == OnBack && a in {Sit, Loaf, Stretch, Walk, UprightSit})
    ensures Blocked(a, b) <==> Blocked(b, a)
    ensures !Blocked(Standing, OnBack) && !Blocked(OnBack, Standing)
  {
  }

  /** With OnBack removed, every move between two poses is allowed. */
  lemma OthersUnblocked(a: Pose, b: Pose)
    requires a != OnBack && b != OnBack
    ensures !Blocked(a, b)
  {
  }

  /** The positivity and ordering facts the per-tick arithmetic relies on. */
  lemma ConstantsWellFormed()
    ensures BlendSeconds > 0.0 && LickSeconds > 0.0
    ensures ElevMin <= ElevMax && 0.0 < DistMin <= DistMax
    ensures DragSensitivity > 0.0 && ZoomSensitivity > 0.0
    ensures HeadTurnMax > 0.0 && HeadTurnSpeed > 0.0
  {
  }
}
