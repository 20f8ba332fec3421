# glslcat core in Dafny

The web page draws a cat with a raymarching fragment shader. It animates
the cat between seven poses in response to the keyboard, the pointer and
the wheel. This project models the part of the program that decides things:

- the configuration tables in `cat-config.js`:
  - the quality presets and how one is chosen;
  - the fixed shader constants and their key order;
  - the camera ranges and the animation constants;
  - the symmetric table of blocked pose transitions.
- the compiler from the shader configuration to GLSL declarations
  (`shaderConfigToGLSL`), and the splice that inserts them after the first
  `#endif` of the fragment source.
- the animation state made by `createState`, and everything that changes it:
  - `setPose`, the pose-request state machine;
  - the pointer, wheel, keydown and keyup handlers;
  - `updateSimulation`, which advances the blend, the lick and the head turn
    once per frame.

The modules follow the program's structure:

- `CatConfig` (`cat_config.dfy`) holds the pure configuration data, and
  object spread as `Spread`.
- `GlslCompiler` (`glsl_compiler.dfy`) holds the compiler, a method with a
  loop. It is proved equal to the function `Lines` joined with newlines.
  It also holds the `#endif` splice.
- `PoseMachine` (`pose_machine.dfy`) holds `clamp`, `POSE_KEYS`, and the
  pose request as a pure function over a `PoseState` value. It also holds
  the per-tick ramps, the smoothing step and the keydown decision.
- `Animation` (`animation_state.dfy`) holds the mutable state object as the
  class `AnimationState`. Its methods are the handlers and the simulation
  step. Each method's `ensures` ties the new fields to the functions of
  `PoseMachine`, and the methods keep the invariant `Valid()`:
  - blend and lick progress stay in [0, 1];
  - the camera stays inside its ranges;
  - the head offset stays within the largest turn;
  - the display mode stays in 0..2;
  - the pair (fromPose, toPose) is never a blocked transition.

Runtime services the model cannot see are parameters:

- The easing curve `1 - (1 - t)^2.5` is the function `ease`, given to the
  state when it is created.
- `Number.prototype.toFixed(5)`, the default number-to-string conversion,
  `Math.cos` and `Math.sin` are the four fields of a `Formatter`. The two
  formatting fields are only known to return text without a newline; the
  two trigonometric fields are arbitrary functions on the reals.
- Times come in as arguments: `nowMs` for `performance.now()`, and `dt` for
  the frame delta.

Two behaviours of the code that one might not expect are modelled as
written:

- A pointerdown while another pointer is dragging takes over the drag. The
  handler at main.js:199-205 does not check `dragging`.
- Values of the integer keys are printed with the default number
  conversion. They are not truncated; main.js:18-19 applies no rounding.

## Model

| member | source | states |
|---|---|---|
| CatConfig.QualityName | cat-config.js:14-15 | the chosen quality name is never empty; a non-empty `quality` parameter is used as given, and a missing or empty one gives "fast" |
| CatConfig.SelectPreset | cat-config.js:14-16 | the preset is always one of the two tables, and it is the high one exactly when the query asks for "high"; unknown or missing names fall back to fast |
| CatConfig.PresetShape | cat-config.js:1-12 | each preset defines exactly RAYMARCH_STEPS, SHADOW_STEPS and TAIL_SDF_SAMPLES, in that order and without repeats, all as scalars |
| CatConfig.Lookup | main.js:24 | a value found by a property read is one the object holds under that key |
| CatConfig.LookupNone | main.js:24 | a property read finds nothing exactly when no entry has the key |
| CatConfig.Put | cat-config.js:35 | defining a property keeps the key order when the key exists, and appends the new entry when it does not |
| CatConfig.PutLookup | cat-config.js:35 | defining a property makes it read back as the new value and leaves every other property's value alone |
| CatConfig.SpreadKeys | cat-config.js:35 | an object spread keeps the keys of the base object in their places, has exactly the keys of both objects, and keeps the base value of every key the spread object does not define |
| CatConfig.Shader | cat-config.js:20-36 | the shader object starts with the fixed keys in their literal order, and its keys are exactly the fixed ones and the preset ones |
| CatConfig.SpreadDisjoint | cat-config.js:20-36 | spreading entries whose keys are new onto an object appends them in order after the existing entries |
| CatConfig.ShaderEntryOrder | cat-config.js:20-36 | the shader object is the 14 fixed entries followed by the preset's three, 17 entries in all, with the preset keys last |
| CatConfig.HalftoneAnglePresent | cat-config.js:28 | whatever preset is chosen, looking up HALFTONE_ANGLE on the shader object yields the scalar 0.26 |
| CatConfig.BlockedIff | cat-config.js:50-61 | a transition is blocked exactly when it joins OnBack with Sit, Loaf, Stretch, Walk or UprightSit; the table is symmetric, and Standing to or from OnBack is allowed |
| CatConfig.OthersUnblocked | cat-config.js:48-61 | no transition between two poses that are not OnBack is blocked |
| CatConfig.ConstantsWellFormed | cat-config.js:39-64 | the elevation and distance ranges are non-empty, the distance range is positive, and every duration, speed and sensitivity is positive |
| GlslCompiler.DeclType | main.js:15-22 | an array of n numbers is declared `vecn`, a number under one of the integer keys `int`, and any other number `float` |
| GlslCompiler.Lines | main.js:13-26 | the compiler emits one line per configuration entry plus the two halftone lines |
| GlslCompiler.AngleCoercion | main.js:24-26 | the numeric coercion of HALFTONE_ANGLE: a number is itself, an empty array 0, a one-element array its element; a missing property or a longer array is NaN |
| GlslCompiler.HalftoneLineNewlineFree | main.js:25-26 | a halftone line contains no newline |
| GlslCompiler.LastLines | main.js:24-27 | the two lines after the entry lines are the HALFTONE_COS and HALFTONE_SIN lines, in that order |
| GlslCompiler.AngleHalftoneLines | main.js:24-26 | with a numeric HALFTONE_ANGLE x, the two halftone lines are those of x: HALFTONE_COS of cos x, then HALFTONE_SIN of sin x |
| GlslCompiler.HalftoneLineOfAngle | main.js:25-26 | the halftone line of a number x declares `const float NAME = ` followed by the five-decimal text of f(x) and `;` |
| GlslCompiler.HalftoneLineOfNaN | main.js:25-26 | the halftone line of NaN declares `const float NAME = NaN;` |
| GlslCompiler.CosineLineText | main.js:24-25 | with a numeric HALFTONE_ANGLE x, the line right after the entries is `const float HALFTONE_COS = ` followed by the five-decimal text of cos x and `;` |
| GlslCompiler.SineLineText | main.js:24-26 | with a numeric HALFTONE_ANGLE x, the second line after the entries is `const float HALFTONE_SIN = ` followed by the five-decimal text of sin x and `;` |
| GlslCompiler.HalftoneLinesMissing | main.js:24-26 | without a HALFTONE_ANGLE property the two lines after the entries are the halftone lines of NaN |
| GlslCompiler.ShaderHalftoneLines | main.js:24-26 | the compiled shader constants have 17 entries, and the lines at index 17 and 18 (the 18th and 19th) are the halftone lines of 0.26 (cosine, then sine), whatever the quality |
| GlslCompiler.ShaderConfigToGLSL | main.js:11-28 | the loop builds exactly the declaration lines joined with newlines, ending in a newline; when no key holds a newline, splitting the output at newlines gives back those lines |
| GlslCompiler.JoinTerminated | main.js:27 | joining the lines plus a final empty string with "\n" puts a newline after every line |
| GlslCompiler.SplitTerminatedInverse | main.js:27 | newline-terminated newline-free lines split back into the same lines |
| GlslCompiler.EntryLineAt | main.js:13-23 | the line at position i, for i below the number of entries, is the declaration of the i-th entry |
| GlslCompiler.VecEntryLine | main.js:15-17 | an array entry of length N becomes `const vecN NAME = vecN(a, b, ...);`, with the components in their default number text joined by ", " |
| GlslCompiler.IntEntryLine | main.js:18-19 | an integer-key entry becomes `const int NAME = v;` with the default number text |
| GlslCompiler.FloatEntryLine | main.js:20-21 | any other scalar entry becomes `const float NAME = v;` in fixed five-decimal form |
| GlslCompiler.IntKeysArePresetKeys | main.js:12 | the integer keys are exactly the keys the quality presets define |
| GlslCompiler.IntKeysEmittedAsInt | main.js:12-19 | in the compiled shader configuration, the three preset entries are the ones declared `int` |
| GlslCompiler.IndexOf | main.js:344 | the search finds the first occurrence of the pattern at or after the start, or reports that there is none |
| GlslCompiler.InjectConfig | main.js:344-351 | the splice fails with the missing-guard message exactly when the fragment has no `#endif`; otherwise it inserts a newline and the declarations right after the first `#endif` |
| GlslCompiler.InjectConfigRoundTrip | main.js:344-351 | removing the inserted text from a successful splice gives back the original fragment, and the declarations sit right after the first `#endif` |
| PoseMachine.Clamp | main.js:7 | the result lies in [lo, hi]; it is the value itself inside the range and the nearer bound outside it |
| PoseMachine.PoseKeysSkipWalk | main.js:8-9 | the six digit poses are distinct and leave out exactly Walk |
| PoseMachine.EffectiveSource | main.js:158-165 | a new blend starts from the target once the blend is done, and mid-blend from whichever endpoint the eased blend shows at least half of |
| PoseMachine.RequestPose | main.js:157-180 | a request for the current target, or for a pose blocked from the effective source, changes nothing; an accepted one starts a fresh blend from the effective source that is never a blocked pair, raises a lick below 0.60 to exactly 0.60 and keeps any other lick value, and re-anchors the walk cycle only for Walk |
| PoseMachine.StandingAlwaysAccepted | main.js:279-283 | Standing is accepted whenever it is not already the target |
| PoseMachine.OnBackOnlyViaStanding | main.js:166-168 | a settled OnBack refuses Sit, Loaf, Stretch, Walk and UprightSit and stays unchanged; it accepts Standing, and once that blend has settled every other pose is accepted |
| PoseMachine.OthersReachable | main.js:166-168 | once the blend has settled, between poses other than OnBack every request for a new target is accepted |
| PoseMachine.WalkReentryKeepsAnchor | main.js:166 | requesting Walk while Walk is already the target keeps the walk-cycle anchor |
| PoseMachine.TriggerLick | main.js:264-269 | the lick restarts at 0 exactly when the target is Sit or UprightSit, the blend is done and the previous lick is done; nothing else changes |
| PoseMachine.Ramp | main.js:292-301 | a progress value in [0, 1] never decreases and never passes 1 on a non-negative tick; a finished value stays put |
| PoseMachine.RampCompletes | main.js:292-296 | a tick at least as long as the remaining time finishes the blend or lick |
| PoseMachine.RampInProgress | main.js:297-301 | a shorter tick leaves progress strictly between its old value and 1 |
| PoseMachine.SitAndLickScenario | main.js:291-301 | from the initial state, Sit starts a blend from Standing that one blend duration completes; the lick then starts and is strictly under way half a lick duration later |
| PoseMachine.HeadTarget | main.js:302-303 | the head target is the largest turn when only ArrowRight is held, its negative when only ArrowLeft is held, and zero when both or neither are held |
| PoseMachine.SmoothingFactor | main.js:306 | the per-tick smoothing factor is at most 1, and non-negative for a non-negative tick |
| PoseMachine.Smooth | main.js:306 | with a factor in [0, 1], the smoothed head offset lies between the old offset and the target; it reaches the target at factor 1 and stays put at 0 |
| PoseMachine.SmoothStaysWithin | main.js:302-306 | smoothing keeps the head offset within any bound that contains both the old offset and the target |
| PoseMachine.ToLower | main.js:255 | lower-casing keeps the length, maps each upper-case ASCII letter to its lower-case letter, leaves every other character alone, and leaves no upper-case letter |
| PoseMachine.LexAtMost | main.js:256 | string `<=` holds exactly when the first string comes before the second or equals it |
| PoseMachine.LexTrichotomy | main.js:256 | the string order is strict and total: no string precedes itself, no two strings precede each other, and of two different strings one comes first |
| PoseMachine.DigitRange | main.js:255-256 | a key string lies between "1" and "6" in string order exactly when it starts with a digit 1 to 5, or is "6" |
| PoseMachine.DigitPose | main.js:255-257 | a key in the digit range selects the pose POSE_KEYS names for its first character, which is never Walk |
| PoseMachine.ReadKeyDown | main.js:243-252 | a key pressed with Ctrl, Meta or Alt does nothing; the walk starts exactly on a first ArrowUp; a selected pose is the digit's pose and never Walk |
| PoseMachine.KeyDownActions | main.js:253-270 | without modifiers, ArrowLeft and ArrowRight, and only they, turn the head; past the arrow tests a key in the digit range selects its pose, "d" in either case cycles the mode and "l" in either case asks for a lick, and only those keys do |
| PoseMachine.LetterKeys | main.js:255-264 | the capital letters D and L act as "d" and "l" |
| PoseMachine.DigitKey | main.js:255-257 | a one-character key between "1" and "6" selects the pose POSE_KEYS lists for it |
| PoseMachine.DigitKeys | main.js:255-257 | keys 1 to 6 select Standing, Sit, Loaf, Stretch, OnBack and UprightSit |
| PoseMachine.RepeatedArrowUp | main.js:248 | an ArrowUp while ArrowUp is already held does nothing |
| PoseMachine.LowerKeyAction | main.js:255-270 | on the lower-cased key: a key in the digit range selects its pose, "d" cycles the mode, "l" asks for a lick, and every other key does nothing |
| Animation.AnimationState.constructor | main.js:133-155 | the new state is settled in Standing, with no lick, the default camera framing, a centred head, no keys held and no drag, and it satisfies the state invariant |
| Animation.AnimationState.Start | main.js:365-366 | the clock origin becomes the given time and nothing else changes |
| Animation.AnimationState.SetPose | main.js:157-180 | the pose fields become the pose request's result on the old pose fields; the invariant is kept |
| Animation.AnimationState.UpdateSimulation | main.js:291-307 | blend and lick advance by their ramps and the head offset by one smoothing step; on a non-negative tick the invariant is kept, progress never decreases, and finished progress stays finished |
| Animation.AnimationState.PointerDown | main.js:199-205 | the pressed pointer starts a drag from its position, replacing any earlier drag |
| Animation.AnimationState.PointerMove | main.js:207-219 | moves of the dragging pointer turn the camera by the drag sensitivity and clamp the elevation; any other move changes nothing |
| Animation.AnimationState.EndDrag | main.js:221-228 | release or cancel by the dragging pointer ends the drag; by any other pointer it changes nothing |
| Animation.AnimationState.Wheel | main.js:230-241 | the camera distance scales by `1 + deltaY * 0.001` and is clamped into its range; nothing else changes |
| Animation.AnimationState.KeyDown | main.js:243-273 | each keydown decision is applied: ArrowUp holds the walk and requests Walk, the arrows set the head flags, digits request their pose, "d" cycles the mode and "l" triggers the lick; the invariant is kept and Walk is targeted only while ArrowUp is held |
| Animation.AnimationState.ApplyLowerKey | main.js:255-270 | the lower-cased key's action is applied: a digit requests its pose, "d" advances the mode modulo 3, "l" triggers the lick, any other key changes nothing; the invariant is kept |
| Animation.AnimationState.KeyUp | main.js:275-288 | releasing ArrowUp clears the flag and returns a walking cat to Standing; releasing an arrow clears its head flag; other keys change nothing |

## Left out

- WebGL setup, shader compilation and linking, the vertex buffer, uniform
  locations, `applyUniforms` and the draw call are rendering plumbing with
  no decision logic. That includes the camera position computed with
  `cos`/`sin` and the eased blend passed to the shader.
- Loading the fragment source by `fetch`, `showError`, canvas resizing and
  the `requestAnimationFrame` loop are I/O. The model takes the fragment text,
  the frame delta and `performance.now()` values as inputs.
- Of `init`, only the `#endif` splice and the clock start (`Start`) are
  modelled. The rest only wires the pieces together.
- The easing power curve is an uninterpreted parameter `ease`. The only fact
  used about it is how `setPose` compares its value with 0.5.
- `toFixed(5)` and the default number text are `Formatter` fields whose text
  is only known to be newline-free. `Math.cos` and `Math.sin` are `Formatter`
  fields too, arbitrary functions on the reals.
- Numbers are exact reals. IEEE rounding, NaN arising from arithmetic, and
  infinities are not modelled. The compiler prints NaN for the halftone lines
  in two cases, and both are modelled as the text "NaN": a HALFTONE_ANGLE
  array with more than one element, and a missing HALFTONE_ANGLE.
- `URLSearchParams` parsing is not modelled. The query arrives as an optional
  string, and the preset table is a closed map, so inherited object properties
  cannot be selected.
- `toLowerCase` is modelled on ASCII letters only.
- `addEventListener`, `setPointerCapture` and `preventDefault` are browser
  calls with no effect on the modelled state.
- Object property order is modelled as insertion order. JavaScript's rule
  that integer-like keys come first is not modelled, because no key in the
  configuration is integer-like.
- Animation.AnimationState.UpdateSimulation: the invariant and monotonicity
  are promised only for a non-negative `dt`. The source does not guard
  against a negative frame delta.
