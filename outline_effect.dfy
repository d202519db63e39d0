/**
 * The flags and the update gate of `OutlineEffect`
 * (src/pages/post-process/outline-pass.ts): the X_RAY, USE_PATTERN and ALPHA
 * shader defines, the named uniforms and the error `getUniform` raises when
 * one is missing, the blur and multisampling accessors, and `update`, which
 * runs its internal passes only while it is forced or something is selected
 * and restores the scene background and the camera layer mask it changes
 * for them.
 *
 * `EffectState` and the functions over it specify each operation;
 * `OutlineEffect` holds the same state in fields that its methods update in
 * place, and `Scene` and `Camera` hold the two properties `update` borrows.
 * The passes themselves are recorded as events carrying what they saw.
 */
module Outline {
  import opened Wrappers

  type ObjectId = nat
  type BackgroundId = nat

  /** The textures the effect refers to: its two render targets', and images. */
  datatype Texture = MaskBuffer | EdgeBuffer | Image(id: nat)

  /** What a uniform holds. */
  datatype UniformValue =
    | NoTexture
    | TextureValue(texture: Texture)
    | Scalar(x: real)
    | ColorValue(hex: nat)

  /** The blend functions this file tells apart; `Normal` is the library default. */
  datatype BlendFunction = Normal | Screen | Alpha | OtherBlend(code: nat)

  /** One render of an internal pass, with the scene and camera state it saw. */
  datatype PassEvent =
    | DepthRender(background: Option<BackgroundId>, selectionVisible: bool)
    | MaskRender(background: Option<BackgroundId>, layerMask: int)
    | OutlineRender(background: Option<BackgroundId>, layerMask: int)
    | BlurRender

  /** The options the constructor reads; resolution and kernel size are not modelled. */
  datatype Options = Options(
    blendFunction: BlendFunction,
    patternTexture: Option<Texture>,
    patternScale: real,
    edgeStrength: real,
    pulseSpeed: real,
    visibleEdgeColor: nat,
    hiddenEdgeColor: nat,
    blur: bool,
    xRay: bool,
    multisampling: int)

  /** The defaults of lines 88-98. */
  function DefaultOptions(): Options {
    Options(Screen, None, 1.0, 1.0, 0.0, 0xffffff, 0x22090a, false, true, 0)
  }

  /** The layer `Selection` uses unless told otherwise. */
  const DEFAULT_SELECTION_LAYER: nat := 10

  /** The shader defines this file sets; each is set to "1". */
  datatype Define = X_RAY | USE_PATTERN | ALPHA

  /** The eight uniforms the constructor installs. */
  datatype UniformName =
    | MaskTexture | EdgeTexture | EdgeStrength | VisibleEdgeColor
    | HiddenEdgeColor | Pulse | PatternScale | PatternTexture

  /** The key under which the source stores each uniform. */
  function Key(n: UniformName): string {
    match n
    case MaskTexture => "maskTexture"
    case EdgeTexture => "edgeTexture"
    case EdgeStrength => "edgeStrength"
    case VisibleEdgeColor => "visibleEdgeColor"
    case HiddenEdgeColor => "hiddenEdgeColor"
    case Pulse => "pulse"
    case PatternScale => "patternScale"
    case PatternTexture => "patternTexture"
  }

  /** The state `update` borrows from the main scene and camera. */
  datatype SceneView = SceneView(
    background: Option<BackgroundId>,     // `scene.background`
    layerMask: int)                       // `camera.layers.mask`

  /** The effect's own state. */
  datatype EffectState = EffectState(
    defines: set<Define>,                 // keys of `defines`
    changed: nat,                         // `setChanged` notifications so far
    vertexShader: bool,                   // the pattern vertex shader is installed
    uniforms: map<UniformName, UniformValue>,
    blendFunction: BlendFunction,         // `blendMode.blendFunction`
    blurEnabled: bool,                    // `blurPass.enabled`
    samples: int,                         // `renderTargetMask.samples`
    maskDisposals: nat,                   // `renderTargetMask.dispose()` calls
    time: real,
    forceUpdate: bool,
    pulseSpeed: real,
    selection: set<ObjectId>,
    selectionLayer: nat,
    selectionVisible: bool,
    passes: seq<PassEvent>)

  /** `getUniform`, lines 69-75: the uniform, or the error it throws. */
  function GetUniform(uniforms: map<UniformName, UniformValue>, name: UniformName): (r: Result<UniformValue, string>)
    ensures r.Ok? <==> name in uniforms
    ensures r.Ok? ==> r.value == uniforms[name]
    ensures r.Err? ==> r.error == "Uniform " + Key(name) + " is missing"
  {
    if name in uniforms then Ok(uniforms[name]) else Err("Uniform " + Key(name) + " is missing")
  }

  /** The uniform map handed to the base effect, lines 107-116. */
  function InitialUniforms(o: Options): map<UniformName, UniformValue> {
    map[MaskTexture := NoTexture,
        EdgeTexture := NoTexture,
        EdgeStrength := Scalar(o.edgeStrength),
        VisibleEdgeColor := ColorValue(o.visibleEdgeColor),
        HiddenEdgeColor := ColorValue(o.hiddenEdgeColor),
        Pulse := Scalar(1.0),
        PatternScale := Scalar(o.patternScale),
        PatternTexture := NoTexture]
  }

  /** Every uniform is installed. */
  lemma InitialUniformsComplete(o: Options)
    ensures forall n: UniformName :: n in InitialUniforms(o)
  {
    forall n: UniformName
      ensures n in InitialUniforms(o)
    {
      match n
      case MaskTexture =>
      case EdgeTexture =>
      case EdgeStrength =>
      case VisibleEdgeColor =>
      case HiddenEdgeColor =>
      case Pulse =>
      case PatternScale =>
      case PatternTexture =>
    }
  }

  /** The `xRay` getter, lines 389-391. */
  function XRay(s: EffectState): bool {
    X_RAY in s.defines
  }

  /** The `xRay` setter, lines 393-403: nothing happens when the value is already set. */
  function WithXRay(s: EffectState, value: bool): EffectState {
    if XRay(s) != value then
      s.(defines := if value then s.defines + {X_RAY} else s.defines - {X_RAY},
         changed := s.changed + 1)
    else s
  }

  /** The `patternTexture` setter, lines 430-442; it throws if the uniform is gone. */
  function WithPatternTexture(s: EffectState, value: Option<Texture>): Result<EffectState, string> {
    var s1 := if value.Some? then s.(defines := s.defines + {USE_PATTERN}, vertexShader := true)
              else s.(defines := s.defines - {USE_PATTERN}, vertexShader := false);
    match GetUniform(s1.uniforms, PatternTexture)
    case Err(e) => Err(e)
    case Ok(_) =>
      var u := if value.Some? then TextureValue(value.value) else NoTexture;
      Ok(s1.(uniforms := s1.uniforms[PatternTexture := u], changed := s1.changed + 1))
  }

  /** The blend-mode change listener, lines 119-127. */
  function BlendChanged(s: EffectState): EffectState {
    s.(defines := if s.blendFunction == Alpha then s.defines + {ALPHA} else s.defines - {ALPHA},
       changed := s.changed + 1)
  }

  /** Assigning `blendMode.blendFunction`, which fires the listener. */
  function WithBlendFunction(s: EffectState, f: BlendFunction): EffectState {
    BlendChanged(s.(blendFunction := f))
  }

  /** The `blur` getter, lines 378-380. */
  function Blur(s: EffectState): bool {
    s.blurEnabled
  }

  /** The `blur` setter, lines 382-384. */
  function WithBlur(s: EffectState, value: bool): EffectState {
    s.(blurEnabled := value)
  }

  /** The `multisampling` getter, lines 219-221. */
  function Multisampling(s: EffectState): int {
    s.samples
  }

  /** The `multisampling` setter, lines 223-226: the mask target is disposed. */
  function WithMultisampling(s: EffectState, value: int): EffectState {
    s.(samples := value, maskDisposals := s.maskDisposals + 1)
  }

  /** `2^n`. */
  function Pow2(n: nat): nat {
    if n == 0 then 1 else 2 * Pow2(n - 1)
  }

  /** The mask `camera.layers.set(channel)` leaves: only that channel, taken modulo 32. */
  function LayerBit(channel: nat): int {
    Pow2(channel % 32)
  }

  /** Whether `update` runs its passes, line 531. */
  predicate Renders(s: EffectState) {
    s.forceUpdate || |s.selection| > 0
  }

  /**
   * The pulse of lines 533-538. `cosine` is the value of `Math.cos` at
   * `time * pulseSpeed * 10`.
   */
  function PulseAt(pulseSpeed: real, cosine: real): real {
    if pulseSpeed > 0.0 then cosine * 0.375 + 0.625 else 1.0
  }

  /** The passes a rendering `update` runs, lines 542-560. */
  function UpdatePasses(s: EffectState, view: SceneView): seq<PassEvent> {
    [DepthRender(None, false),
     MaskRender(None, LayerBit(s.selectionLayer)),
     OutlineRender(view.background, view.layerMask)]
    + (if s.blurEnabled then [BlurRender] else [])
  }

  /** The rendering branch of `update`, lines 532-560. */
  function RenderStep(s: EffectState, view: SceneView, deltaTime: real, cosine: real): EffectState {
    s.(uniforms := s.uniforms[Pulse := Scalar(PulseAt(s.pulseSpeed, cosine))],
       time := s.time + deltaTime,
       selectionVisible := true,
       passes := s.passes + UpdatePasses(s, view))
  }

  /** `update`, lines 518-564; it throws if the pulse uniform is gone. */
  function Updated(s: EffectState, view: SceneView, deltaTime: real, cosine: real): Result<EffectState, string> {
    match GetUniform(s.uniforms, Pulse)
    case Err(e) => Err(e)
    case Ok(_) =>
      var s1 := if Renders(s) then RenderStep(s, view, deltaTime, cosine) else s;
      Ok(s1.(forceUpdate := |s.selection| > 0))
  }

  /** The state before line 119: the base effect with its uniforms and no defines. */
  function BaseState(o: Options): EffectState {
    EffectState({}, 0, false, InitialUniforms(o), Normal, false, 0, 0, 0.0, false, 0.0,
                {}, DEFAULT_SELECTION_LAYER, true, [])
  }

  /** Lines 129-131: the blend function, pattern texture and X-ray mode from the options. */
  function Configured(o: Options): EffectState {
    var s1 := WithBlendFunction(BaseState(o), o.blendFunction);
    var r2 := WithPatternTexture(s1, o.patternTexture);
    assert r2.Ok?;
    WithXRay(r2.value, o.xRay)
  }

  /** Lines 137-186: the render targets' textures and the remaining fields. */
  function Completed(s: EffectState, o: Options): EffectState {
    s.(samples := o.multisampling,
       uniforms := s.uniforms[MaskTexture := TextureValue(MaskBuffer)]
                             [EdgeTexture := TextureValue(EdgeBuffer)],
       blurEnabled := o.blur,
       time := 0.0,
       forceUpdate := true,
       pulseSpeed := o.pulseSpeed)
  }

  /** The constructor, lines 84-187, on a scene and camera with the given state. */
  function Construct(o: Options): EffectState {
    Completed(Configured(o), o)
  }

  /**
   * What every operation keeps: the named uniforms are present, ALPHA is
   * defined exactly for the alpha blend function, and USE_PATTERN exactly
   * when the vertex shader is installed and the pattern uniform holds a texture.
   */
  ghost predicate Inv(s: EffectState) {
    && (forall n: UniformName :: n in s.uniforms)
    && (ALPHA in s.defines <==> s.blendFunction == Alpha)
    && (USE_PATTERN in s.defines <==> s.vertexShader)
    && (USE_PATTERN in s.defines <==> s.uniforms[PatternTexture].TextureValue?)
  }

  /** The operations of the effect a caller can perform. */
  datatype Op =
    | BlendChange(f: BlendFunction)
    | PatternChange(texture: Option<Texture>)
    | XRayChange(xRay: bool)
    | BlurChange(blur: bool)
    | SamplesChange(samples: int)
    | SelectionChange(objects: set<ObjectId>)
    | SelectOne(obj: ObjectId)
    | DeselectOne(obj: ObjectId)
    | ClearSelection
    | Tick(deltaTime: real, cosine: real, view: SceneView)

  function Apply(s: EffectState, op: Op): Result<EffectState, string> {
    match op
    case BlendChange(f) => Ok(WithBlendFunction(s, f))
    case PatternChange(t) => WithPatternTexture(s, t)
    case XRayChange(v) => Ok(WithXRay(s, v))
    case BlurChange(v) => Ok(WithBlur(s, v))
    case SamplesChange(n) => Ok(WithMultisampling(s, n))
    case SelectionChange(objects) => Ok(s.(selection := objects))
    case SelectOne(o) => Ok(s.(selection := s.selection + {o}))
    case DeselectOne(o) => Ok(s.(selection := s.selection - {o}))
    case ClearSelection => Ok(s.(selection := {}))
    case Tick(dt, c, v) => Updated(s, v, dt, c)
  }

  /** A sequence of operations; the first error ends it. */
  function Run(s: EffectState, ops: seq<Op>): Result<EffectState, string>
    decreases |ops|
  {
    if ops == [] then Ok(s)
    else match Apply(s, ops[0])
      case Err(e) => Err(e)
      case Ok(t) => Run(t, ops[1..])
  }

  // ---------------------------------------------------------------------
  // Properties of the specification
  // ---------------------------------------------------------------------

  /** After setting `xRay` the getter returns the value; a notification only on a change. */
  lemma XRayAccessor(s: EffectState, value: bool)
    ensures XRay(WithXRay(s, value)) == value
    ensures WithXRay(s, value).changed == s.changed + (if XRay(s) != value then 1 else 0)
    ensures WithXRay(s, value).defines - {X_RAY} == s.defines - {X_RAY}
    ensures WithXRay(WithXRay(s, value), value) == WithXRay(s, value)
  {
  }

  /** Setting a pattern texture defines USE_PATTERN and installs the vertex shader; null undoes both. */
  lemma PatternAccessor(s: EffectState, value: Option<Texture>)
    requires PatternTexture in s.uniforms
    ensures WithPatternTexture(s, value).Ok?
    ensures var t := WithPatternTexture(s, value).value;
      && (USE_PATTERN in t.defines <==> value.Some?)
      && (t.vertexShader <==> value.Some?)
      && GetUniform(t.uniforms, PatternTexture) == Ok(if value.Some? then TextureValue(value.value) else NoTexture)
      && t.changed == s.changed + 1
      && t.defines - {USE_PATTERN} == s.defines - {USE_PATTERN}
  {
  }

  /** The pattern setter throws exactly when its uniform is missing. */
  lemma PatternMissingUniform(s: EffectState, value: Option<Texture>)
    ensures WithPatternTexture(s, value).Err? <==> PatternTexture !in s.uniforms
    ensures WithPatternTexture(s, value).Err? ==>
      WithPatternTexture(s, value).error == "Uniform patternTexture is missing"
  {
  }

  /** After a blend change, ALPHA is defined exactly for the alpha blend function. */
  lemma BlendListener(s: EffectState, f: BlendFunction)
    ensures var t := WithBlendFunction(s, f);
      && (ALPHA in t.defines <==> f == Alpha)
      && t.defines - {ALPHA} == s.defines - {ALPHA}
      && t.changed == s.changed + 1
      && t.blendFunction == f
  {
  }

  /** The blur accessor reads back what was written, and decides whether the blur pass runs. */
  lemma BlurAccessor(s: EffectState, value: bool, view: SceneView, deltaTime: real, cosine: real)
    requires Pulse in s.uniforms && Renders(s)
    ensures Blur(WithBlur(s, value)) == value
    ensures var t := Updated(WithBlur(s, value), view, deltaTime, cosine);
      t.Ok? && (BlurRender in t.value.passes[|s.passes|..] <==> value)
  {
    var s1 := WithBlur(s, value);
    var t := Updated(s1, view, deltaTime, cosine).value;
    assert t.passes[|s.passes|..] == UpdatePasses(s1, view);
  }

  /** The multisampling accessor reads back what was written, and disposes the mask target. */
  lemma MultisamplingAccessor(s: EffectState, value: int)
    ensures Multisampling(WithMultisampling(s, value)) == value
    ensures WithMultisampling(s, value).maskDisposals == s.maskDisposals + 1
    ensures WithMultisampling(s, value).defines == s.defines
  {
  }

  /**
   * The gate of `update`: passes run exactly when forced or something is
   * selected; otherwise nothing changes at all. Either way `forceUpdate`
   * ends up telling whether the selection is non-empty.
   */
  lemma UpdateGate(s: EffectState, view: SceneView, deltaTime: real, cosine: real)
    requires Pulse in s.uniforms
    ensures Updated(s, view, deltaTime, cosine).Ok?
    ensures var t := Updated(s, view, deltaTime, cosine).value;
      && t.forceUpdate == (|s.selection| > 0)
      && (|t.passes| > |s.passes| <==> Renders(s))
      && (Renders(s) ==> t.time == s.time + deltaTime && t.selectionVisible)
      && (!Renders(s) ==> t == s)
  {
  }

  /**
   * What the passes of a rendering update see: the depth pass runs with no
   * background and the selection hidden, the mask pass with no background
   * and only the selection layer, and the outline pass with the background
   * and mask restored to what they were when `update` began.
   */
  lemma UpdatePassesSee(s: EffectState, view: SceneView, deltaTime: real, cosine: real)
    requires Pulse in s.uniforms && Renders(s)
    ensures var t := Updated(s, view, deltaTime, cosine).value;
      && t.selectionVisible
      && |t.passes| == |s.passes| + (if s.blurEnabled then 4 else 3)
      && t.passes[..|s.passes|] == s.passes
      && t.passes[|s.passes|] == DepthRender(None, false)
      && t.passes[|s.passes| + 1] == MaskRender(None, LayerBit(s.selectionLayer))
      && t.passes[|s.passes| + 2] == OutlineRender(view.background, view.layerMask)
      && (s.blurEnabled ==> t.passes[|s.passes| + 3] == BlurRender)
  {
  }

  /** The pulse is 1 unless the pulse speed is positive, and always within [0.25, 1]. */
  lemma UpdatePulse(s: EffectState, view: SceneView, deltaTime: real, cosine: real)
    requires Pulse in s.uniforms && Renders(s)
    requires -1.0 <= cosine <= 1.0
    ensures var t := Updated(s, view, deltaTime, cosine).value;
      && Pulse in t.uniforms && t.uniforms[Pulse].Scalar?
      && (s.pulseSpeed <= 0.0 ==> t.uniforms[Pulse].x == 1.0)
      && 0.25 <= t.uniforms[Pulse].x <= 1.0
  {
  }

  /** After one update, the next renders exactly when something is selected. */
  lemma UpdateSettles(s: EffectState, view: SceneView, dt1: real, c1: real)
    requires Pulse in s.uniforms
    ensures Updated(s, view, dt1, c1).Ok?
    ensures Renders(Updated(s, view, dt1, c1).value) <==> |s.selection| > 0
  {
  }

  /** Construction: the defines follow the options, and the first update is forced. */
  lemma ConstructFlags(o: Options)
    ensures var s := Construct(o);
      && Inv(s)
      && XRay(s) == o.xRay
      && (USE_PATTERN in s.defines <==> o.patternTexture.Some?)
      && (ALPHA in s.defines <==> o.blendFunction == Alpha)
      && s.defines <= {X_RAY, USE_PATTERN, ALPHA}
      && s.changed == (if o.xRay then 3 else 2)
      && s.time == 0.0
      && Renders(s)
      && s.uniforms[Pulse] == Scalar(1.0)
      && Blur(s) == o.blur
      && Multisampling(s) == o.multisampling
  {
    InitialUniformsComplete(o);
    var s1 := WithBlendFunction(BaseState(o), o.blendFunction);
    PatternAccessor(s1, o.patternTexture);
    var s2 := WithPatternTexture(s1, o.patternTexture).value;
    XRayAccessor(s2, o.xRay);
  }

  /**
   * The first update after construction renders, and its pulse is 1: the
   * time is still 0, so `Math.cos` is taken at 0 and gives 1.
   */
  lemma FirstUpdatePulse(o: Options, view: SceneView, deltaTime: real)
    ensures var r := Updated(Construct(o), view, deltaTime, 1.0);
      && r.Ok?
      && r.value.uniforms[Pulse] == Scalar(1.0)
      && r.value.time == deltaTime
      && r.value.passes == Construct(o).passes + UpdatePasses(Construct(o), view)
  {
    ConstructFlags(o);
  }

  /** With the default options: X_RAY alone is defined and no pattern is set. */
  lemma DefaultConstruction()
    ensures var s := Construct(DefaultOptions());
      && s.defines == {X_RAY}
      && s.uniforms[PatternTexture] == NoTexture
      && !s.vertexShader
      && s.blendFunction == Screen
      && !Blur(s) && Multisampling(s) == 0
      && s.pulseSpeed == 0.0
  {
    ConstructFlags(DefaultOptions());
  }

  /** Every operation succeeds on, and keeps, the invariant. */
  lemma ApplyInv(s: EffectState, op: Op)
    requires Inv(s)
    ensures Apply(s, op).Ok? && Inv(Apply(s, op).value)
  {
    match op
    case PatternChange(t) => PatternAccessor(s, t);
    case Tick(dt, c, v) => UpdateGate(s, v, dt, c);
    case _ =>
  }

  /** The invariant holds after any sequence of operations, which never fails. */
  lemma {:induction false} RunInv(s: EffectState, ops: seq<Op>)
    requires Inv(s)
    ensures Run(s, ops).Ok? && Inv(Run(s, ops).value)
    decreases |ops|
  {
    if ops != [] {
      ApplyInv(s, ops[0]);
      RunInv(Apply(s, ops[0]).value, ops[1..]);
    }
  }

  /** The named uniforms are never missing, whatever the effect has been through. */
  lemma NamedUniformsNeverMissing(o: Options, ops: seq<Op>, name: UniformName)
    ensures Run(Construct(o), ops).Ok?
    ensures GetUniform(Run(Construct(o), ops).value.uniforms, name).Ok?
  {
    ConstructFlags(o);
    RunInv(Construct(o), ops);
  }

  // ---------------------------------------------------------------------
  // The objects
  // ---------------------------------------------------------------------

  /** The main scene; only its background is modelled. */
  class Scene {
    var background: Option<BackgroundId>

    constructor (background: Option<BackgroundId>)
      ensures this.background == background
    {
      this.background := background;
    }
  }

  /** The main camera; only its layer mask is modelled. */
  class Camera {
    var layerMask: int

    constructor (layerMask: int)
      ensures this.layerMask == layerMask
    {
      this.layerMask := layerMask;
    }
  }

  class OutlineEffect {
    const scene: Scene
    const camera: Camera
    var defines: set<Define>
    var changed: nat
    var vertexShader: bool
    var uniforms: map<UniformName, UniformValue>
    var blendFunction: BlendFunction
    var blurEnabled: bool
    var samples: int
    var maskDisposals: nat
    var time: real
    var forceUpdate: bool
    var pulseSpeed: real
    var selection: set<ObjectId>
    var selectionLayer: nat
    var selectionVisible: bool
    var passes: seq<PassEvent>

    function State(): EffectState
      reads this
    {
      EffectState(defines, changed, vertexShader, uniforms, blendFunction, blurEnabled,
                  samples, maskDisposals, time, forceUpdate, pulseSpeed, selection,
                  selectionLayer, selectionVisible, passes)
    }

    /** What `update` borrows from the scene and the camera. */
    function View(): SceneView
      reads scene, camera
    {
      SceneView(scene.background, camera.layerMask)
    }

    ghost predicate Valid()
      reads this
    {
      Inv(State())
    }

    /** Lines 84-187. */
    constructor (scene: Scene, camera: Camera, o: Options)
      ensures this.scene == scene && this.camera == camera
      ensures Valid() && State() == Construct(o)
    {
      this.scene, this.camera := scene, camera;
      defines, changed, vertexShader := {}, 0, false;
      uniforms := InitialUniforms(o);
      blendFunction, blurEnabled, samples, maskDisposals := Normal, false, 0, 0;
      time, forceUpdate, pulseSpeed := 0.0, false, 0.0;
      selection, selectionLayer, selectionVisible := {}, DEFAULT_SELECTION_LAYER, true;
      passes := [];
      new;
      ghost var s0 := State();
      assert s0 == BaseState(o);
      SetBlendFunction(o.blendFunction);
      ghost var s1 := State();
      SetPatternTexture(o.patternTexture);
      ghost var s2 := State();
      assert s2 == WithPatternTexture(s1, o.patternTexture).value;
      SetXRay(o.xRay);
      assert State() == Configured(o);
      Complete(o);
      ConstructFlags(o);
    }

    /** Lines 136-186, after the setters have run. */
    method Complete(o: Options)
      modifies this
      ensures State() == Completed(old(State()), o)
    {
      samples := o.multisampling;
      uniforms := uniforms[MaskTexture := TextureValue(MaskBuffer)][EdgeTexture := TextureValue(EdgeBuffer)];
      blurEnabled, time, forceUpdate, pulseSpeed := o.blur, 0.0, true, o.pulseSpeed;
    }

    /** The listener of lines 119-127. */
    method OnBlendChange()
      modifies this
      ensures State() == BlendChanged(old(State()))
    {
      if blendFunction == Alpha {
        defines := defines + {ALPHA};
      } else {
        defines := defines - {ALPHA};
      }
      changed := changed + 1;
    }

    /** Line 129: the assignment fires the change listener. */
    method SetBlendFunction(f: BlendFunction)
      modifies this
      ensures State() == WithBlendFunction(old(State()), f)
    {
      blendFunction := f;
      OnBlendChange();
    }

    /** Lines 393-403. */
    method SetXRay(value: bool)
      modifies this
      ensures State() == WithXRay(old(State()), value)
    {
      if XRay(State()) != value {
        if value {
          defines := defines + {X_RAY};
        } else {
          defines := defines - {X_RAY};
        }
        changed := changed + 1;
      }
    }

    /** Lines 430-442, on an effect whose pattern uniform is installed. */
    method SetPatternTexture(value: Option<Texture>)
      requires PatternTexture in uniforms
      modifies this
      ensures WithPatternTexture(old(State()), value).Ok?
      ensures State() == WithPatternTexture(old(State()), value).value
    {
      if value.Some? {
        defines := defines + {USE_PATTERN};
        vertexShader := true;
      } else {
        defines := defines - {USE_PATTERN};
        vertexShader := false;
      }
      uniforms := uniforms[PatternTexture := if value.Some? then TextureValue(value.value) else NoTexture];
      changed := changed + 1;
    }

    /** Lines 382-384. */
    method SetBlur(value: bool)
      modifies this
      ensures State() == WithBlur(old(State()), value)
    {
      blurEnabled := value;
    }

    /** Lines 223-226. */
    method SetMultisampling(value: int)
      modifies this
      ensures State() == WithMultisampling(old(State()), value)
    {
      samples := value;
      maskDisposals := maskDisposals + 1;
    }

    /** `setSelection`, lines 476-479: the selection becomes exactly `objects`. */
    method SetSelection(objects: set<ObjectId>)
      modifies this
      ensures State() == old(State()).(selection := objects)
    {
      selection := objects;
    }

    /** `clearSelection`, lines 486-489. */
    method ClearSelection()
      modifies this
      ensures State() == old(State()).(selection := {})
    {
      selection := {};
    }

    /** `selectObject`, lines 496-499. */
    method SelectObject(obj: ObjectId)
      modifies this
      ensures State() == old(State()).(selection := old(selection) + {obj})
    {
      selection := selection + {obj};
    }

    /** `deselectObject`, lines 506-509. */
    method DeselectObject(obj: ObjectId)
      modifies this
      ensures State() == old(State()).(selection := old(selection) - {obj})
    {
      selection := selection - {obj};
    }

    /** Lines 533-540: the pulse uniform and the clock. */
    method AdvancePulse(deltaTime: real, cosine: real)
      modifies this
      ensures State() == old(State()).(uniforms := old(uniforms)[Pulse := Scalar(PulseAt(pulseSpeed, cosine))],
                                       time := old(time) + deltaTime)
    {
      uniforms := uniforms[Pulse := Scalar(1.0)];
      if pulseSpeed > 0.0 {
        uniforms := uniforms[Pulse := Scalar(cosine * 0.375 + 0.625)];
      }
      time := time + deltaTime;
    }

    /** Lines 542-544: the depth pass renders with the selection hidden. */
    method RenderDepthPass()
      modifies this
      ensures State() == old(State()).(selectionVisible := true,
                                       passes := old(passes) + [DepthRender(scene.background, false)])
    {
      selectionVisible := false;
      passes := passes + [DepthRender(scene.background, selectionVisible)];
      selectionVisible := true;
    }

    /** Lines 546-549: the mask pass renders the selection layer alone; the mask is restored. */
    method RenderMaskPass()
      modifies this, camera
      ensures State() == old(State()).(passes := old(passes) + [MaskRender(scene.background, LayerBit(selectionLayer))])
      ensures camera.layerMask == old(camera.layerMask)
    {
      var mask := camera.layerMask;
      camera.layerMask := LayerBit(selectionLayer);
      passes := passes + [MaskRender(scene.background, camera.layerMask)];
      camera.layerMask := mask;
    }

    /** Lines 532-560: the passes, with the background lent to the first two and restored. */
    method RenderPasses(deltaTime: real, cosine: real)
      modifies this, scene, camera
      ensures State() == RenderStep(old(State()), old(View()), deltaTime, cosine)
      ensures View() == old(View())
    {
      var background := scene.background;
      scene.background := None;
      AdvancePulse(deltaTime, cosine);
      RenderDepthPass();
      RenderMaskPass();
      scene.background := background;
      passes := passes + [OutlineRender(scene.background, camera.layerMask)];
      if blurEnabled {
        passes := passes + [BlurRender];
      }
    }

    /** Lines 518-564; `cosine` is the value of `Math.cos` the pulse needs. */
    method Update(deltaTime: real, cosine: real)
      requires Valid()
      modifies this, scene, camera
      ensures Valid()
      ensures Updated(old(State()), old(View()), deltaTime, cosine).Ok?
      ensures State() == Updated(old(State()), old(View()), deltaTime, cosine).value
      ensures View() == old(View())
    {
      ghost var s0 := State();
      if forceUpdate || |selection| > 0 {
        RenderPasses(deltaTime, cosine);
      }
      forceUpdate := |selection| > 0;
      UpdateGate(s0, View(), deltaTime, cosine);
      ApplyInv(s0, Tick(deltaTime, cosine, View()));
    }
  }
}
