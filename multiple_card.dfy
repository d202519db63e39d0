/**
 * One card of the multi-canvas page (src/pages/multiple/index.tsx): the
 * ref cells of `CardRender`, filled lazily behind presence checks, and the
 * three callbacks that talk to the shared registry. The mount effect paints
 * once through `InitRender`; mousedown registers an interactive entry with
 * `AddAnimation` and remembers its handle; mouseup hands that handle back
 * to `RemoveAnimation`.
 *
 * `CardRefs` and the step functions over it specify the callbacks together
 * with the registry state they act on; `CardRender` holds the refs in
 * fields that its methods update in place.
 */
module MultipleCard {
  import opened Wrappers
  import opened RenderTrace
  import opened GlobalRenderer

  /**
   * The refs of one card. The library objects it creates (canvas target,
   * scene, camera, orbit controls) are named by the card's own `id`;
   * `canvasPresent` is whether React has attached the canvas element.
   */
  datatype CardRefs = CardRefs(
    id: nat,
    canvasPresent: bool,                     // canvasRef.current
    canvasTarget: Option<CanvasTargetId>,    // canvasTargetRef.current
    scene: Option<SceneId>,                  // sceneRef.current
    camera: Option<CameraId>,                // cameraRef.current
    controls: Option<UpdatableId>,           // controlsRef.current
    storeKey: Option<int>)                   // storeKeyRef.current

  /** A freshly mounted card: every ref but the canvas is still null. */
  function Fresh(id: nat, canvasPresent: bool): CardRefs {
    CardRefs(id, canvasPresent, None, None, None, None, None)
  }

  /** Scene, camera and controls all exist. */
  predicate SceneReady(c: CardRefs) {
    c.scene.Some? && c.camera.Some? && c.controls.Some?
  }

  /** Lines 54-55 and 79-80: create the canvas target only when it is absent and the canvas exists. */
  function EnsureTarget(c: CardRefs): CardRefs {
    if c.canvasTarget.None? && c.canvasPresent then c.(canvasTarget := Some(c.id)) else c
  }

  /** `initializeScene` (lines 29-51): a new scene, camera and controls, all three at once. */
  function WithNewScene(c: CardRefs): CardRefs {
    c.(scene := Some(c.id), camera := Some(c.id), controls := Some(c.id))
  }

  /** Lines 60-61 and 85-86: rebuild the scene only when one of its three refs is missing. */
  function EnsureScene(c: CardRefs): CardRefs {
    if SceneReady(c) then c else WithNewScene(c)
  }

  /** The guard shared by both callbacks: the target, then (if there is one) the scene. */
  function Prepare(c: CardRefs): CardRefs {
    var c1 := EnsureTarget(c);
    if c1.canvasTarget.None? then c1 else EnsureScene(c1)
  }

  /** The callbacks get past their guards: a target and a complete scene exist. */
  predicate CanDraw(c: CardRefs) {
    c.canvasTarget.Some? && SceneReady(c)
  }

  /** The entry a callback hands to the registry. */
  function EntryOf(c: CardRefs, width: int, height: int, updatables: seq<UpdatableId>): Entry
    requires CanDraw(c)
  {
    Entry(c.canvasTarget.value, c.scene.value, c.camera.value, width, height, updatables)
  }

  /** The mount effect (lines 53-75): paint once through `InitRender`, with no updatables. */
  function Mount(c: CardRefs, s: RegistryState, width: int, height: int): (CardRefs, RegistryState) {
    var c1 := Prepare(c);
    if !CanDraw(c1) then (c1, s) else (c1, Request(s, EntryOf(c1, width, height, [])))
  }

  /** `onCanvasControl` (lines 77-107): register an entry updating the controls, remember its handle. */
  function Press(c: CardRefs, s: RegistryState, width: int, height: int): (CardRefs, RegistryState) {
    var c1 := Prepare(c);
    if !CanDraw(c1) then (c1, s)
    else (c1.(storeKey := Some(NextKey(s))), Add(s, EntryOf(c1, width, height, [c1.controls.value])))
  }

  /** The handle is truthy: recorded and not 0. */
  predicate Truthy(key: Option<int>) {
    key.Some? && key.value != 0
  }

  /** `offCanvasControl` (lines 109-111): release the recorded handle if truthy; the ref is kept. */
  function Release(c: CardRefs, s: RegistryState): (CardRefs, RegistryState) {
    if Truthy(c.storeKey) then (c, Remove(s, c.storeKey.value)) else (c, s)
  }

  /**
   * The guards build each object at most once: preparing again changes
   * nothing, an existing target is kept, and a complete scene is kept.
   */
  lemma RefsBuiltOnce(c: CardRefs)
    ensures Prepare(Prepare(c)) == Prepare(c)
    ensures c.canvasTarget.Some? ==> Prepare(c).canvasTarget == c.canvasTarget
    ensures SceneReady(c) ==>
      Prepare(c).scene == c.scene && Prepare(c).camera == c.camera && Prepare(c).controls == c.controls
    ensures Prepare(c).storeKey == c.storeKey
    ensures c.canvasPresent || c.canvasTarget.Some? ==> CanDraw(Prepare(c))
    ensures c.canvasTarget.None? && !c.canvasPresent ==> Prepare(c) == c
  {
  }

  /**
   * The mount effect never registers a loop entry: the store, the pool, the
   * counter and the loop are untouched, and what it paints has no updatables.
   */
  lemma MountOnlyRequests(c: CardRefs, s: RegistryState, width: int, height: int)
    ensures var (c', s') := Mount(c, s, width, height);
      && s'.store == s.store && s'.storeArr == s.storeArr
      && s'.keyPool == s.keyPool && s'.storeKey == s.storeKey
      && s'.loopRunning == s.loopRunning
      && c'.storeKey == c.storeKey
      && (c.canvasPresent || c.canvasTarget.Some? ==>
            CanDraw(c') && s' == Request(s, EntryOf(c', width, height, [])) &&
            EntryOf(c', width, height, []).updatables == [])
      && (c.canvasTarget.None? && !c.canvasPresent ==> s' == s)
  {
    RefsBuiltOnce(c);
  }

  /**
   * Mousedown on a card whose canvas exists registers an entry whose only
   * updatable is the card's controls, under the handle the registry issued,
   * and records that handle.
   */
  lemma PressRegisters(c: CardRefs, s: RegistryState, width: int, height: int)
    requires Inv(s)
    requires c.canvasPresent || c.canvasTarget.Some?
    ensures var (c', s') := Press(c, s, width, height);
      var key := NextKey(s);
      && c'.storeKey == Some(key)
      && key in s'.store
      && s'.store[key].updatables == [c'.controls.value]
      && s'.store[key].canvasTarget == c'.canvasTarget.value
      && s'.loopRunning
      && s' == Add(s, PressEntry(c, width, height))
  {
    PressReady(c, s, width, height);
  }

  /**
   * While only issued handles are released, a recorded handle is at least 1,
   * so mouseup always reaches `RemoveAnimation` after a mousedown.
   */
  lemma PressedReleaseRemoves(c: CardRefs, s: RegistryState, width: int, height: int)
    requires Inv(s) && IssuedOnly(s)
    requires c.canvasPresent || c.canvasTarget.Some?
    ensures var (c1, s1) := Press(c, s, width, height);
      && c1.storeKey.value >= 1
      && Release(c1, s1) == (c1, Remove(s1, NextKey(s)))
  {
    PressReady(c, s, width, height);
    AddIssued(s, PressEntry(c, width, height));
  }

  /** Mouseup leaves the refs alone; with no truthy handle it does nothing at all. */
  lemma ReleaseKeepsKey(c: CardRefs, s: RegistryState)
    ensures Release(c, s).0 == c
    ensures !Truthy(c.storeKey) ==> Release(c, s).1 == s
    ensures Truthy(c.storeKey) ==> Release(c, s).1.keyPool == s.keyPool + [c.storeKey.value]
  {
  }

  /**
   * A second mouseup releases the same handle again: the pool then holds it
   * twice, on top.
   */
  lemma RepeatedReleaseFreesTwice(c: CardRefs, s: RegistryState)
    requires Truthy(c.storeKey)
    ensures var (c1, s1) := Release(c, s);
      var (c2, s2) := Release(c1, s1);
      && c2 == c
      && s2.keyPool == s.keyPool + [c.storeKey.value, c.storeKey.value]
      && NextKey(s2) == c.storeKey.value
  {
    var k := c.storeKey.value;
    assert s.keyPool + [k] + [k] == s.keyPool + [k, k];
  }

  /** The entry a mousedown registers: the card's target, scene and camera, updating its controls. */
  function PressEntry(c: CardRefs, width: int, height: int): Entry
    requires c.canvasPresent || c.canvasTarget.Some?
  {
    RefsBuiltOnce(c);
    EntryOf(Prepare(c), width, height, [Prepare(c).controls.value])
  }

  lemma PressReady(c: CardRefs, s: RegistryState, width: int, height: int)
    requires c.canvasPresent || c.canvasTarget.Some?
    ensures Press(c, s, width, height) ==
      (Prepare(c).(storeKey := Some(NextKey(s))), Add(s, PressEntry(c, width, height)))
  {
    RefsBuiltOnce(c);
  }

  /**
   * Two cards end up sharing one handle: card A releases its handle twice,
   * then cards B and C press. Both record A's handle, and the registry holds
   * only C's entry under it.
   */
  lemma DuplicateHandleScenario(a: CardRefs, b: CardRefs, c: CardRefs, s: RegistryState,
                                width: int, height: int)
    requires Truthy(a.storeKey)
    requires b.canvasPresent || b.canvasTarget.Some?
    requires c.canvasPresent || c.canvasTarget.Some?
    ensures var (a1, s1) := Release(a, s);
      var (a2, s2) := Release(a1, s1);
      var (b3, s3) := Press(b, s2, width, height);
      var (c4, s4) := Press(c, s3, width, height);
      var k := a.storeKey.value;
      && b3.storeKey == Some(k) && c4.storeKey == Some(k)
      && k in s4.store
      && s4.store[k] == PressEntry(c, width, height)
      && s4.keyPool == s.keyPool
  {
    var k := a.storeKey.value;
    var s2 := Remove(Remove(s, k), k);
    assert Release(Release(a, s).0, Release(a, s).1) == (a, s2);
    var eb := PressEntry(b, width, height);
    var ec := PressEntry(c, width, height);
    DoubleRemoveReissues(s, k, eb);
    DoubleRemoveOverwrites(s, k, eb, ec);
    DoubleRemoveRestoresPool(s, k, eb, ec);
    PressReady(b, s2, width, height);
    PressReady(c, Add(s2, eb), width, height);
  }

  /** Two mousedowns on a registry with an empty pool take two fresh handles in turn. */
  lemma TwoPresses(c: CardRefs, s: RegistryState, width: int, height: int)
    requires Inv(s) && s.keyPool == []
    requires c.canvasPresent || c.canvasTarget.Some?
    ensures var e := PressEntry(c, width, height);
      var r1 := Press(c, s, width, height);
      var r2 := Press(r1.0, r1.1, width, height);
      && r1.0 == Prepare(c).(storeKey := Some(s.storeKey))
      && r2.0 == Prepare(c).(storeKey := Some(s.storeKey + 1))
      && r2.1 == Add(Add(s, e), e)
      && r2.1.store == s.store[s.storeKey := e][s.storeKey + 1 := e]
      && r2.1.loopRunning
  {
    var e := PressEntry(c, width, height);
    PressReady(c, s, width, height);
    var c1 := Prepare(c).(storeKey := Some(s.storeKey));
    var s1 := Add(s, e);
    FreshKey(s, e);
    AddInv(s, e);
    RefsBuiltOnce(c);
    assert Prepare(c1) == c1 && PressEntry(c1, width, height) == e;
    PressReady(c1, s1, width, height);
    AddInv(s1, e);
  }

  /**
   * Two mousedowns without a mouseup: each records the handle the registry
   * issues next, so the second overwrites the first, and both register the
   * card's entry.
   */
  lemma TwoPressesRecord(c: CardRefs, s: RegistryState, width: int, height: int)
    requires c.canvasPresent || c.canvasTarget.Some?
    ensures var e := PressEntry(c, width, height);
      var r1 := Press(c, s, width, height);
      var r2 := Press(r1.0, r1.1, width, height);
      && r1.0.storeKey == Some(NextKey(s))
      && r2.0 == Prepare(c).(storeKey := Some(NextKey(Add(s, e))))
      && r2.1 == Add(Add(s, e), e)
  {
    var e := PressEntry(c, width, height);
    PressReady(c, s, width, height);
    var c1 := Prepare(c).(storeKey := Some(NextKey(s)));
    RefsBuiltOnce(c);
    assert Prepare(c1) == c1 && PressEntry(c1, width, height) == e;
    PressReady(c1, Add(s, e), width, height);
  }

  /**
   * The mouseup after two mousedowns, from any registry: it releases only
   * the second handle `k2`. The first handle `k1` stays registered, and the
   * loop keeps running, exactly when the two handles differ; they coincide
   * when the pool held one handle twice on top. A handle 0 is not truthy,
   * so then nothing is released.
   */
  lemma SecondPressReleasesOnlySecond(c: CardRefs, s: RegistryState, width: int, height: int)
    requires Inv(s)
    requires c.canvasPresent || c.canvasTarget.Some?
    ensures var e := PressEntry(c, width, height);
      var k1, k2 := NextKey(s), NextKey(Add(s, e));
      var r1 := Press(c, s, width, height);
      var r2 := Press(r1.0, r1.1, width, height);
      var r3 := Release(r2.0, r2.1);
      && r1.0.storeKey == Some(k1)
      && r3.0.storeKey == Some(k2)
      && (k2 != 0 ==> r3.1.store == s.store[k1 := e][k2 := e] - {k2})
      && (k2 != 0 ==> k2 !in r3.1.store)
      && (k2 != 0 ==> (k1 in r3.1.store && r3.1.loopRunning <==> k1 != k2))
      && (k2 == 0 ==> r3.1 == r2.1)
  {
    var e := PressEntry(c, width, height);
    TwoPressesRecord(c, s, width, height);
    var r1 := Press(c, s, width, height);
    var r2 := Press(r1.0, r1.1, width, height);
    ReleaseSecondAdd(s, e, r2.0);
  }

  /** Releasing the handle of the second of two adds of `e`. */
  lemma ReleaseSecondAdd(s: RegistryState, e: Entry, c: CardRefs)
    requires Inv(s) && c.storeKey == Some(NextKey(Add(s, e)))
    ensures var k1, k2 := NextKey(s), NextKey(Add(s, e));
      var r := Release(c, Add(Add(s, e), e));
      && r.0 == c
      && (k2 != 0 ==> r.1.store == s.store[k1 := e][k2 := e] - {k2})
      && (k2 != 0 ==> k2 !in r.1.store)
      && (k2 != 0 ==> (k1 in r.1.store && r.1.loopRunning <==> k1 != k2))
      && (k2 == 0 ==> r.1 == Add(Add(s, e), e))
  {
    var k1, k2 := NextKey(s), NextKey(Add(s, e));
    var s1 := Add(s, e);
    AddKeepsLoop(s, e);
    AddKeepsLoop(s1, e);
    var s2 := Add(s1, e);
    assert s2.store == s.store[k1 := e][k2 := e] && s2.loopRunning;
    if k2 != 0 {
      RemoveParts(s2, k2);
      if k1 != k2 {
        RemoveSecond(s.store, k1, k2, e);
      }
    }
  }

  /** An add on a registry whose loop runs iff its store is non-empty stores under `NextKey` and leaves the loop running. */
  lemma AddKeepsLoop(s: RegistryState, e: Entry)
    requires s.loopRunning == (|s.store| > 0)
    ensures Add(s, e).store == s.store[NextKey(s) := e]
    ensures Add(s, e).loopRunning
  {
  }

  /** What `Remove` does to the store and the loop flag. */
  lemma RemoveParts(s: RegistryState, key: int)
    ensures Remove(s, key).store == s.store - {key}
    ensures Remove(s, key).loopRunning == (s.loopRunning && |s.store - {key}| > 0)
  {
  }

  /**
   * The case of an empty pool: the two handles are fresh and distinct, so
   * the mouseup releases only the second entry and the first leaks, keeping
   * the loop running.
   */
  lemma SecondPressLeaks(c: CardRefs, s: RegistryState, width: int, height: int)
    requires Inv(s) && s.keyPool == []
    requires c.canvasPresent || c.canvasTarget.Some?
    ensures var r1 := Press(c, s, width, height);
      var r2 := Press(r1.0, r1.1, width, height);
      var r3 := Release(r2.0, r2.1);
      && r1.0.storeKey == Some(s.storeKey)
      && r3.0.storeKey == Some(s.storeKey + 1)
      && s.storeKey in r3.1.store
      && s.storeKey + 1 !in r3.1.store
      && r3.1.loopRunning
  {
    var e := PressEntry(c, width, height);
    var r1 := Press(c, s, width, height);
    var r2 := Press(r1.0, r1.1, width, height);
    var r3 := Release(r2.0, r2.1);
    FreshKey(s, e);
    var k1, k2 := s.storeKey, s.storeKey + 1;
    assert NextKey(s) == k1 && NextKey(Add(s, e)) == k2 != 0;
    SecondPressReleasesOnlySecond(c, s, width, height);
    assert k1 in r3.1.store && r3.1.loopRunning;
  }

  lemma RemoveSecond(m: map<int, Entry>, k1: int, k2: int, e: Entry)
    requires k1 != k2
    ensures var m' := m[k1 := e][k2 := e] - {k2};
      k1 in m' && k2 !in m' && |m'| > 0
  {
    var m' := m[k1 := e][k2 := e] - {k2};
    assert k1 in m';
    assert m' != map[];
  }

  /** `CardRender`: the ref cells of one card, talking to the shared registry. */
  class CardRender {
    const id: nat
    const canvasPresent: bool
    const registry: RenderRegistry
    var canvasTarget: Option<CanvasTargetId>
    var scene: Option<SceneId>
    var camera: Option<CameraId>
    var controls: Option<UpdatableId>
    var storeKey: Option<int>

    function Refs(): CardRefs
      reads this
    {
      CardRefs(id, canvasPresent, canvasTarget, scene, camera, controls, storeKey)
    }

    /** The refs as `useRef` initialises them (lines 21-27). */
    constructor (id: nat, canvasPresent: bool, registry: RenderRegistry)
      ensures Refs() == Fresh(id, canvasPresent)
      ensures this.registry == registry
    {
      this.id := id;
      this.canvasPresent := canvasPresent;
      this.registry := registry;
      canvasTarget, scene, camera, controls, storeKey := None, None, None, None, None;
    }

    method InitializeScene()
      modifies this
      ensures Refs() == WithNewScene(old(Refs()))
    {
      scene := Some(id);
      camera := Some(id);
      controls := Some(id);
    }

    /** Both callbacks' guards: build the target and the scene if missing; false if there is no target. */
    method PrepareRefs() returns (ready: bool)
      modifies this
      ensures Refs() == Prepare(old(Refs()))
      ensures ready == CanDraw(Refs())
    {
      if canvasTarget.None? && canvasPresent {
        canvasTarget := Some(id);
      }
      if canvasTarget.None? {
        return false;
      }
      if scene.None? || camera.None? || controls.None? {
        InitializeScene();
      }
      ready := scene.Some? && camera.Some? && controls.Some?;
    }

    /** The mount effect; `width` and `height` are the wrapper's measured size. */
    method MountEffect(width: int, height: int)
      requires registry.Valid()
      modifies this, registry
      ensures registry.Valid()
      ensures (Refs(), registry.State()) == Mount(old(Refs()), old(registry.State()), width, height)
    {
      var ready := PrepareRefs();
      if !ready {
        return;
      }
      registry.InitRender(Entry(canvasTarget.value, scene.value, camera.value, width, height, []));
    }

    /** Mousedown. */
    method OnCanvasControl(width: int, height: int)
      requires registry.Valid()
      modifies this, registry
      ensures registry.Valid()
      ensures (Refs(), registry.State()) == Press(old(Refs()), old(registry.State()), width, height)
    {
      var ready := PrepareRefs();
      if !ready {
        return;
      }
      var updatables := [controls.value];
      var key := registry.AddAnimation(Entry(canvasTarget.value, scene.value, camera.value, width, height, updatables));
      storeKey := Some(key);
    }

    /** Mouseup. */
    method OffCanvasControl()
      requires registry.Valid()
      modifies registry
      ensures registry.Valid()
      ensures (Refs(), registry.State()) == Release(old(Refs()), old(registry.State()))
    {
      if storeKey.Some? && storeKey.value != 0 {
        registry.RemoveAnimation(storeKey.value);
      }
    }
  }
}
