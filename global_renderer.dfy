/**
 * The shared multi-canvas render registry of src/lib/globalRenderer.ts: one
 * WebGPU renderer, a handle-keyed store of entries with its materialised
 * snapshot, a LIFO pool of released handles, a FIFO queue of renders
 * requested before initialisation, and the animation loop that runs while
 * the store is non-empty.
 *
 * `RegistryState` and the functions over it specify each operation;
 * `RenderRegistry` holds the same state in fields that its methods update
 * in place, as the module-level variables of the source are.
 */
module GlobalRenderer {
  import opened KeyOrder
  import opened RenderTrace

  /** The module-level state, plus the renderer's side of it. */
  datatype RegistryState = RegistryState(
    store: map<int, Entry>,       // `store`
    storeArr: seq<Entry>,         // `storeArr`
    keyPool: seq<int>,            // `keyPool`, top of the stack last
    storeKey: int,                // `storeKey`, the next fresh handle
    initWaitings: seq<Entry>,     // `initWaitings`, oldest first
    initialized: bool,            // the module's `initialized`
    rendererInitialized: bool,    // `renderer.initialized`
    loopRunning: bool,            // an animation loop is installed
    trace: seq<Event>)            // calls made on the renderer so far

  /** The state when the module has been loaded. */
  function Initial(): RegistryState {
    RegistryState(map[], [], [], 1, [], false, false, false, [])
  }

  /** The handle `AddAnimation` issues: the last released one, else a fresh one. */
  function NextKey(s: RegistryState): int {
    if |s.keyPool| > 0 then s.keyPool[|s.keyPool| - 1] else s.storeKey
  }

  /** Taking the handle `NextKey(s)`: pop the pool, or advance the counter. */
  function TakeKey(s: RegistryState): RegistryState {
    if |s.keyPool| > 0 then s.(keyPool := s.keyPool[..|s.keyPool| - 1])
    else s.(storeKey := s.storeKey + 1)
  }

  /** Lines 45-47: the first entry installs the animation loop. */
  function StartLoop(s: RegistryState): RegistryState {
    if |s.store| == 0 then s.(loopRunning := true) else s
  }

  /** Lines 49-60: take a handle, store the entry under it, rebuild the snapshot. */
  function Insert(s: RegistryState, e: Entry): RegistryState {
    var store := s.store[NextKey(s) := e];
    TakeKey(s).(store := store, storeArr := ObjectValues(store))
  }

  /** `AddAnimation(e)`; the handle it returns is `NextKey(s)`. */
  function Add(s: RegistryState, e: Entry): RegistryState {
    Insert(StartLoop(s), e)
  }

  /** Lines 66-67: delete the handle, unchecked, and push it into the pool. */
  function DeleteKey(s: RegistryState, key: int): RegistryState {
    s.(store := s.store - {key}, keyPool := s.keyPool + [key])
  }

  /** Lines 69-71: the loop is uninstalled once the store is empty. */
  function StopLoop(s: RegistryState): RegistryState {
    if |s.store| == 0 then s.(loopRunning := false) else s
  }

  /** `RemoveAnimation(key)`: no check that `key` is live. */
  function Remove(s: RegistryState, key: int): RegistryState {
    var t := StopLoop(DeleteKey(s, key));
    t.(storeArr := ObjectValues(t.store))
  }

  /** `GlobalRender(e)`. */
  function Draw(s: RegistryState, e: Entry): RegistryState {
    s.(trace := s.trace + GlobalRenderEvents(s.initialized, e))
  }

  /** `InitRender(e)`: draw now if initialised, otherwise queue. */
  function Request(s: RegistryState, e: Entry): RegistryState {
    if s.initialized then Draw(s, e) else s.(initWaitings := s.initWaitings + [e])
  }

  /** The renderer's own `init()` finishing: `renderer.initialized` becomes true. */
  function RendererReady(s: RegistryState): RegistryState {
    s.(rendererInitialized := true)
  }

  /** The `renderer.init().then(...)` callback: set the flag, then drain the queue. */
  function Resolve(s: RegistryState): RegistryState {
    s.(initialized := true, trace := s.trace + FlushEvents(s.initWaitings), initWaitings := [])
  }

  /** One call of `AnimationLoop`. */
  function Tick(s: RegistryState): RegistryState {
    if !s.rendererInitialized then s
    else s.(trace := s.trace + FrameEvents(s.initialized, s.storeArr))
  }

  /** A display refresh: the renderer calls the installed loop, if any. */
  function Refresh(s: RegistryState): RegistryState {
    if s.loopRunning then Tick(s) else s
  }

  /**
   * What holds after every operation, whatever keys are removed: the snapshot
   * is the store in ascending key order, the loop runs exactly while the store
   * is non-empty, the fresh counter is positive, nothing waits once
   * initialised, and the renderer has seen only complete draws.
   */
  ghost predicate Inv(s: RegistryState) {
    && s.storeArr == ObjectValues(s.store)
    && s.loopRunning == (|s.store| > 0)
    && s.storeKey >= 1
    && (s.initialized ==> s.initWaitings == [])
    && WellOrdered(s.trace)
  }

  /**
   * Every handle in the store or the pool was issued by the counter: holds as
   * long as only issued handles are passed to `RemoveAnimation`.
   */
  ghost predicate IssuedOnly(s: RegistryState) {
    && (forall k :: k in s.keyPool ==> 1 <= k < s.storeKey)
    && (forall k :: k in s.store ==> 1 <= k < s.storeKey)
  }

  /** The operations a caller, the renderer or the display can perform. */
  datatype Op =
    | AddOp(e: Entry)
    | RemoveOp(key: int)
    | RequestOp(e: Entry)
    | RendererReadyOp
    | ResolveOp
    | FrameOp

  function Step(s: RegistryState, op: Op): RegistryState {
    match op
    case AddOp(e) => Add(s, e)
    case RemoveOp(k) => Remove(s, k)
    case RequestOp(e) => Request(s, e)
    case RendererReadyOp => RendererReady(s)
    case ResolveOp => Resolve(s)
    case FrameOp => Refresh(s)
  }

  function Run(s: RegistryState, ops: seq<Op>): RegistryState
    decreases |ops|
  {
    if ops == [] then s else Run(Step(s, ops[0]), ops[1..])
  }

  lemma InitialInv()
    ensures Inv(Initial()) && IssuedOnly(Initial())
  {
    var empty: map<int, Entry> := map[];
    assert |ObjectValues(empty)| == 0;
  }

  lemma AddInv(s: RegistryState, e: Entry)
    requires Inv(s)
    ensures Inv(Add(s, e))
  {
  }

  lemma RemoveInv(s: RegistryState, key: int)
    requires Inv(s)
    ensures Inv(Remove(s, key))
  {
  }

  lemma RequestInv(s: RegistryState, e: Entry)
    requires Inv(s)
    ensures Inv(Request(s, e))
  {
    if s.initialized {
      DrawEventsWellOrdered(e);
      WellOrderedConcat(s.trace, DrawEvents(e));
    }
  }

  lemma ResolveInv(s: RegistryState)
    requires Inv(s)
    ensures Inv(Resolve(s))
  {
    FlushEventsWellOrdered(s.initWaitings);
    WellOrderedConcat(s.trace, FlushEvents(s.initWaitings));
  }

  lemma TickInv(s: RegistryState)
    requires Inv(s)
    ensures Inv(Tick(s))
  {
    if s.rendererInitialized {
      FrameEventsWellOrdered(s.initialized, s.storeArr);
      WellOrderedConcat(s.trace, FrameEvents(s.initialized, s.storeArr));
    }
  }

  lemma StepInv(s: RegistryState, op: Op)
    requires Inv(s)
    ensures Inv(Step(s, op))
  {
    match op
    case AddOp(e) => AddInv(s, e);
    case RemoveOp(k) => RemoveInv(s, k);
    case RequestOp(e) => RequestInv(s, e);
    case RendererReadyOp =>
    case ResolveOp => ResolveInv(s);
    case FrameOp => TickInv(s);
  }

  /**
   * For every sequence of operations, including removals of unknown or
   * already released handles, the loop runs iff the store is non-empty and
   * the snapshot is the store in ascending key order.
   */
  lemma {:induction false} RunInv(s: RegistryState, ops: seq<Op>)
    requires Inv(s)
    ensures Inv(Run(s, ops))
    ensures Run(s, ops).loopRunning <==> |Run(s, ops).store| > 0
    ensures Run(s, ops).storeArr == ObjectValues(Run(s, ops).store)
    decreases |ops|
  {
    if ops != [] {
      StepInv(s, ops[0]);
      RunInv(Step(s, ops[0]), ops[1..]);
    }
  }

  /**
   * While only issued handles are removed, every handle issued is positive
   * and below the counter: handle 0 is never issued.
   */
  lemma AddIssued(s: RegistryState, e: Entry)
    requires Inv(s) && IssuedOnly(s)
    ensures 1 <= NextKey(s) < Add(s, e).storeKey
    ensures IssuedOnly(Add(s, e))
  {
    var key := NextKey(s);
    var s' := Add(s, e);
    if |s.keyPool| > 0 {
      assert key in s.keyPool;
      forall k | k in s'.keyPool ensures 1 <= k < s'.storeKey {
        assert k in s.keyPool;
      }
    }
    forall k | k in s'.store ensures 1 <= k < s'.storeKey {
      if k != key { assert k in s.store; }
    }
  }

  lemma RemoveIssued(s: RegistryState, key: int)
    requires IssuedOnly(s) && 1 <= key < s.storeKey
    ensures IssuedOnly(Remove(s, key))
  {
  }

  /** With an empty pool the counter supplies the handle and moves on by one. */
  lemma FreshKey(s: RegistryState, e: Entry)
    requires Inv(s) && s.keyPool == []
    ensures NextKey(s) == s.storeKey >= 1
    ensures Add(s, e).storeKey == s.storeKey + 1 && Add(s, e).keyPool == []
  {
  }

  /** Adding to a fresh registry `n` times issues handles 1..n and lists entries in that order. */
  function AddAll(s: RegistryState, es: seq<Entry>): RegistryState
    decreases |es|
  {
    if es == [] then s else Add(AddAll(s, es[..|es| - 1]), es[|es| - 1])
  }

  /**
   * `s` is what adding `es` to a fresh registry leaves: handles 1..|es| hold
   * `es` in order, the snapshot is `es`, the pool is empty.
   */
  ghost predicate FilledWith(s: RegistryState, es: seq<Entry>) {
    && s.storeKey == |es| + 1
    && s.keyPool == []
    && HoldsInOrder(s.store, es)
    && s.storeArr == es == ObjectValues(s.store)
    && s.loopRunning == (|es| > 0)
  }

  /** The map part of `FilledWith`: handles 1..|es| map to `es`, and no others are present. */
  ghost predicate HoldsInOrder(m: map<int, Entry>, es: seq<Entry>) {
    && (forall k :: k in m ==> 1 <= k <= |es|)
    && (forall k :: 1 <= k <= |es| ==> k in m && m[k] == es[k - 1])
  }

  lemma FilledMapAdd(m: map<int, Entry>, es: seq<Entry>, e: Entry)
    requires HoldsInOrder(m, es)
    ensures HoldsInOrder(m[|es| + 1 := e], es + [e])
  {
    var n := |es| + 1;
    var m' := m[n := e];
    forall k | k in m' ensures 1 <= k <= n {
      if k != n { assert k in m; }
    }
    forall k | 1 <= k <= n ensures k in m' && m'[k] == (es + [e])[k - 1] {
      if k < n { assert k in m; }
    }
  }

  lemma AddFilled(s: RegistryState, es: seq<Entry>, e: Entry)
    requires FilledWith(s, es)
    ensures NextKey(s) == |es| + 1
    ensures FilledWith(Add(s, e), es + [e])
  {
    var n := |es| + 1;
    ObjectValuesAppend(s.store, n, e);
    FilledMapAdd(s.store, es, e);
  }

  lemma SplitLast<T>(s: seq<T>)
    requires |s| > 0
    ensures s[..|s| - 1] + [s[|s| - 1]] == s
  {
  }

  lemma {:induction false} AddAllFromInitial(es: seq<Entry>)
    ensures FilledWith(AddAll(Initial(), es), es)
    decreases |es|
  {
    if es == [] {
      InitialInv();
    } else {
      var es' := es[..|es| - 1];
      AddAllFromInitial(es');
      AddFilled(AddAll(Initial(), es'), es', es[|es| - 1]);
      SplitLast(es);
    }
  }

  /** A released handle is the next one issued, and the pool shrinks back (LIFO). */
  lemma LifoReuse(s: RegistryState, key: int, e: Entry)
    ensures NextKey(Remove(s, key)) == key
    ensures Add(Remove(s, key), e).keyPool == s.keyPool
    ensures Add(Remove(s, key), e).storeKey == s.storeKey
    ensures Add(Remove(s, key), e).store == s.store[key := e]
  {
    AddPopped(Remove(s, key), s.keyPool, key, e);
    RemoveThenPut(s.store, key, e);
  }

  lemma RemoveThenPut(m: map<int, Entry>, key: int, e: Entry)
    ensures (m - {key})[key := e] == m[key := e]
  {
  }

  /**
   * Removing a handle that is not live is not a no-op: the store is unchanged
   * but the handle is pushed into the pool all the same.
   */
  lemma RemoveUnknown(s: RegistryState, key: int)
    requires Inv(s) && key !in s.store
    ensures Remove(s, key).store == s.store
    ensures Remove(s, key).loopRunning == s.loopRunning
    ensures Remove(s, key).keyPool == s.keyPool + [key]
  {
    assert s.store - {key} == s.store;
  }

  /**
   * Removing the same handle twice makes the next two `AddAnimation` calls
   * both return it; the second entry overwrites the first.
   */
  lemma DoubleRemoveReissues(s: RegistryState, key: int, e1: Entry)
    ensures var s2 := Remove(Remove(s, key), key);
      && NextKey(s2) == key
      && NextKey(Add(s2, e1)) == key
  {
    var s2 := Remove(Remove(s, key), key);
    RemoveTwice(s, key);
    AddParts(s2, e1);
    assert (s.keyPool + [key, key])[..|s.keyPool| + 1] == s.keyPool + [key];
  }

  /** After the double release and the two adds, the handle holds the second entry only. */
  lemma DoubleRemoveOverwrites(s: RegistryState, key: int, e1: Entry, e2: Entry)
    ensures Add(Add(Remove(Remove(s, key), key), e1), e2).store == (s.store - {key})[key := e2]
  {
    var s2 := Remove(Remove(s, key), key);
    RemoveTwice(s, key);
    AddPopped(s2, s.keyPool + [key], key, e1);
    var a := Add(s2, e1);
    AddPopped(a, s.keyPool, key, e2);
    Overwrite(s.store - {key}, key, e1, e2);
  }

  lemma Overwrite(m: map<int, Entry>, key: int, e1: Entry, e2: Entry)
    ensures m[key := e1][key := e2] == m[key := e2]
  {
  }

  /** After the double release and the two adds, the pool is as it was. */
  lemma DoubleRemoveRestoresPool(s: RegistryState, key: int, e1: Entry, e2: Entry)
    ensures Add(Add(Remove(Remove(s, key), key), e1), e2).keyPool == s.keyPool
  {
    var s2 := Remove(Remove(s, key), key);
    RemoveTwice(s, key);
    AddPopped(s2, s.keyPool + [key], key, e1);
    AddPopped(Add(s2, e1), s.keyPool, key, e2);
  }

  /** Adding when `key` is on top of the pool stores under `key` and pops it. */
  lemma AddPopped(s: RegistryState, rest: seq<int>, key: int, e: Entry)
    requires s.keyPool == rest + [key]
    ensures NextKey(s) == key
    ensures Add(s, e).store == s.store[key := e]
    ensures Add(s, e).keyPool == rest
    ensures Add(s, e).storeKey == s.storeKey
  {
    assert (rest + [key])[..|rest|] == rest;
  }

  /** Removing a handle twice pushes it twice and removes it from the store. */
  lemma RemoveTwice(s: RegistryState, key: int)
    ensures Remove(Remove(s, key), key).keyPool == s.keyPool + [key, key]
    ensures Remove(Remove(s, key), key).store == s.store - {key}
  {
    assert s.keyPool + [key] + [key] == s.keyPool + [key, key];
    RemoveIdempotent(s.store, key);
  }

  lemma RemoveIdempotent(m: map<int, Entry>, key: int)
    ensures m - {key} - {key} == m - {key}
  {
  }

  /** What `Add` does to the store and the pool. */
  lemma AddParts(s: RegistryState, e: Entry)
    ensures Add(s, e).store == s.store[NextKey(s) := e]
    ensures Add(s, e).keyPool == (if |s.keyPool| > 0 then s.keyPool[..|s.keyPool| - 1] else [])
  {
  }

  /** Two adds on a fresh registry issue handles 1 and 2. */
  lemma TwoAdds(a: Entry, b: Entry)
    ensures NextKey(Initial()) == 1 && NextKey(Add(Initial(), a)) == 2
    ensures var s2 := Add(Add(Initial(), a), b);
      s2.store == map[1 := a, 2 := b] && s2.keyPool == [] && s2.loopRunning
  {
  }

  /** The snapshot of a store holding handles 1 and 2 lists handle 1's entry first. */
  lemma ValuesOfTwo(x: Entry, y: Entry)
    ensures ObjectValues(map[1 := x, 2 := y]) == [x, y]
  {
    var m := map[1 := x, 2 := y];
    assert m.Keys == {1, 2};
    KeysOfTwo();
    ObjectValuesByKey(m);
    assert Lookup(m, [1, 2]) == [x, y];
  }

  lemma KeysOfTwo()
    ensures SortedKeys({1, 2}) == [1, 2]
  {
    assert (set k | k in [1, 2]) == {1, 2};
    SortedKeysOfSorted([1, 2]);
  }

  /**
   * The snapshot is in key order, not insertion order: add A (1) and B (2),
   * release 1, add C (reuses 1), and C is drawn before B.
   */
  lemma ReusedHandleDrawnFirst(a: Entry, b: Entry, c: Entry)
    ensures var s1 := Add(Initial(), a);
      var s2 := Add(s1, b);
      var s3 := Remove(s2, 1);
      var s4 := Add(s3, c);
      && NextKey(Initial()) == 1 && NextKey(s1) == 2 && NextKey(s3) == 1
      && s3.keyPool == [1] && s3.loopRunning
      && s4.store == map[1 := c, 2 := b]
      && s4.storeArr == [c, b]
      && s4.keyPool == []
  {
    TwoAdds(a, b);
    var s2 := Add(Add(Initial(), a), b);
    var s3 := Remove(s2, 1);
    assert s3.store == map[2 := b] && s3.keyPool == [1];
    var s4 := Add(s3, c);
    assert s4.store == map[1 := c, 2 := b];
    ValuesOfTwo(c, b);
  }

  /** Before initialisation every request is queued, in call order, and nothing is drawn. */
  function RequestAll(s: RegistryState, es: seq<Entry>): RegistryState
    decreases |es|
  {
    if es == [] then s else Request(RequestAll(s, es[..|es| - 1]), es[|es| - 1])
  }

  lemma {:induction false} RequestsQueue(s: RegistryState, es: seq<Entry>)
    requires !s.initialized
    ensures RequestAll(s, es) == s.(initWaitings := s.initWaitings + es)
    decreases |es|
  {
    if es != [] {
      RequestsQueue(s, es[..|es| - 1]);
      assert s.initWaitings + es[..|es| - 1] + [es[|es| - 1]] == s.initWaitings + es;
    }
  }

  lemma QueuedFlushed(s: RegistryState, es: seq<Entry>)
    requires !s.initialized && s.initWaitings == []
    ensures Resolve(RequestAll(s, es)).initWaitings == []
    ensures Resolve(RequestAll(s, es)).trace == s.trace + FlushEvents(es)
  {
    RequestsQueue(s, es);
    assert s.initWaitings + es == es;
  }

  /**
   * Requests made before initialisation are each drawn exactly once, in the
   * order made, when the init callback runs; the queue is then empty.
   */
  lemma QueuedDrawnInOrder(s: RegistryState, es: seq<Entry>, i: nat)
    requires !s.initialized && s.initWaitings == [] && i < |es|
    ensures var r := Resolve(RequestAll(s, es));
      && r.initWaitings == []
      && r.trace == s.trace + FlushEvents(es)
      && r.trace[|s.trace| + 3 * i..|s.trace| + 3 * i + 3] == DrawEvents(es[i])
  {
    QueuedFlushed(s, es);
    FlushedTriple(s.trace, es, i);
  }

  /** After any prefix, the i-th triple of a drain draws the i-th queued entry. */
  lemma FlushedTriple(pre: seq<Event>, es: seq<Entry>, i: nat)
    requires i < |es|
    ensures (pre + FlushEvents(es))[|pre| + 3 * i..|pre| + 3 * i + 3] == DrawEvents(es[i])
  {
    var t := FlushEvents(es);
    FlushEventsAt(es, i);
    assert (pre + t)[|pre| + 3 * i..|pre| + 3 * i + 3] == t[3 * i..3 * i + 3];
  }

  /** After initialisation a request draws at once: bind, resize, render. */
  lemma RequestAfterInit(s: RegistryState, e: Entry)
    requires s.initialized
    ensures Request(s, e).trace == s.trace + [Bind(e.canvasTarget), SetSize(e.width, e.height), Render(e.scene, e.camera)]
    ensures Request(s, e).initWaitings == s.initWaitings
  {
  }

  /**
   * A frame with the renderer ready renders every stored entry once, in
   * ascending handle order; before the module flag is set it renders nothing.
   */
  lemma FrameRendersSnapshot(s: RegistryState)
    requires Inv(s) && s.rendererInitialized && |s.store| > 0
    ensures Renders(Refresh(s).trace) ==
      Renders(s.trace) + (if s.initialized then ScenesOf(ObjectValues(s.store)) else [])
  {
    RendersConcat(s.trace, FrameEvents(s.initialized, s.storeArr));
    RendersOfFrame(s.initialized, s.storeArr);
  }

  /** The running registry: the module-level variables of globalRenderer.ts. */
  class RenderRegistry {
    var store: map<int, Entry>
    var storeArr: seq<Entry>
    var keyPool: seq<int>
    var storeKey: int
    var initWaitings: seq<Entry>
    var initialized: bool
    var rendererInitialized: bool
    var loopRunning: bool
    var trace: seq<Event>

    function State(): RegistryState
      reads this
    {
      RegistryState(store, storeArr, keyPool, storeKey, initWaitings,
                    initialized, rendererInitialized, loopRunning, trace)
    }

    ghost predicate Valid()
      reads this
    {
      Inv(State())
    }

    /** Module load: lines 6 and 30-35. */
    constructor ()
      ensures Valid() && State() == Initial()
    {
      store, storeArr, keyPool, storeKey := map[], [], [], 1;
      initWaitings, initialized, rendererInitialized, loopRunning := [], false, false, false;
      trace := [];
      new;
      InitialInv();
    }

    /** Lines 49-56: the last released handle if there is one, else a fresh one. */
    method NewKey() returns (key: int)
      modifies this
      ensures key == NextKey(old(State()))
      ensures State() == TakeKey(old(State()))
    {
      if |keyPool| > 0 {
        key := keyPool[|keyPool| - 1];
        keyPool := keyPool[..|keyPool| - 1];
      } else {
        key := storeKey;
        storeKey := storeKey + 1;
      }
    }

    method AddAnimation(e: Entry) returns (key: int)
      requires Valid()
      modifies this
      ensures Valid()
      ensures key == NextKey(old(State()))
      ensures State() == Add(old(State()), e)
    {
      ghost var s0 := State();
      if |store| == 0 {
        loopRunning := true;
      }
      assert State() == StartLoop(s0);
      key := StoreEntry(e);
      AddInv(s0, e);
    }

    /** Lines 49-60: take a handle, store the entry under it, rebuild the snapshot. */
    method StoreEntry(e: Entry) returns (key: int)
      modifies this
      ensures key == NextKey(old(State()))
      ensures State() == Insert(old(State()), e)
    {
      key := NewKey();
      store := store[key := e];
      storeArr := ObjectValues(store);
    }

    method RemoveAnimation(key: int)
      requires Valid()
      modifies this
      ensures Valid()
      ensures State() == Remove(old(State()), key)
    {
      ghost var s0 := State();
      store := store - {key};
      keyPool := keyPool + [key];
      assert State() == DeleteKey(s0, key);
      if |store| == 0 {
        loopRunning := false;
      }
      assert State() == StopLoop(DeleteKey(s0, key));
      storeArr := ObjectValues(store);
      RemoveInv(s0, key);
    }

    method GlobalRender(e: Entry)
      modifies this
      ensures State() == Draw(old(State()), e)
    {
      if !initialized {
        return;
      }
      trace := trace + [Bind(e.canvasTarget)];
      trace := trace + [SetSize(e.width, e.height)];
      trace := trace + [Render(e.scene, e.camera)];
    }

    /** Every field but the renderer's trace is as it was in the `old` state. */
    twostate predicate TraceOnly()
      reads this
    {
      && store == old(store) && storeArr == old(storeArr) && keyPool == old(keyPool)
      && storeKey == old(storeKey) && initWaitings == old(initWaitings)
      && initialized == old(initialized) && rendererInitialized == old(rendererInitialized)
      && loopRunning == old(loopRunning)
    }

    /** One entry of the loop's `storeArr.forEach`: draw it, then update its updatables. */
    method DrawEntry(entry: Entry)
      modifies this
      ensures TraceOnly() && trace == old(trace) + EntryEvents(initialized, entry)
    {
      ghost var t0 := trace;
      GlobalRender(entry);
      ghost var drawn := trace;
      var j := 0;
      while j < |entry.updatables|
        invariant 0 <= j <= |entry.updatables|
        invariant TraceOnly() && trace == drawn + UpdateEvents(entry.updatables[..j])
      {
        AppendAssoc(drawn, UpdateEvents(entry.updatables[..j]), [Update(entry.updatables[j])]);
        trace := trace + [Update(entry.updatables[j])];
        UpdatePrefixStep(entry.updatables, j);
        j := j + 1;
      }
      assert entry.updatables[..j] == entry.updatables;
      AppendAssoc(t0, GlobalRenderEvents(initialized, entry), UpdateEvents(entry.updatables));
    }

    /** The `storeArr.forEach` of the loop: every entry of the snapshot, in array order. */
    method DrawSnapshot()
      modifies this
      ensures TraceOnly() && trace == old(trace) + FrameEvents(initialized, storeArr)
    {
      var i := 0;
      while i < |storeArr|
        invariant 0 <= i <= |storeArr|
        invariant TraceOnly() && trace == old(trace) + FrameEvents(initialized, storeArr[..i])
      {
        DrawEntry(storeArr[i]);
        FramePrefixStep(initialized, storeArr, i);
        i := i + 1;
      }
      assert storeArr[..i] == storeArr;
    }

    /** `AnimationLoop`: nothing until the renderer reports itself initialised. */
    method AnimationLoop()
      requires Valid()
      modifies this
      ensures Valid()
      ensures State() == Tick(old(State()))
    {
      if !rendererInitialized {
        return;
      }
      DrawSnapshot();
      TickInv(old(State()));
    }

    /** The renderer calling the installed loop on a display refresh. */
    method Frame()
      requires Valid()
      modifies this
      ensures Valid()
      ensures State() == Refresh(old(State()))
    {
      if loopRunning {
        AnimationLoop();
      }
    }

    method InitRender(e: Entry)
      requires Valid()
      modifies this
      ensures Valid()
      ensures State() == Request(old(State()), e)
    {
      if initialized {
        GlobalRender(e);
        DrawEventsWellOrdered(e);
        WellOrderedConcat(old(trace), DrawEvents(e));
      } else {
        initWaitings := initWaitings + [e];
      }
    }

    /** `renderer.init()` completing inside the library. */
    method RendererInitDone()
      requires Valid()
      modifies this
      ensures Valid()
      ensures State() == RendererReady(old(State()))
    {
      rendererInitialized := true;
    }

    /** The `initWaitings.forEach(GlobalRender)` of the init callback, oldest first. */
    method FlushQueue()
      requires initialized
      modifies this
      ensures State() == old(State()).(trace := old(trace) + FlushEvents(initWaitings))
    {
      var i := 0;
      while i < |initWaitings|
        invariant 0 <= i <= |initWaitings|
        invariant State() == old(State()).(trace := old(trace) + FlushEvents(initWaitings[..i]))
      {
        GlobalRender(initWaitings[i]);
        FlushPrefixStep(initWaitings, i);
        i := i + 1;
      }
      assert initWaitings[..i] == initWaitings;
    }

    /** The `.then` callback of `renderer.init()`: lines 12-19. */
    method CompleteInit()
      requires Valid()
      modifies this
      ensures Valid()
      ensures State() == Resolve(old(State()))
    {
      initialized := true;
      FlushQueue();
      initWaitings := [];
      ResolveInv(old(State()));
    }
  }
}
