# A verified model of the three.js WebGPU multi-canvas demo

This project models the core of a React and three.js demo application.
Several small canvases share one WebGPU renderer, and a selection-outline
post-processing effect runs on one page. The model covers:

- **The shared render registry** (`src/lib/globalRenderer.ts`). It has:
  - a store of render entries keyed by numeric handles;
  - the snapshot `storeArr`, rebuilt with `Object.values` after every change;
  - a LIFO pool of released handles and a fresh-handle counter;
  - a FIFO queue of renders requested before the renderer is initialised;
  - the animation loop, installed while the store is non-empty.

  The calls the registry makes on the renderer are recorded as a trace of
  events: bind a canvas target, set the size, render a scene, update an
  updatable. `RegistryState` and functions over it specify each operation.
  The class `RenderRegistry` keeps the same state in fields that its methods
  update in place, as the source's module-level variables are.
- **The key order of `Object.values`** on integer-keyed records: ascending
  key order, in module `KeyOrder`.
- **One card of the multi-canvas page** (`src/pages/multiple/index.tsx`).
  This covers its ref cells (`CardRefs`, class `CardRender`), the mount
  effect, and the mousedown and mouseup handlers that register and release
  the card's loop entry.
- **The outline effect** (`src/pages/post-process/outline-pass.ts`). This
  covers its defines, its uniforms and `getUniform`, and the accessors that
  keep them consistent (`xRay`, `patternTexture`, `blur`, `multisampling`,
  the blend-function listener). It also covers the selection methods and
  `update`. `update` renders a depth pass, a mask pass, the outline pass and
  optionally the blur pass, and only while something is selected or a
  forced update is pending.
- **Keyboard navigation between the demo tabs** (`src/AppDemo.tsx`) and the
  highlighted entry of the side navigation (`src/App.tsx`).
- **The counter store** (`src/store/example.store.ts`).

The main results are these:

- For every sequence of add, remove, request, initialise and frame
  operations, the loop runs exactly while the store is non-empty. The
  snapshot is always the store in ascending handle order (`RunInv`).
- Handles are reused last-released-first. Removing an unknown or
  already-released handle still pushes it into the pool. Two cards can
  therefore end up holding the same handle (`DuplicateHandleScenario`).
- Requests made before initialisation are drawn exactly once, in call
  order, when initialisation finishes.
- The outline effect's defines, shaders and uniforms stay consistent under
  every accessor call (`Outline.RunInv`). A uniform named in the effect is
  never missing (`NamedUniformsNeverMissing`).

Two behaviours of the registry are easy to miss:

- Removing a handle that is not live still pushes it into the pool
  (`RemoveUnknown`).
- The snapshot lists entries in handle order, so a reused small handle is
  drawn before entries added earlier (`ReusedHandleDrawnFirst`).

## Model

| member | source | states |
|---|---|---|
| KeyOrder.SortedKeys | src/lib/globalRenderer.ts:60 | the key list that `Object.values` walks is strictly increasing, holds exactly the record's keys, and has one element per key |
| KeyOrder.ObjectValues | src/lib/globalRenderer.ts:60 | `Object.values` on an integer-keyed record yields one value per key |
| KeyOrder.ObjectValuesByKey | src/lib/globalRenderer.ts:60 | the values come out in ascending key order: the i-th value is the value of the i-th smallest key |
| KeyOrder.ObjectValuesMembers | src/lib/globalRenderer.ts:73 | every stored value appears in the snapshot, and every snapshot element is the value of some key |
| KeyOrder.ObjectValuesAppend | src/lib/globalRenderer.ts:58-60 | storing under a key above all present keys appends that value to the end of the snapshot |
| KeyOrder.ObjectValuesOrdered | src/lib/globalRenderer.ts:60 | of two snapshot positions, the earlier holds the value of the smaller key |
| KeyOrder.SortedUnique | src/lib/globalRenderer.ts:60 | two strictly increasing sequences with the same elements are equal, so the key order is unique |
| KeyOrder.KeysAppend | src/lib/globalRenderer.ts:54-60 | adding a key above all others puts it last in the key order |
| RenderTrace.UpdateEvents | src/lib/globalRenderer.ts:81 | updating the updatables makes one update call per updatable |
| RenderTrace.UpdateEventsAt | src/lib/globalRenderer.ts:81 | the i-th update call is on the i-th updatable |
| RenderTrace.FlushEvents | src/lib/globalRenderer.ts:15-17 | draining the queue makes three renderer calls per queued entry |
| RenderTrace.FlushEventsAt | src/lib/globalRenderer.ts:15-17 | the i-th triple of the drain draws the i-th queued entry (FIFO order) |
| RenderTrace.DrawEventsWellOrdered | src/lib/globalRenderer.ts:107-110 | a draw binds the canvas target, sets the size and renders, in that order |
| RenderTrace.FrameEventsWellOrdered | src/lib/globalRenderer.ts:79-82 | every render call in a frame directly follows its size and canvas-target calls |
| RenderTrace.FlushEventsWellOrdered | src/lib/globalRenderer.ts:15-17 | the same ordering holds for the drain of the init queue |
| RenderTrace.FrameEventsConcat | src/lib/globalRenderer.ts:79-82 | a frame over `a + b` makes the calls for `a` and then those for `b` |
| RenderTrace.FrameEventsAt | src/lib/globalRenderer.ts:79-82 | each entry's calls (draw, then its updatables) sit between those of the entries before and after it |
| RenderTrace.ScenesOf | src/lib/globalRenderer.ts:98-99 | lists the scene and camera of each entry, position by position |
| RenderTrace.RendersOfDraw | src/lib/globalRenderer.ts:103-110 | an initialised draw renders exactly its own scene with its own camera |
| RenderTrace.RendersOfEntry | src/lib/globalRenderer.ts:79-81 | an entry renders its scene once if the module flag is set, and nothing otherwise |
| RenderTrace.RendersOfFrame | src/lib/globalRenderer.ts:79-82 | a frame renders every entry's scene, in snapshot order, once the module flag is set |
| RenderTrace.RendersOfUpdates | src/lib/globalRenderer.ts:81 | updating the updatables renders nothing |
| RenderTrace.DrawEvents | src/lib/globalRenderer.ts:107-110 | the three calls of an initialised `GlobalRender`: bind the target, set the size, render; `DrawEventsWellOrdered` and `RendersOfDraw` state their order and what is rendered |
| RenderTrace.GlobalRenderEvents | src/lib/globalRenderer.ts:93-111 | `GlobalRender`'s calls: none before the module flag is set, the draw triple after; `RendersOfEntry` states it |
| RenderTrace.EntryEvents | src/lib/globalRenderer.ts:79-81 | one snapshot entry's share of a frame: its draw, then its updatables; `FrameEventsAt` places it in the frame |
| RenderTrace.FrameEvents | src/lib/globalRenderer.ts:79-82 | the `storeArr.forEach` of a frame, entry by entry; `FrameEventsConcat`, `FrameEventsAt`, `FrameEventsWellOrdered` and `RendersOfFrame` state its properties |
| GlobalRenderer.InitialInv | src/lib/globalRenderer.ts:30-35 | the loaded module satisfies the registry invariant, and no handle has been issued yet |
| GlobalRenderer.Add | src/lib/globalRenderer.ts:37-63 | `AddAnimation` on the state: installs the loop on an empty store, takes `NextKey`, stores the entry and rebuilds the snapshot; its properties are `AddInv`, `AddIssued`, `FreshKey`, `AddPopped` and `LifoReuse` |
| GlobalRenderer.Remove | src/lib/globalRenderer.ts:65-74 | `RemoveAnimation` on the state: deletes and pushes the handle unchecked, stops the loop on an empty store and rebuilds the snapshot; its properties are `RemoveInv`, `RemoveUnknown` and `RemoveTwice` |
| GlobalRenderer.Request | src/lib/globalRenderer.ts:85-91 | `InitRender` on the state: draws when the module flag is set and queues otherwise; its properties are `RequestInv`, `RequestsQueue` and `RequestAfterInit` |
| GlobalRenderer.Draw | src/lib/globalRenderer.ts:93-111 | `GlobalRender` on the state: appends a bind, size and render triple once the module flag is set, and nothing before; see `RendersOfDraw` and `DrawEventsWellOrdered` |
| GlobalRenderer.Resolve | src/lib/globalRenderer.ts:12-19 | the init callback on the state: sets the flag, drains the queue in order and empties it; its properties are `ResolveInv` and `QueuedFlushed` |
| GlobalRenderer.RendererReady | src/lib/globalRenderer.ts:12 | the renderer's own initialisation finishing sets `renderer.initialized` and nothing else; `TickInv` and `FrameRendersSnapshot` use the flag |
| GlobalRenderer.Tick | src/lib/globalRenderer.ts:76-83 | `AnimationLoop` on the state: nothing until the renderer is ready, then one frame over the snapshot; its properties are `TickInv` and `FrameRendersSnapshot` |
| GlobalRenderer.Refresh | src/lib/globalRenderer.ts:46 | a display refresh calls the loop that line 46 installs, and only while it is installed; `StepInv` covers it |
| GlobalRenderer.AddInv | src/lib/globalRenderer.ts:37-63 | adding keeps the snapshot equal to the store in key order, and the loop running iff the store is non-empty |
| GlobalRenderer.RemoveInv | src/lib/globalRenderer.ts:65-74 | removing any handle, live or not, keeps the invariant |
| GlobalRenderer.RequestInv | src/lib/globalRenderer.ts:85-91 | a render request keeps the invariant, and the queue stays empty once initialised |
| GlobalRenderer.ResolveInv | src/lib/globalRenderer.ts:12-19 | the init callback keeps the invariant and leaves the queue empty |
| GlobalRenderer.TickInv | src/lib/globalRenderer.ts:76-83 | an animation-loop call keeps the invariant |
| GlobalRenderer.StepInv | src/lib/globalRenderer.ts:37-111 | every operation keeps the invariant |
| GlobalRenderer.RunInv | src/lib/globalRenderer.ts:37-111 | after any sequence of operations, the loop runs iff the store is non-empty and the snapshot is `Object.values(store)` |
| GlobalRenderer.AddIssued | src/lib/globalRenderer.ts:49-56 | while only issued handles are removed, the handle returned is at least 1 and below the counter (handle 0 is never issued) |
| GlobalRenderer.RemoveIssued | src/lib/globalRenderer.ts:65-67 | releasing an issued handle keeps every stored and pooled handle issued |
| GlobalRenderer.FreshKey | src/lib/globalRenderer.ts:53-56 | with an empty pool, the handle is the counter, and the counter moves on by one |
| GlobalRenderer.AddPopped | src/lib/globalRenderer.ts:50-58 | when a handle is on top of the pool, the add stores under that handle and pops it, and the counter is left untouched |
| GlobalRenderer.AddFilled | src/lib/globalRenderer.ts:37-63 | on a registry filled with `es` from fresh, the next add takes handle `|es|+1` and extends the snapshot |
| GlobalRenderer.AddAllFromInitial | src/lib/globalRenderer.ts:33-63 | n adds on a fresh registry issue handles 1..n, and the snapshot lists the entries in call order |
| GlobalRenderer.LifoReuse | src/lib/globalRenderer.ts:50-67 | a released handle is the next one issued, and the pool returns to what it was |
| GlobalRenderer.RemoveUnknown | src/lib/globalRenderer.ts:65-74 | removing a handle that is not live leaves the store and loop alone but still pushes the handle into the pool |
| GlobalRenderer.DoubleRemoveReissues | src/lib/globalRenderer.ts:50-67 | releasing a handle twice makes the next two adds both return it |
| GlobalRenderer.DoubleRemoveOverwrites | src/lib/globalRenderer.ts:50-67 | after a double release and two adds, the handle holds the second entry only |
| GlobalRenderer.DoubleRemoveRestoresPool | src/lib/globalRenderer.ts:50-67 | after a double release and two adds, the pool is as it was before the releases |
| GlobalRenderer.RemoveTwice | src/lib/globalRenderer.ts:66-67 | releasing a handle twice pushes it twice, and the store loses it once |
| GlobalRenderer.TwoAdds | src/lib/globalRenderer.ts:33-56 | two adds on a fresh registry return handles 1 and 2 |
| GlobalRenderer.ValuesOfTwo | src/lib/globalRenderer.ts:60 | the snapshot of handles 1 and 2 lists handle 1's entry first |
| GlobalRenderer.ReusedHandleDrawnFirst | src/lib/globalRenderer.ts:50-60 | after adding A and B, releasing A's handle and adding C, the snapshot is [C, B]: key order, not insertion order |
| GlobalRenderer.RequestsQueue | src/lib/globalRenderer.ts:85-91 | before initialisation every request is only queued, in call order, and nothing is drawn |
| GlobalRenderer.QueuedFlushed | src/lib/globalRenderer.ts:12-19 | the init callback draws the whole queue in order and empties it |
| GlobalRenderer.QueuedDrawnInOrder | src/lib/globalRenderer.ts:12-19 | the i-th request made before initialisation is drawn as the i-th triple of the drain |
| GlobalRenderer.FlushedTriple | src/lib/globalRenderer.ts:15-17 | whatever the renderer saw before, the i-th triple of the drain draws the i-th queued entry |
| GlobalRenderer.RequestAfterInit | src/lib/globalRenderer.ts:86-110 | after initialisation a request binds the target, sets the size and renders, and queues nothing |
| GlobalRenderer.FrameRendersSnapshot | src/lib/globalRenderer.ts:76-83 | a frame with the renderer ready renders every stored entry once, in ascending handle order, or nothing before the module flag is set |
| GlobalRenderer.RenderRegistry.constructor | src/lib/globalRenderer.ts:30-35 | the module starts with an empty store, an empty pool, counter 1, an empty queue and no loop |
| GlobalRenderer.RenderRegistry.NewKey | src/lib/globalRenderer.ts:49-56 | pops the top of the pool, or else takes the counter and advances it |
| GlobalRenderer.RenderRegistry.AddAnimation | src/lib/globalRenderer.ts:37-63 | returns the issued handle, stores the entry under it, rebuilds the snapshot, installs the loop on the first entry, and keeps the invariant |
| GlobalRenderer.RenderRegistry.StoreEntry | src/lib/globalRenderer.ts:49-60 | takes the handle `NextKey` names, stores the entry under it and rebuilds the snapshot |
| GlobalRenderer.RenderRegistry.RemoveAnimation | src/lib/globalRenderer.ts:65-74 | deletes the handle, pushes it into the pool unconditionally, stops the loop when the store empties, rebuilds the snapshot |
| GlobalRenderer.RenderRegistry.GlobalRender | src/lib/globalRenderer.ts:93-111 | draws (bind, size, render) only once the module flag is set |
| GlobalRenderer.RenderRegistry.DrawEntry | src/lib/globalRenderer.ts:79-81 | draws one snapshot entry and then updates its updatables, changing only the trace |
| GlobalRenderer.RenderRegistry.DrawSnapshot | src/lib/globalRenderer.ts:79-82 | walks the snapshot in order, changing only the trace |
| GlobalRenderer.RenderRegistry.AnimationLoop | src/lib/globalRenderer.ts:76-83 | does nothing until the renderer is initialised, then draws the whole snapshot |
| GlobalRenderer.RenderRegistry.Frame | src/lib/globalRenderer.ts:70-76 | a display refresh calls the loop only while it is installed |
| GlobalRenderer.RenderRegistry.InitRender | src/lib/globalRenderer.ts:85-91 | draws at once when initialised, and queues the request otherwise |
| GlobalRenderer.RenderRegistry.RendererInitDone | src/lib/globalRenderer.ts:12 | the renderer's own initialisation finishing sets only its flag |
| GlobalRenderer.RenderRegistry.FlushQueue | src/lib/globalRenderer.ts:15-17 | draws every queued entry in FIFO order |
| GlobalRenderer.RenderRegistry.CompleteInit | src/lib/globalRenderer.ts:12-19 | sets the module flag, drains the queue in order and empties it |
| MultipleCard.RefsBuiltOnce | src/pages/multiple/index.tsx:54-88 | preparing the refs is idempotent: an existing canvas target and complete scene are kept, and the recorded handle is untouched |
| MultipleCard.Prepare | src/pages/multiple/index.tsx:54-62 | the guards of both callbacks: create the canvas target when absent and the canvas exists, then the scene when one of its refs is missing; `RefsBuiltOnce` states its properties |
| MultipleCard.EnsureTarget | src/pages/multiple/index.tsx:54-55 | the canvas target is created only when absent and the canvas exists; `RefsBuiltOnce` states that an existing target is kept |
| MultipleCard.WithNewScene | src/pages/multiple/index.tsx:29-51 | `initializeScene`: scene, camera and controls created together |
| MultipleCard.EnsureScene | src/pages/multiple/index.tsx:60-61 | the scene is rebuilt only when one of its three refs is missing; `RefsBuiltOnce` states that a complete scene is kept |
| MultipleCard.Mount | src/pages/multiple/index.tsx:53-75 | the mount effect on refs and registry: one `InitRender` without updatables once the card can draw; `MountOnlyRequests` states its properties |
| MultipleCard.Press | src/pages/multiple/index.tsx:77-107 | the mousedown handler on refs and registry: `AddAnimation` of the card's entry, recording the handle; `PressRegisters` and `PressReady` state its properties |
| MultipleCard.Truthy | src/pages/multiple/index.tsx:110 | the truthiness test on the recorded handle: present and not 0 |
| MultipleCard.Release | src/pages/multiple/index.tsx:109-111 | the mouseup handler: `RemoveAnimation` of a truthy recorded handle, keeping the ref; `ReleaseKeepsKey` and `RepeatedReleaseFreesTwice` state its properties |
| MultipleCard.MountOnlyRequests | src/pages/multiple/index.tsx:53-75 | the mount effect never registers a loop entry; it only requests one render without updatables |
| MultipleCard.PressRegisters | src/pages/multiple/index.tsx:77-107 | mousedown registers an entry whose only updatable is the card's controls, and records the handle the registry returned |
| MultipleCard.PressedReleaseRemoves | src/pages/multiple/index.tsx:104-111 | the handle recorded by a mousedown is at least 1, so the truthiness test lets mouseup reach `RemoveAnimation` |
| MultipleCard.ReleaseKeepsKey | src/pages/multiple/index.tsx:109-111 | mouseup does not clear the recorded handle; with no truthy handle it does nothing |
| MultipleCard.RepeatedReleaseFreesTwice | src/pages/multiple/index.tsx:109-111 | a second mouseup releases the same handle again, and the pool then holds it twice |
| MultipleCard.PressReady | src/pages/multiple/index.tsx:79-104 | a mousedown on a drawable card adds exactly the card's entry and records the issued handle |
| MultipleCard.DuplicateHandleScenario | src/pages/multiple/index.tsx:104-111 | after card A releases its handle twice, cards B and C both record A's handle, and the registry holds only C's entry under it |
| MultipleCard.TwoPresses | src/pages/multiple/index.tsx:96-104 | two mousedowns with an empty pool take two fresh handles in turn |
| MultipleCard.TwoPressesRecord | src/pages/multiple/index.tsx:96-104 | from any registry, each of two mousedowns records the handle the registry issues next, the second overwriting the first, and both add the card's entry |
| MultipleCard.SecondPressReleasesOnlySecond | src/pages/multiple/index.tsx:96-111 | from any registry, the mouseup after two mousedowns frees only the second handle; the first stays registered, with the loop running, exactly when the two handles differ; a handle 0 frees nothing |
| MultipleCard.ReleaseSecondAdd | src/pages/multiple/index.tsx:109-111 | releasing the handle of the second of two adds leaves the store of both adds minus that handle, and keeps the first handle exactly when the two differ |
| MultipleCard.SecondPressLeaks | src/pages/multiple/index.tsx:96-111 | with an empty pool, two mousedowns without a mouseup take two fresh handles; the mouseup frees only the second entry, the first leaks, and the loop keeps running |
| MultipleCard.CardRender.constructor | src/pages/multiple/index.tsx:21-27 | all refs start empty |
| MultipleCard.CardRender.InitializeScene | src/pages/multiple/index.tsx:29-51 | builds the scene, the camera and the controls |
| MultipleCard.CardRender.PrepareRefs | src/pages/multiple/index.tsx:54-62 | creates the canvas target and the scene when missing, and reports whether the card can draw |
| MultipleCard.CardRender.MountEffect | src/pages/multiple/index.tsx:53-75 | the mount effect, as `Mount`, keeping the registry invariant |
| MultipleCard.CardRender.OnCanvasControl | src/pages/multiple/index.tsx:77-107 | the mousedown handler, as `Press`, keeping the registry invariant |
| MultipleCard.CardRender.OffCanvasControl | src/pages/multiple/index.tsx:109-111 | the mouseup handler, as `Release`, keeping the registry invariant |
| Outline.GetUniform | src/pages/post-process/outline-pass.ts:69-75 | succeeds exactly when the uniform is present and returns its value; otherwise fails with "Uniform <name> is missing" |
| Outline.InitialUniformsComplete | src/pages/post-process/outline-pass.ts:107-116 | the constructor's uniform map holds every named uniform |
| Outline.WithXRay | src/pages/post-process/outline-pass.ts:393-403 | the `xRay` setter on the state; `XRayAccessor` states its properties |
| Outline.XRay | src/pages/post-process/outline-pass.ts:389-391 | the `xRay` getter: whether `X_RAY` is defined; `XRayAccessor` pairs it with the setter |
| Outline.Blur | src/pages/post-process/outline-pass.ts:378-380 | the `blur` getter; `BlurAccessor` pairs it with the setter |
| Outline.WithBlur | src/pages/post-process/outline-pass.ts:382-384 | the `blur` setter; `BlurAccessor` states the round trip and that an update then runs the blur pass exactly when it is on |
| Outline.Multisampling | src/pages/post-process/outline-pass.ts:219-221 | the `multisampling` getter; `MultisamplingAccessor` pairs it with the setter |
| Outline.WithMultisampling | src/pages/post-process/outline-pass.ts:223-226 | the `multisampling` setter, which disposes the mask target; `MultisamplingAccessor` states the round trip and the disposal |
| Outline.RenderStep | src/pages/post-process/outline-pass.ts:531-560 | the state change of a rendering update: pulse, time, selection visible again, and the passes; `UpdateGate` and `UpdatePassesSee` state its properties |
| Outline.WithPatternTexture | src/pages/post-process/outline-pass.ts:430-442 | the `patternTexture` setter on the state, failing when the uniform is missing; `PatternAccessor` and `PatternMissingUniform` state its properties |
| Outline.BlendChanged | src/pages/post-process/outline-pass.ts:119-127 | the blend change listener on the state; `BlendListener` states its property |
| Outline.WithBlendFunction | src/pages/post-process/outline-pass.ts:129 | assigning the blend function, which fires the listener; `BlendListener` states its property |
| Outline.LayerBit | src/pages/post-process/outline-pass.ts:546 | the camera mask that `camera.layers.set(channel)` leaves: the single bit of the channel modulo 32; `UpdatePassesSee` uses it for the mask pass |
| Outline.UpdatePasses | src/pages/post-process/outline-pass.ts:540-560 | the passes a rendering update runs, in order; `UpdatePassesSee` states what each sees |
| Outline.Updated | src/pages/post-process/outline-pass.ts:518-564 | `update` on the state, failing when the pulse uniform is missing; `UpdateGate`, `UpdatePulse` and `UpdateSettles` state its properties |
| Outline.Construct | src/pages/post-process/outline-pass.ts:84-186 | the constructor on the state; `ConstructFlags` and `DefaultConstruction` state its properties |
| Outline.XRayAccessor | src/pages/post-process/outline-pass.ts:389-403 | reading `xRay` after setting it gives the set value; `changed` counts only real changes; other defines are untouched; setting twice is setting once |
| Outline.PatternAccessor | src/pages/post-process/outline-pass.ts:426-442 | a pattern texture turns on `USE_PATTERN` and the vertex shader, and its absence turns them off; the uniform holds the texture |
| Outline.PatternMissingUniform | src/pages/post-process/outline-pass.ts:430-442 | without the pattern uniform the setter fails with the missing-uniform error |
| Outline.BlendListener | src/pages/post-process/outline-pass.ts:119-129 | after a blend-function change, `ALPHA` is defined exactly when the function is Alpha |
| Outline.BlurAccessor | src/pages/post-process/outline-pass.ts:378-384 | reading `blur` gives the set value, and an update runs the blur pass exactly when it is on |
| Outline.MultisamplingAccessor | src/pages/post-process/outline-pass.ts:219-226 | reading `multisampling` gives the set value, and the old mask target is disposed |
| Outline.UpdateGate | src/pages/post-process/outline-pass.ts:518-564 | an update renders iff a forced update is pending or the selection is non-empty, and then advances the time; otherwise it changes nothing; afterwards a forced update is pending iff something is selected |
| Outline.UpdatePassesSee | src/pages/post-process/outline-pass.ts:540-560 | the depth pass sees no background and a hidden selection; the mask pass sees the selection layer; the outline pass sees the view restored; blur comes last iff on |
| Outline.UpdatePulse | src/pages/post-process/outline-pass.ts:533-538 | the pulse is 1 unless the pulse speed is positive, and then lies in [0.25, 1] |
| Outline.UpdateSettles | src/pages/post-process/outline-pass.ts:531-563 | after one update, the next one renders iff the selection is non-empty |
| Outline.ConstructFlags | src/pages/post-process/outline-pass.ts:84-186 | the constructed effect satisfies the invariant, its defines, blur and multisampling follow the options, its time is 0, its pulse uniform is 1, and its first update renders |
| Outline.FirstUpdatePulse | src/pages/post-process/outline-pass.ts:531-540 | the first update after construction renders all passes, sets the pulse to 1 (the cosine is taken at time 0) and advances the time by the step |
| Outline.DefaultConstruction | src/pages/post-process/outline-pass.ts:136-186 | with default options, only `X_RAY` is defined |
| Outline.ApplyInv | src/pages/post-process/outline-pass.ts:119-560 | every accessor call, selection change or update keeps defines, shaders and uniforms consistent |
| Outline.RunInv | src/pages/post-process/outline-pass.ts:119-560 | any sequence of such calls keeps them consistent |
| Outline.NamedUniformsNeverMissing | src/pages/post-process/outline-pass.ts:69-75 | after construction and any sequence of calls, no named uniform lookup fails |
| Outline.OutlineEffect.constructor | src/pages/post-process/outline-pass.ts:84-186 | builds the state `Construct(o)`, which satisfies the invariant |
| Outline.OutlineEffect.Complete | src/pages/post-process/outline-pass.ts:136-186 | the constructor's tail: applies the options through the accessors |
| Outline.OutlineEffect.OnBlendChange | src/pages/post-process/outline-pass.ts:119-127 | the blend listener keeps `ALPHA` in step with the blend function |
| Outline.OutlineEffect.SetBlendFunction | src/pages/post-process/outline-pass.ts:129 | assigns the blend function and runs the listener |
| Outline.OutlineEffect.SetXRay | src/pages/post-process/outline-pass.ts:393-403 | the `xRay` setter, keeping the invariant |
| Outline.OutlineEffect.SetPatternTexture | src/pages/post-process/outline-pass.ts:430-442 | the `patternTexture` setter, keeping the invariant |
| Outline.OutlineEffect.SetBlur | src/pages/post-process/outline-pass.ts:382-384 | the `blur` setter |
| Outline.OutlineEffect.SetMultisampling | src/pages/post-process/outline-pass.ts:223-226 | the `multisampling` setter |
| Outline.OutlineEffect.SetSelection | src/pages/post-process/outline-pass.ts:476-478 | replaces the selection |
| Outline.OutlineEffect.ClearSelection | src/pages/post-process/outline-pass.ts:486-488 | empties the selection |
| Outline.OutlineEffect.SelectObject | src/pages/post-process/outline-pass.ts:496-498 | adds one object to the selection |
| Outline.OutlineEffect.DeselectObject | src/pages/post-process/outline-pass.ts:506-508 | removes one object from the selection |
| Outline.OutlineEffect.AdvancePulse | src/pages/post-process/outline-pass.ts:533-538 | advances the time and sets the pulse uniform |
| Outline.OutlineEffect.RenderDepthPass | src/pages/post-process/outline-pass.ts:542-544 | records a depth render with the scene's current background and the selection hidden, then sets the selection visible |
| Outline.OutlineEffect.RenderMaskPass | src/pages/post-process/outline-pass.ts:546-549 | records a mask render on the selection layer's bit, then restores the camera mask |
| Outline.OutlineEffect.RenderPasses | src/pages/post-process/outline-pass.ts:531-560 | clears the background for the depth and mask passes, restores it before the outline pass, runs blur last when on; the new state is `RenderStep` of the old and the scene and camera end as they were |
| Outline.OutlineEffect.Update | src/pages/post-process/outline-pass.ts:518-564 | one update as `Updated`, keeping the invariant and leaving the scene and camera unchanged |
| DemoTabs.FindIndex | src/AppDemo.tsx:238 | `findIndex`: the first position of the id, or -1 exactly when it is absent |
| DemoTabs.IsPrevious | src/AppDemo.tsx:239 | the keys that move back: up, or left without the meta key; `KeysDisjoint` and `OtherKeysIgnored` relate it to `IsNext` |
| DemoTabs.IsNext | src/AppDemo.tsx:243 | the keys that move forward: down, or right without the meta key |
| DemoTabs.PreviousTab | src/AppDemo.tsx:241 | the tab one back, with wrap; `PreviousTabAt` states its value |
| DemoTabs.NextTab | src/AppDemo.tsx:245 | the tab one forward, with wrap; `NextTabAt` states its value |
| DemoTabs.OnKeyDown | src/AppDemo.tsx:237-247 | the keydown handler: the active tab afterwards; `PreviousWraps`, `NextWraps`, `OtherKeysIgnored` and `NextThenPrevious` state its properties |
| DemoTabs.JsRem | src/AppDemo.tsx:241-245 | JavaScript's `%`: agrees with the modulus for non-negative dividends, lies in (-n, 0] for negative ones, and always differs from the dividend by a multiple of n |
| DemoTabs.KeysDisjoint | src/AppDemo.tsx:239-243 | no key event both moves back and moves forward |
| DemoTabs.PreviousTabAt | src/AppDemo.tsx:241 | the previous tab of the tab at i is the one at i - 1, or the last for the first |
| DemoTabs.NextTabAt | src/AppDemo.tsx:245 | the next tab of the tab at i is the one at i + 1, or the first for the last |
| DemoTabs.PreviousWraps | src/AppDemo.tsx:239-242 | up, or left without the meta key, moves one tab back, from the first to the last |
| DemoTabs.NextWraps | src/AppDemo.tsx:243-246 | down, or right without the meta key, moves one tab forward, from the last to the first |
| DemoTabs.IndicesInRange | src/AppDemo.tsx:230-245 | every active tab is found, so both computed indices lie within the tab list |
| DemoTabs.NextThenPrevious | src/AppDemo.tsx:237-247 | next then previous, and previous then next, return to the same tab |
| DemoTabs.OtherKeysIgnored | src/AppDemo.tsx:237-247 | any other key, and left or right with the meta key held, leaves the active tab unchanged |
| DemoTabs.TabsDistinct | src/AppDemo.tsx:6-11 | the `id` strings of the four tabs are pairwise distinct, so equal ids mean the same tab |
| DemoTabs.Id | src/AppDemo.tsx:7-10 | the `id` string of each tab; `TabsDistinct` proves the four distinct and `FindIndexById` uses them |
| DemoTabs.FindIndexById | src/AppDemo.tsx:238 | comparing ids as strings, `findIndex` stops at a tab whose id is the active one's, and no earlier tab has that id |
| SideTabs.Split | src/App.tsx:60 | `split("/")` yields at least one piece, and no piece holds the separator |
| SideTabs.JoinSplit | src/App.tsx:60 | joining the pieces of a split gives back the pathname |
| SideTabs.SelectedTab | src/App.tsx:60 | `pathname.split("/")[1]`, absent for `undefined`; `SegmentBetweenSlashes` and `SelectedTabDefined` state its properties |
| SideTabs.IsSelected | src/App.tsx:77 | the `selected` flag of a tab; `AtMostOneSelected`, `RootSelectsNone` and `NestedPathSelectsFirstSegment` state its properties |
| SideTabs.SegmentBetweenSlashes | src/App.tsx:60 | the selected id is the text between the first and second "/" |
| SideTabs.SelectedTabDefined | src/App.tsx:60 | there is a selected id exactly when the pathname contains "/" |
| SideTabs.AtMostOneSelected | src/App.tsx:60-77 | at most one tab is highlighted, whatever the pathname |
| SideTabs.RootSelectsNone | src/App.tsx:60-77 | at "/" the id is empty and no tab is highlighted |
| SideTabs.NestedPathSelectsFirstSegment | src/App.tsx:60-77 | a nested path highlights the tab of its first segment and no other |
| ExampleStore.Initial | src/store/example.store.ts:15 | the store starts at count 0 |
| ExampleStore.IncreaseNumber | src/store/example.store.ts:16 | adds one to the count; `IncreaseDecreaseInverse` and `PerformCount` state its properties |
| ExampleStore.DecreaseNumberAsWritten | src/store/example.store.ts:17 | the decrease as written, which adds one; `DecreaseAsWrittenIncreases` exhibits it |
| ExampleStore.DecreaseNumber | src/store/example.store.ts:17 | the decrease its name promises, subtracting one; `IncreaseDecreaseInverse` states its property |
| ExampleStore.Perform | src/store/example.store.ts:14-18 | the count after a sequence of button presses, with the corrected decrease; `PerformCount` states its value |
| ExampleStore.PerformAsWritten | src/store/example.store.ts:14-18 | the count after a sequence of button presses, with the decrease as written; `PerformAsWrittenCount` states its value |
| ExampleStore.DecreaseAsWrittenIncreases | src/store/example.store.ts:16-17 | as written, `DecreaseNumber` is the same update as `IncreaseNumber`: from 0 it gives 1 |
| ExampleStore.AsWrittenNotInverse | src/store/example.store.ts:15-17 | as written, increasing and then decreasing does not return to the start |
| ExampleStore.PerformAsWrittenCount | src/store/example.store.ts:14-18 | as written, every button press adds one to the count |
| ExampleStore.IncreaseDecreaseInverse | src/store/example.store.ts:16-17 | with the corrected decrease, the two updates undo each other |
| ExampleStore.PerformCount | src/store/example.store.ts:14-18 | with the corrected decrease, the count is the number of increases minus the number of decreases |

## Left out

- The GPU work of the WebGPU renderer is not modelled. `setCanvasTarget`, `setSize`, `render` and `update` are recorded as trace events, and the asynchronous `renderer.init()` is two explicit steps: `RendererInitDone` and `CompleteInit`.
- `setAnimationLoop` is modelled as a flag, and a display refresh is the explicit `Frame` operation; timing and the browser's frame scheduling are left out.
- `setPixelRatio` and the device pixel ratio are left out: they change no state that the model tracks.
- KeyOrder.ObjectValues: lists the values in ascending key order for every integer key. JavaScript does so only for array-index keys (0 to 2^32 - 2) and lists other keys in insertion order. Handles the registry issues itself are array indices; a negative or huge handle passed to `RemoveAnimation` and then reissued would be ordered differently, and the model does not capture that.
- React's effect and callback scheduling is not modelled. The refs of a card are a value (`CardRefs`), the wrapper's `offsetWidth`/`offsetHeight` are parameters, and the event listener registration is left out.
- The scene contents built by `initializeScene` are left out: lights, camera position, the object and the controls' settings. Only the existence of scene, camera and controls is modelled.
- `center-circle-effect.ts`, `useTexture`, the router and the other demo pages are not part of this model.
- Outline: the postprocessing library's passes are trace events (`PassEvent`). Render targets, materials, resolution, kernel size, dithering, width and height are left out, and so are the `patternScale`, `edgeStrength` and edge-colour accessors, which only forward a value to a uniform.
- Outline: the `mainScene` and `mainCamera` setters and the deprecated `selectionLayer` accessors are left out. The scene and camera are fixed at construction, and the selection layer stays at the library's default of 10.
- Outline: the texture wrap settings set by the `patternTexture` setter are left out.
- Outline.PulseAt: the cosine of the elapsed time is a parameter; the trigonometry is not modelled.
- Outline: numbers are reals, or integers for the multisampling count and the layer mask. Floating-point rounding is not modelled.
- Outline: assigning the blend function is assumed to dispatch the change event on every assignment, as the library's blend mode does.
- Outline.OutlineEffect.SetPatternTexture: requires the pattern uniform to be present. The thrown error and the partly updated state it leaves are modelled only on values (`WithPatternTexture`, `PatternMissingUniform`), where the error result carries just the message.
- Outline.OutlineEffect.Update: requires the invariant, under which the pulse uniform is present. The missing-uniform error is modelled only on values (`Updated`).
- Outline: `Selection.add` and `Selection.delete` also switch the object's layers in the library; the model records only the set of selected objects.
- DemoTabs.OnKeyDown: the handler's `preventDefault` calls, which stop the browser scrolling on the arrow keys, are not modelled; the active tab does not depend on them.
- ExampleStore: JavaScript numbers are modelled as unbounded integers, and the store's merge of the update into the state is modelled as replacing `count`; the two actions never change.

## Findings

| source | as written | input that shows it | evidently intended | confidence | as-written member | corrected member |
|---|---|---|---|---|---|---|
| src/store/example.store.ts:17 | `DecreaseNumber` sets `count` to `count + 1` | calling `DecreaseNumber` on the initial state (count 0) gives count 1 | `DecreaseNumber` subtracts one, giving -1, so that it undoes `IncreaseNumber` | not executed | ExampleStore.DecreaseAsWrittenIncreases | ExampleStore.IncreaseDecreaseInverse |
