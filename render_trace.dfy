/**
 * The registry's entries and the calls it makes on the shared WebGPU
 * renderer, recorded as a trace of events. Canvas targets, scenes, cameras
 * and updatables are opaque ids: the registry only passes them on.
 */
module RenderTrace {

  type CanvasTargetId = nat
  type SceneId = nat
  type CameraId = nat
  type UpdatableId = nat

  /**
   * `MultipleRender` (src/lib/globalRenderer.ts:21-28). An absent
   * `updatables` is the empty sequence: `updatables?.forEach` does nothing
   * for either.
   */
  datatype Entry = Entry(
    canvasTarget: CanvasTargetId,
    scene: SceneId,
    camera: CameraId,
    width: int,
    height: int,
    updatables: seq<UpdatableId>)

  /** One call on the shared renderer, or on an updatable. */
  datatype Event =
    | Bind(target: CanvasTargetId)       // renderer.setCanvasTarget
    | SetSize(width: int, height: int)   // renderer.setSize
    | Render(scene: SceneId, camera: CameraId)  // renderer.render
    | Update(updatable: UpdatableId)     // updatable.update()

  /** The three calls `GlobalRender` makes once the module is initialised. */
  function DrawEvents(e: Entry): seq<Event> {
    [Bind(e.canvasTarget), SetSize(e.width, e.height), Render(e.scene, e.camera)]
  }

  /** What `GlobalRender` emits: nothing before initialisation. */
  function GlobalRenderEvents(initialized: bool, e: Entry): seq<Event> {
    if initialized then DrawEvents(e) else []
  }

  /** `updatables.forEach(u => u.update())`: one call per updatable, in array order. */
  function UpdateEvents(us: seq<UpdatableId>): (r: seq<Event>)
    ensures |r| == |us|
  {
    if us == [] then [] else UpdateEvents(us[..|us| - 1]) + [Update(us[|us| - 1])]
  }

  lemma {:induction false} UpdateEventsAt(us: seq<UpdatableId>, i: nat)
    requires i < |us|
    ensures UpdateEvents(us)[i] == Update(us[i])
    decreases |us|
  {
    if i < |us| - 1 {
      UpdateEventsAt(us[..|us| - 1], i);
    }
  }

  /** One entry's share of an animation-loop tick: its draw, then its updatables. */
  function EntryEvents(initialized: bool, e: Entry): seq<Event> {
    GlobalRenderEvents(initialized, e) + UpdateEvents(e.updatables)
  }

  /** The `storeArr.forEach` of an animation-loop tick, entry by entry in array order. */
  function FrameEvents(initialized: bool, entries: seq<Entry>): seq<Event> {
    if entries == [] then []
    else FrameEvents(initialized, entries[..|entries| - 1]) + EntryEvents(initialized, entries[|entries| - 1])
  }

  /** The `initWaitings.forEach(GlobalRender)` run once initialisation completes. */
  function FlushEvents(queue: seq<Entry>): (r: seq<Event>)
    ensures |r| == 3 * |queue|
  {
    if queue == [] then [] else FlushEvents(queue[..|queue| - 1]) + DrawEvents(queue[|queue| - 1])
  }

  /** Queued entry `i` is drawn exactly once, as the `i`-th triple: FIFO order. */
  lemma {:induction false} FlushEventsAt(queue: seq<Entry>, i: nat)
    requires i < |queue|
    ensures FlushEvents(queue)[3 * i..3 * i + 3] == DrawEvents(queue[i])
    decreases |queue|
  {
    var prefix := queue[..|queue| - 1];
    var f := FlushEvents(prefix);
    var r := FlushEvents(queue);
    assert r == f + DrawEvents(queue[|queue| - 1]);
    if i < |prefix| {
      FlushEventsAt(prefix, i);
      assert 3 * i + 3 <= |f|;
      assert r[3 * i..3 * i + 3] == f[3 * i..3 * i + 3];
    } else {
      assert 3 * i == |f|;
      assert r[3 * i..3 * i + 3] == DrawEvents(queue[i]);
    }
  }

  lemma UpdatePrefixStep(us: seq<UpdatableId>, j: nat)
    requires j < |us|
    ensures UpdateEvents(us[..j]) + [Update(us[j])] == UpdateEvents(us[..j + 1])
  {
    assert us[..j + 1][..j] == us[..j];
  }

  lemma FramePrefixStep(initialized: bool, entries: seq<Entry>, i: nat)
    requires i < |entries|
    ensures FrameEvents(initialized, entries[..i]) + EntryEvents(initialized, entries[i]) ==
            FrameEvents(initialized, entries[..i + 1])
  {
    assert entries[..i + 1][..i] == entries[..i];
  }

  lemma FlushPrefixStep(queue: seq<Entry>, i: nat)
    requires i < |queue|
    ensures FlushEvents(queue[..i]) + DrawEvents(queue[i]) == FlushEvents(queue[..i + 1])
  {
    assert queue[..i + 1][..i] == queue[..i];
  }

  /** Event `j` of `t` sits inside a complete bind, resize, render triple. */
  ghost predicate TripleAt(t: seq<Event>, j: int)
    requires 0 <= j < |t|
  {
    (t[j].Bind? ==> j + 2 < |t| && t[j + 1].SetSize? && t[j + 2].Render?) &&
    (t[j].SetSize? ==> 0 < j < |t| - 1 && t[j - 1].Bind? && t[j + 1].Render?) &&
    (t[j].Render? ==> 1 < j && t[j - 1].SetSize? && t[j - 2].Bind?)
  }

  /**
   * The renderer only ever sees complete bind, resize, render triples: every
   * canvas-target switch is followed by a resize and then a render, and every
   * resize and render is preceded by the rest of its triple.
   */
  ghost predicate WellOrdered(t: seq<Event>) {
    forall j :: 0 <= j < |t| ==> TripleAt(t, j)
  }

  lemma DrawEventsWellOrdered(e: Entry)
    ensures WellOrdered(DrawEvents(e))
  {
    var t := DrawEvents(e);
    assert TripleAt(t, 0) && TripleAt(t, 1) && TripleAt(t, 2);
  }

  lemma WellOrderedConcat(a: seq<Event>, b: seq<Event>)
    requires WellOrdered(a) && WellOrdered(b)
    ensures WellOrdered(a + b)
  {
    var t := a + b;
    forall j | 0 <= j < |t| ensures TripleAt(t, j) {
      if j < |a| {
        assert TripleAt(a, j);
        assert t[j] == a[j];
        if a[j].Bind? { assert t[j + 1] == a[j + 1] && t[j + 2] == a[j + 2]; }
        if a[j].SetSize? { assert t[j - 1] == a[j - 1] && t[j + 1] == a[j + 1]; }
        if a[j].Render? { assert t[j - 1] == a[j - 1] && t[j - 2] == a[j - 2]; }
      } else {
        var k := j - |a|;
        assert TripleAt(b, k);
        assert t[j] == b[k];
        if b[k].Bind? { assert t[j + 1] == b[k + 1] && t[j + 2] == b[k + 2]; }
        if b[k].SetSize? { assert t[j - 1] == b[k - 1] && t[j + 1] == b[k + 1]; }
        if b[k].Render? { assert t[j - 1] == b[k - 1] && t[j - 2] == b[k - 2]; }
      }
    }
  }

  lemma UpdateEventsWellOrdered(us: seq<UpdatableId>)
    ensures WellOrdered(UpdateEvents(us))
  {
    var t := UpdateEvents(us);
    forall j | 0 <= j < |t| ensures TripleAt(t, j) {
      UpdateEventsAt(us, j);
    }
  }

  lemma {:induction false} FrameEventsWellOrdered(initialized: bool, entries: seq<Entry>)
    ensures WellOrdered(FrameEvents(initialized, entries))
  {
    if entries != [] {
      var last := entries[|entries| - 1];
      FrameEventsWellOrdered(initialized, entries[..|entries| - 1]);
      UpdateEventsWellOrdered(last.updatables);
      if initialized {
        DrawEventsWellOrdered(last);
      } else {
        assert WellOrdered(GlobalRenderEvents(initialized, last));
      }
      WellOrderedConcat(GlobalRenderEvents(initialized, last), UpdateEvents(last.updatables));
      WellOrderedConcat(FrameEvents(initialized, entries[..|entries| - 1]), EntryEvents(initialized, last));
    }
  }

  lemma {:induction false} FlushEventsWellOrdered(queue: seq<Entry>)
    ensures WellOrdered(FlushEvents(queue))
  {
    if queue != [] {
      FlushEventsWellOrdered(queue[..|queue| - 1]);
      DrawEventsWellOrdered(queue[|queue| - 1]);
      WellOrderedConcat(FlushEvents(queue[..|queue| - 1]), DrawEvents(queue[|queue| - 1]));
    }
  }

  /** Dropping the last element of `a + b` drops the last element of `b`. */
  lemma ConcatInit<T>(a: seq<T>, b: seq<T>)
    requires |b| > 0
    ensures (a + b)[..|a + b| - 1] == a + b[..|b| - 1]
    ensures (a + b)[|a + b| - 1] == b[|b| - 1]
  {
  }

  /** A tick over `a + b` is the tick over `a` followed by the tick over `b`. */
  lemma {:induction false} FrameEventsConcat(initialized: bool, a: seq<Entry>, b: seq<Entry>)
    ensures FrameEvents(initialized, a + b) == FrameEvents(initialized, a) + FrameEvents(initialized, b)
    decreases |b|
  {
    if b == [] {
      assert a + b == a;
    } else {
      var ab := a + b;
      var b' := b[..|b| - 1];
      var last := EntryEvents(initialized, b[|b| - 1]);
      ConcatInit(a, b);
      assert FrameEvents(initialized, ab) == FrameEvents(initialized, a + b') + last;
      FrameEventsConcat(initialized, a, b');
      assert FrameEvents(initialized, b) == FrameEvents(initialized, b') + last;
      AppendAssoc(FrameEvents(initialized, a), FrameEvents(initialized, b'), last);
    }
  }

  lemma AppendAssoc<T>(x: seq<T>, y: seq<T>, z: seq<T>)
    ensures (x + y) + z == x + (y + z)
  {
  }

  /**
   * Entry `i` of the snapshot gets its draw and updates after every entry
   * before it and before every entry after it.
   */
  lemma FrameEventsAt(initialized: bool, entries: seq<Entry>, i: nat)
    requires i < |entries|
    ensures FrameEvents(initialized, entries) ==
      FrameEvents(initialized, entries[..i]) + EntryEvents(initialized, entries[i]) +
      FrameEvents(initialized, entries[i + 1..])
  {
    assert entries == entries[..i] + [entries[i]] + entries[i + 1..];
    FrameEventsConcat(initialized, entries[..i] + [entries[i]], entries[i + 1..]);
    FrameEventsConcat(initialized, entries[..i], [entries[i]]);
    assert FrameEvents(initialized, [entries[i]]) == EntryEvents(initialized, entries[i]) by {
      assert [entries[i]][..0] == [];
    }
  }

  /** The (scene, camera) pairs handed to `renderer.render`, in call order. */
  function Renders(t: seq<Event>): seq<(SceneId, CameraId)> {
    if t == [] then []
    else
      var last := t[|t| - 1];
      Renders(t[..|t| - 1]) + (if last.Render? then [(last.scene, last.camera)] else [])
  }

  lemma {:induction false} RendersConcat(a: seq<Event>, b: seq<Event>)
    ensures Renders(a + b) == Renders(a) + Renders(b)
    decreases |b|
  {
    if b == [] {
      assert a + b == a;
    } else {
      assert (a + b)[..|a + b| - 1] == a + b[..|b| - 1];
      RendersConcat(a, b[..|b| - 1]);
    }
  }

  lemma {:induction false} RendersOfUpdates(us: seq<UpdatableId>)
    ensures Renders(UpdateEvents(us)) == []
    decreases |us|
  {
    if us != [] {
      RendersOfUpdates(us[..|us| - 1]);
      RendersConcat(UpdateEvents(us[..|us| - 1]), [Update(us[|us| - 1])]);
    }
  }

  /** The scene and camera of each entry, in snapshot order. */
  function ScenesOf(entries: seq<Entry>): (r: seq<(SceneId, CameraId)>)
    ensures |r| == |entries|
    ensures forall i :: 0 <= i < |entries| ==> r[i] == (entries[i].scene, entries[i].camera)
  {
    if entries == [] then []
    else
      var last := entries[|entries| - 1];
      ScenesOf(entries[..|entries| - 1]) + [(last.scene, last.camera)]
  }

  lemma RendersOfDraw(e: Entry)
    ensures Renders(DrawEvents(e)) == [(e.scene, e.camera)]
  {
    var d := DrawEvents(e);
    assert d[..|d| - 1] == [d[0], d[1]];
    assert [d[0], d[1]][..1] == [d[0]];
    assert [d[0]][..0] == [];
    assert Renders([d[0]]) == [];
    assert Renders([d[0], d[1]]) == [];
  }

  lemma RendersOfEntry(initialized: bool, e: Entry)
    ensures Renders(EntryEvents(initialized, e)) == if initialized then [(e.scene, e.camera)] else []
  {
    RendersConcat(GlobalRenderEvents(initialized, e), UpdateEvents(e.updatables));
    RendersOfUpdates(e.updatables);
    if initialized { RendersOfDraw(e); }
  }

  /**
   * Once the module is initialised, a tick renders every entry of the
   * snapshot exactly once, in snapshot order; before that it renders nothing
   * (the updatables still run).
   */
  lemma {:induction false} RendersOfFrame(initialized: bool, entries: seq<Entry>)
    ensures Renders(FrameEvents(initialized, entries)) == if initialized then ScenesOf(entries) else []
    decreases |entries|
  {
    if entries != [] {
      var prefix := entries[..|entries| - 1];
      var last := entries[|entries| - 1];
      RendersOfFrame(initialized, prefix);
      RendersConcat(FrameEvents(initialized, prefix), EntryEvents(initialized, last));
      RendersOfEntry(initialized, last);
    }
  }
}
