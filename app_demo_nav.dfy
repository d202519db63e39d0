/**
 * Keyboard navigation between the tabs of the demo page
 * (src/AppDemo.tsx): the arrow keys move the active tab one step back or
 * forward through `TABS`, wrapping around at both ends.
 */
module DemoTabs {

  /** `TabId`, line 13: the ids "animation", "material", "lighting" and "webgpu". */
  datatype TabId = Animation | Material | Lighting | WebGpu

  /** The tabs of lines 6-11, in display order. */
  const TABS: seq<TabId> := [Animation, Material, Lighting, WebGpu]

  /** The tab that is active when the page is first shown, line 230. */
  const INITIAL_TAB: TabId := Animation

  /** The part of a `KeyboardEvent` the handler reads. */
  datatype KeyEvent = KeyEvent(key: string, metaKey: bool)

  /** `Array.prototype.findIndex` for an id: its first position, or -1. */
  function FindIndex(tabs: seq<TabId>, id: TabId): (r: int)
    ensures -1 <= r < |tabs|
    ensures r == -1 <==> id !in tabs
    ensures r >= 0 ==> tabs[r] == id && id !in tabs[..r]
  {
    if |tabs| == 0 then -1
    else if tabs[0] == id then 0
    else
      var r := FindIndex(tabs[1..], id);
      assert tabs[1..][..if r < 0 then 0 else r] == tabs[1..(if r < 0 then 1 else r + 1)];
      if r == -1 then -1 else r + 1
  }

  /** JavaScript's `%`, whose result takes the sign of the dividend. */
  function JsRem(a: int, n: int): (r: int)
    requires n > 0
    ensures a >= 0 ==> 0 <= r < n && r == a % n
    ensures a < 0 ==> -n < r <= 0
    ensures (a - r) % n == 0
  {
    if a >= 0 then
      assert a - a % n == (a / n) * n;
      MultipleRem(a / n, n);
      a % n
    else
      NegativeRem(a, n);
      -((-a) % n)
  }

  /** A non-zero multiple of `n` is at least `n` away from zero. */
  lemma MultipleBounds(d: int, n: int)
    requires n > 0
    ensures d >= 1 ==> d * n >= n
    ensures d <= -1 ==> d * n <= -n
  {
    if d >= 1 {
      assert d * n == (d - 1) * n + n;
    } else if d <= -1 {
      assert d * n == (d + 1) * n - n;
    }
  }

  /** Every multiple of `n`, of either sign, leaves remainder 0. */
  lemma MultipleRem(k: int, n: int)
    requires n > 0
    ensures (k * n) % n == 0
  {
    var q, r := (k * n) / n, (k * n) % n;
    assert r == (k - q) * n;
    MultipleBounds(k - q, n);
  }

  /** For a negative dividend the truncated remainder differs from it by a multiple of `n`. */
  lemma NegativeRem(a: int, n: int)
    requires n > 0 && a < 0
    ensures (a + (-a) % n) % n == 0
  {
    var d := (-a) / n;
    assert a + (-a) % n == (-d) * n;
    MultipleRem(-d, n);
  }

  /** Line 239: the keys that move back. */
  predicate IsPrevious(e: KeyEvent) {
    e.key == "ArrowUp" || (e.key == "ArrowLeft" && e.metaKey == false)
  }

  /** Line 243: the keys that move forward. */
  predicate IsNext(e: KeyEvent) {
    e.key == "ArrowDown" || (e.key == "ArrowRight" && e.metaKey == false)
  }

  /** The tab line 241 activates: one back from `active`, modulo the number of tabs. */
  function PreviousTab(active: TabId): TabId {
    TABS[JsRem(FindIndex(TABS, active) - 1 + |TABS|, |TABS|)]
  }

  /** The tab line 245 activates: one forward from `active`, modulo the number of tabs. */
  function NextTab(active: TabId): TabId {
    TABS[JsRem(FindIndex(TABS, active) + 1, |TABS|)]
  }

  /**
   * The keydown handler of lines 237-247: the tab that is active afterwards.
   * Both tests run in turn, so when both held the second would win; the
   * keys they accept are disjoint.
   */
  function OnKeyDown(active: TabId, e: KeyEvent): TabId {
    if IsNext(e) then NextTab(active)
    else if IsPrevious(e) then PreviousTab(active)
    else active
  }

  /** The `id` string of each tab, lines 7-10. */
  function Id(t: TabId): string {
    match t
    case Animation => "animation"
    case Material => "material"
    case Lighting => "lighting"
    case WebGpu => "webgpu"
  }

  /** The id strings of lines 7-10 are pairwise distinct, so an id names one tab. */
  lemma TabsDistinct()
    ensures forall i, j :: 0 <= i < j < |TABS| ==> Id(TABS[i]) != Id(TABS[j])
    ensures forall a: TabId, b: TabId :: Id(a) == Id(b) ==> a == b
  {
    assert Id(Animation)[0] == 'a' && Id(Material)[0] == 'm';
    assert Id(Lighting)[0] == 'l' && Id(WebGpu)[0] == 'w';
  }

  /**
   * Line 240 compares ids as strings: `FindIndex` finds the first tab whose
   * `id` equals the active one's, and no earlier tab has that id.
   */
  lemma FindIndexById(active: TabId)
    ensures var i := FindIndex(TABS, active);
      && 0 <= i < |TABS|
      && Id(TABS[i]) == Id(active)
      && forall j :: 0 <= j < i ==> Id(TABS[j]) != Id(active)
  {
    TabsDistinct();
    IndicesInRange(active);
    var i := FindIndex(TABS, active);
    forall j | 0 <= j < i
      ensures Id(TABS[j]) != Id(active)
    {
      assert TABS[j] == TABS[..i][j];
    }
  }

  /** An id's position is where it stands in `TABS`. */
  lemma IndexOfTab(i: int)
    requires 0 <= i < |TABS|
    ensures FindIndex(TABS, TABS[i]) == i
  {
  }

  /** The keys that move back and the keys that move forward are disjoint. */
  lemma KeysDisjoint(e: KeyEvent)
    ensures !(IsPrevious(e) && IsNext(e))
  {
  }

  /** One step back from the tab at `i`, from the first tab to the last. */
  lemma PreviousTabAt(i: int)
    requires 0 <= i < |TABS|
    ensures PreviousTab(TABS[i]) == TABS[if i == 0 then |TABS| - 1 else i - 1]
  {
    IndexOfTab(i);
    var j := JsRem(i - 1 + |TABS|, |TABS|);
    assert j == (if i == 0 then |TABS| - 1 else i - 1);
  }

  /** One step forward from the tab at `i`, from the last tab to the first. */
  lemma NextTabAt(i: int)
    requires 0 <= i < |TABS|
    ensures NextTab(TABS[i]) == TABS[if i == |TABS| - 1 then 0 else i + 1]
  {
    IndexOfTab(i);
    var j := JsRem(i + 1, |TABS|);
    assert j == (if i == |TABS| - 1 then 0 else i + 1);
  }

  /** Previous: one step back, from the first tab to the last. */
  lemma PreviousWraps(i: int, e: KeyEvent)
    requires 0 <= i < |TABS| && IsPrevious(e)
    ensures OnKeyDown(TABS[i], e) == TABS[if i == 0 then |TABS| - 1 else i - 1]
  {
    KeysDisjoint(e);
    PreviousTabAt(i);
  }

  /** Next: one step forward, from the last tab to the first. */
  lemma NextWraps(i: int, e: KeyEvent)
    requires 0 <= i < |TABS| && IsNext(e)
    ensures OnKeyDown(TABS[i], e) == TABS[if i == |TABS| - 1 then 0 else i + 1]
  {
    NextTabAt(i);
  }

  /** Every tab is listed, so both computed indices lie in `[0, TABS.length)`. */
  lemma IndicesInRange(active: TabId)
    ensures active in TABS && INITIAL_TAB in TABS
    ensures var idx := FindIndex(TABS, active);
      && 0 <= idx < |TABS|
      && 0 <= JsRem(idx - 1 + |TABS|, |TABS|) < |TABS|
      && 0 <= JsRem(idx + 1, |TABS|) < |TABS|
  {
    match active
    case Animation => IndexOfTab(0);
    case Material => IndexOfTab(1);
    case Lighting => IndexOfTab(2);
    case WebGpu => IndexOfTab(3);
  }

  /** Next and then previous, or previous and then next, return to the same tab. */
  lemma NextThenPrevious(active: TabId, next: KeyEvent, previous: KeyEvent)
    requires IsNext(next) && IsPrevious(previous)
    ensures OnKeyDown(OnKeyDown(active, next), previous) == active
    ensures OnKeyDown(OnKeyDown(active, previous), next) == active
  {
    IndicesInRange(active);
    var i := FindIndex(TABS, active);
    NextWraps(i, next);
    PreviousWraps(i, previous);
    var j := if i == |TABS| - 1 then 0 else i + 1;
    var k := if i == 0 then |TABS| - 1 else i - 1;
    PreviousWraps(j, previous);
    NextWraps(k, next);
  }

  /** Any other key, and the left and right arrows with the meta key held, change nothing. */
  lemma OtherKeysIgnored(active: TabId, e: KeyEvent)
    requires e.key !in {"ArrowUp", "ArrowDown", "ArrowLeft", "ArrowRight"}
             || (e.key in {"ArrowLeft", "ArrowRight"} && e.metaKey)
    ensures OnKeyDown(active, e) == active
  {
  }
}
