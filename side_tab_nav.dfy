/**
 * Which entry of the side navigation is highlighted (src/App.tsx): the
 * selected tab id is the second "/"-separated segment of the location's
 * pathname, and a tab is highlighted when its id equals that segment.
 */
module SideTabs {
  import opened Wrappers

  /** The tab ids of lines 5-11, in display order. */
  const TABS: seq<string> := ["animations", "material", "lighting", "webgpu",
                              "zustand-exercise", "post-process"]

  /** The position of the first `c` in `s`. */
  function IndexOf(s: string, c: char): (i: nat)
    requires c in s
    ensures i < |s| && s[i] == c && c !in s[..i]
  {
    if s[0] == c then 0
    else
      var i := IndexOf(s[1..], c);
      assert s[..i + 1] == [s[0]] + s[1..][..i];
      i + 1
  }

  /** `String.prototype.split` with a one-character separator. */
  function Split(s: string, sep: char): (parts: seq<string>)
    ensures |parts| >= 1
    ensures forall i :: 0 <= i < |parts| ==> sep !in parts[i]
    decreases |s|
  {
    if sep !in s then [s]
    else
      var i := IndexOf(s, sep);
      [s[..i]] + Split(s[i + 1..], sep)
  }

  /** `Array.prototype.join`, the inverse of `Split`. */
  function Join(parts: seq<string>, sep: char): string {
    if |parts| == 0 then ""
    else if |parts| == 1 then parts[0]
    else parts[0] + [sep] + Join(parts[1..], sep)
  }

  /** `location.pathname.split("/")[1]`, line 60; `None` for `undefined`. */
  function SelectedTab(pathname: string): Option<string> {
    var parts := Split(pathname, '/');
    if |parts| > 1 then Some(parts[1]) else None
  }

  /** The `selected` flag of line 77; `undefined` equals no id. */
  predicate IsSelected(id: string, pathname: string) {
    SelectedTab(pathname) == Some(id)
  }

  /** Splitting and joining again gives back the string. */
  lemma {:induction false} JoinSplit(s: string, sep: char)
    ensures Join(Split(s, sep), sep) == s
    decreases |s|
  {
    if sep in s {
      var i := IndexOf(s, sep);
      var rest := Split(s[i + 1..], sep);
      JoinSplit(s[i + 1..], sep);
      assert Split(s, sep) == [s[..i]] + rest;
      assert s == s[..i] + [sep] + s[i + 1..];
    }
  }

  /** The first separator of `a + [c] + b`, when `a` has none, is right after `a`. */
  lemma IndexOfAfter(a: string, c: char, b: string)
    requires c !in a
    ensures c in a + [c] + b
    ensures IndexOf(a + [c] + b, c) == |a|
  {
    var s := a + [c] + b;
    assert s[|a|] == c;
  }

  /** Splitting `a + [c] + b`, when `a` has no separator, starts with `a`. */
  lemma SplitAfter(a: string, c: char, b: string)
    requires c !in a
    ensures Split(a + [c] + b, c) == [a] + Split(b, c)
  {
    IndexOfAfter(a, c, b);
    var s := a + [c] + b;
    assert s[..|a|] == a;
    assert s[|a| + 1..] == b;
  }

  /**
   * The selected id is the text between the first and the second "/", or
   * after the first "/" when there is no second one.
   */
  lemma SegmentBetweenSlashes(prefix: string, segment: string, rest: string)
    requires '/' !in prefix && '/' !in segment
    requires rest == [] || rest[0] == '/'
    ensures SelectedTab(prefix + "/" + segment + rest) == Some(segment)
  {
    assert prefix + "/" + segment + rest == prefix + ['/'] + (segment + rest);
    SplitAfter(prefix, '/', segment + rest);
    FirstPiece(segment, rest);
  }

  /** The first piece of `segment + rest` is `segment` when `rest` is empty or starts a new piece. */
  lemma FirstPiece(segment: string, rest: string)
    requires '/' !in segment
    requires rest == [] || rest[0] == '/'
    ensures Split(segment + rest, '/')[0] == segment
  {
    if rest != [] {
      assert segment + rest == segment + ['/'] + rest[1..];
      SplitAfter(segment, '/', rest[1..]);
    } else {
      assert segment + rest == segment;
    }
  }

  /** There is a selected id exactly when the pathname has a "/". */
  lemma SelectedTabDefined(pathname: string)
    ensures SelectedTab(pathname).Some? <==> '/' in pathname
  {
    if '/' in pathname {
      var i := IndexOf(pathname, '/');
      assert pathname == pathname[..i] + ['/'] + pathname[i + 1..];
      SplitAfter(pathname[..i], '/', pathname[i + 1..]);
    }
  }

  /** The tab ids are pairwise distinct. */
  lemma TabsDistinct()
    ensures forall i, j :: 0 <= i < j < |TABS| ==> TABS[i] != TABS[j]
  {
  }

  /** At most one tab is highlighted, whatever the pathname. */
  lemma AtMostOneSelected(pathname: string, i: int, j: int)
    requires 0 <= i < |TABS| && 0 <= j < |TABS|
    requires IsSelected(TABS[i], pathname) && IsSelected(TABS[j], pathname)
    ensures i == j
  {
    TabsDistinct();
  }

  /** At "/" the segment is empty and no tab is highlighted. */
  lemma RootSelectsNone()
    ensures SelectedTab("/") == Some("")
    ensures forall i :: 0 <= i < |TABS| ==> !IsSelected(TABS[i], "/")
  {
    SegmentBetweenSlashes("", "", "");
    assert "" + "/" + "" + "" == "/";
  }

  /** A nested path highlights its first segment's tab alone. */
  lemma NestedPathSelectsFirstSegment()
    ensures IsSelected("lighting", "/lighting/x")
    ensures forall i :: 0 <= i < |TABS| && TABS[i] != "lighting" ==> !IsSelected(TABS[i], "/lighting/x")
  {
    SegmentBetweenSlashes("", "lighting", "/x");
    assert "" + "/" + "lighting" + "/x" == "/lighting/x";
  }
}
