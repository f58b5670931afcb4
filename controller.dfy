/**
 * `EDAmameController`: the pieces of the application controller that keep
 * state of their own rather than wire the scene graph.
 *
 *  - the global key list `pressedKeys`, which a key press extends and a key
 *    release shrinks, and which the editors query to know which keys are
 *    held down;
 *  - the clamp that `restoreWindowContext` applies to a saved window
 *    position so the window lands on the screen;
 *  - `toggleLogTabVisibility`, which takes the log tab off the main tab pane
 *    or puts it back at the right end and selects it, and the menu text that
 *    follows it;
 *  - `CreateBasicCanvasShapes`, which builds the grid point, the grid box
 *    around the editors' theatre and the crosshair.
 *
 * The preferences store, the screen size and the tab pane are JavaFX
 * objects; they are replaced by the values read from them.
 */
module Controller {
  import opened Common
  import opened Colors
  import opened CanvasRenderShapes
  import ListSearch

  /** A JavaFX `KeyCode`, identified by its ordinal. */
  type KeyCode = nat

  /** A tab of the main tab pane. */
  datatype Tab = Tab(id: nat)

  /** `EditorsTheaterSize`: the width and height of every editor's theatre. */
  const EDITORS_THEATER_SIZE: Pair := Pair(1000.0, 1000.0)

  /** The window size used when no size was saved. */
  const DEFAULT_WINDOW_WIDTH: real := 800.0
  const DEFAULT_WINDOW_HEIGHT: real := 1000.0

  const HIDE_LOG_TAB := "Hide Log Tab"
  const SHOW_LOG_TAB := "Show Log Tab"

  /** No element occurs twice. */
  predicate Distinct<T(==)>(s: seq<T>)
  {
    forall i, j :: 0 <= i < j < |s| ==> s[i] != s[j]
  }

  /** `list.remove(Object)` takes exactly one copy of the element away, and
      nothing when there is none. */
  lemma RemoveFirstCounts<T>(s: seq<T>, x: T)
    ensures multiset(RemoveFirst(s, x)) == multiset(s) - multiset{x}
  {
    if x in s {
      var i := IndexOf(s, x);
      assert s == s[..i] + [x] + s[i + 1..];
      assert RemoveFirst(s, x) == s[..i] + s[i + 1..];
    } else {
      assert multiset(s)[x] == 0;
    }
  }

  /** Removing the only copy of an element from a list without duplicates
      leaves a list without duplicates that lacks it. */
  lemma RemoveFirstDistinct<T>(s: seq<T>, x: T)
    ensures Distinct(s) ==> Distinct(RemoveFirst(s, x)) && x !in RemoveFirst(s, x)
  {
    if x in s && Distinct(s) {
      var i := IndexOf(s, x);
      var r := RemoveFirst(s, x);
      assert forall m :: 0 <= m < |r| ==> r[m] == s[if m < i then m else m + 1];
    }
  }

  // ---------------------------------------------------------------------
  // The global key list
  // ---------------------------------------------------------------------

  /** `globalKeyPress` on the key list: the key goes on the end unless it is
      already held. */
  function Pressed(keys: seq<KeyCode>, k: KeyCode): (r: seq<KeyCode>)
    ensures k in r
    ensures forall j :: j in r <==> j in keys || j == k
    ensures forall j :: j != k ==> multiset(r)[j] == multiset(keys)[j]
    ensures multiset(r)[k] == if k in keys then multiset(keys)[k] else 1
    ensures Distinct(keys) ==> Distinct(r)
  {
    if k in keys then keys else keys + [k]
  }

  /** `globalKeyRelease` on the key list: the first copy of a held key goes;
      a key that is not held changes nothing. */
  function Released(keys: seq<KeyCode>, k: KeyCode): (r: seq<KeyCode>)
    ensures multiset(r) == multiset(keys) - multiset{k}
    ensures forall j :: j != k ==> (j in r <==> j in keys)
    ensures Distinct(keys) ==> Distinct(r) && k !in r
  {
    RemoveFirstCounts(keys, k);
    RemoveFirstDistinct(keys, k);
    assert forall j :: j in keys <==> multiset(keys)[j] > 0;
    if k in keys then RemoveFirst(keys, k) else keys
  }

  /** Releasing a key just pressed gives back the key list it was pressed on. */
  lemma ReleaseUndoesPress(keys: seq<KeyCode>, k: KeyCode)
    requires k !in keys
    ensures Released(Pressed(keys, k), k) == keys
  {
    assert IndexOf(keys + [k], k) == |keys| by {
      assert (keys + [k])[|keys|] == k;
      assert forall m :: 0 <= m < |keys| ==> (keys + [k])[m] == keys[m];
    }
    RemoveAtJoin(keys, k, []);
    assert keys + [k] + [] == keys + [k];
  }

  /** One key event, as the scene delivers it to the controller. */
  datatype KeyEvent = KeyPress(code: KeyCode) | KeyRelease(code: KeyCode)

  function Step(keys: seq<KeyCode>, e: KeyEvent): (r: seq<KeyCode>)
    ensures Distinct(keys) ==> Distinct(r)
  {
    match e
    case KeyPress(k) => Pressed(keys, k)
    case KeyRelease(k) => Released(keys, k)
  }

  /** The key list after a series of events, the last event applied last. */
  function Replay(keys: seq<KeyCode>, events: seq<KeyEvent>): seq<KeyCode>
    decreases |events|
  {
    if |events| == 0 then keys
    else Step(Replay(keys, events[..|events| - 1]), events[|events| - 1])
  }

  /** The last event about key k: `Some(true)` for a press, `Some(false)`
      for a release, `None` when no event names k. */
  function LastFor(events: seq<KeyEvent>, k: KeyCode): Option<bool>
    decreases |events|
  {
    if |events| == 0 then None
    else if events[|events| - 1].code == k then Some(events[|events| - 1].KeyPress?)
    else LastFor(events[..|events| - 1], k)
  }

  /** However the events come, the key list never holds a key twice. */
  lemma {:induction false} ReplayKeepsDistinct(keys: seq<KeyCode>, events: seq<KeyEvent>)
    requires Distinct(keys)
    ensures Distinct(Replay(keys, events))
    decreases |events|
  {
    if |events| > 0 {
      ReplayKeepsDistinct(keys, events[..|events| - 1]);
    }
  }

  /** `isGlobalKeyPressed(k)` after a series of events holds exactly when the
      last event about k was a press, or, when there was none, when k was
      held before. */
  lemma {:induction false} ReplayTracksLastEvent(keys: seq<KeyCode>, events: seq<KeyEvent>, k: KeyCode)
    requires Distinct(keys)
    ensures k in Replay(keys, events) <==> (if LastFor(events, k).Some? then LastFor(events, k).value else k in keys)
    decreases |events|
  {
    if |events| > 0 {
      var prefix := events[..|events| - 1];
      ReplayKeepsDistinct(keys, prefix);
      ReplayTracksLastEvent(keys, prefix, k);
    }
  }

  // ---------------------------------------------------------------------
  // The window position
  // ---------------------------------------------------------------------

  /** One coordinate of the window clamped onto the screen: first pulled
      back so the far edge is on the screen, then pushed to 0 if that put
      the near edge off it. A window wider than the screen goes to 0. */
  function ClampedPos(pos: real, screen: real, stage: real): (r: real)
    ensures r >= 0.0
    ensures stage <= screen ==> r + stage <= screen
    ensures 0.0 <= pos && pos + stage <= screen ==> r == pos
    ensures pos < 0.0 || stage > screen ==> r == 0.0
    ensures pos + stage > screen && stage <= screen ==> r == screen - stage
  {
    var p := if pos > screen - stage then screen - stage else pos;
    if p < 0.0 then 0.0 else p
  }

  /** The window's saved size and position, each absent when never saved. */
  datatype WindowPrefs = WindowPrefs(width: Option<real>, height: Option<real>, x: Option<real>, y: Option<real>)

  /** The position `restoreWindowContext` gives one coordinate: the saved
      one, or the one that centres the window, clamped onto the screen. */
  function RestoredPos(saved: Option<real>, screen: real, stage: real): (r: real)
    ensures saved.None? && stage <= screen ==> r == (screen - stage) / 2.0
    ensures saved.Some? && 0.0 <= saved.value && saved.value + stage <= screen ==> r == saved.value
    ensures r >= 0.0 && (stage <= screen ==> r + stage <= screen)
  {
    ClampedPos(if saved.Some? then saved.value else (screen - stage) / 2.0, screen, stage)
  }

  // ---------------------------------------------------------------------
  // The log tab
  // ---------------------------------------------------------------------

  /** The tab list after `toggleLogTabVisibility`: the log tab taken off if
      present, put on the right end otherwise. */
  function Toggled(tabs: seq<Tab>, t: Tab): (r: seq<Tab>)
    ensures t in tabs ==> multiset(r) == multiset(tabs) - multiset{t}
    ensures t !in tabs ==> |r| == |tabs| + 1 && r[..|tabs|] == tabs && r[|tabs|] == t
    ensures forall u :: u != t ==> (u in r <==> u in tabs)
    ensures Distinct(tabs) ==> Distinct(r) && (t in r <==> t !in tabs)
  {
    if t in tabs then
      RemoveFirstCounts(tabs, t);
      RemoveFirstDistinct(tabs, t);
      assert forall u :: u in tabs <==> multiset(tabs)[u] > 0;
      RemoveFirst(tabs, t)
    else
      assert (tabs + [t])[..|tabs|] == tabs;
      tabs + [t]
  }

  /** Toggling twice shows the tab pane as it was, whether the log tab was
      hidden or shown at its place on the right end. */
  lemma ToggleTwice(tabs: seq<Tab>, t: Tab)
    requires t !in tabs
    ensures Toggled(Toggled(tabs, t), t) == tabs
    ensures Toggled(Toggled(tabs + [t], t), t) == tabs + [t]
  {
    assert IndexOf(tabs + [t], t) == |tabs| by {
      assert (tabs + [t])[|tabs|] == t;
      assert forall m :: 0 <= m < |tabs| ==> (tabs + [t])[m] == tabs[m];
    }
    RemoveAtJoin(tabs, t, []);
    assert tabs + [t] + [] == tabs + [t];
  }

  /** The text `correctViewLogItemText` puts on the menu item. */
  function LogItemText(shown: bool): string
  {
    if shown then HIDE_LOG_TAB else SHOW_LOG_TAB
  }

  // ---------------------------------------------------------------------
  // The basic canvas shapes
  // ---------------------------------------------------------------------

  /** The corners of a theatre of the given size centred on the origin, in
      the order the grid box adds them: top left, top right, bottom right,
      bottom left. */
  function GridBoxCorners(size: Pair): seq<Pair>
  {
    [Pair(-size.left / 2.0, -size.right / 2.0), Pair(size.left / 2.0, -size.right / 2.0),
     Pair(size.left / 2.0, size.right / 2.0), Pair(-size.left / 2.0, size.right / 2.0)]
  }

  const GRID_BOX_LINES: seq<LineIndex> := [LineIndex(0, 1), LineIndex(1, 2), LineIndex(2, 3), LineIndex(3, 0)]

  const CROSSHAIR_POINTS: seq<Pair> := [Pair(0.0, -5.0), Pair(0.0, 5.0), Pair(-5.0, 0.0), Pair(5.0, 0.0)]
  const CROSSHAIR_LINES: seq<LineIndex> := [LineIndex(0, 1), LineIndex(2, 3)]

  /** The first (last) point index of every line. */
  function Starts(lines: seq<LineIndex>): (r: seq<int>)
    ensures |r| == |lines| && forall i :: 0 <= i < |lines| ==> r[i] == lines[i].start
  {
    seq(|lines|, i requires 0 <= i < |lines| => lines[i].start)
  }

  function Ends(lines: seq<LineIndex>): (r: seq<int>)
    ensures |r| == |lines| && forall i :: 0 <= i < |lines| ==> r[i] == lines[i].end
  {
    seq(|lines|, i requires 0 <= i < |lines| => lines[i].end)
  }

  /** Two points one full theatre width apart on the same row, or one full
      theatre height apart in the same column. */
  predicate AxisEdge(a: Pair, b: Pair, size: Pair)
  {
    (a.right == b.right && (b.left - a.left == size.left || a.left - b.left == size.left)) ||
    (a.left == b.left && (b.right - a.right == size.right || a.right - b.right == size.right))
  }

  /** The grid box outlines the theatre: each line joins two neighbouring
      corners, runs along one axis for the full width or height, and every
      corner starts one line and ends another. */
  lemma GridBoxOutlinesTheater(size: Pair)
    ensures forall i :: 0 <= i < |GRID_BOX_LINES| ==>
      InRange(GRID_BOX_LINES[i], 4) &&
      AxisEdge(GridBoxCorners(size)[GRID_BOX_LINES[i].start], GridBoxCorners(size)[GRID_BOX_LINES[i].end], size)
    ensures multiset(Starts(GRID_BOX_LINES)) == multiset{0, 1, 2, 3} == multiset(Ends(GRID_BOX_LINES))
  {
    var c := GridBoxCorners(size);
    assert AxisEdge(c[0], c[1], size) && AxisEdge(c[1], c[2], size);
    assert AxisEdge(c[2], c[3], size) && AxisEdge(c[3], c[0], size);
    assert Starts(GRID_BOX_LINES) == [0, 1, 2, 3];
    assert Ends(GRID_BOX_LINES) == [1, 2, 3, 0];
  }

  /** The crosshair's two strokes are a vertical and a horizontal one of the
      same length, crossing at their common midpoint, the origin. */
  lemma CrosshairCentred()
    ensures var p := CROSSHAIR_POINTS; var v := CROSSHAIR_LINES[0]; var h := CROSSHAIR_LINES[1];
      InRange(v, 4) && InRange(h, 4) &&
      p[v.start].left == p[v.end].left == 0.0 && p[h.start].right == p[h.end].right == 0.0 &&
      p[v.start].right + p[v.end].right == 0.0 && p[h.start].left + p[h.end].left == 0.0 &&
      p[v.end].right - p[v.start].right == p[h.end].left - p[h.start].left > 0.0
  {
  }

  class EDAmameController {
    /** The keys held down, in the order they were pressed. */
    var pressedKeys: seq<KeyCode>
    /** The tabs of the main tab pane, left to right, and the selected one. */
    var tabs: seq<Tab>
    var selectedTab: Option<Tab>
    const logTab: Tab
    var viewLogItemText: string
    var basicShapes: seq<CanvasRenderShape>
    /** The stage's size and position. */
    var stageWidth: real
    var stageHeight: real
    var stageX: real
    var stageY: real

    predicate Valid()
      reads this
    {
      Distinct(pressedKeys)
    }

    /** A controller with no keys held, showing the given tabs. The basic
        shapes list is static in the source: `shapes` is what it held
        before (nothing for the first controller), and the constructor's
        `CreateBasicCanvasShapes` appends the grid point, the grid box and
        the crosshair to it. */
    constructor (tabs: seq<Tab>, logTab: Tab, shapes: seq<CanvasRenderShape>)
      ensures pressedKeys == [] && this.tabs == tabs && this.logTab == logTab
      ensures selectedTab.None? && viewLogItemText == LogItemText(logTab in tabs)
      ensures |basicShapes| == |shapes| + 3 && basicShapes[..|shapes|] == shapes
      ensures var n := |shapes|;
        fresh(basicShapes[n]) && fresh(basicShapes[n + 1]) && fresh(basicShapes[n + 2]) &&
        IsGridPoint(basicShapes[n]) && IsGridBox(basicShapes[n + 1]) && IsCrosshair(basicShapes[n + 2])
      ensures Valid()
    {
      pressedKeys := [];
      basicShapes := shapes;
      this.tabs := tabs;
      this.logTab := logTab;
      selectedTab := None;
      viewLogItemText := LogItemText(logTab in tabs);
      new;
      CreateBasicCanvasShapes();
    }

    predicate IsGlobalKeyPressed(k: KeyCode)
      reads this
    {
      k in pressedKeys
    }

    method GlobalKeyPress(k: KeyCode)
      modifies this`pressedKeys
      ensures pressedKeys == Pressed(old(pressedKeys), k)
      ensures IsGlobalKeyPressed(k)
      ensures old(Valid()) ==> Valid()
    {
      if !IsGlobalKeyPressed(k) {
        pressedKeys := pressedKeys + [k];
      }
    }

    method GlobalKeyRelease(k: KeyCode)
      modifies this`pressedKeys
      ensures pressedKeys == Released(old(pressedKeys), k)
      ensures old(Valid()) ==> Valid() && !IsGlobalKeyPressed(k)
    {
      if IsGlobalKeyPressed(k) {
        pressedKeys := RemoveFirst(pressedKeys, k);
      }
    }

    /** `restoreWindowContext`: the saved size (800 by 1000 when none was
        saved), then the saved position, or the centred one, clamped onto a
        screen of the given size. */
    method RestoreWindowContext(prefs: WindowPrefs, screen: Pair)
      modifies this`stageWidth, this`stageHeight, this`stageX, this`stageY
      ensures stageWidth == (if prefs.width.Some? then prefs.width.value else DEFAULT_WINDOW_WIDTH)
      ensures stageHeight == (if prefs.height.Some? then prefs.height.value else DEFAULT_WINDOW_HEIGHT)
      ensures stageX == RestoredPos(prefs.x, screen.left, stageWidth)
      ensures stageY == RestoredPos(prefs.y, screen.right, stageHeight)
    {
      stageWidth := if prefs.width.Some? then prefs.width.value else DEFAULT_WINDOW_WIDTH;
      stageHeight := if prefs.height.Some? then prefs.height.value else DEFAULT_WINDOW_HEIGHT;
      var x := if prefs.x.Some? then prefs.x.value else (screen.left - stageWidth) / 2.0;
      var y := if prefs.y.Some? then prefs.y.value else (screen.right - stageHeight) / 2.0;
      if x > screen.left - stageWidth {
        x := screen.left - stageWidth;
      }
      if x < 0.0 {
        x := 0.0;
      }
      if y > screen.right - stageHeight {
        y := screen.right - stageHeight;
      }
      if y < 0.0 {
        y := 0.0;
      }
      stageX := x;
      stageY := y;
    }

    /** `toggleLogTabVisibility` followed by `correctViewLogItemText`. */
    method ToggleLogTabVisibility()
      modifies this`tabs, this`selectedTab, this`viewLogItemText
      ensures tabs == Toggled(old(tabs), logTab)
      ensures logTab !in old(tabs) ==> selectedTab.Some? && selectedTab.value == logTab
      ensures logTab in old(tabs) ==> selectedTab == old(selectedTab)
      ensures viewLogItemText == LogItemText(logTab in tabs)
    {
      if logTab in tabs {
        tabs := RemoveFirst(tabs, logTab);
      } else {
        tabs := tabs + [logTab];
        selectedTab := Some(logTab);
      }
      viewLogItemText := if logTab in tabs then HIDE_LOG_TAB else SHOW_LOG_TAB;
    }

    /** `CreateBasicCanvasShapes`: the grid point, the grid box and the
        crosshair, appended in that order. */
    method CreateBasicCanvasShapes()
      modifies this`basicShapes
      ensures |basicShapes| == |old(basicShapes)| + 3 && basicShapes[..|old(basicShapes)|] == old(basicShapes)
      ensures var n := |old(basicShapes)|;
        fresh(basicShapes[n]) && fresh(basicShapes[n + 1]) && fresh(basicShapes[n + 2]) &&
        IsGridPoint(basicShapes[n]) && IsGridBox(basicShapes[n + 1]) && IsCrosshair(basicShapes[n + 2])
    {
      var gridPoint := NewGridPoint();
      var gridBox := NewGridBox();
      var crosshair := NewCrosshair();
      basicShapes := basicShapes + [gridPoint, gridBox, crosshair];
    }
  }

  /** The grid point: one grey dot of width 5 at half opacity on the origin,
      kept across renders and drawable. */
  predicate IsGridPoint(s: CanvasRenderShape)
    reads s
  {
    s.name == "GridPoint" && s.points == [Pair(0.0, 0.0)] && s.pointWidths == [5.0] &&
    s.pointColors == [GRAY] && s.pointOpacities == [0.5] && s.lineIndices == [] &&
    s.globalOpacity == 1.0 && s.zoomScaling && s.permanent && s.DrawSucceeds()
  }

  /** The grid box: the theatre's four corners, joined in a closed loop by
      black lines of width 1.5, kept across renders and drawable. */
  predicate IsGridBox(s: CanvasRenderShape)
    reads s
  {
    s.name == "GridBox" && s.points == GridBoxCorners(EDITORS_THEATER_SIZE) &&
    s.pointWidths == [0.0, 0.0, 0.0, 0.0] && s.pointColors == [BLACK, BLACK, BLACK, BLACK] &&
    s.lineIndices == GRID_BOX_LINES && s.lineWidths == [1.5, 1.5, 1.5, 1.5] &&
    s.lineColors == [BLACK, BLACK, BLACK, BLACK] &&
    s.globalOpacity == 1.0 && s.zoomScaling && s.permanent && s.DrawSucceeds()
  }

  /** The crosshair: two red strokes of width 0.5 through the origin, not
      scaled by the zoom, kept across renders and drawable. */
  predicate IsCrosshair(s: CanvasRenderShape)
    reads s
  {
    s.name == "Crosshair" && s.points == CROSSHAIR_POINTS && s.pointWidths == [0.0, 0.0, 0.0, 0.0] &&
    s.pointColors == [RED, RED, RED, RED] && s.lineIndices == CROSSHAIR_LINES &&
    s.lineWidths == [0.5, 0.5] && s.lineColors == [RED, RED] &&
    s.globalOpacity == 1.0 && !s.zoomScaling && s.permanent && s.DrawSucceeds()
  }

  method NewGridPoint() returns (s: CanvasRenderShape)
    ensures fresh(s) && IsGridPoint(s)
  {
    s := new CanvasRenderShape();
    s.name := "GridPoint";
    s.AddPoint(0.0, 0.0, 5.0, GRAY, 0.5);
    s.permanent := true;
    assert s.points[0] == Pair(0.0, 0.0);
  }

  method NewGridBox() returns (s: CanvasRenderShape)
    ensures fresh(s) && IsGridBox(s)
  {
    s := new CanvasRenderShape();
    s.name := "GridBox";
    GridBoxAddCorners(s, GridBoxCorners(EDITORS_THEATER_SIZE));
    GridBoxAddLines(s);
    s.permanent := true;
    assert s.points[0].left > -ListSearch.DoubleMax && s.points[0].left < ListSearch.DoubleMax;
    assert s.points[0].right > -ListSearch.DoubleMax && s.points[0].right < ListSearch.DoubleMax;
  }

  /** The grid box's four `AddPoint` calls, on the corners of the theatre. */
  method GridBoxAddCorners(s: CanvasRenderShape, c: seq<Pair>)
    requires |c| == 4
    requires s.points == [] && s.pointWidths == [] && s.pointColors == [] && s.pointOpacities == []
    modifies s`points, s`pointWidths, s`pointColors, s`pointOpacities
    ensures s.points == c && s.pointWidths == [0.0, 0.0, 0.0, 0.0]
    ensures s.pointColors == [BLACK, BLACK, BLACK, BLACK] && s.pointOpacities == [1.0, 1.0, 1.0, 1.0]
  {
    s.AddPoint(c[0].left, c[0].right, 0.0, BLACK, 1.0);
    s.AddPoint(c[1].left, c[1].right, 0.0, BLACK, 1.0);
    s.AddPoint(c[2].left, c[2].right, 0.0, BLACK, 1.0);
    s.AddPoint(c[3].left, c[3].right, 0.0, BLACK, 1.0);
    assert s.points == [c[0], c[1], c[2], c[3]];
  }

  /** The grid box's four `AddLine` calls, each corner to the next. */
  method GridBoxAddLines(s: CanvasRenderShape)
    requires s.lineIndices == [] && s.lineWidths == [] && s.lineColors == [] && s.lineOpacities == []
    modifies s`lineIndices, s`lineWidths, s`lineColors, s`lineOpacities
    ensures s.lineIndices == GRID_BOX_LINES && s.lineWidths == [1.5, 1.5, 1.5, 1.5]
    ensures s.lineColors == [BLACK, BLACK, BLACK, BLACK] && s.lineOpacities == [1.0, 1.0, 1.0, 1.0]
  {
    s.AddLine(0, 1, 1.5, BLACK, 1.0);
    s.AddLine(1, 2, 1.5, BLACK, 1.0);
    s.AddLine(2, 3, 1.5, BLACK, 1.0);
    s.AddLine(3, 0, 1.5, BLACK, 1.0);
  }

  method NewCrosshair() returns (s: CanvasRenderShape)
    ensures fresh(s) && IsCrosshair(s)
  {
    s := new CanvasRenderShape();
    s.name := "Crosshair";
    CrosshairAddPoints(s);
    CrosshairAddLines(s);
    s.zoomScaling := false;
    s.permanent := true;
    assert s.points[0].left > -ListSearch.DoubleMax && s.points[0].left < ListSearch.DoubleMax;
    assert s.points[0].right > -ListSearch.DoubleMax && s.points[0].right < ListSearch.DoubleMax;
  }

  /** The crosshair's four `AddPoint` calls: the ends of its two strokes. */
  method CrosshairAddPoints(s: CanvasRenderShape)
    requires s.points == [] && s.pointWidths == [] && s.pointColors == [] && s.pointOpacities == []
    modifies s`points, s`pointWidths, s`pointColors, s`pointOpacities
    ensures s.points == CROSSHAIR_POINTS && s.pointWidths == [0.0, 0.0, 0.0, 0.0]
    ensures s.pointColors == [RED, RED, RED, RED] && s.pointOpacities == [1.0, 1.0, 1.0, 1.0]
  {
    s.AddPoint(0.0, -5.0, 0.0, RED, 1.0);
    s.AddPoint(0.0, 5.0, 0.0, RED, 1.0);
    s.AddPoint(-5.0, 0.0, 0.0, RED, 1.0);
    s.AddPoint(5.0, 0.0, 0.0, RED, 1.0);
  }

  /** The crosshair's two `AddLine` calls. */
  method CrosshairAddLines(s: CanvasRenderShape)
    requires s.lineIndices == [] && s.lineWidths == [] && s.lineColors == [] && s.lineOpacities == []
    modifies s`lineIndices, s`lineWidths, s`lineColors, s`lineOpacities
    ensures s.lineIndices == CROSSHAIR_LINES && s.lineWidths == [0.5, 0.5]
    ensures s.lineColors == [RED, RED] && s.lineOpacities == [1.0, 1.0]
  {
    s.AddLine(0, 1, 0.5, RED, 1.0);
    s.AddLine(2, 3, 0.5, RED, 1.0);
  }
}
