/**
 * The floating avatar-video widget: a 280 x 350 px panel that the user drags
 * with the mouse or with one finger, kept inside the viewport, re-fitted when
 * the window is resized, and switchable to an expanded full-screen overlay.
 *
 * Coordinates are whole CSS pixels. The viewport size, which the component
 * reads from `window.innerWidth` / `window.innerHeight`, is a parameter.
 */
module FloatingVideo {

  import opened Wrappers

  /** Size of the collapsed widget. */
  const WidgetWidth: int := 280
  const WidgetHeight: int := 350

  /** The widget first appears this far from the right and bottom edges. */
  const InitialRightInset: int := 300
  const InitialBottomInset: int := 370

  datatype Point = Point(x: int, y: int)

  datatype Viewport = Viewport(width: int, height: int)

  /** Pointer coordinates and widget position captured when a drag begins. */
  datatype DragAnchor = DragAnchor(x: int, y: int, startX: int, startY: int)

  /** The component's state: `isExpanded`, `position`, `isDragging`, `dragStart`. */
  datatype Widget = Widget(expanded: bool, position: Point, dragging: bool, dragStart: DragAnchor)

  // ---------------------------------------------------------------------------
  // Clamping arithmetic
  // ---------------------------------------------------------------------------

  function Min(a: int, b: int): int { if a <= b then a else b }

  function Max(a: int, b: int): int { if a >= b then a else b }

  /** Largest left / top coordinate that keeps the whole widget visible. */
  function MaxX(vp: Viewport): int { vp.width - WidgetWidth }

  function MaxY(vp: Viewport): int { vp.height - WidgetHeight }

  /** `Math.max(0, Math.min(limit, v))`. */
  function ClampCoord(v: int, limit: int): (r: int)
    ensures r >= 0
    ensures limit >= 0 ==> r <= limit
    ensures 0 <= v <= limit ==> r == v
    ensures v < 0 ==> r == 0
    ensures limit < v ==> r == Max(limit, 0)
  {
    Max(0, Min(limit, v))
  }

  /** The widget fits the viewport at all. */
  predicate Fits(vp: Viewport) {
    vp.width >= WidgetWidth && vp.height >= WidgetHeight
  }

  /** The whole widget is inside the viewport. */
  predicate InBounds(p: Point, vp: Viewport) {
    0 <= p.x <= MaxX(vp) && 0 <= p.y <= MaxY(vp)
  }

  /**
   * Where a drag move puts the widget: the anchor's start position plus the
   * pointer's travel since the drag began, clamped to the viewport.
   */
  function DragTarget(a: DragAnchor, pointer: Point, vp: Viewport): (r: Point)
    ensures r.x >= 0 && r.y >= 0
    ensures vp.width >= WidgetWidth ==> r.x <= MaxX(vp)
    ensures vp.height >= WidgetHeight ==> r.y <= MaxY(vp)
    ensures Fits(vp) ==> InBounds(r, vp)
    ensures InBounds(Point(a.startX + (pointer.x - a.x), a.startY + (pointer.y - a.y)), vp) ==>
              r == Point(a.startX + (pointer.x - a.x), a.startY + (pointer.y - a.y))
  {
    Point(ClampCoord(a.startX + (pointer.x - a.x), MaxX(vp)),
          ClampCoord(a.startY + (pointer.y - a.y), MaxY(vp)))
  }

  // ---------------------------------------------------------------------------
  // Event handlers as functions of the state
  // ---------------------------------------------------------------------------

  /** State right after mount: collapsed, near the bottom-right corner. */
  function Initial(vp: Viewport): Widget {
    Widget(false, Point(vp.width - InitialRightInset, vp.height - InitialBottomInset),
           false, DragAnchor(0, 0, 0, 0))
  }

  /** The mount effect: `autoOpen` expands the widget. */
  function Mounted(w: Widget, autoOpen: bool): Widget {
    if autoOpen then w.(expanded := true) else w
  }

  /** `handleDragStart`. */
  function DragStart(w: Widget, pointer: Point): Widget {
    w.(dragging := true, dragStart := DragAnchor(pointer.x, pointer.y, w.position.x, w.position.y))
  }

  /** `handleDragMove`: ignored unless a drag is in progress. */
  function DragMove(w: Widget, pointer: Point, vp: Viewport): Widget {
    if !w.dragging then w else w.(position := DragTarget(w.dragStart, pointer, vp))
  }

  /** `handleDragEnd`. */
  function DragEnd(w: Widget): Widget {
    w.(dragging := false)
  }

  /** `handleTouchStart`: only a single touch point starts a drag. */
  function TouchStart(w: Widget, touches: seq<Point>): Widget {
    if |touches| == 1 then DragStart(w, touches[0]) else w
  }

  /** The global `touchmove` listener: only a single touch point moves. */
  function TouchMove(w: Widget, touches: seq<Point>, vp: Viewport): Widget {
    if |touches| == 1 then DragMove(w, touches[0], vp) else w
  }

  /** `handleResize`: each coordinate is capped by the new limit, never raised. */
  function Resized(w: Widget, vp: Viewport): Widget {
    w.(position := Point(Min(w.position.x, MaxX(vp)), Min(w.position.y, MaxY(vp))))
  }

  /** `setIsExpanded(b)`: the maximise / minimise / close buttons. */
  function WithExpanded(w: Widget, b: bool): Widget {
    w.(expanded := b)
  }

  /** A user or window event reaching the widget. */
  datatype Event =
    | MouseDown(pointer: Point)
    | TouchStartEvent(touches: seq<Point>)
    | MouseMove(pointer: Point)
    | TouchMoveEvent(touches: seq<Point>)
    | MouseUp
    | TouchEnd
    | Resize(newViewport: Viewport)
    | Expand
    | Collapse

  /**
   * One event. The `mousemove`/`touchmove`/`mouseup`/`touchend` listeners are
   * registered on the document only while a drag is in progress; outside a
   * drag the move handler ignores them anyway and `setIsDragging(false)` is
   * already the state, so the event is applied either way.
   */
  function Step(w: Widget, vp: Viewport, e: Event): (Widget, Viewport) {
    match e
    case MouseDown(p) => (DragStart(w, p), vp)
    case TouchStartEvent(ts) => (TouchStart(w, ts), vp)
    case MouseMove(p) => (DragMove(w, p, vp), vp)
    case TouchMoveEvent(ts) => (TouchMove(w, ts, vp), vp)
    case MouseUp => (DragEnd(w), vp)
    case TouchEnd => (DragEnd(w), vp)
    case Resize(nvp) => (Resized(w, nvp), nvp)
    case Expand => (WithExpanded(w, true), vp)
    case Collapse => (WithExpanded(w, false), vp)
  }

  /** A sequence of events, applied left to right. */
  function Run(w: Widget, vp: Viewport, es: seq<Event>): (Widget, Viewport)
    decreases |es|
  {
    if es == [] then (w, vp)
    else
      var (w', vp') := Step(w, vp, es[0]);
      Run(w', vp', es[1..])
  }

  /** Every viewport a sequence of events resizes to still fits the widget. */
  predicate ResizesFit(es: seq<Event>) {
    forall i :: 0 <= i < |es| && es[i].Resize? ==> Fits(es[i].newViewport)
  }

  // ---------------------------------------------------------------------------
  // Properties of the handlers
  // ---------------------------------------------------------------------------

  /** Drag start records the pointer and the current position; the widget does not move. */
  lemma DragStartAnchors(w: Widget, p: Point)
    ensures DragStart(w, p).dragging
    ensures DragStart(w, p).dragStart == DragAnchor(p.x, p.y, w.position.x, w.position.y)
    ensures DragStart(w, p).position == w.position
    ensures DragStart(w, p).expanded == w.expanded
  {
  }

  /** A move with no drag in progress changes nothing. */
  lemma DragMoveIdle(w: Widget, p: Point, vp: Viewport)
    requires !w.dragging
    ensures DragMove(w, p, vp) == w
  {
  }

  /** A drag move keeps the widget inside the viewport whenever it fits, and never left of or above it. */
  lemma DragMoveBounds(w: Widget, p: Point, vp: Viewport)
    requires w.dragging
    ensures DragMove(w, p, vp).position.x >= 0 && DragMove(w, p, vp).position.y >= 0
    ensures Fits(vp) ==> InBounds(DragMove(w, p, vp).position, vp)
    ensures DragMove(w, p, vp).dragStart == w.dragStart && DragMove(w, p, vp).dragging
  {
  }

  /** Two moves in the same drag depend only on the last pointer position: no drift accumulates. */
  lemma DragMoveNoDrift(w: Widget, p1: Point, p2: Point, vp: Viewport)
    ensures DragMove(DragMove(w, p1, vp), p2, vp) == DragMove(w, p2, vp)
  {
  }

  /** Ending a drag keeps the position. */
  lemma DragEndKeepsPosition(w: Widget)
    ensures !DragEnd(w).dragging
    ensures DragEnd(w).position == w.position && DragEnd(w).expanded == w.expanded
  {
  }

  /** Touch start and move act exactly like the mouse handlers for one touch, and not at all otherwise. */
  lemma SingleTouchOnly(w: Widget, ts: seq<Point>, vp: Viewport)
    ensures |ts| != 1 ==> TouchStart(w, ts) == w && TouchMove(w, ts, vp) == w
    ensures |ts| == 1 ==> TouchStart(w, ts) == DragStart(w, ts[0])
    ensures |ts| == 1 ==> TouchMove(w, ts, vp) == DragMove(w, ts[0], vp)
  {
  }

  /** Resizing never increases a coordinate, caps it by the new limit and keeps an untouched one. */
  lemma ResizeCaps(w: Widget, vp: Viewport)
    ensures Resized(w, vp).position.x <= w.position.x
    ensures Resized(w, vp).position.y <= w.position.y
    ensures Resized(w, vp).position.x <= MaxX(vp) && Resized(w, vp).position.y <= MaxY(vp)
    ensures w.position.x <= MaxX(vp) ==> Resized(w, vp).position.x == w.position.x
    ensures w.position.y <= MaxY(vp) ==> Resized(w, vp).position.y == w.position.y
    ensures Resized(w, vp).position.x == w.position.x || Resized(w, vp).position.x == MaxX(vp)
    ensures Resized(w, vp).position.y == w.position.y || Resized(w, vp).position.y == MaxY(vp)
  {
  }

  /** Resize has no lower clamp: a viewport narrower than the widget pushes it past the left edge. */
  lemma ResizeMayGoNegative()
    ensures Resized(Widget(false, Point(0, 0), false, DragAnchor(0, 0, 0, 0)), Viewport(200, 300)).position
            == Point(-80, -50)
  {
  }

  /** Expanding then collapsing restores the collapsed widget exactly, position included. */
  lemma ExpandCollapseRoundTrip(w: Widget)
    requires !w.expanded
    ensures WithExpanded(w, true).expanded
    ensures WithExpanded(w, true).position == w.position
    ensures WithExpanded(WithExpanded(w, true), false) == w
  {
  }

  /** `autoOpen` expands the widget on mount and touches nothing else. */
  lemma AutoOpenExpands(vp: Viewport, autoOpen: bool)
    ensures Mounted(Initial(vp), autoOpen).expanded == autoOpen
    ensures Mounted(Initial(vp), autoOpen).position == Initial(vp).position
  {
  }

  /** The initial bottom-right position is in bounds exactly when the viewport is at least 300 x 370. */
  lemma InitialInBounds(vp: Viewport)
    ensures InBounds(Initial(vp).position, vp) <==>
              vp.width >= InitialRightInset && vp.height >= InitialBottomInset
  {
  }

  /** One event keeps the widget inside the viewport, as long as every viewport fits it. */
  lemma StepStaysInBounds(w: Widget, vp: Viewport, e: Event)
    requires Fits(vp) && InBounds(w.position, vp)
    requires e.Resize? ==> Fits(e.newViewport)
    ensures Fits(Step(w, vp, e).1) && InBounds(Step(w, vp, e).0.position, Step(w, vp, e).1)
  {
  }

  /**
   * Any sequence of mouse, touch, resize and expand events keeps the widget
   * inside the viewport, provided it starts inside and no viewport along the
   * way is smaller than the widget.
   */
  lemma {:induction false} RunStaysInBounds(w: Widget, vp: Viewport, es: seq<Event>)
    requires Fits(vp) && InBounds(w.position, vp)
    requires ResizesFit(es)
    ensures Fits(Run(w, vp, es).1) && InBounds(Run(w, vp, es).0.position, Run(w, vp, es).1)
    decreases |es|
  {
    if es != [] {
      StepStaysInBounds(w, vp, es[0]);
      var (w', vp') := Step(w, vp, es[0]);
      assert ResizesFit(es[1..]) by {
        forall i | 0 <= i < |es[1..]| && es[1..][i].Resize?
          ensures Fits(es[1..][i].newViewport)
        {
          assert es[1..][i] == es[i + 1];
        }
      }
      RunStaysInBounds(w', vp', es[1..]);
    }
  }

  /** From mount on a viewport of at least 300 x 370, every later frame is in bounds. */
  lemma MountedRunStaysInBounds(vp: Viewport, autoOpen: bool, es: seq<Event>)
    requires vp.width >= InitialRightInset && vp.height >= InitialBottomInset
    requires ResizesFit(es)
    ensures InBounds(Run(Mounted(Initial(vp), autoOpen), vp, es).0.position,
                     Run(Mounted(Initial(vp), autoOpen), vp, es).1)
  {
    RunStaysInBounds(Mounted(Initial(vp), autoOpen), vp, es);
  }

  // ---------------------------------------------------------------------------
  // Video id: `videoUrl.split('/').pop()`
  // ---------------------------------------------------------------------------

  /** JavaScript's `s.split(sep)` for a one-character separator. */
  function Split(s: string, sep: char): (parts: seq<string>)
    ensures |parts| >= 1
    decreases |s|
  {
    if s == [] then [""]
    else
      var init := Split(s[..|s| - 1], sep);
      var c := s[|s| - 1];
      if c == sep then init + [""]
      else init[..|init| - 1] + [init[|init| - 1] + [c]]
  }

  /** `parts.join(sep)`, the inverse of `Split`. */
  function Join(parts: seq<string>, sep: char): string
    requires |parts| >= 1
    decreases |parts|
  {
    if |parts| == 1 then parts[0]
    else Join(parts[..|parts| - 1], sep) + [sep] + parts[|parts| - 1]
  }

  /** The Vimeo id the player is embedded with: the text after the URL's last `/`. */
  function VideoId(url: string): string {
    var parts := Split(url, '/');
    parts[|parts| - 1]
  }

  /** Splitting loses nothing: joining the parts gives back the string, and no part holds the separator. */
  lemma {:induction false} SplitJoin(s: string, sep: char)
    ensures Join(Split(s, sep), sep) == s
    ensures forall i :: 0 <= i < |Split(s, sep)| ==> sep !in Split(s, sep)[i]
    decreases |s|
  {
    if s != [] {
      var pre, c := s[..|s| - 1], s[|s| - 1];
      assert s == pre + [c];
      SplitJoin(pre, sep);
      var init := Split(pre, sep);
      var parts := Split(s, sep);
      if c == sep {
        assert parts == init + [""];
        assert parts[..|parts| - 1] == init;
      } else {
        var k := |init| - 1;
        assert parts == init[..k] + [init[k] + [c]];
        if k > 0 {
          assert parts[..|parts| - 1] == init[..k];
          assert Join(init, sep) == Join(init[..k], sep) + [sep] + init[k];
        }
        forall i | 0 <= i < |parts| ensures sep !in parts[i] {
          if i < k { assert parts[i] == init[i]; }
        }
      }
    }
  }

  /** Appending a non-separator character extends the last part. */
  lemma LastPartExtends(s: string, c: char)
    requires c != '/'
    ensures VideoId(s + [c]) == VideoId(s) + [c]
  {
  }

  /** Appending the separator starts an empty last part. */
  lemma LastPartRestarts(s: string)
    ensures VideoId(s + ['/']) == ""
  {
  }

  /**
   * The id is the longest `/`-free suffix of the URL: it is a suffix, holds
   * no `/`, and is either the whole URL or preceded by a `/`.
   */
  lemma {:induction false} VideoIdIsLastSegment(url: string)
    ensures '/' !in VideoId(url)
    ensures |VideoId(url)| <= |url| && url[|url| - |VideoId(url)|..] == VideoId(url)
    ensures |VideoId(url)| == |url| || url[|url| - |VideoId(url)| - 1] == '/'
    decreases |url|
  {
    if url != [] {
      var pre, c := url[..|url| - 1], url[|url| - 1];
      assert url == pre + [c];
      if c == '/' {
        LastPartRestarts(pre);
      } else {
        LastPartExtends(pre, c);
        VideoIdIsLastSegment(pre);
        var id := VideoId(pre);
        assert url[|url| - |id| - 1..] == pre[|pre| - |id|..] + [c];
      }
    }
  }

  /** A `/`-free id after the last `/` of a URL is exactly what the player is given. */
  lemma {:induction false} VideoIdAfterSlash(base: string, id: string)
    requires '/' !in id
    ensures VideoId(base + "/" + id) == id
    decreases |id|
  {
    if id == "" {
      assert base + "/" + id == base + ['/'];
      LastPartRestarts(base);
    } else {
      var pre, c := id[..|id| - 1], id[|id| - 1];
      assert id == pre + [c];
      assert base + "/" + id == (base + "/" + pre) + [c];
      VideoIdAfterSlash(base, pre);
      LastPartExtends(base + "/" + pre, c);
    }
  }

  // ---------------------------------------------------------------------------
  // The component
  // ---------------------------------------------------------------------------

  /**
   * The option buttons in the expanded overlay's footer: none unless options
   * are visible and the current node has a non-empty option list.
   */
  function FooterOptions<T>(showOptions: bool, options: Option<seq<T>>): (r: seq<T>)
    ensures r != [] <==> showOptions && options.Some? && options.value != []
    ensures r != [] ==> r == options.value
  {
    if showOptions && options.Some? && |options.value| > 0 then options.value else []
  }

  class FloatingVideoWidget {
    var isExpanded: bool
    var position: Point
    var isDragging: bool
    var dragStart: DragAnchor

    function State(): Widget
      reads this
    {
      Widget(isExpanded, position, isDragging, dragStart)
    }

    /** Mount on a viewport, running the `autoOpen` effect. */
    constructor (vp: Viewport, autoOpen: bool)
      ensures State() == Mounted(Initial(vp), autoOpen)
    {
      isExpanded := false;
      position := Point(vp.width - InitialRightInset, vp.height - InitialBottomInset);
      isDragging := false;
      dragStart := DragAnchor(0, 0, 0, 0);
      if autoOpen {
        isExpanded := true;
      }
    }

    /** `handleDragStart`, reached through `handleMouseDown`. */
    method HandleDragStart(clientX: int, clientY: int)
      modifies this
      ensures State() == DragStart(old(State()), Point(clientX, clientY))
    {
      isDragging := true;
      dragStart := DragAnchor(clientX, clientY, position.x, position.y);
    }

    /** `handleDragMove`, reached through the document's `mousemove` listener. */
    method HandleDragMove(clientX: int, clientY: int, vp: Viewport)
      modifies this
      ensures State() == DragMove(old(State()), Point(clientX, clientY), vp)
    {
      if !isDragging {
        return;
      }
      var deltaX := clientX - dragStart.x;
      var deltaY := clientY - dragStart.y;
      var newX := Max(0, Min(vp.width - WidgetWidth, dragStart.startX + deltaX));
      var newY := Max(0, Min(vp.height - WidgetHeight, dragStart.startY + deltaY));
      position := Point(newX, newY);
    }

    /** `handleDragEnd`, reached through `mouseup` and `touchend`. */
    method HandleDragEnd()
      modifies this
      ensures State() == DragEnd(old(State()))
    {
      isDragging := false;
    }

    method HandleTouchStart(touches: seq<Point>)
      modifies this
      ensures State() == TouchStart(old(State()), touches)
    {
      if |touches| == 1 {
        var touch := touches[0];
        HandleDragStart(touch.x, touch.y);
      }
    }

    method HandleTouchMove(touches: seq<Point>, vp: Viewport)
      modifies this
      ensures State() == TouchMove(old(State()), touches, vp)
    {
      if |touches| == 1 {
        var touch := touches[0];
        HandleDragMove(touch.x, touch.y, vp);
      }
    }

    method HandleResize(vp: Viewport)
      modifies this
      ensures State() == Resized(old(State()), vp)
    {
      position := Point(Min(position.x, vp.width - WidgetWidth), Min(position.y, vp.height - WidgetHeight));
    }

    /** `setIsExpanded(expanded)`: maximise (true), minimise and close (false). */
    method SetExpanded(expanded: bool)
      modifies this
      ensures State() == WithExpanded(old(State()), expanded)
    {
      isExpanded := expanded;
    }
  }
}
