/** The zoomable, pannable garden card of the garden screen
    (screens/GardensListScreen.js): wheel and pinch zoom clamped to [1, 3] about
    the cursor, drag panning clamped so the scaled content still covers the card,
    and the conversion of a release point into percentages of the card, through
    the inverse of the render transform when an existing item is moved. Sizes and
    cursor positions are plain numbers handed in by the caller. */
module Viewport {

  function Min(a: real, b: real): real {
    if a <= b then a else b
  }

  function Max(a: real, b: real): real {
    if a >= b then a else b
  }

  /** `Math.max(lo, Math.min(hi, v))` */
  function Clamp(v: real, lo: real, hi: real): (r: real)
    ensures lo <= hi ==> lo <= r <= hi
    ensures lo <= v <= hi ==> r == v
    ensures v < lo ==> r == lo
    ensures lo <= hi && hi < v ==> r == hi
  {
    Max(lo, Min(hi, v))
  }

  function Abs(v: real): real {
    if v < 0.0 then -v else v
  }

  /** The largest pan along an axis of the given size at zoom z: half the overhang
      of the scaled content. */
  function MaxPan(size: real, z: real): real {
    size * (z - 1.0) / 2.0
  }

  lemma MaxPanNonNegative(size: real, z: real)
    ensures size >= 0.0 && z >= 1.0 ==> MaxPan(size, z) >= 0.0
  {
    if size >= 0.0 && z >= 1.0 {
      assert size * (z - 1.0) >= 0.0;
    }
  }

  /** The pan that keeps the content point under the cursor in place when the
      zoom goes from `prev` to `next`; `m` is the cursor's offset in the card. */
  function CursorPan(m: real, size: real, pan: real, prev: real, next: real): real
    requires prev != 0.0
  {
    var content := (m - size / 2.0 - pan) / prev;
    m - size / 2.0 - content * next
  }

  /** Zooming towards the cursor keeps the content point under it. */
  lemma CursorStaysPut(m: real, size: real, pan: real, prev: real, next: real)
    requires prev != 0.0 && next != 0.0
    ensures (m - size / 2.0 - CursorPan(m, size, pan, prev, next)) / next == (m - size / 2.0 - pan) / prev
  {
    var content := (m - size / 2.0 - pan) / prev;
    assert m - size / 2.0 - CursorPan(m, size, pan, prev, next) == content * next;
  }

  /** Zoom level and pan offset. */
  datatype View = View(zoom: real, panX: real, panY: real)

  /** The pan lies within the bounds for its zoom, along both axes of a card of
      width w and height h. */
  predicate PanWithin(v: View, w: real, h: real) {
    Abs(v.panX) <= MaxPan(w, v.zoom) && Abs(v.panY) <= MaxPan(h, v.zoom)
  }

  /** The view after a wheel or pinch step of `delta` with the cursor at (mx, my)
      in a w by h card: the zoom moves by delta within [1, 3]; at 1 the pan is
      dropped, otherwise it zooms towards the cursor and is clamped. */
  function ZoomView(v: View, delta: real, mx: real, my: real, w: real, h: real): (r: View)
    requires v.zoom != 0.0
    ensures r.zoom == Clamp(v.zoom + delta, 1.0, 3.0) && 1.0 <= r.zoom <= 3.0
    ensures r.zoom == 1.0 ==> r.panX == 0.0 && r.panY == 0.0
    ensures w >= 0.0 && h >= 0.0 ==> PanWithin(r, w, h)
    ensures r.zoom != 1.0 ==>
      r.panX == Clamp(CursorPan(mx, w, v.panX, v.zoom, r.zoom), -MaxPan(w, r.zoom), MaxPan(w, r.zoom)) &&
      r.panY == Clamp(CursorPan(my, h, v.panY, v.zoom, r.zoom), -MaxPan(h, r.zoom), MaxPan(h, r.zoom))
  {
    var z := Clamp(v.zoom + delta, 1.0, 3.0);
    if z == 1.0 then View(1.0, 0.0, 0.0)
    else
      var boundX := MaxPan(w, z);
      var boundY := MaxPan(h, z);
      MaxPanNonNegative(w, z);
      MaxPanNonNegative(h, z);
      View(z, Clamp(CursorPan(mx, w, v.panX, v.zoom, z), -boundX, boundX), Clamp(CursorPan(my, h, v.panY, v.zoom, z), -boundY, boundY))
  }

  /** At zoom 1 the only pan within the bounds is none. */
  lemma NoPanAtZoomOne(v: View, w: real, h: real)
    requires v.zoom == 1.0 && PanWithin(v, w, h)
    ensures v.panX == 0.0 && v.panY == 0.0
  {
  }

  /** A zoom step that stays inside [1, 3] and whose cursor pan needs no clamping
      keeps the content point under the cursor. */
  lemma ZoomKeepsCursor(v: View, delta: real, mx: real, my: real, w: real, h: real)
    requires v.zoom != 0.0 && 1.0 < v.zoom + delta <= 3.0
    requires Abs(CursorPan(mx, w, v.panX, v.zoom, v.zoom + delta)) <= MaxPan(w, v.zoom + delta)
    ensures var r := ZoomView(v, delta, mx, my, w, h);
      (mx - w / 2.0 - r.panX) / r.zoom == (mx - w / 2.0 - v.panX) / v.zoom
  {
    CursorStaysPut(mx, w, v.panX, v.zoom, v.zoom + delta);
  }

  // ---------------------------------------------------------------------------
  // Card coordinates

  datatype Rect = Rect(left: real, top: real, width: real, height: real)

  /** The release point is on the card, edges included. */
  predicate InCard(x: real, y: real, r: Rect) {
    r.left <= x <= r.left + r.width && r.top <= y <= r.top + r.height
  }

  /** `((client - start) / size) * 100` */
  function LinearPercent(client: real, start: real, size: real): real
    requires size != 0.0
  {
    (client - start) / size * 100.0
  }

  /** A point released on the card lies within [0, 100] in both percentages. */
  lemma InCardPercent(x: real, y: real, r: Rect)
    requires r.width > 0.0 && r.height > 0.0 && InCard(x, y, r)
    ensures 0.0 <= LinearPercent(x, r.left, r.width) <= 100.0
    ensures 0.0 <= LinearPercent(y, r.top, r.height) <= 100.0
  {
    assert (x - r.left) / r.width <= 1.0;
    assert (y - r.top) / r.height <= 1.0;
  }

  /** Where `scale(z) translate(pan / z)` about the centre draws the content
      offset c of an axis of the given size. */
  function Render(c: real, size: real, z: real, pan: real): real {
    (c - size / 2.0) * z + pan + size / 2.0
  }

  /** The content offset drawn at card offset s: the inverse of Render. */
  function ContentOffset(s: real, size: real, z: real, pan: real): real
    requires z != 0.0
  {
    (s - size / 2.0 - pan) / z + size / 2.0
  }

  lemma RenderInverse(c: real, s: real, size: real, z: real, pan: real)
    requires z != 0.0
    ensures ContentOffset(Render(c, size, z, pan), size, z, pan) == c
    ensures Render(ContentOffset(s, size, z, pan), size, z, pan) == s
  {
    assert (Render(c, size, z, pan) - size / 2.0 - pan) == (c - size / 2.0) * z;
    assert (s - size / 2.0 - pan) / z * z == s - size / 2.0 - pan;
  }

  /** The percentage an existing item is moved to by touch, along one axis: the
      plain percentage when there is neither zoom nor pan, otherwise through the
      inverse transform; then clamped to [2, 98]. */
  function RepositionPercent(client: real, start: real, size: real, v: View, pan: real): (p: real)
    requires size != 0.0 && v.zoom != 0.0
    ensures 2.0 <= p <= 98.0
  {
    var raw := if v.zoom == 1.0 && v.panX == 0.0 && v.panY == 0.0 then LinearPercent(client, start, size)
               else ContentOffset(client - start, size, v.zoom, pan) / size * 100.0;
    Clamp(raw, 2.0, 98.0)
  }

  /** Without zoom and pan the inverse transform is the identity, so the two
      branches agree and the clamped plain percentage results. */
  lemma RepositionIsInverseTransform(client: real, start: real, size: real, v: View, pan: real)
    requires size != 0.0 && v.zoom != 0.0
    requires v.zoom == 1.0 && pan == 0.0
    ensures RepositionPercent(client, start, size, v, pan) == Clamp(LinearPercent(client, start, size), 2.0, 98.0)
    ensures ContentOffset(client - start, size, v.zoom, pan) / size * 100.0 == LinearPercent(client, start, size)
  {
  }

  // ---------------------------------------------------------------------------
  // The card's zoom and pan state

  /** A stale pan ref after the garden changes: from zoom 2 with pan x 50 on a
      400 wide card, the reset draws zoom 1 and no pan but the ref still holds 50,
      so a wheel step of 0.5 at x 200 pans to 75 where the view drawn would give
      no pan. */
  lemma ZoomAfterStaleReset()
    ensures var drawn, basis := View(1.0, 0.0, 0.0), View(1.0, 50.0, 0.0);
      ZoomView(basis, 0.5, 200.0, 200.0, 400.0, 400.0).panX == 75.0 &&
      ZoomView(drawn, 0.5, 200.0, 200.0, 400.0, 400.0).panX == 0.0
  {
    assert CursorPan(200.0, 400.0, 50.0, 1.0, 1.5) == 75.0;
    assert CursorPan(200.0, 400.0, 0.0, 1.0, 1.5) == 0.0;
    assert MaxPan(400.0, 1.5) == 100.0;
  }

  class CardView {
    var zoom: real
    /** `panOffset`: the pan drawn on the card. */
    var panX: real
    var panY: real
    /** `panOffsetRef.current`: the pan a zoom step and the start of a pan read. */
    var refX: real
    var refY: real
    var isPanning: bool
    var panStartX: real
    var panStartY: real
    /** The finger distance of the previous pinch event; 0 when none. */
    var lastTouchDistance: real

    function Current(): View
      reads this
    {
      View(zoom, panX, panY)
    }

    /** The view a zoom step starts from: the zoom drawn with the pan of the ref. */
    function Basis(): View
      reads this
    {
      View(zoom, refX, refY)
    }

    /** The zoom lies in [1, 3]. */
    predicate Valid()
      reads this
    {
      1.0 <= zoom <= 3.0
    }

    /** The ref holds the pan drawn. */
    predicate Synced()
      reads this
    {
      refX == panX && refY == panY
    }

    constructor()
      ensures Valid() && Synced() && Current() == View(1.0, 0.0, 0.0) && !isPanning && lastTouchDistance == 0.0
    {
      zoom, panX, panY := 1.0, 0.0, 0.0;
      refX, refY := 0.0, 0.0;
      isPanning := false;
      panStartX, panStartY := 0.0, 0.0;
      lastTouchDistance := 0.0;
    }

    /** `setZoomLevel(1); setPanOffset({x: 0, y: 0})`, as the garden change does:
        the ref keeps the pan it had. Kept to show the defect described in the
        findings; `ResetView` is the reset the model uses. */
    method ResetViewAsWritten()
      modifies this
      ensures Valid() && Current() == View(1.0, 0.0, 0.0)
      ensures refX == old(refX) && refY == old(refY)
      ensures isPanning == old(isPanning) && lastTouchDistance == old(lastTouchDistance)
    {
      zoom, panX, panY := 1.0, 0.0, 0.0;
    }

    /** The reset with the ref cleared too, so that the next zoom step or pan
        starts from the view drawn. */
    method ResetView()
      modifies this
      ensures Valid() && Synced() && Current() == View(1.0, 0.0, 0.0)
      ensures isPanning == old(isPanning) && lastTouchDistance == old(lastTouchDistance)
    {
      zoom, panX, panY := 1.0, 0.0, 0.0;
      refX, refY := 0.0, 0.0;
    }

    /** One zoom step towards the cursor, from the ref's pan; the drawn pan and
        the ref both take the result. */
    method ZoomAt(delta: real, mx: real, my: real, w: real, h: real)
      requires Valid()
      modifies this
      ensures Valid() && Synced() && Current() == ZoomView(old(Basis()), delta, mx, my, w, h)
      ensures old(Synced()) ==> Current() == ZoomView(old(Current()), delta, mx, my, w, h)
      ensures isPanning == old(isPanning) && lastTouchDistance == old(lastTouchDistance)
    {
      var v := ZoomView(Basis(), delta, mx, my, w, h);
      zoom, panX, panY := v.zoom, v.panX, v.panY;
      refX, refY := v.panX, v.panY;
    }

    /** The wheel handler zooms only with Ctrl or Meta held. */
    method Wheel(modifier: bool, delta: real, mx: real, my: real, w: real, h: real)
      requires Valid()
      modifies this
      ensures Valid()
      ensures Current() == if modifier then ZoomView(old(Basis()), delta, mx, my, w, h) else old(Current())
      ensures modifier ==> Synced()
      ensures !modifier ==> Basis() == old(Basis())
      ensures isPanning == old(isPanning) && lastTouchDistance == old(lastTouchDistance)
    {
      if modifier {
        ZoomAt(delta, mx, my, w, h);
      }
    }

    /** A two-finger move: zooms about the pinch centre from the second event on,
        and remembers the distance. */
    method PinchMove(distance: real, delta: real, cx: real, cy: real, w: real, h: real)
      requires Valid()
      modifies this
      ensures Valid() && lastTouchDistance == distance && isPanning == old(isPanning)
      ensures Current() == if old(lastTouchDistance) > 0.0 then ZoomView(old(Basis()), delta, cx, cy, w, h) else old(Current())
      ensures old(lastTouchDistance) > 0.0 ==> Synced()
      ensures old(lastTouchDistance) <= 0.0 ==> Basis() == old(Basis())
    {
      if lastTouchDistance > 0.0 {
        ZoomAt(delta, cx, cy, w, h);
      }
      lastTouchDistance := distance;
    }

    method PinchEnd()
      modifies this
      ensures lastTouchDistance == 0.0 && Current() == old(Current()) && Basis() == old(Basis()) && isPanning == old(isPanning)
    {
      lastTouchDistance := 0.0;
    }

    /** Mouse down, or a one-finger touch start: panning starts only when zoomed
        in and not on an item, and the grab offset is taken against the ref's pan;
        `blocked` is true on an item (or, for touch, with other than one finger). */
    method StartPan(x: real, y: real, blocked: bool)
      modifies this
      ensures isPanning == (old(isPanning) || (old(zoom) > 1.0 && !blocked))
      ensures old(zoom) > 1.0 && !blocked ==> panStartX == x - old(refX) && panStartY == y - old(refY)
      ensures Current() == old(Current()) && Basis() == old(Basis()) && lastTouchDistance == old(lastTouchDistance)
    {
      if zoom > 1.0 && !blocked {
        isPanning := true;
        panStartX, panStartY := x - refX, y - refY;
      }
    }

    /** A move while panning follows the cursor, clamped to the bounds; the drawn
        pan and the ref both take it. */
    method MovePan(x: real, y: real, w: real, h: real)
      requires Valid()
      modifies this
      ensures Valid() && zoom == old(zoom) && isPanning == old(isPanning)
      ensures old(isPanning) ==>
        Synced() &&
        panX == Clamp(x - panStartX, -MaxPan(w, zoom), MaxPan(w, zoom)) &&
        panY == Clamp(y - panStartY, -MaxPan(h, zoom), MaxPan(h, zoom))
      ensures old(isPanning) && w >= 0.0 && h >= 0.0 ==> PanWithin(Current(), w, h)
      ensures !old(isPanning) ==> Current() == old(Current()) && Basis() == old(Basis())
      ensures panStartX == old(panStartX) && panStartY == old(panStartY) && lastTouchDistance == old(lastTouchDistance)
    {
      if isPanning {
        var boundX, boundY := MaxPan(w, zoom), MaxPan(h, zoom);
        MaxPanNonNegative(w, zoom);
        MaxPanNonNegative(h, zoom);
        panX := Clamp(x - panStartX, -boundX, boundX);
        panY := Clamp(y - panStartY, -boundY, boundY);
        refX, refY := panX, panY;
      }
    }

    method EndPan()
      modifies this
      ensures !isPanning && Current() == old(Current()) && Basis() == old(Basis()) && lastTouchDistance == old(lastTouchDistance)
    {
      isPanning := false;
    }
  }
}
