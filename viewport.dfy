/** The canvas camera: an affine map `screen = canvas * zoom + offset` relative to
    the container's top-left corner, driven by mouse, wheel and touch handlers,
    with a one-slot saved viewport for zoom-to-card and back, and an animation
    flag that silences the input handlers while a transition runs. */
module CanvasViewport {
  import opened Domain

  const MIN_ZOOM: real := 0.15
  const MAX_ZOOM: real := 10.0
  const ZOOM_STEP: real := 0.1

  datatype ViewState = ViewState(offsetX: real, offsetY: real, zoom: real)

  /** What the container element reports: its bounding rectangle's top-left
      corner and its client width and height. */
  datatype Container = Container(left: real, top: real, width: real, height: real)

  function Min(a: real, b: real): real { if a <= b then a else b }
  function Max(a: real, b: real): real { if a >= b then a else b }

  /** `Math.min(MAX_ZOOM, Math.max(MIN_ZOOM, z))`. */
  function ClampZoom(z: real): (r: real)
    ensures MIN_ZOOM <= r <= MAX_ZOOM
    ensures MIN_ZOOM <= z <= MAX_ZOOM ==> r == z
    ensures z < MIN_ZOOM ==> r == MIN_ZOOM
    ensures z > MAX_ZOOM ==> r == MAX_ZOOM
  {
    Min(MAX_ZOOM, Max(MIN_ZOOM, z))
  }

  /** The canvas point shown at container-relative position `(px, py)`. */
  function ToCanvas(v: ViewState, px: real, py: real): (p: Point)
    requires v.zoom > 0.0
    ensures p.x * v.zoom + v.offsetX == px && p.y * v.zoom + v.offsetY == py
  {
    Point((px - v.offsetX) / v.zoom, (py - v.offsetY) / v.zoom)
  }

  /** The container-relative position at which canvas point `p` is drawn. */
  function ToScreen(v: ViewState, p: Point): (q: Point)
    ensures v.zoom > 0.0 ==> (q.x - v.offsetX) / v.zoom == p.x && (q.y - v.offsetY) / v.zoom == p.y
  {
    Point(p.x * v.zoom + v.offsetX, p.y * v.zoom + v.offsetY)
  }

  lemma ScreenCanvasRoundTrip(v: ViewState, p: Point, px: real, py: real)
    requires v.zoom > 0.0
    ensures ToCanvas(v, ToScreen(v, p).x, ToScreen(v, p).y) == p
    ensures ToScreen(v, ToCanvas(v, px, py)) == Point(px, py)
  {
  }

  /** `screenToCanvas`: the origin when the container is not mounted, otherwise
      the canvas point under the client position `(screenX, screenY)`. */
  function ScreenToCanvas(v: ViewState, rect: Option<Container>, screenX: real, screenY: real): (p: Point)
    requires v.zoom > 0.0
    ensures rect.None? ==> p == Point(0.0, 0.0)
    ensures rect.Some? ==> ToScreen(v, p) == Point(screenX - rect.value.left, screenY - rect.value.top)
  {
    match rect
    case None => Point(0.0, 0.0)
    case Some(r) =>
      ScreenCanvasRoundTrip(v, Point(0.0, 0.0), screenX - r.left, screenY - r.top);
      ToCanvas(v, screenX - r.left, screenY - r.top)
  }

  lemma DivCancel(a: real, z: real, nz: real)
    requires z > 0.0 && nz > 0.0
    ensures (a * (nz / z)) / nz == a / z
  {
    assert a * (nz / z) == (a / z) * nz;
  }

  /** Change the zoom to `newZoom`, rescaling the offsets about the
      container-relative point `(cx, cy)`. */
  function ZoomAround(prev: ViewState, cx: real, cy: real, newZoom: real): (r: ViewState)
    requires prev.zoom > 0.0 && newZoom > 0.0
    ensures r.zoom == newZoom
    ensures ToCanvas(r, cx, cy) == ToCanvas(prev, cx, cy)
  {
    var ratio := newZoom / prev.zoom;
    var r := ViewState(cx - (cx - prev.offsetX) * ratio, cy - (cy - prev.offsetY) * ratio, newZoom);
    DivCancel(cx - prev.offsetX, prev.zoom, newZoom);
    DivCancel(cy - prev.offsetY, prev.zoom, newZoom);
    r
  }

  /** The wheel step: scrolling down (`deltaY > 0`) zooms out by one step,
      anything else zooms in by one step, clamped to the zoom bounds and
      anchored at the pointer. */
  function WheelZoom(prev: ViewState, mouseX: real, mouseY: real, deltaY: real): (r: ViewState)
    requires prev.zoom > 0.0
    ensures MIN_ZOOM <= r.zoom <= MAX_ZOOM
    ensures deltaY > 0.0 ==> r.zoom == ClampZoom(prev.zoom - ZOOM_STEP)
    ensures deltaY <= 0.0 ==> r.zoom == ClampZoom(prev.zoom + ZOOM_STEP)
    ensures ToCanvas(r, mouseX, mouseY) == ToCanvas(prev, mouseX, mouseY)
  {
    var delta := if deltaY > 0.0 then -ZOOM_STEP else ZOOM_STEP;
    ZoomAround(prev, mouseX, mouseY, ClampZoom(prev.zoom + delta))
  }

  /** From a zoom inside the bounds, scrolling down never zooms in and scrolling
      up never zooms out. */
  lemma WheelDirection(prev: ViewState, mouseX: real, mouseY: real, deltaY: real)
    requires MIN_ZOOM <= prev.zoom <= MAX_ZOOM
    ensures deltaY > 0.0 ==> WheelZoom(prev, mouseX, mouseY, deltaY).zoom <= prev.zoom
    ensures deltaY <= 0.0 ==> WheelZoom(prev, mouseX, mouseY, deltaY).zoom >= prev.zoom
  {
  }

  /** The pinch zoom level `clamp(zoom * (dist / lastDist))` in floating point.
      A zero previous distance makes the scale infinite, which clamps to the
      maximum; `0 / 0` makes it NaN, where the result is `None`. */
  function PinchZoomLevel(zoom: real, dist: real, lastDist: real): (r: Option<real>)
    requires zoom > 0.0 && dist >= 0.0 && lastDist >= 0.0
    ensures r.None? <==> dist == 0.0 && lastDist == 0.0
    ensures r.Some? ==> MIN_ZOOM <= r.value <= MAX_ZOOM
    ensures lastDist > 0.0 ==> r == Some(ClampZoom(zoom * (dist / lastDist)))
  {
    if lastDist > 0.0 then Some(ClampZoom(zoom * (dist / lastDist)))
    else if dist > 0.0 then Some(MAX_ZOOM)
    else None
  }

  /** Spreading the fingers never zooms out of a level inside the bounds, and
      pinching them together never zooms in. */
  lemma PinchDirection(zoom: real, dist: real, lastDist: real)
    requires MIN_ZOOM <= zoom <= MAX_ZOOM && dist >= 0.0 && lastDist > 0.0
    ensures dist >= lastDist ==> PinchZoomLevel(zoom, dist, lastDist).value >= zoom
    ensures dist <= lastDist ==> PinchZoomLevel(zoom, dist, lastDist).value <= zoom
  {
    var scale := dist / lastDist;
    assert scale * lastDist == dist;
    if dist >= lastDist {
      MulAtLeast(lastDist, scale);
      MulAtLeast(zoom, scale);
    }
    if dist <= lastDist {
      MulAtMost(lastDist, scale);
      MulAtMost(zoom, scale);
    }
  }

  lemma MulAtLeast(z: real, s: real)
    requires z > 0.0 && s >= 0.0
    ensures z * s >= z <==> s >= 1.0
  {
    assert z * s - z == z * (s - 1.0);
  }

  lemma MulAtMost(z: real, s: real)
    requires z > 0.0 && s >= 0.0
    ensures z * s <= z <==> s <= 1.0
  {
    assert z - z * s == z * (1.0 - s);
  }

  /** The two-finger zoom: anchored at the touch midpoint. */
  function PinchZoom(prev: ViewState, cx: real, cy: real, newZoom: real): (r: ViewState)
    requires prev.zoom > 0.0 && MIN_ZOOM <= newZoom <= MAX_ZOOM
    ensures r.zoom == newZoom
    ensures ToCanvas(r, cx, cy) == ToCanvas(prev, cx, cy)
  {
    ZoomAround(prev, cx, cy, newZoom)
  }

  /** The offsets that keep the grab point `(startX, startY)` (pointer minus
      offset at press time) under the pointer at `(x, y)`. */
  function PanTo(prev: ViewState, startX: real, startY: real, x: real, y: real): (r: ViewState)
    ensures r.zoom == prev.zoom
    ensures x - r.offsetX == startX && y - r.offsetY == startY
  {
    ViewState(x - startX, y - startY, prev.zoom)
  }

  /** Panning drags the canvas with the pointer: the canvas point pressed at
      `(px, py)` is the point under the pointer wherever it moves. */
  lemma PanKeepsGrabPoint(v: ViewState, px: real, py: real, x: real, y: real)
    requires v.zoom > 0.0
    ensures ToCanvas(PanTo(v, px - v.offsetX, py - v.offsetY, x, y), x, y) == ToCanvas(v, px, py)
  {
  }

  /** The view that fits a `cardW` by `cardH` card at `(cardX, cardY)` into a
      `vw` by `vh` container and centres it. */
  function FitCard(vw: real, vh: real, cardX: real, cardY: real, cardW: real, cardH: real): (r: ViewState)
    requires vw > 0.0 && vh > 0.0 && cardW > 0.0 && cardH > 0.0
    ensures r.zoom == Min(vw / cardW, vh / cardH) && r.zoom > 0.0
    ensures ToScreen(r, Point(cardX + cardW / 2.0, cardY + cardH / 2.0)) == Point(vw / 2.0, vh / 2.0)
    ensures cardW * r.zoom <= vw && cardH * r.zoom <= vh
    ensures cardW * r.zoom == vw || cardH * r.zoom == vh
  {
    var z := Min(vw / cardW, vh / cardH);
    FitsWithin(cardW, vw, z);
    FitsWithin(cardH, vh, z);
    ViewState((vw - cardW * z) / 2.0 - cardX * z, (vh - cardH * z) / 2.0 - cardY * z, z)
  }

  lemma FitsWithin(size: real, room: real, z: real)
    requires size > 0.0 && room > 0.0 && 0.0 < z <= room / size
    ensures size * z <= room
    ensures z == room / size ==> size * z == room
  {
    assert size * (room / size) == room;
  }

  /** The camera state of `useCanvasViewport`: the viewport, the animation flag
      and the refs the handlers share. */
  class Viewport {
    var offsetX: real
    var offsetY: real
    var zoom: real
    var isAnimating: bool
    var isPanning: bool
    var panStartX: real
    var panStartY: real
    var lastTouchDist: Option<real>
    var savedViewport: Option<ViewState>

    /** Every zoom the camera can hold is positive, and a recorded touch
        distance is a length. */
    ghost predicate Valid()
      reads this
    {
      zoom > 0.0
      && (savedViewport.Some? ==> savedViewport.value.zoom > 0.0)
      && (lastTouchDist.Some? ==> lastTouchDist.value >= 0.0)
    }

    function View(): ViewState
      reads this
    {
      ViewState(offsetX, offsetY, zoom)
    }

    constructor ()
      ensures Valid()
      ensures View() == ViewState(0.0, 0.0, 1.0)
      ensures !isAnimating && !isPanning
      ensures panStartX == 0.0 && panStartY == 0.0
      ensures lastTouchDist.None? && savedViewport.None?
    {
      offsetX, offsetY, zoom := 0.0, 0.0, 1.0;
      isAnimating := false;
      isPanning := false;
      panStartX, panStartY := 0.0, 0.0;
      lastTouchDist := None;
      savedViewport := None;
    }

    /** `zoomToCard`: saves the current viewport in the single slot
        (overwriting it), fits the card, and starts the animation. */
    method ZoomToCard(container: Option<Container>, cardX: real, cardY: real, cardW: real, cardH: real)
      requires Valid()
      requires container.Some? ==> container.value.width > 0.0 && container.value.height > 0.0
      requires cardW > 0.0 && cardH > 0.0
      modifies this
      ensures Valid()
      ensures container.None? ==> View() == old(View()) && savedViewport == old(savedViewport)
                                  && isAnimating == old(isAnimating)
      ensures container.Some? ==>
                savedViewport == Some(old(View()))
                && View() == FitCard(container.value.width, container.value.height, cardX, cardY, cardW, cardH)
                && isAnimating
      ensures isPanning == old(isPanning) && panStartX == old(panStartX) && panStartY == old(panStartY)
      ensures lastTouchDist == old(lastTouchDist)
    {
      if container.None? {
        return;
      }
      var vw := container.value.width;
      var vh := container.value.height;
      savedViewport := Some(View());
      var target := FitCard(vw, vh, cardX, cardY, cardW, cardH);
      isAnimating := true;
      offsetX, offsetY, zoom := target.offsetX, target.offsetY, target.zoom;
    }

    /** `zoomBack`: restores the saved viewport and empties the slot; a no-op
        when nothing is saved. */
    method ZoomBack()
      requires Valid()
      modifies this
      ensures Valid()
      ensures old(savedViewport).None? ==> View() == old(View()) && isAnimating == old(isAnimating)
      ensures old(savedViewport).Some? ==> View() == old(savedViewport).value && isAnimating
      ensures savedViewport.None?
      ensures isPanning == old(isPanning) && panStartX == old(panStartX) && panStartY == old(panStartY)
      ensures lastTouchDist == old(lastTouchDist)
    {
      if savedViewport.None? {
        return;
      }
      isAnimating := true;
      var saved := savedViewport.value;
      offsetX, offsetY, zoom := saved.offsetX, saved.offsetY, saved.zoom;
      savedViewport := None;
    }

    /** Zooming to a card and back returns the camera to where it was. */
    method ZoomToCardAndBack(container: Container, cardX: real, cardY: real, cardW: real, cardH: real)
      requires Valid()
      requires container.width > 0.0 && container.height > 0.0 && cardW > 0.0 && cardH > 0.0
      modifies this
      ensures Valid()
      ensures View() == old(View()) && savedViewport.None? && isAnimating
    {
      ZoomToCard(Some(container), cardX, cardY, cardW, cardH);
      ZoomBack();
    }

    /** `resetViewport`: back to the identity view, animated. */
    method ResetViewport()
      requires Valid()
      modifies this
      ensures Valid()
      ensures View() == ViewState(0.0, 0.0, 1.0) && isAnimating
      ensures isPanning == old(isPanning) && panStartX == old(panStartX) && panStartY == old(panStartY)
      ensures lastTouchDist == old(lastTouchDist) && savedViewport == old(savedViewport)
    {
      isAnimating := true;
      offsetX, offsetY, zoom := 0.0, 0.0, 1.0;
    }

    /** The transition timer firing. */
    method FinishAnimation()
      modifies this
      ensures !isAnimating
      ensures View() == old(View()) && isPanning == old(isPanning)
      ensures panStartX == old(panStartX) && panStartY == old(panStartY)
      ensures lastTouchDist == old(lastTouchDist) && savedViewport == old(savedViewport)
    {
      isAnimating := false;
    }

    /** Pressing the middle button anywhere, or the left button on the canvas
        background, starts a pan and records the grab point. */
    method MouseDown(button: int, onBackground: bool, clientX: real, clientY: real)
      requires Valid()
      modifies this
      ensures Valid()
      ensures View() == old(View()) && isAnimating == old(isAnimating)
      ensures lastTouchDist == old(lastTouchDist) && savedViewport == old(savedViewport)
      ensures var starts := !old(isAnimating) && (button == 1 || (button == 0 && onBackground));
              if starts then isPanning && panStartX == clientX - offsetX && panStartY == clientY - offsetY
              else isPanning == old(isPanning) && panStartX == old(panStartX) && panStartY == old(panStartY)
    {
      if isAnimating {
        return;
      }
      if button == 1 || (button == 0 && onBackground) {
        isPanning := true;
        panStartX, panStartY := clientX - offsetX, clientY - offsetY;
      }
    }

    /** While panning, the offsets follow the pointer. */
    method MouseMove(clientX: real, clientY: real)
      requires Valid()
      modifies this
      ensures Valid()
      ensures !old(isPanning) || old(isAnimating) ==> View() == old(View())
      ensures old(isPanning) && !old(isAnimating) ==> View() == PanTo(old(View()), panStartX, panStartY, clientX, clientY)
      ensures isAnimating == old(isAnimating) && isPanning == old(isPanning)
      ensures panStartX == old(panStartX) && panStartY == old(panStartY)
      ensures lastTouchDist == old(lastTouchDist) && savedViewport == old(savedViewport)
    {
      if !isPanning || isAnimating {
        return;
      }
      var next := PanTo(View(), panStartX, panStartY, clientX, clientY);
      offsetX, offsetY := next.offsetX, next.offsetY;
    }

    /** Mouse up and mouse leave end the pan. */
    method MouseUp()
      modifies this
      ensures !isPanning
      ensures View() == old(View()) && isAnimating == old(isAnimating)
      ensures panStartX == old(panStartX) && panStartY == old(panStartY)
      ensures lastTouchDist == old(lastTouchDist) && savedViewport == old(savedViewport)
    {
      isPanning := false;
    }

    /** One wheel event at client position `(clientX, clientY)`. */
    method Wheel(rect: Option<Container>, clientX: real, clientY: real, deltaY: real)
      requires Valid()
      modifies this
      ensures Valid()
      ensures old(isAnimating) || rect.None? ==> View() == old(View())
      ensures !old(isAnimating) && rect.Some? ==>
                View() == WheelZoom(old(View()), clientX - rect.value.left, clientY - rect.value.top, deltaY)
      ensures isAnimating == old(isAnimating) && isPanning == old(isPanning)
      ensures panStartX == old(panStartX) && panStartY == old(panStartY)
      ensures lastTouchDist == old(lastTouchDist) && savedViewport == old(savedViewport)
    {
      if isAnimating {
        return;
      }
      if rect.None? {
        return;
      }
      var next := WheelZoom(View(), clientX - rect.value.left, clientY - rect.value.top, deltaY);
      offsetX, offsetY, zoom := next.offsetX, next.offsetY, next.zoom;
    }

    /** One finger on the background starts a pan; two fingers stop panning
        and record their distance `dist`. */
    method TouchStart(touches: seq<Point>, onBackground: bool, dist: real)
      requires Valid()
      requires |touches| == 2 ==> IsSqrt(dist, SquaredDistance(touches[0], touches[1]))
      modifies this
      ensures Valid()
      ensures View() == old(View()) && isAnimating == old(isAnimating) && savedViewport == old(savedViewport)
      ensures old(isAnimating) || (|touches| != 1 && |touches| != 2) || (|touches| == 1 && !onBackground) ==>
                isPanning == old(isPanning) && panStartX == old(panStartX) && panStartY == old(panStartY)
                && lastTouchDist == old(lastTouchDist)
      ensures !old(isAnimating) && |touches| == 1 && onBackground ==>
                isPanning && panStartX == touches[0].x - offsetX && panStartY == touches[0].y - offsetY
                && lastTouchDist == old(lastTouchDist)
      ensures !old(isAnimating) && |touches| == 2 ==>
                !isPanning && lastTouchDist == Some(dist)
                && panStartX == old(panStartX) && panStartY == old(panStartY)
    {
      if isAnimating {
        return;
      }
      if |touches| == 1 {
        if onBackground {
          isPanning := true;
          panStartX, panStartY := touches[0].x - offsetX, touches[0].y - offsetY;
        }
      } else if |touches| == 2 {
        isPanning := false;
        lastTouchDist := Some(dist);
      }
    }

    /** One finger pans; two fingers zoom about their midpoint by the ratio
        of the new distance to the last one. The distance is recorded before
        the container is looked up. */
    method TouchMove(touches: seq<Point>, rect: Option<Container>, dist: real)
      requires Valid()
      requires |touches| == 2 ==> IsSqrt(dist, SquaredDistance(touches[0], touches[1]))
      modifies this
      ensures Valid()
      ensures isAnimating == old(isAnimating) && isPanning == old(isPanning)
      ensures panStartX == old(panStartX) && panStartY == old(panStartY) && savedViewport == old(savedViewport)
      ensures var pans := |touches| == 1 && old(isPanning);
              var pinches := !pans && |touches| == 2 && old(lastTouchDist).Some?;
              if old(isAnimating) || (!pans && !pinches) then
                View() == old(View()) && lastTouchDist == old(lastTouchDist)
              else if pans then
                View() == PanTo(old(View()), panStartX, panStartY, touches[0].x, touches[0].y)
                && lastTouchDist == old(lastTouchDist)
              else
                lastTouchDist == Some(dist)
                && var level := PinchZoomLevel(old(zoom), dist, old(lastTouchDist).value);
                   if rect.None? || level.None? then View() == old(View())
                   else View() == PinchZoom(old(View()), Midpoint(touches[0], touches[1]).x - rect.value.left,
                                            Midpoint(touches[0], touches[1]).y - rect.value.top, level.value)
    {
      if isAnimating {
        return;
      }
      if |touches| == 1 && isPanning {
        var next := PanTo(View(), panStartX, panStartY, touches[0].x, touches[0].y);
        offsetX, offsetY := next.offsetX, next.offsetY;
      } else if |touches| == 2 && lastTouchDist.Some? {
        var level := PinchZoomLevel(zoom, dist, lastTouchDist.value);
        lastTouchDist := Some(dist);
        var mid := Midpoint(touches[0], touches[1]);
        if rect.None? {
          return;
        }
        if level.Some? {
          var next := PinchZoom(View(), mid.x - rect.value.left, mid.y - rect.value.top, level.value);
          offsetX, offsetY, zoom := next.offsetX, next.offsetY, next.zoom;
        }
      }
    }

    /** Lifting the fingers ends both panning and pinching. */
    method TouchEnd()
      modifies this
      ensures !isPanning && lastTouchDist.None?
      ensures View() == old(View()) && isAnimating == old(isAnimating)
      ensures panStartX == old(panStartX) && panStartY == old(panStartY) && savedViewport == old(savedViewport)
    {
      isPanning := false;
      lastTouchDist := None;
    }
  }

  function SquaredDistance(a: Point, b: Point): real
  {
    (a.x - b.x) * (a.x - b.x) + (a.y - b.y) * (a.y - b.y)
  }

  function Midpoint(a: Point, b: Point): Point
  {
    Point((a.x + b.x) / 2.0, (a.y + b.y) / 2.0)
  }
}
