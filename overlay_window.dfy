/** The capture overlay: where the fixed-size capture rectangle lands for a
    cursor position, and how the green border and white corner markers are
    laid out around it. */
module Overlay {
  import opened Settings

  datatype Point = Point(x: int, y: int)

  /** `System.Drawing.Rectangle`: a corner and a size; `Right` and `Bottom` are exclusive. */
  datatype Rectangle = Rectangle(x: int, y: int, width: int, height: int) {
    function Left(): int { x }
    function Top(): int { y }
    function Right(): int { x + width }
    function Bottom(): int { y + height }

    /** `inner` lies within this rectangle. */
    predicate Encloses(inner: Rectangle) {
      Left() <= inner.Left() && inner.Right() <= Right()
      && Top() <= inner.Top() && inner.Bottom() <= Bottom()
    }
  }

  const BorderThickness := 3
  const CornerLength := 10
  const CornerThickness := 2

  function Max(a: int, b: int): int { if a >= b then a else b }
  function Min(a: int, b: int): int { if a <= b then a else b }

  /** C#'s `n / 2` on `int`, which truncates toward zero. */
  function Half(n: int): (r: int)
    ensures n >= 0 ==> 0 <= n - 2 * r <= 1
    ensures n <= 0 ==> -1 <= n - 2 * r <= 0
  {
    if n >= 0 then n / 2 else -((-n) / 2)
  }

  /** One axis of the capture placement: the centre is the cursor coordinate,
      clamped to `[lo + half, hi - half]` with the lower bound winning, and the
      result is the centre minus `half`. */
  function ClampAxis(lo: int, hi: int, m: int, size: int): (r: int)
    ensures r >= lo
    ensures lo + 2 * Half(size) <= hi ==> r <= hi - 2 * Half(size)
    ensures m < lo + Half(size) ==> r == lo
    ensures lo + Half(size) <= m <= hi - Half(size) ==> r == m - Half(size)
    ensures lo + Half(size) <= hi - Half(size) < m ==> r == hi - 2 * Half(size)
    ensures lo + Half(size) > hi - Half(size) ==> r == lo
  {
    Max(lo + Half(size), Min(m, hi - Half(size))) - Half(size)
  }

  /** The capture rectangle for cursor `mouse` on a monitor with bounds `screen`. */
  function CaptureRect(mouse: Point, screen: Rectangle, w: int, h: int): (r: Rectangle)
    ensures r.width == w && r.height == h
    ensures r.Left() >= screen.Left() && r.Top() >= screen.Top()
    ensures screen.Left() + 2 * Half(w) <= screen.Right() ==> r.Left() <= screen.Right() - 2 * Half(w)
    ensures screen.Top() + 2 * Half(h) <= screen.Bottom() ==> r.Top() <= screen.Bottom() - 2 * Half(h)
    ensures screen.Left() + Half(w) <= mouse.x <= screen.Right() - Half(w) ==> r.Left() == mouse.x - Half(w)
    ensures screen.Top() + Half(h) <= mouse.y <= screen.Bottom() - Half(h) ==> r.Top() == mouse.y - Half(h)
    ensures screen.Left() + Half(w) > screen.Right() - Half(w) ==> r.Left() == screen.Left()
    ensures screen.Top() + Half(h) > screen.Bottom() - Half(h) ==> r.Top() == screen.Top()
    ensures mouse.x < screen.Left() + Half(w) ==> r.Left() == screen.Left()
    ensures mouse.y < screen.Top() + Half(h) ==> r.Top() == screen.Top()
    ensures screen.Left() + 2 * Half(w) <= screen.Right() && mouse.x > screen.Right() - Half(w) ==>
              r.Left() == screen.Right() - 2 * Half(w)
    ensures screen.Top() + 2 * Half(h) <= screen.Bottom() && mouse.y > screen.Bottom() - Half(h) ==>
              r.Top() == screen.Bottom() - 2 * Half(h)
  {
    Rectangle(ClampAxis(screen.Left(), screen.Right(), mouse.x, w),
              ClampAxis(screen.Top(), screen.Bottom(), mouse.y, h), w, h)
  }

  /** For an even, non-negative capture size that fits on the monitor, the
      whole capture rectangle lies on that monitor. */
  lemma CaptureInsideScreen(mouse: Point, screen: Rectangle, w: int, h: int)
    requires 0 <= w && w % 2 == 0 && 0 <= h && h % 2 == 0
    requires w <= screen.width && h <= screen.height
    ensures screen.Encloses(CaptureRect(mouse, screen, w, h))
  {
    assert 2 * Half(w) == w && 2 * Half(h) == h;
  }

  /** Moving the cursor right (down) never moves the capture rectangle left (up). */
  lemma CaptureMonotone(m1: Point, m2: Point, screen: Rectangle, w: int, h: int)
    requires m1.x <= m2.x && m1.y <= m2.y
    ensures CaptureRect(m1, screen, w, h).x <= CaptureRect(m2, screen, w, h).x
    ensures CaptureRect(m1, screen, w, h).y <= CaptureRect(m2, screen, w, h).y
  {
  }

  function Translate(r: Rectangle, d: Point): Rectangle {
    Rectangle(r.x + d.x, r.y + d.y, r.width, r.height)
  }

  /** `PointToClient` for a window whose client area starts at `origin`:
      shifting the result back by the origin gives the screen point. */
  function PointToClient(p: Point, origin: Point): (r: Point)
    ensures Point(r.x + origin.x, r.y + origin.y) == p
  {
    Point(p.x - origin.x, p.y - origin.y)
  }

  /** `RectangleToClient` for a window whose client area starts at `origin`:
      the same size, and moving it by the origin gives the screen rectangle. */
  function RectangleToClient(r: Rectangle, origin: Point): (c: Rectangle)
    ensures c.width == r.width && c.height == r.height
    ensures Translate(c, origin) == r
  {
    Rectangle(r.x - origin.x, r.y - origin.y, r.width, r.height)
  }

  /** Clamping commutes with a translation of cursor and bounds. */
  lemma ClampAxisTranslate(lo: int, hi: int, m: int, size: int, d: int)
    ensures ClampAxis(lo - d, hi - d, m - d, size) == ClampAxis(lo, hi, m, size) - d
  {
  }

  /** The clamp computed from client coordinates is the capture rectangle
      moved into the client area of a window whose client area starts at `origin`. */
  lemma ClientCaptureRect(mouse: Point, screen: Rectangle, origin: Point, w: int, h: int)
    ensures var m := PointToClient(mouse, origin);
            var b := RectangleToClient(screen, origin);
            Translate(CaptureRect(mouse, screen, w, h), Point(-origin.x, -origin.y))
              == Rectangle(Max(b.Left() + Half(w), Min(m.x, b.Right() - Half(w))) - Half(w),
                           Max(b.Top() + Half(h), Min(m.y, b.Bottom() - Half(h))) - Half(h), w, h)
  {
    ClampAxisTranslate(screen.Left(), screen.Right(), mouse.x, w, origin.x);
    ClampAxisTranslate(screen.Top(), screen.Bottom(), mouse.y, h, origin.y);
  }

  /** The green border: top, bottom, left and right strips of thickness 3. */
  function BorderStrips(r: Rectangle): (s: seq<Rectangle>)
    ensures |s| == 4
    ensures s[0].width == s[1].width == r.width && s[0].height == s[1].height == BorderThickness
    ensures s[2].height == s[3].height == r.height && s[2].width == s[3].width == BorderThickness
  {
    [ Rectangle(r.x, r.y, r.width, BorderThickness),
      Rectangle(r.x, r.y + r.height - BorderThickness, r.width, BorderThickness),
      Rectangle(r.x, r.y, BorderThickness, r.height),
      Rectangle(r.x + r.width - BorderThickness, r.y, BorderThickness, r.height) ]
  }

  /** The eight white corner segments, a horizontal and a vertical one per
      corner in the order top-left, top-right, bottom-left, bottom-right. */
  function CornerSegments(r: Rectangle): (s: seq<Rectangle>)
    ensures |s| == 8
    ensures forall k :: 0 <= k < 8 && k % 2 == 0 ==> s[k].width == CornerLength && s[k].height == CornerThickness
    ensures forall k :: 0 <= k < 8 && k % 2 == 1 ==> s[k].width == CornerThickness && s[k].height == CornerLength
  {
    [ Rectangle(r.x, r.y, CornerLength, CornerThickness),
      Rectangle(r.x, r.y, CornerThickness, CornerLength),
      Rectangle(r.x + r.width - CornerLength, r.y, CornerLength, CornerThickness),
      Rectangle(r.x + r.width - CornerThickness, r.y, CornerThickness, CornerLength),
      Rectangle(r.x, r.y + r.height - CornerThickness, CornerLength, CornerThickness),
      Rectangle(r.x, r.y + r.height - CornerLength, CornerThickness, CornerLength),
      Rectangle(r.x + r.width - CornerLength, r.y + r.height - CornerThickness, CornerLength, CornerThickness),
      Rectangle(r.x + r.width - CornerLength, r.y + r.height - CornerLength, CornerThickness, CornerLength) ]
  }

  /** Each border strip is flush with its own edge, spans the whole of it, and
      stays inside the rectangle when the rectangle is at least 3 by 3. */
  lemma BorderStripsFlush(r: Rectangle)
    ensures var s := BorderStrips(r);
            && s[0].Top() == r.Top() && s[0].Left() == r.Left() && s[0].Right() == r.Right()
            && s[1].Bottom() == r.Bottom() && s[1].Left() == r.Left() && s[1].Right() == r.Right()
            && s[2].Left() == r.Left() && s[2].Top() == r.Top() && s[2].Bottom() == r.Bottom()
            && s[3].Right() == r.Right() && s[3].Top() == r.Top() && s[3].Bottom() == r.Bottom()
            && (r.width >= BorderThickness && r.height >= BorderThickness ==>
                  forall k :: 0 <= k < 4 ==> r.Encloses(s[k]))
  {
  }

  /** Segments 0 to 6 each touch their corner of the rectangle. Segment 7,
      the vertical one at the bottom right, is shifted by the corner length
      rather than its thickness: it reaches the bottom edge but its right edge
      stops 8 pixels short of the rectangle's. */
  lemma CornerSegmentsPlacement(r: Rectangle)
    ensures var c := CornerSegments(r);
            && c[0].Left() == r.Left() && c[0].Top() == r.Top()
            && c[1].Left() == r.Left() && c[1].Top() == r.Top()
            && c[2].Right() == r.Right() && c[2].Top() == r.Top()
            && c[3].Right() == r.Right() && c[3].Top() == r.Top()
            && c[4].Left() == r.Left() && c[4].Bottom() == r.Bottom()
            && c[5].Left() == r.Left() && c[5].Bottom() == r.Bottom()
            && c[6].Right() == r.Right() && c[6].Bottom() == r.Bottom()
            && c[7].Right() == r.Right() - (CornerLength - CornerThickness) && c[7].Bottom() == r.Bottom()
            && (r.width >= CornerLength && r.height >= CornerLength ==>
                  forall k :: 0 <= k < 8 ==> r.Encloses(c[k]))
  {
  }

  /** A composition sprite: `Offset` and `Size` are the only properties written. */
  class SpriteVisual {
    var offset: Point
    var size: Point

    constructor ()
      ensures offset == Point(0, 0) && size == Point(0, 0)
    {
      offset := Point(0, 0);
      size := Point(0, 0);
    }

    function Bounds(): Rectangle
      reads this
    {
      Rectangle(offset.x, offset.y, size.x, size.y)
    }
  }

  /** The overlay form. `origin` is where its client area starts on the
      virtual screen; `composed` stands for the compositor and root visual
      having been created. */
  class OverlayWindow {
    const settings: AppSettings
    var origin: Point
    var lastMousePos: Point
    var composed: bool
    const borderTop: SpriteVisual
    const borderBottom: SpriteVisual
    const borderLeft: SpriteVisual
    const borderRight: SpriteVisual
    const cornerVisuals: array<SpriteVisual>

    /** The four border sprites followed by the eight corner sprites. */
    ghost function Visuals(): seq<SpriteVisual>
      reads cornerVisuals
      requires cornerVisuals.Length == 8
    {
      [borderTop, borderBottom, borderLeft, borderRight] + cornerVisuals[..]
    }

    ghost predicate Valid()
      reads cornerVisuals
    {
      && cornerVisuals.Length == 8
      && borderTop != borderBottom && borderTop != borderLeft && borderTop != borderRight
      && borderBottom != borderLeft && borderBottom != borderRight && borderLeft != borderRight
      && (forall k :: 0 <= k < 8 ==> cornerVisuals[k] !in {borderTop, borderBottom, borderLeft, borderRight})
      && (forall i, j :: 0 <= i < j < 8 ==> cornerVisuals[i] != cornerVisuals[j])
    }

    /** The sprites show the border and corners of `r`. */
    ghost predicate Shows(r: Rectangle)
      reads cornerVisuals, Visuals
      requires Valid()
    {
      && borderTop.Bounds() == BorderStrips(r)[0]
      && borderBottom.Bounds() == BorderStrips(r)[1]
      && borderLeft.Bounds() == BorderStrips(r)[2]
      && borderRight.Bounds() == BorderStrips(r)[3]
      && (forall k :: 0 <= k < 8 ==> cornerVisuals[k].Bounds() == CornerSegments(r)[k])
    }

    constructor (settings: AppSettings, virtualScreen: Rectangle)
      ensures Valid() && fresh(cornerVisuals) && fresh(Visuals())
      ensures this.settings == settings && !composed
      ensures origin == Point(virtualScreen.x, virtualScreen.y)
    {
      this.settings := settings;
      origin := Point(virtualScreen.x, virtualScreen.y);
      composed := false;
      lastMousePos := Point(0, 0);
      var top := new SpriteVisual();
      var bottom := new SpriteVisual();
      var left := new SpriteVisual();
      var right := new SpriteVisual();
      var corners: seq<SpriteVisual> := [];
      while |corners| < 8
        invariant |corners| <= 8
        invariant forall i :: 0 <= i < |corners| ==> fresh(corners[i])
        invariant forall i :: 0 <= i < |corners| ==> corners[i] !in {top, bottom, left, right}
        invariant forall i, j :: 0 <= i < j < |corners| ==> corners[i] != corners[j]
      {
        var v := new SpriteVisual();
        corners := corners + [v];
      }
      borderTop, borderBottom, borderLeft, borderRight := top, bottom, left, right;
      cornerVisuals := new SpriteVisual[8](i requires 0 <= i < 8 => corners[i]);
      new;
      assert cornerVisuals[..] == corners;
    }

    /** `InitializeComposition`: the compositor exists from now on and the
        cursor position is remembered. */
    method InitializeComposition(mouse: Point)
      requires Valid()
      modifies this
      ensures Valid() && composed && lastMousePos == mouse && origin == old(origin)
    {
      composed := true;
      lastMousePos := mouse;
    }

    /** Places the border and corner sprites around the capture rectangle,
        computed in client coordinates; without a compositor nothing happens. */
    method UpdateOverlayDisplay(mouse: Point, screen: Rectangle)
      requires Valid()
      modifies borderTop, borderBottom, borderLeft, borderRight, cornerVisuals[..]
      ensures Valid()
      ensures composed ==> Shows(Translate(CaptureRect(mouse, screen, settings.captureWidth, settings.captureHeight),
                                           Point(-origin.x, -origin.y)))
      ensures !composed ==> unchanged(Visuals())
    {
      if !composed {
        return;
      }
      var clientMousePos := PointToClient(mouse, origin);
      var clientScreenBounds := RectangleToClient(screen, origin);
      var halfWidth := Half(settings.captureWidth);
      var halfHeight := Half(settings.captureHeight);
      var x := Max(clientScreenBounds.Left() + halfWidth,
                   Min(clientMousePos.x, clientScreenBounds.Right() - halfWidth)) - halfWidth;
      var y := Max(clientScreenBounds.Top() + halfHeight,
                   Min(clientMousePos.y, clientScreenBounds.Bottom() - halfHeight)) - halfHeight;
      var width := settings.captureWidth;
      var height := settings.captureHeight;
      var r := Rectangle(x, y, width, height);
      ghost var capture := Translate(CaptureRect(mouse, screen, width, height), Point(-origin.x, -origin.y));
      ClientCaptureRect(mouse, screen, origin, width, height);
      assert r == capture;
      PlaceBorders(r);
      PlaceCorners(r);
      assert Shows(capture);
      assert settings.captureWidth == width && settings.captureHeight == height;
    }

    /** The border half of `UpdateOverlayDisplay`. */
    method PlaceBorders(r: Rectangle)
      requires Valid()
      modifies borderTop, borderBottom, borderLeft, borderRight
      ensures borderTop.Bounds() == BorderStrips(r)[0] && borderBottom.Bounds() == BorderStrips(r)[1]
      ensures borderLeft.Bounds() == BorderStrips(r)[2] && borderRight.Bounds() == BorderStrips(r)[3]
    {
      var x, y, width, height := r.x, r.y, r.width, r.height;
      borderTop.offset := Point(x, y);
      borderTop.size := Point(width, BorderThickness);
      borderBottom.offset := Point(x, y + height - BorderThickness);
      borderBottom.size := Point(width, BorderThickness);
      borderLeft.offset := Point(x, y);
      borderLeft.size := Point(BorderThickness, height);
      borderRight.offset := Point(x + width - BorderThickness, y);
      borderRight.size := Point(BorderThickness, height);
    }

    /** The corner half of `UpdateOverlayDisplay`. */
    method PlaceCorners(r: Rectangle)
      requires Valid()
      modifies cornerVisuals[..]
      ensures forall k :: 0 <= k < 8 ==> cornerVisuals[k].Bounds() == CornerSegments(r)[k]
      ensures unchanged(borderTop, borderBottom, borderLeft, borderRight)
    {
      var x, y, width, height := r.x, r.y, r.width, r.height;
      cornerVisuals[0].offset := Point(x, y);
      cornerVisuals[0].size := Point(CornerLength, CornerThickness);
      cornerVisuals[1].offset := Point(x, y);
      cornerVisuals[1].size := Point(CornerThickness, CornerLength);
      cornerVisuals[2].offset := Point(x + width - CornerLength, y);
      cornerVisuals[2].size := Point(CornerLength, CornerThickness);
      cornerVisuals[3].offset := Point(x + width - CornerThickness, y);
      cornerVisuals[3].size := Point(CornerThickness, CornerLength);
      cornerVisuals[4].offset := Point(x, y + height - CornerThickness);
      cornerVisuals[4].size := Point(CornerLength, CornerThickness);
      cornerVisuals[5].offset := Point(x, y + height - CornerLength);
      cornerVisuals[5].size := Point(CornerThickness, CornerLength);
      cornerVisuals[6].offset := Point(x + width - CornerLength, y + height - CornerThickness);
      cornerVisuals[6].size := Point(CornerLength, CornerThickness);
      cornerVisuals[7].offset := Point(x + width - CornerLength, y + height - CornerLength);
      cornerVisuals[7].size := Point(CornerThickness, CornerLength);
    }

    /** `OnMouseMove`: a changed cursor position is remembered and redrawn;
        an unchanged one leaves everything as it was. */
    method OnMouseMove(mouse: Point, screen: Rectangle)
      requires Valid()
      modifies this, borderTop, borderBottom, borderLeft, borderRight, cornerVisuals[..]
      ensures Valid() && lastMousePos == mouse && composed == old(composed) && origin == old(origin)
      ensures mouse != old(lastMousePos) && composed ==>
                Shows(Translate(CaptureRect(mouse, screen, settings.captureWidth, settings.captureHeight),
                                Point(-origin.x, -origin.y)))
      ensures mouse == old(lastMousePos) || !composed ==>
                unchanged(Visuals())
    {
      if mouse != lastMousePos {
        lastMousePos := mouse;
        UpdateOverlayDisplay(mouse, screen);
      }
    }

    /** `UpdateScreenBounds`: the overlay is moved to cover the new virtual
        screen and redrawn. */
    method UpdateScreenBounds(virtualScreen: Rectangle, mouse: Point, screen: Rectangle)
      requires Valid()
      modifies this, borderTop, borderBottom, borderLeft, borderRight, cornerVisuals[..]
      ensures Valid() && origin == Point(virtualScreen.x, virtualScreen.y)
      ensures lastMousePos == old(lastMousePos) && composed == old(composed)
      ensures !composed ==> unchanged(Visuals())
      ensures composed ==>
                Shows(Translate(CaptureRect(mouse, screen, settings.captureWidth, settings.captureHeight),
                                Point(-origin.x, -origin.y)))
    {
      origin := Point(virtualScreen.x, virtualScreen.y);
      UpdateOverlayDisplay(mouse, screen);
    }
  }
}
