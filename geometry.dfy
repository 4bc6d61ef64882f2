/** Axis-aligned boxes (the game's pygame `Rect`s) over real coordinates, and the two
    collision tests the game uses: the circle-versus-box test of bullets and discs,
    and the box-versus-box overlap of `Rect.colliderect`. */
module Geometry {
  import opened Numbers

  /** A box with its top-left corner at (left, top). */
  datatype Rect = Rect(left: real, top: real, width: real, height: real) {
    function Right(): real { left + width }
    function Bottom(): real { top + height }
    function CenterX(): real { left + width / 2.0 }
    function CenterY(): real { top + height / 2.0 }

    /** `rect.x += dx; rect.y += dy`. */
    function Moved(dx: real, dy: real): (r: Rect)
      ensures r.width == width && r.height == height
      ensures r.CenterX() == CenterX() + dx && r.CenterY() == CenterY() + dy
    {
      Rect(left + dx, top + dy, width, height)
    }
  }

  /** `Rect(0, 0, w, h)` followed by `rect.center = (cx, cy)`. */
  function Centered(cx: real, cy: real, w: real, h: real): (r: Rect)
    ensures r.CenterX() == cx && r.CenterY() == cy
    ensures r.width == w && r.height == h
  {
    Rect(cx - w / 2.0, cy - h / 2.0, w, h)
  }

  /** `max(lo, min(v, hi))`: the nearest point of [lo, hi] to v when lo <= hi. */
  function Clamp(v: real, lo: real, hi: real): (r: real)
    ensures lo <= hi ==> lo <= r <= hi
    ensures lo <= v <= hi ==> r == v
  {
    if v < hi then (if lo < v then v else lo) else (if lo < hi then hi else lo)
  }

  /** The point of the box nearest to (x, y), as the circle tests compute it. */
  function ClosestX(x: real, box: Rect): real { Clamp(x, box.left, box.Right()) }
  function ClosestY(y: real, box: Rect): real { Clamp(y, box.top, box.Bottom()) }

  /** The circle test of `Bullet.check_collision` and `OrbitingDisc.check_collisions`:
      the distance from the centre to the nearest point of the box is below the radius. */
  predicate CircleHits(m: MathLib, x: real, y: real, radius: real, box: Rect) {
    m.hypot(x - ClosestX(x, box), y - ClosestY(y, box)) < radius
  }

  /** Squared distance from (x, y) to the nearest point of the box. */
  function BoxGap2(x: real, y: real, box: Rect): real {
    Norm2(x - ClosestX(x, box), y - ClosestY(y, box))
  }

  /** The circle test is the square-root-free comparison of the squared gap. */
  lemma CircleHitsIffSquare(m: MathLib, x: real, y: real, radius: real, box: Rect)
    requires m.Valid()
    ensures CircleHits(m, x, y, radius, box) <==> SqBelow(BoxGap2(x, y, box), radius)
  {
    HypotBelow(m, x - ClosestX(x, box), y - ClosestY(y, box), radius);
  }

  /** A centre inside the box is at gap 0, so any circle of positive radius hits. */
  lemma CentreInsideHits(m: MathLib, x: real, y: real, radius: real, box: Rect)
    requires m.Valid() && radius > 0.0
    requires box.left <= x <= box.Right() && box.top <= y <= box.Bottom()
    ensures CircleHits(m, x, y, radius, box)
  {
    assert ClosestX(x, box) == x && ClosestY(y, box) == y;
    assert BoxGap2(x, y, box) == Norm2(0.0, 0.0) == 0.0;
    PositiveProduct(radius, radius);
    CircleHitsIffSquare(m, x, y, radius, box);
  }

  /** A centre beyond the bottom-right corner by (a, b) is measured from that corner:
      it hits iff a*a + b*b is below the squared radius. */
  lemma BeyondCornerHits(m: MathLib, box: Rect, a: real, b: real, radius: real)
    requires m.Valid() && box.width >= 0.0 && box.height >= 0.0 && a >= 0.0 && b >= 0.0
    ensures CircleHits(m, box.Right() + a, box.Bottom() + b, radius, box)
        <==> SqBelow(Norm2(a, b), radius)
  {
    var x, y := box.Right() + a, box.Bottom() + b;
    assert ClosestX(x, box) == box.Right();
    assert ClosestY(y, box) == box.Bottom();
    CircleHitsIffSquare(m, x, y, radius, box);
  }

  /** `a.colliderect(b)` for boxes of positive size: the open interiors overlap. */
  predicate Overlap(a: Rect, b: Rect) {
    a.left < b.Right() && b.left < a.Right() && a.top < b.Bottom() && b.top < a.Bottom()
  }

  /** Overlap does not depend on which box asks. */
  lemma OverlapSymmetric(a: Rect, b: Rect)
    ensures Overlap(a, b) <==> Overlap(b, a)
  {}

  /** `rect.clamp_ip(bounds)` along one axis: centre a span wider than the bounds,
      otherwise shift it just enough to fit. */
  function ClampSpan(pos: real, size: real, lo: real, extent: real): (r: real)
    ensures size < extent ==> lo <= r && r + size <= lo + extent
    ensures lo <= pos && pos + size <= lo + extent ==> r == pos
  {
    if size >= extent then lo + extent / 2.0 - size / 2.0
    else if pos < lo then lo
    else if pos + size > lo + extent then lo + extent - size
    else pos
  }

  /** `rect.clamp_ip(bounds)`. */
  function ClampInto(r: Rect, bounds: Rect): (c: Rect)
    ensures c.width == r.width && c.height == r.height
    ensures r.width < bounds.width ==> bounds.left <= c.left && c.Right() <= bounds.Right()
    ensures r.height < bounds.height ==> bounds.top <= c.top && c.Bottom() <= bounds.Bottom()
  {
    Rect(ClampSpan(r.left, r.width, bounds.left, bounds.width),
         ClampSpan(r.top, r.height, bounds.top, bounds.height),
         r.width, r.height)
  }
}
