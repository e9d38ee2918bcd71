/** The integer rounded-rectangle hit test (`in_round_rect` / `_in_round_rect`): clamp the
    point onto the inner rectangle [rx+r, rx+rw-r] x [ry+r, ry+rh-r], then compare the
    squared distance to that nearest point with r squared. */
module Geometry {

  function Min(a: int, b: int): int { if a <= b then a else b }
  function Max(a: int, b: int): int { if a >= b then a else b }

  /** `min(max(v, lo), hi)`. */
  function Clamp(v: int, lo: int, hi: int): int {
    Min(Max(v, lo), hi)
  }

  function Sq(v: int): int { v * v }

  /** Squared Euclidean distance between (x, y) and (px, py). */
  function Dist2(x: int, y: int, px: int, py: int): int {
    Sq(x - px) + Sq(y - py)
  }

  predicate InRoundRect(x: int, y: int, rx: int, ry: int, rw: int, rh: int, r: int) {
    var nx := Clamp(x, rx + r, rx + rw - r);
    var ny := Clamp(y, ry + r, ry + rh - r);
    Dist2(x, y, nx, ny) <= r * r
  }

  /** The inner rectangle is non-empty: the radius fits the width and the height. */
  predicate RadiusFits(rw: int, rh: int, r: int) {
    0 <= r && 2 * r <= rw && 2 * r <= rh
  }

  predicate InInner(px: int, py: int, rx: int, ry: int, rw: int, rh: int, r: int) {
    rx + r <= px <= rx + rw - r && ry + r <= py <= ry + rh - r
  }

  /** Reference definition of a rounded rectangle: the points within distance r of
      some point of the inner rectangle. */
  ghost predicate NearInner(x: int, y: int, rx: int, ry: int, rw: int, rh: int, r: int) {
    exists px, py :: InInner(px, py, rx, ry, rw, rh, r) && Dist2(x, y, px, py) <= r * r
  }

  lemma SqMono(a: int, b: int)
    requires 0 <= a <= b
    ensures Sq(a) <= Sq(b)
  {
    assert a * a <= a * b <= b * b;
  }

  lemma SqAbs(a: int)
    ensures Sq(a) == Sq(-a)
  {
  }

  /** The clamp is the nearest point of [lo, hi] to v. */
  lemma ClampNearest(v: int, lo: int, hi: int, p: int)
    requires lo <= p <= hi
    ensures Sq(v - Clamp(v, lo, hi)) <= Sq(v - p)
  {
    var c := Clamp(v, lo, hi);
    if v < lo {
      SqAbs(v - c); SqAbs(v - p);
      SqMono(c - v, p - v);
    } else if v > hi {
      SqMono(v - c, v - p);
    }
  }

  /** With a radius that fits, the clamp test is exactly the reference definition. */
  lemma InRoundRectIffNear(x: int, y: int, rx: int, ry: int, rw: int, rh: int, r: int)
    requires RadiusFits(rw, rh, r)
    ensures InRoundRect(x, y, rx, ry, rw, rh, r) <==> NearInner(x, y, rx, ry, rw, rh, r)
  {
    var nx := Clamp(x, rx + r, rx + rw - r);
    var ny := Clamp(y, ry + r, ry + rh - r);
    if InRoundRect(x, y, rx, ry, rw, rh, r) {
      assert InInner(nx, ny, rx, ry, rw, rh, r);
    }
    if NearInner(x, y, rx, ry, rw, rh, r) {
      var px, py :| InInner(px, py, rx, ry, rw, rh, r) && Dist2(x, y, px, py) <= r * r;
      ClampNearest(x, rx + r, rx + rw - r, px);
      ClampNearest(y, ry + r, ry + rh - r, py);
    }
  }

  /** A point within distance r of some point of the inner rectangle passes the test. */
  lemma NearInnerPointInside(x: int, y: int, rx: int, ry: int, rw: int, rh: int, r: int, px: int, py: int)
    requires RadiusFits(rw, rh, r)
    requires InInner(px, py, rx, ry, rw, rh, r) && Dist2(x, y, px, py) <= r * r
    ensures InRoundRect(x, y, rx, ry, rw, rh, r)
  {
    InRoundRectIffNear(x, y, rx, ry, rw, rh, r);
  }

  /** Every point of the inner rectangle passes the test. */
  lemma InnerRectInside(x: int, y: int, rx: int, ry: int, rw: int, rh: int, r: int)
    requires InInner(x, y, rx, ry, rw, rh, r)
    ensures InRoundRect(x, y, rx, ry, rw, rh, r)
  {
  }

  /** With a radius that fits, a point that passes lies in the bounding box
      [rx, rx+rw] x [ry, ry+rh]. */
  lemma InRoundRectBounded(x: int, y: int, rx: int, ry: int, rw: int, rh: int, r: int)
    requires RadiusFits(rw, rh, r)
    requires InRoundRect(x, y, rx, ry, rw, rh, r)
    ensures rx <= x <= rx + rw && ry <= y <= ry + rh
  {
    var nx := Clamp(x, rx + r, rx + rw - r);
    var ny := Clamp(y, ry + r, ry + rh - r);
    SqBound(x - nx, y - ny, r);
  }

  /** A coordinate difference can be no larger than the radius when the squared distance
      is within r squared. */
  lemma SqBound(dx: int, dy: int, r: int)
    requires 0 <= r && Sq(dx) + Sq(dy) <= r * r
    ensures -r <= dx <= r && -r <= dy <= r
  {
    assert Sq(r + 1) > r * r;
    SqAbs(dx);
    SqAbs(dy);
    if dx > r { SqMono(r + 1, dx); }
    if dx < -r { SqMono(r + 1, -dx); }
    if dy > r { SqMono(r + 1, dy); }
    if dy < -r { SqMono(r + 1, -dy); }
  }

  /** A point more than k away from (px, py) along either axis is outside the disc of
      radius k around it. */
  lemma FarFrom(x: int, y: int, px: int, py: int, k: nat)
    requires x - px > k || px - x > k || y - py > k || py - y > k
    ensures Dist2(x, y, px, py) > k * k
  {
    assert Sq(k + 1) > k * k;
    SqAbs(x - px);
    SqAbs(y - py);
    if x - px > k { SqMono(k + 1, x - px); }
    else if px - x > k { SqMono(k + 1, px - x); }
    else if y - py > k { SqMono(k + 1, y - py); }
    else { SqMono(k + 1, py - y); }
  }
}
