/**
 * Integer rectangles as pygame keeps them, and the two ways a fractional value
 * becomes an integer in the game: Python's int() and the coercion pygame applies
 * when a float is stored in a rectangle coordinate.
 */
module Geometry {

  function Abs(v: real): (r: real)
    ensures 0.0 <= r && (r == v || r == -v)
  {
    if v < 0.0 then -v else v
  }

  /** Python's int() applied to a float: truncation toward zero. */
  function Trunc(v: real): (r: int)
    ensures 0.0 <= v ==> 0 <= r && r as real <= v < r as real + 1.0
    ensures v < 0.0 ==> r <= 0 && r as real - 1.0 < v <= r as real
  {
    if 0.0 <= v then v.Floor else -((-v).Floor)
  }

  /** int() commutes with negation, so a sign drawn after scaling gives a mirrored value. */
  lemma TruncNegate(v: real)
    ensures Trunc(-v) == -Trunc(v)
  {
  }

  /**
   * The integer pygame stores when a fractional value is written to a Rect
   * coordinate. The model promises only what every rounding mode shares: the
   * stored value lies within one unit of the written one, and integral values
   * are stored exactly.
   */
  function Pixel(v: real): (r: int)
    ensures v - 1.0 < r as real < v + 1.0
    ensures v == v.Floor as real ==> r == v.Floor
  {
    Trunc(v)
  }

  /** A pygame Rect: top-left corner, width and height. */
  datatype Rect = Rect(x: int, y: int, w: int, h: int) {
    function Left(): int { x }
    function Right(): int { x + w }
    function Top(): int { y }
    function Bottom(): int { y + h }
    function CenterY(): int { y + h / 2 }

    /** Assigning `centery` moves the rectangle vertically so that its centre is `c`. */
    function WithCenterY(c: int): (r: Rect)
      ensures r.CenterY() == c && r.x == x && r.w == w && r.h == h
    {
      this.(y := c - h / 2)
    }

    /** Assigning `top`. */
    function WithTop(t: int): (r: Rect)
      ensures r.Top() == t && r.x == x && r.w == w && r.h == h
    {
      this.(y := t)
    }

    /** Assigning `bottom`. */
    function WithBottom(b: int): (r: Rect)
      ensures r.Bottom() == b && r.x == x && r.w == w && r.h == h
    {
      this.(y := b - h)
    }

    /** Assigning `left`. */
    function WithLeft(l: int): (r: Rect)
      ensures r.Left() == l && r.y == y && r.w == w && r.h == h
    {
      this.(x := l)
    }

    /** Assigning `right`. */
    function WithRight(rt: int): (r: Rect)
      ensures r.Right() == rt && r.y == y && r.w == w && r.h == h
    {
      this.(x := rt - w)
    }

    /** `colliderect`: the open intervals overlap on both axes, so touching edges do not collide. */
    predicate CollideRect(other: Rect) {
      x < other.x + other.w && y < other.y + other.h &&
      x + w > other.x && y + h > other.y
    }
  }
}
