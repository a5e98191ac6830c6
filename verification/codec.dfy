/**
 * The coordinate key used in the shared array: a map square (x, y) travels
 * as the single integer x * 100 + y and is unpacked with Java's `/` and `%`,
 * which truncate toward zero.
 */
module Codec {
  import opened Geometry

  /** Java's integer division by a positive divisor: truncated toward zero. */
  function JavaDiv(a: int, b: int): (q: int)
    requires b > 0
    ensures a >= 0 ==> q == a / b && q >= 0
    ensures a <= 0 ==> q <= 0
  {
    if a >= 0 then a / b else -((-a) / b)
  }

  /** Java's `%` by a positive divisor: the remainder takes the dividend's sign. */
  function JavaRem(a: int, b: int): (r: int)
    requires b > 0
    ensures JavaDiv(a, b) * b + r == a
    ensures a >= 0 ==> 0 <= r < b
    ensures a <= 0 ==> -b < r <= 0
  {
    a - JavaDiv(a, b) * b
  }

  /**
   * locationToCoordInt. On a Battlecode map (both coordinates in 0..59) the
   * key is at most 5959, so it fits a 16-bit shared-array slot.
   */
  function Encode(p: Location): (k: int)
    ensures 0 <= p.x < 60 && 0 <= p.y < 60 ==> 0 <= k <= 5959
  {
    p.x * 100 + p.y
  }

  /** coordIntToLocation. */
  function Decode(coord: int): (p: Location)
    ensures Encode(p) == coord
    ensures coord >= 0 ==> p.x >= 0 && 0 <= p.y < 100
    ensures coord <= 0 ==> p.x <= 0 && -100 < p.y <= 0
  {
    Location(JavaDiv(coord, 100), JavaRem(coord, 100))
  }

  /**
   * Decoding an encoded square gives it back exactly when x and y do not have
   * opposite signs and y fits in two decimal digits; on a Battlecode map
   * (0 <= x, 0 <= y <= 99) this always holds.
   */
  lemma RoundTrip(p: Location)
    ensures Decode(Encode(p)) == p <==>
            (p.x >= 0 && 0 <= p.y <= 99) || (p.x <= 0 && -99 <= p.y <= 0)
  {
    var k := Encode(p);
    if p.x >= 0 && 0 <= p.y <= 99 {
      assert k >= 0;
      assert k / 100 == p.x;
    } else if p.x <= 0 && -99 <= p.y <= 0 {
      assert -k == (-p.x) * 100 + (-p.y);
      assert (-k) / 100 == -p.x;
    }
  }

  /** Distinct squares on a map of width and height at most 100 get distinct keys. */
  lemma EncodeInjective(p: Location, q: Location)
    requires p.x >= 0 && 0 <= p.y <= 99
    requires q.x >= 0 && 0 <= q.y <= 99
    requires Encode(p) == Encode(q)
    ensures p == q
  {
    RoundTrip(p);
    RoundTrip(q);
  }
}
