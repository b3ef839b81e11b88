/**
 * Shared vocabulary of the falling-trash game: the four waste categories,
 * plane vectors, Unity-style min/max/clamp helpers, and the way a random
 * draw is represented (a fraction supplied by the caller).
 */
module Types {

  /** The waste categories; a projectile only scores on an item of its own category. */
  datatype WasteType = Glass | Plastic | Metal | Paper

  datatype Option<T> = None | Some(value: T)

  /** The cast `(WasteType)v` for v in 0..3, in declaration order. */
  function FromIndex(v: int): (t: WasteType)
    requires 0 <= v < 4
    ensures Index(t) == v
  {
    if v == 0 then Glass else if v == 1 then Plastic else if v == 2 then Metal else Paper
  }

  /** The underlying enum value of a category. */
  function Index(t: WasteType): (v: int)
    ensures 0 <= v < 4
  {
    match t
    case Glass => 0
    case Plastic => 1
    case Metal => 2
    case Paper => 3
  }

  lemma FromIndexOnto(t: WasteType)
    ensures FromIndex(Index(t)) == t
  {
  }

  datatype Vec2 = Vec2(x: real, y: real)

  const Up: Vec2 := Vec2(0.0, 1.0)

  function Add(a: Vec2, b: Vec2): Vec2 { Vec2(a.x + b.x, a.y + b.y) }

  function Scale(a: Vec2, k: real): Vec2 { Vec2(a.x * k, a.y * k) }

  function SqrMagnitude(v: Vec2): (r: real)
    ensures r >= 0.0
  {
    v.x * v.x + v.y * v.y
  }

  function Max(a: real, b: real): (r: real)
    ensures r >= a && r >= b && (r == a || r == b)
  {
    if a >= b then a else b
  }

  function Min(a: real, b: real): (r: real)
    ensures r <= a && r <= b && (r == a || r == b)
  {
    if a <= b then a else b
  }

  function Abs(a: real): (r: real)
    ensures r >= 0.0 && (r == a || r == -a)
  {
    if a < 0.0 then -a else a
  }

  /** Mathf.Clamp: the lower bound is tested first. */
  function Clamp(v: real, lo: real, hi: real): (r: real)
    requires lo <= hi
    ensures lo <= r <= hi
    ensures lo <= v <= hi ==> r == v
  {
    if v < lo then lo else if v > hi then hi else v
  }

  function MaxInt(a: int, b: int): (r: int)
    ensures r >= a && r >= b && (r == a || r == b)
  {
    if a >= b then a else b
  }

  function MinInt(a: int, b: int): (r: int)
    ensures r <= a && r <= b && (r == a || r == b)
  {
    if a <= b then a else b
  }

  /** Mathf.Clamp on integers. */
  function ClampInt(v: int, lo: int, hi: int): (r: int)
    requires lo <= hi
    ensures lo <= r <= hi
    ensures lo <= v <= hi ==> r == v
  {
    if v < lo then lo else if v > hi then hi else v
  }

  /** A draw from a float range [lo, hi] (both ends inclusive), given u in [0, 1]. */
  predicate IsFraction(u: real) { 0.0 <= u <= 1.0 }

  /** A draw for an integer range with exclusive upper end needs u in [0, 1). */
  predicate IsIndexFraction(u: real) { 0.0 <= u < 1.0 }

  function RangeDraw(lo: real, hi: real, u: real): (r: real)
    requires IsFraction(u)
    ensures lo <= hi ==> lo <= r <= hi
    ensures hi <= lo ==> hi <= r <= lo
  {
    var w := hi - lo;
    assert u * w + (1.0 - u) * w == w;
    if lo <= hi then
      ProductNonNegative(u, w);
      ProductNonNegative(1.0 - u, w);
      lo + u * w
    else
      ProductNonNegative(u, -w);
      ProductNonNegative(1.0 - u, -w);
      assert u * -w == -(u * w) && (1.0 - u) * -w == -((1.0 - u) * w);
      lo + u * w
  }

  lemma ProductNonNegative(a: real, b: real)
    requires a >= 0.0 && b >= 0.0
    ensures a * b >= 0.0
  {
  }

  /** Random.Range(0, n) on integers: an index below n. */
  function IndexDraw(n: int, u: real): (k: int)
    requires n > 0 && IsIndexFraction(u)
    ensures 0 <= k < n
  {
    var k := (u * n as real).Floor;
    assert u * n as real < n as real;
    k
  }
}
