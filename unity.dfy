/** Engine primitives shared by the scripts: vectors and the Mathf routines whose
    behaviour the game rules depend on, written as Unity defines them. Floats are
    modelled as `real`. */
module Unity {

  datatype Vec2 = Vec2(x: real, y: real)

  datatype Vec3 = Vec3(x: real, y: real, z: real) {
    function Plus(o: Vec3): Vec3 { Vec3(x + o.x, y + o.y, z + o.z) }
    function Minus(o: Vec3): Vec3 { Vec3(x - o.x, y - o.y, z - o.z) }
    function Scale(k: real): Vec3 { Vec3(k * x, k * y, k * z) }
  }

  /** Mathf.Clamp: below `lo` gives `lo`, otherwise above `hi` gives `hi`. */
  function Clamp(v: real, lo: real, hi: real): (r: real)
    ensures lo <= hi ==> lo <= r <= hi
    ensures lo <= v <= hi ==> r == v
    ensures r == v || r == lo || r == hi
  {
    if v < lo then lo else if v > hi then hi else v
  }

  /** Mathf.Abs. */
  function Abs(x: real): (r: real)
    ensures 0.0 <= r && (r == x || r == -x)
  {
    if x < 0.0 then -x else x
  }

  /** Mathf.Clamp01. */
  function Clamp01(v: real): (r: real)
    ensures 0.0 <= r <= 1.0
    ensures 0.0 <= v <= 1.0 ==> r == v
  {
    Clamp(v, 0.0, 1.0)
  }

  /** Mathf.Lerp: from `a` towards `b` by the fraction `t`, clamped to [0, 1]. */
  function Lerp(a: real, b: real, t: real): (r: real)
    ensures t <= 0.0 ==> r == a
    ensures 1.0 <= t ==> r == b
    ensures a <= b ==> a <= r <= b
    ensures b <= a ==> b <= r <= a
  {
    var c := Clamp01(t);
    var d := b - a;
    ScaleBetween(d, c);
    a + d * c
  }

  lemma MulNonNeg(x: real, y: real)
    requires 0.0 <= x && 0.0 <= y
    ensures 0.0 <= x * y
  {
  }

  lemma MulPos(x: real, y: real)
    requires 0.0 < x && 0.0 < y
    ensures 0.0 < x * y
  {
  }

  /** Scaling by a fraction in [0, 1] stays between 0 and the scaled value. */
  lemma ScaleBetween(d: real, c: real)
    requires 0.0 <= c <= 1.0
    ensures 0.0 <= d ==> 0.0 <= d * c <= d
    ensures d <= 0.0 ==> d <= d * c <= 0.0
  {
    if 0.0 <= d {
      MulNonNeg(d, c);
      MulNonNeg(d, 1.0 - c);
      assert d - d * c == d * (1.0 - c);
    } else {
      MulNonNeg(-d, c);
      MulNonNeg(-d, 1.0 - c);
      assert d * c - d == (-d) * (1.0 - c);
      assert -(d * c) == (-d) * c;
    }
  }

  /** What Floor promises: the remainder left after whole multiples of `length` lies in [0, length). */
  lemma FloorRemainder(t: real, length: real)
    requires 0.0 < length
    ensures 0.0 <= t - ((t / length).Floor as real) * length < length
  {
    var q := t / length;
    var f := q.Floor as real;
    assert f <= q < f + 1.0;
    RemainderBounds(t, length, q, f);
  }

  lemma RemainderBounds(t: real, length: real, q: real, f: real)
    requires 0.0 < length && q == t / length && f <= q < f + 1.0
    ensures 0.0 <= t - f * length < length
  {
    var g := q - f;
    assert t == q * length;
    assert t - f * length == g * length;
    MulNonNeg(g, length);
    MulPos(1.0 - g, length);
    assert (1.0 - g) * length == length - g * length;
  }

  /** Mathf.Repeat: `t` wrapped into [0, length]. */
  function Repeat(t: real, length: real): (r: real)
    requires 0.0 < length
    ensures 0.0 <= r <= length
    ensures r == t - ((t / length).Floor as real) * length
  {
    FloorRemainder(t, length);
    Clamp(t - ((t / length).Floor as real) * length, 0.0, length)
  }

  /** Mathf.LerpAngle: like Lerp, but travelling along the shorter way round the circle. */
  function LerpAngle(a: real, b: real, t: real): real {
    var wrapped := Repeat(b - a, 360.0);
    var delta := if wrapped > 180.0 then wrapped - 360.0 else wrapped;
    a + delta * Clamp01(t)
  }

  /** `k` whole turns, in degrees. */
  function Turns(k: int): real { (k as real) * 360.0 }

  /** LerpAngle moves by at most half a turn; at t <= 0 it stays at `a`, and at t >= 1 it
      lands on an angle that differs from `b` by a whole number of turns. */
  lemma LerpAngleProperties(a: real, b: real, t: real)
    ensures -180.0 <= LerpAngle(a, b, t) - a <= 180.0
    ensures t <= 0.0 ==> LerpAngle(a, b, t) == a
    ensures 1.0 <= t ==> exists k: int :: LerpAngle(a, b, t) == b + Turns(k)
  {
    var n := ((b - a) / 360.0).Floor;
    var wrapped := Repeat(b - a, 360.0);
    assert wrapped == (b - a) - (n as real) * 360.0;
    var delta := if wrapped > 180.0 then wrapped - 360.0 else wrapped;
    assert -180.0 <= delta <= 180.0;
    var c := Clamp01(t);
    ScaleBetween(delta, c);
    assert LerpAngle(a, b, t) - a == delta * c;
    if 1.0 <= t {
      if wrapped > 180.0 {
        assert LerpAngle(a, b, t) == b + Turns(-n - 1);
      } else {
        assert LerpAngle(a, b, t) == b + Turns(-n);
      }
    }
  }
}
