/** Values shared by the components of the runner: optional values, 3-vectors
    over the reals (float rounding is abstracted away), sums of segment lengths
    and the numeric helpers of the engine's math library that the game rules use. */
module Common {

  datatype Option<T> = None | Some(value: T)

  /** A position, direction or displacement in world space. */
  datatype Vec3 = Vec3(x: real, y: real, z: real)
  {
    function Plus(o: Vec3): Vec3 { Vec3(x + o.x, y + o.y, z + o.z) }
    function Minus(o: Vec3): Vec3 { Vec3(x - o.x, y - o.y, z - o.z) }
    function Scale(k: real): Vec3 { Vec3(k * x, k * y, k * z) }
  }

  const Zero := Vec3(0.0, 0.0, 0.0)

  /** A rotation, kept as an uninterpreted quaternion. */
  datatype Rotation = Rotation(x: real, y: real, z: real, w: real)

  /** Sum of a list of lengths, from the front. */
  function Sum(s: seq<real>): real
  {
    if s == [] then 0.0 else s[0] + Sum(s[1..])
  }

  /** Appending a length adds it to the running total: what makes a
      `currentPosition += length` loop agree with the sum of its list. */
  lemma {:induction false} SumAppend(s: seq<real>, x: real)
    ensures Sum(s + [x]) == Sum(s) + x
  {
    if s != [] {
      assert (s + [x])[1..] == s[1..] + [x];
      SumAppend(s[1..], x);
    }
  }

  /** A list of positive lengths has a positive total, zero when empty. */
  lemma {:induction false} SumPositive(s: seq<real>)
    requires forall i :: 0 <= i < |s| ==> s[i] > 0.0
    ensures s == [] ==> Sum(s) == 0.0
    ensures s != [] ==> Sum(s) > 0.0
  {
    if s != [] {
      SumPositive(s[1..]);
    }
  }

  /** How many times a `for (i = 0; i < n; i++)` loop runs. */
  function Count(n: int): nat
  {
    if n < 0 then 0 else n
  }

  /** `Mathf.Min`. */
  function Min(a: real, b: real): (r: real)
    ensures r <= a && r <= b && (r == a || r == b)
  {
    if a < b then a else b
  }

  /** `Mathf.Max` over two values. */
  function Max(a: real, b: real): (r: real)
    ensures r >= a && r >= b && (r == a || r == b)
  {
    if a > b then a else b
  }

  /** `Mathf.Clamp01`. */
  function Clamp01(v: real): (r: real)
    ensures 0.0 <= r <= 1.0
    ensures 0.0 <= v <= 1.0 ==> r == v
  {
    if v < 0.0 then 0.0 else if v > 1.0 then 1.0 else v
  }

  /** `Vector3.Lerp` on one coordinate: the parameter is clamped to [0,1]. */
  function Lerp(a: real, b: real, t: real): (r: real)
    ensures t <= 0.0 ==> r == a
    ensures t >= 1.0 ==> r == b
  {
    a + (b - a) * Clamp01(t)
  }

  /** `Vector3.Lerp`: coordinate-wise, with the parameter clamped to [0,1]. */
  function LerpVec(a: Vec3, b: Vec3, t: real): (r: Vec3)
    ensures t <= 0.0 ==> r == a
    ensures t >= 1.0 ==> r == b
  {
    Vec3(Lerp(a.x, b.x, t), Lerp(a.y, b.y, t), Lerp(a.z, b.z, t))
  }

  /** An interpolated value stays between the two ends. */
  lemma LerpBetween(a: real, b: real, t: real)
    ensures a <= b ==> a <= Lerp(a, b, t) <= b
    ensures b <= a ==> b <= Lerp(a, b, t) <= a
  {
    var c := Clamp01(t);
    var d := b - a;
    assert Lerp(a, b, t) == a + d * c;
    ScaleWithin(d, c);
  }

  /** Scaling by a factor in [0,1] keeps a value between zero and itself. */
  lemma ScaleWithin(d: real, c: real)
    requires 0.0 <= c <= 1.0
    ensures d >= 0.0 ==> 0.0 <= d * c <= d
    ensures d <= 0.0 ==> d <= d * c <= 0.0
  {
    if d >= 0.0 {
      assert d * c <= d * 1.0;
    } else {
      assert (-d) * c <= (-d) * 1.0;
    }
  }

  /** `Mathf.Sign`: 1 for zero and positive values, -1 for negative ones. */
  function Sign(v: real): (r: real)
    ensures r == 1.0 || r == -1.0
    ensures r * v >= 0.0
  {
    if v >= 0.0 then 1.0 else -1.0
  }

  function Abs(v: real): (r: real)
    ensures r >= 0.0 && (r == v || r == -v)
  {
    if v < 0.0 then -v else v
  }

  /** A C# `(int)` cast of a float: truncation toward zero. */
  function Truncate(t: real): (r: int)
    ensures t >= 0.0 ==> r as real <= t < r as real + 1.0
    ensures t < 0.0 ==> r as real - 1.0 < t <= r as real
  {
    if t >= 0.0 then t.Floor else -((-t).Floor)
  }
}
