/**
 * The numeric vocabulary shared by the generators and the scene: three.js's
 * Vector3 and MathUtils.lerp, JavaScript's Math.random as a sequence of
 * injected draws, and Math.sin / Math.cos / Math.sqrt as functions about
 * which only their ranges are known.
 */
module MathModel {

  /** THREE.Vector3, with exact reals in place of doubles. */
  datatype Vec3 = Vec3(x: real, y: real, z: real)

  const Origin: Vec3 := Vec3(0.0, 0.0, 0.0)

  /** The value of Math.PI. */
  const Pi: real := 3.141592653589793

  /**
   * The transcendental functions the source calls. They are parameters of
   * the model; Valid() is everything the proofs may assume about them:
   * sine and cosine lie in [-1, 1], and sqrt maps [0, 1] into [0, 1].
   */
  datatype MathLib = MathLib(sin: real -> real, cos: real -> real, sqrt: real -> real)
  {
    ghost predicate Valid()
    {
      && (forall a :: -1.0 <= sin(a) <= 1.0)
      && (forall a :: -1.0 <= cos(a) <= 1.0)
      && (forall u :: 0.0 <= u <= 1.0 ==> 0.0 <= sqrt(u) <= 1.0)
    }

    /**
     * The identity sin^2 + cos^2 = 1, kept apart from Valid() so that only
     * the proofs that need it take it on.
     */
    ghost predicate Pythagorean()
    {
      forall a :: sin(a) * sin(a) + cos(a) * cos(a) == 1.0
    }
  }

  /** A stream of Math.random() results: every draw lies in [0, 1). */
  ghost predicate UnitDraws(rand: seq<real>)
  {
    forall j :: 0 <= j < |rand| ==> 0.0 <= rand[j] < 1.0
  }

  /** THREE.MathUtils.lerp(a, b, t) = (1 - t) * a + t * b. */
  function Lerp(a: real, b: real, t: real): (r: real)
    ensures t == 0.0 ==> r == a
    ensures t == 1.0 ==> r == b
  {
    (1.0 - t) * a + t * b
  }

  /** For progress in [0, 1] a lerp stays between its endpoints. */
  lemma LerpBetween(a: real, b: real, t: real)
    requires 0.0 <= t <= 1.0
    ensures a <= b ==> a <= Lerp(a, b, t) <= b
    ensures b <= a ==> b <= Lerp(a, b, t) <= a
  {
    var lo, hi := if a <= b then a else b, if a <= b then b else a;
    var w := hi - lo;
    MulBetween(t, w);
    MulBetween(1.0 - t, w);
    if a <= b {
      assert Lerp(a, b, t) == a + t * w;
      assert Lerp(a, b, t) == b - (1.0 - t) * w;
    } else {
      assert Lerp(a, b, t) == b + (1.0 - t) * w;
      assert Lerp(a, b, t) == a - t * w;
    }
  }

  /** For 0 <= t <= 1 and w >= 0, t * w lies in [0, w]. */
  lemma MulBetween(t: real, w: real)
    requires 0.0 <= t <= 1.0 && 0.0 <= w
    ensures 0.0 <= t * w <= w
  {
    assert w - t * w == (1.0 - t) * w;
  }

  /** (u - 0.5) * range, the source's recentred scaling of a random draw. */
  function Centered(u: real, range: real): (r: real)
    ensures 0.0 <= u < 1.0 && 0.0 < range ==> -range / 2.0 <= r < range / 2.0
  {
    MulStrict(u, range);
    (u - 0.5) * range
  }

  /** For 0 <= u < 1 and w > 0, u * w lies in [0, w). */
  lemma MulStrict(u: real, w: real)
    ensures 0.0 <= u < 1.0 && 0.0 < w ==> 0.0 <= u * w < w
  {
    assert w - u * w == (1.0 - u) * w;
  }

  /** |c * w| <= w when |c| <= 1 and w >= 0. */
  lemma ScaledBound(c: real, w: real)
    requires -1.0 <= c <= 1.0 && 0.0 <= w
    ensures -w <= c * w <= w
  {
    assert w - c * w == (1.0 - c) * w;
    assert w + c * w == (1.0 + c) * w;
  }

  /** A point's coordinates laid out as three consecutive buffer entries. */
  function Coords(p: Vec3): (xs: seq<real>)
  {
    [p.x, p.y, p.z]
  }

  /**
   * A list of points as a flat Float32Array-style buffer: point i occupies
   * entries 3i, 3i+1 and 3i+2.
   */
  function Flatten(ps: seq<Vec3>): (r: seq<real>)
    ensures |r| == 3 * |ps|
    ensures forall i :: 0 <= i < |ps| ==> r[3 * i] == ps[i].x && r[3 * i + 1] == ps[i].y && r[3 * i + 2] == ps[i].z
  {
    if ps == [] then []
    else
      var init := ps[..|ps| - 1];
      assert forall i :: 0 <= i < |init| ==> init[i] == ps[i];
      Flatten(init) + Coords(ps[|ps| - 1])
  }

  /** Point i of a flat buffer. */
  function Particle(buf: seq<real>, i: nat): (q: Vec3)
    requires 3 * i + 2 < |buf|
  {
    Vec3(buf[3 * i], buf[3 * i + 1], buf[3 * i + 2])
  }

  /** A buffer of 3n entries is the flattening of its own n points. */
  lemma {:induction false} FlattenParticles(buf: seq<real>, n: nat)
    requires |buf| == 3 * n
    ensures Flatten(seq(n, i requires 0 <= i < n => Particle(buf, i))) == buf
  {
    var ps := seq(n, i requires 0 <= i < n => Particle(buf, i));
    var f := Flatten(ps);
    assert |f| == |buf|;
    forall j | 0 <= j < |buf|
      ensures f[j] == buf[j]
    {
      var i, k := j / 3, j % 3;
      assert j == 3 * i + k;
      assert ps[i] == Particle(buf, i);
    }
  }
}
