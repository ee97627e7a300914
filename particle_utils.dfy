/**
 * The shape generators of utils/particleUtils.ts. Each generator is a method
 * that builds its list with a loop, proved equal to a specification function
 * of its inputs; the properties of the shapes are lemmas about those
 * functions. Math.random() is the sequence `rand`, consumed from index 0.
 */
module ParticleUtils {
  import opened MathModel
  import opened Types

  /** One entry of a canvas ImageData buffer (a Uint8ClampedArray). */
  newtype byte = b: int | 0 <= b < 256

  /** The ImageData object getImageData(0, 0, 1000, 1000) returns. */
  datatype ImageData = ImageData(width: int, height: int, data: seq<byte>)

  /** A 1000 x 1000 canvas, four bytes (RGBA) per pixel, row-major. */
  predicate IsImageData(img: ImageData)
  {
    img.width == 1000 && img.height == 1000 && |img.data| == 4_000_000
  }

  /** A collected foreground pixel: its column x and row y on the canvas. */
  datatype Pixel = Pixel(x: int, y: int)

  /** The alpha byte of pixel (x, y): entry (y * 1000 + x) * 4 + 3. */
  function Alpha(img: ImageData, x: int, y: int): (a: byte)
    requires IsImageData(img) && 0 <= x < 1000 && 0 <= y < 1000
  {
    img.data[(y * 1000 + x) * 4 + 3]
  }

  /** A scan coordinate: a multiple of the stride 4 inside the canvas, so 0..996. */
  predicate OnLattice(c: int)
  {
    0 <= c < 1000 && c % 4 == 0
  }

  /** Whether pixel p is one the scan collects: on the lattice and with alpha above 128. */
  predicate IsForeground(img: ImageData, p: Pixel)
    requires IsImageData(img)
  {
    OnLattice(p.x) && OnLattice(p.y) && Alpha(img, p.x, p.y) > 128
  }

  /** Row-major order, row (y) first. */
  predicate Before(p: Pixel, q: Pixel)
  {
    p.y < q.y || (p.y == q.y && p.x < q.x)
  }

  predicate RowMajorSorted(s: seq<Pixel>)
  {
    forall i, j :: 0 <= i < j < |s| ==> Before(s[i], s[j])
  }

  /**
   * The stride-4 scan visits 250 x 250 lattice sites; Site(k) is the k-th
   * one visited: row k / 250, column k % 250, each times the stride.
   */
  function Site(k: int): (q: Pixel)
    requires 0 <= k
  {
    Pixel(4 * (k % 250), 4 * (k / 250))
  }

  /** The position of a lattice pixel in the scan order; the inverse of Site. */
  function ScanIndex(p: Pixel): (k: int)
  {
    250 * (p.y / 4) + p.x / 4
  }

  /** The number of sites the scan visits. It is written through the canvas size, not as the literal 62500, so that the verifier does not unfold Scan that many times. */
  function Sites(img: ImageData): (k: int)
  {
    (img.width / 4) * (img.height / 4)
  }

  /** What the double loop has collected after visiting the first k sites. */
  function Scan(img: ImageData, k: int): (pixels: seq<Pixel>)
    requires IsImageData(img) && 0 <= k <= 250 * 250
    decreases k
  {
    if k == 0 then []
    else
      var p := Site(k - 1);
      Scan(img, k - 1) + (if Alpha(img, p.x, p.y) > 128 then [p] else [])
  }

  /** The whole pixel list of getTextPoints. */
  function Foreground(img: ImageData): (pixels: seq<Pixel>)
    requires IsImageData(img)
  {
    assert Sites(img) == 250 * 250;
    Scan(img, Sites(img))
  }

  /** Site(k) is a lattice pixel whose scan index is k. */
  lemma SiteOnLattice(k: int)
    requires 0 <= k < 250 * 250
    ensures OnLattice(Site(k).x) && OnLattice(Site(k).y) && ScanIndex(Site(k)) == k
  {
  }

  /** Every lattice pixel is the site at its scan index. */
  lemma SiteOfIndex(p: Pixel)
    requires OnLattice(p.x) && OnLattice(p.y)
    ensures 0 <= ScanIndex(p) < 250 * 250 && Site(ScanIndex(p)) == p
  {
    var k := ScanIndex(p);
    assert k / 250 == p.y / 4 && k % 250 == p.x / 4;
  }

  /** On the lattice, row-major order is the order of scan indices. */
  lemma BeforeByIndex(p: Pixel, q: Pixel)
    requires OnLattice(p.x) && OnLattice(p.y) && OnLattice(q.x) && OnLattice(q.y)
    ensures Before(p, q) <==> ScanIndex(p) < ScanIndex(q)
  {
  }

  /** The site the inner loop visits at column x = 4 * col of row y = 4 * row. */
  lemma SiteAt(row: int, col: int)
    requires 0 <= row && 0 <= col < 250
    ensures Site(250 * row + col) == Pixel(4 * col, 4 * row)
  {
    var k := 250 * row + col;
    assert k / 250 == row && k % 250 == col;
  }

  /** Concatenating two sorted runs, the first wholly before the second, keeps the order. */
  lemma SortedConcat(s: seq<Pixel>, t: seq<Pixel>)
    requires RowMajorSorted(s) && RowMajorSorted(t)
    requires forall p, q :: p in s && q in t ==> Before(p, q)
    ensures RowMajorSorted(s + t)
  {
    forall i, j | 0 <= i < j < |s + t|
      ensures Before((s + t)[i], (s + t)[j])
    {
      if j < |s| {
        assert (s + t)[i] == s[i] && (s + t)[j] == s[j];
      } else if |s| <= i {
        assert (s + t)[i] == t[i - |s|] && (s + t)[j] == t[j - |s|];
      } else {
        assert (s + t)[i] in s && (s + t)[j] in t;
      }
    }
  }

  /** After k sites the scan holds exactly the foreground pixels among them. */
  lemma ScanMembers(img: ImageData, k: int)
    requires IsImageData(img) && 0 <= k <= 250 * 250
    ensures forall p :: p in Scan(img, k) <==> IsForeground(img, p) && ScanIndex(p) < k
  {
    ScanSound(img, k);
    ScanComplete(img, k);
  }

  /** Every pixel the first k sites contribute is a foreground lattice pixel of index below k. */
  lemma {:induction false} ScanSound(img: ImageData, k: int)
    requires IsImageData(img) && 0 <= k <= 250 * 250
    ensures forall p :: p in Scan(img, k) ==> IsForeground(img, p) && ScanIndex(p) < k
    decreases k
  {
    if k > 0 {
      ScanSound(img, k - 1);
      var p := Site(k - 1);
      SiteOnLattice(k - 1);
      var s := Scan(img, k - 1);
      var tail := if Alpha(img, p.x, p.y) > 128 then [p] else [];
      assert Scan(img, k) == s + tail;
      forall q: Pixel | q in s + tail
        ensures IsForeground(img, q) && ScanIndex(q) < k
      {
        if q !in s {
          assert q == p;
        }
      }
    }
  }

  /** Every foreground lattice pixel of index below k is among the first k sites' contributions. */
  lemma {:induction false} ScanComplete(img: ImageData, k: int)
    requires IsImageData(img) && 0 <= k <= 250 * 250
    ensures forall p :: IsForeground(img, p) && ScanIndex(p) < k ==> p in Scan(img, k)
    decreases k
  {
    if k > 0 {
      ScanComplete(img, k - 1);
      var p := Site(k - 1);
      var s := Scan(img, k - 1);
      var tail := if Alpha(img, p.x, p.y) > 128 then [p] else [];
      assert Scan(img, k) == s + tail;
      forall q: Pixel | IsForeground(img, q) && ScanIndex(q) < k
        ensures q in s + tail
      {
        if ScanIndex(q) == k - 1 {
          SiteOfIndex(q);
          assert q in tail;
        } else {
          assert q in s;
        }
      }
    }
  }


  /** After k sites the scan is in row-major order. */
  lemma {:induction false} ScanSorted(img: ImageData, k: int)
    requires IsImageData(img) && 0 <= k <= 250 * 250
    ensures RowMajorSorted(Scan(img, k))
    decreases k
  {
    if k > 0 {
      ScanSorted(img, k - 1);
      ScanMembers(img, k - 1);
      var p := Site(k - 1);
      SiteOnLattice(k - 1);
      var s := Scan(img, k - 1);
      var tail := if Alpha(img, p.x, p.y) > 128 then [p] else [];
      assert Scan(img, k) == s + tail;
      forall q, r | q in s && r in tail
        ensures Before(q, r)
      {
        BeforeByIndex(q, r);
      }
      SortedConcat(s, tail);
    }
  }

  /**
   * The collected pixels are exactly the foreground lattice pixels, each
   * once (the order is strict), in row-major order.
   */
  lemma ForegroundSpec(img: ImageData)
    requires IsImageData(img)
    ensures forall p :: p in Foreground(img) <==> IsForeground(img, p)
    ensures RowMajorSorted(Foreground(img))
  {
    ScanMembers(img, 250 * 250);
    ScanSorted(img, 250 * 250);
    forall p | IsForeground(img, p)
      ensures ScanIndex(p) < 250 * 250
    {
      SiteOfIndex(p);
    }
  }

  /** One visited site extends the scan by its pixel when its alpha is above 128. */
  lemma ScanStep(img: ImageData, k: int)
    requires IsImageData(img) && 0 <= k < 250 * 250
    ensures var p := Site(k);
      Scan(img, k + 1) == Scan(img, k) + (if Alpha(img, p.x, p.y) > 128 then [p] else [])
  {
  }

  /** One step of the inner loop at column x = 4 * col of row y = 4 * row extends the scan by that site. */
  lemma CollectStep(img: ImageData, x: int, y: int, row: int, col: int)
    requires IsImageData(img) && 0 <= row < 250 && 0 <= col < 250 && x == 4 * col && y == 4 * row
    ensures 0 <= (y * 1000 + x) * 4 + 3 < |img.data|
    ensures Scan(img, 250 * row + col + 1)
      == Scan(img, 250 * row + col) + (if img.data[(y * 1000 + x) * 4 + 3] > 128 then [Pixel(x, y)] else [])
  {
    assert (y * 1000 + x) * 4 + 3 == 16000 * row + 16 * col + 3;
    SiteAt(row, col);
    ScanStep(img, 250 * row + col);
  }

  /** The stride-4 double loop of getTextPoints that fills `pixels`. */
  method CollectPixels(img: ImageData) returns (pixels: seq<Pixel>)
    requires IsImageData(img)
    ensures pixels == Foreground(img)
  {
    pixels := [];
    var y := 0;
    ghost var row := 0;
    while y < 1000
      invariant 0 <= row <= 250 && y == 4 * row
      invariant pixels == Scan(img, 250 * row)
    {
      var x := 0;
      ghost var col := 0;
      while x < 1000
        invariant 0 <= col <= 250 && x == 4 * col
        invariant pixels == Scan(img, 250 * row + col)
      {
        var alpha := img.data[(y * 1000 + x) * 4 + 3];
        CollectStep(img, x, y, row, col);
        if alpha > 128 {
          pixels := pixels + [Pixel(x, y)];
        }
        x := x + 4;
        col := col + 1;
      }
      assert 250 * (row + 1) == 250 * row + col;
      y := y + 4;
      row := row + 1;
    }
  }

  /** Math.floor(r * n), the sampling index. */
  function SampleIndex(r: real, n: nat): (k: int)
  {
    (r * n as real).Floor
  }

  /** For r in [0, 1) and n > 0 the sampling index is a valid index; for n = 0 it is 0. */
  lemma SampleIndexInRange(r: real, n: nat)
    requires 0.0 <= r < 1.0
    ensures n > 0 ==> 0 <= SampleIndex(r, n) < n
    ensures n == 0 ==> SampleIndex(r, n) == 0
  {
    MulStrict(r, n as real);
  }

  /** Centre at (500, 500), scale by 0.05, flip y, and jitter z by (u - 0.5) * 0.5. */
  function GlyphPoint(p: Pixel, u: real): (q: Vec3)
  {
    Vec3((p.x - 500) as real * 0.05, -((p.y - 500) as real) * 0.05, Centered(u, 0.5))
  }

  /** The safety fallback: x and y drawn in [-5, 5), z = 0. */
  function FallbackPoint(u: real, v: real): (p: Vec3)
  {
    Vec3(Centered(u, 10.0), Centered(v, 10.0), 0.0)
  }

  /** Math.random() calls one sample makes: the index draw, then one (jitter) or two (fallback). */
  function DrawsPerSample(n: nat): (k: nat)
  {
    if n == 0 then 3 else 2
  }

  /** Where sample i starts reading `rand`. */
  function SampleCursor(n: nat, i: nat): (c: nat)
  {
    if n == 0 then 3 * i else 2 * i
  }

  /** One iteration of the sampling loop, reading rand[c ..]. */
  function SamplePoint(pixels: seq<Pixel>, rand: seq<real>, c: nat): (p: Vec3)
    requires c + DrawsPerSample(|pixels|) <= |rand| && 0.0 <= rand[c] < 1.0
  {
    var k := SampleIndex(rand[c], |pixels|);
    SampleIndexInRange(rand[c], |pixels|);
    if 0 <= k < |pixels| then GlyphPoint(pixels[k], rand[c + 1])
    else FallbackPoint(rand[c + 1], rand[c + 2])
  }

  /** The `count` sampled points, with replacement. */
  ghost function TextPoints(pixels: seq<Pixel>, count: nat, rand: seq<real>): (points: seq<Vec3>)
    requires UnitDraws(rand) && |rand| >= SampleCursor(|pixels|, count)
  {
    seq(count, i requires 0 <= i < count => SamplePoint(pixels, rand, SampleCursor(|pixels|, i)))
  }

  /**
   * getTextPoints(text, count, size), given the pixel data the canvas holds
   * after drawing `text` (None when getContext('2d') returns null).
   * `used` is the number of Math.random() calls made.
   */
  method GetTextPoints(image: Option<ImageData>, count: nat, rand: seq<real>)
    returns (points: seq<Vec3>, used: nat)
    requires image.Some? ==> IsImageData(image.value)
    requires UnitDraws(rand) && |rand| >= 3 * count
    ensures image.None? ==> points == [] && used == 0
    ensures image.Some? ==> && |points| == count
                            && used == SampleCursor(|Foreground(image.value)|, count)
                            && points == TextPoints(Foreground(image.value), count, rand)
  {
    if image.None? {
      return [], 0;
    }
    var pixels := CollectPixels(image.value);
    points, used := SamplePixels(pixels, count, rand);
  }

  /** The sampling loop of getTextPoints: `count` draws with replacement from `pixels`. */
  method SamplePixels(pixels: seq<Pixel>, count: nat, rand: seq<real>)
    returns (points: seq<Vec3>, used: nat)
    requires UnitDraws(rand) && |rand| >= SampleCursor(|pixels|, count)
    ensures |points| == count
    ensures used == SampleCursor(|pixels|, count)
    ensures points == TextPoints(pixels, count, rand)
  {
    points := [];
    used := 0;
    for i := 0 to count
      invariant used == SampleCursor(|pixels|, i)
      invariant |points| == i
      invariant forall j :: 0 <= j < i ==> points[j] == SamplePoint(pixels, rand, SampleCursor(|pixels|, j))
    {
      var r := rand[used];
      var k := SampleIndex(r, |pixels|);
      SampleIndexInRange(r, |pixels|);
      used := used + 1;
      if !(0 <= k < |pixels|) {
        points := points + [FallbackPoint(rand[used], rand[used + 1])];
        used := used + 2;
        continue;
      }
      var p := pixels[k];
      points := points + [GlyphPoint(p, rand[used])];
      used := used + 1;
    }
  }

  /** With no foreground pixel every point is a fallback: x, y in [-5, 5), z = 0. */
  lemma TextPointsFallback(pixels: seq<Pixel>, count: nat, rand: seq<real>)
    requires UnitDraws(rand) && |rand| >= SampleCursor(|pixels|, count)
    requires pixels == []
    ensures forall i :: 0 <= i < count ==>
      var p := TextPoints(pixels, count, rand)[i];
      -5.0 <= p.x < 5.0 && -5.0 <= p.y < 5.0 && p.z == 0.0
  {
  }

  /**
   * With foreground pixels every point is the glyph image of a collected
   * pixel (one with alpha above 128 on the stride-4 lattice): x in
   * [-25, 24.8], y in [-24.8, 25], z in [-0.25, 0.25).
   */
  lemma TextPointsFromForeground(img: ImageData, count: nat, rand: seq<real>)
    requires IsImageData(img)
    requires UnitDraws(rand) && |rand| >= SampleCursor(|Foreground(img)|, count)
    requires Foreground(img) != []
    ensures forall i :: 0 <= i < count ==>
      var p := TextPoints(Foreground(img), count, rand)[i];
      && (exists q, u :: IsForeground(img, q) && 0.0 <= u < 1.0 && p == GlyphPoint(q, u))
      && -25.0 <= p.x <= 24.8 && -24.8 <= p.y <= 25.0 && -0.25 <= p.z < 0.25
  {
    var pixels := Foreground(img);
    ForegroundSpec(img);
    forall i | 0 <= i < count
      ensures var p := TextPoints(pixels, count, rand)[i];
        && (exists q, u :: IsForeground(img, q) && 0.0 <= u < 1.0 && p == GlyphPoint(q, u))
        && -25.0 <= p.x <= 24.8 && -24.8 <= p.y <= 25.0 && -0.25 <= p.z < 0.25
    {
      var c := SampleCursor(|pixels|, i);
      var k := SampleIndex(rand[c], |pixels|);
      SampleIndexInRange(rand[c], |pixels|);
      var q, u := pixels[k], rand[c + 1];
      assert q in pixels;
      assert IsForeground(img, q);
      assert 0.0 <= u < 1.0;
      GlyphPointBounds(q, u);
      assert TextPoints(pixels, count, rand)[i] == GlyphPoint(q, u);
    }
  }

  /** A lattice pixel and a unit jitter draw give a glyph point in the text box. */
  lemma GlyphPointBounds(q: Pixel, u: real)
    requires OnLattice(q.x) && OnLattice(q.y) && 0.0 <= u < 1.0
    ensures var p := GlyphPoint(q, u);
      -25.0 <= p.x <= 24.8 && -24.8 <= p.y <= 25.0 && -0.25 <= p.z < 0.25
  {
  }

  /** One point of getScatteredPoints, reading rand[c], rand[c+1], rand[c+2]. */
  function ScatterPoint(range: real, rand: seq<real>, c: nat): (p: Vec3)
    requires c + 3 <= |rand|
  {
    Vec3(Centered(rand[c], range), Centered(rand[c + 1], range), Centered(rand[c + 2], range))
  }

  function ScatteredPoints(count: nat, range: real, rand: seq<real>): (points: seq<Vec3>)
    requires |rand| >= 3 * count
  {
    seq(count, i requires 0 <= i < count => ScatterPoint(range, rand, 3 * i))
  }

  /** getScatteredPoints(count, range). */
  method GetScatteredPoints(count: nat, range: real, rand: seq<real>) returns (points: seq<Vec3>)
    requires |rand| >= 3 * count
    ensures |points| == count
    ensures points == ScatteredPoints(count, range, rand)
  {
    points := [];
    for i := 0 to count
      invariant |points| == i
      invariant forall j :: 0 <= j < i ==> points[j] == ScatterPoint(range, rand, 3 * j)
    {
      points := points + [Vec3(Centered(rand[3 * i], range), Centered(rand[3 * i + 1], range),
                               Centered(rand[3 * i + 2], range))];
    }
  }

  /** Every scattered coordinate lies in [-range/2, range/2). */
  lemma ScatteredInRange(count: nat, range: real, rand: seq<real>)
    requires |rand| >= 3 * count && UnitDraws(rand) && range > 0.0
    ensures forall i :: 0 <= i < count ==>
      var p := ScatteredPoints(count, range, rand)[i];
      && -range / 2.0 <= p.x < range / 2.0
      && -range / 2.0 <= p.y < range / 2.0
      && -range / 2.0 <= p.z < range / 2.0
  {
    forall i | 0 <= i < count
      ensures 0.0 <= rand[3 * i] < 1.0 && 0.0 <= rand[3 * i + 1] < 1.0 && 0.0 <= rand[3 * i + 2] < 1.0
    {
    }
  }

  /** A horizontal coordinate of a cone point: the cosine or sine of its angle, times the radius, times a sqrt draw. */
  function Offset(trig: real, currentRadius: real, scale: real): (x: real)
  {
    trig * currentRadius * scale
  }

  /** The cone radius at height h: radius * (1 - h / height). */
  function ConeRadius(height: real, radius: real, h: real): (cr: real)
    requires height != 0.0
  {
    radius * (1.0 - h / height)
  }

  /**
   * One point of getTreePoints, reading rand[c .. c+5]: the unused draw r,
   * the angle, the height, and one sqrt draw per horizontal axis.
   */
  function TreePoint(height: real, radius: real, rand: seq<real>, c: nat, m: MathLib): (p: Vec3)
    requires height != 0.0 && c + 5 <= |rand|
  {
    var angle := rand[c + 1] * Pi * 2.0;
    var h := rand[c + 2] * height;
    var currentRadius := ConeRadius(height, radius, h);
    var spiral := h * 1.5;
    Vec3(Offset(m.cos(angle + spiral), currentRadius, m.sqrt(rand[c + 3])),
         h - height / 2.0,
         Offset(m.sin(angle + spiral), currentRadius, m.sqrt(rand[c + 4])))
  }

  function TreePoints(count: nat, height: real, radius: real, rand: seq<real>, m: MathLib): (points: seq<Vec3>)
    requires height != 0.0 && |rand| >= 5 * count
  {
    seq(count, i requires 0 <= i < count => TreePoint(height, radius, rand, 5 * i, m))
  }

  /** getTreePoints(count, height, radius). */
  method GetTreePoints(count: nat, height: real, radius: real, rand: seq<real>, m: MathLib)
    returns (points: seq<Vec3>)
    requires height != 0.0 && |rand| >= 5 * count
    ensures |points| == count
    ensures points == TreePoints(count, height, radius, rand, m)
  {
    points := [];
    for i := 0 to count
      invariant |points| == i
      invariant forall j :: 0 <= j < i ==> points[j] == TreePoint(height, radius, rand, 5 * j, m)
    {
      // Draw 5i is the unused `r`; TreePoint reads draws 5i+1 .. 5i+4.
      points := points + [TreePoint(height, radius, rand, 5 * i, m)];
    }
  }

  /**
   * The height of one cone point: with h the height draw times height, the
   * point sits at y = h - height/2 in [-height/2, height/2).
   */
  lemma TreePointHeight(height: real, radius: real, rand: seq<real>, c: nat, m: MathLib)
    requires height > 0.0 && c + 5 <= |rand|
    requires 0.0 <= rand[c + 2] < 1.0
    ensures var p := TreePoint(height, radius, rand, c, m);
      var h := rand[c + 2] * height;
      && p.y == h - height / 2.0
      && -height / 2.0 <= p.y < height / 2.0
  {
    MulStrict(rand[c + 2], height);
  }

  /** Each horizontal coordinate of a cone point is within the cone radius at its height. */
  lemma TreePointAxes(height: real, radius: real, rand: seq<real>, c: nat, m: MathLib)
    requires height > 0.0 && radius > 0.0 && c + 5 <= |rand| && m.Valid()
    requires forall j :: c <= j < c + 5 ==> 0.0 <= rand[j] < 1.0
    ensures var p := TreePoint(height, radius, rand, c, m);
      var cr := ConeRadius(height, radius, rand[c + 2] * height);
      -cr <= p.x <= cr && -cr <= p.z <= cr
  {
    var p := TreePoint(height, radius, rand, c, m);
    var h := rand[c + 2] * height;
    var a := rand[c + 1] * Pi * 2.0 + h * 1.5;
    var cr := ConeRadius(height, radius, h);
    ConeRadiusRange(height, radius, rand[c + 2]);
    assert p.x == Offset(m.cos(a), cr, m.sqrt(rand[c + 3]));
    assert p.z == Offset(m.sin(a), cr, m.sqrt(rand[c + 4]));
    assert 0.0 <= rand[c + 3] <= 1.0 && 0.0 <= rand[c + 4] <= 1.0;
    AxisBound(m.cos(a), cr, m.sqrt(rand[c + 3]));
    AxisBound(m.sin(a), cr, m.sqrt(rand[c + 4]));
  }

  /** For a height draw u in [0, 1) the cone radius at u * height lies in (0, radius]. */
  lemma ConeRadiusRange(height: real, radius: real, u: real)
    requires height > 0.0 && radius > 0.0 && 0.0 <= u < 1.0
    ensures 0.0 < ConeRadius(height, radius, u * height) <= radius
  {
    var h := u * height;
    assert h / height == u;
    var v := 1.0 - u;
    assert ConeRadius(height, radius, h) == radius * v;
    MulStrict(1.0 - v, radius);
    assert radius * v == radius - (1.0 - v) * radius;
  }

  /** An offset is at most the radius in absolute value when |trig| <= 1 and the scale is in [0, 1]. */
  lemma AxisBound(c: real, w: real, s: real)
    requires -1.0 <= c <= 1.0 && 0.0 <= s <= 1.0 && 0.0 <= w
    ensures -w <= Offset(c, w, s) <= w
  {
    var cs := c * s;
    assert -1.0 <= cs <= 1.0 by {
      MulNonneg(1.0 - c, s);
      MulNonneg(1.0 + c, s);
    }
    MulNonneg(w, 1.0 - cs);
    MulNonneg(w, 1.0 + cs);
    assert c * w * s == w * cs;
  }

  lemma MulNonneg(a: real, b: real)
    requires 0.0 <= a && 0.0 <= b
    ensures 0.0 <= a * b
  {
  }

  /**
   * Point p, whose height draw was u, lies inside the cone: in the vertical
   * band [-height/2, height/2) and, on each horizontal axis, within the cone
   * radius at h = u * height, which is in (0, radius].
   */
  predicate InCone(height: real, radius: real, u: real, p: Vec3)
    requires height != 0.0
  {
    var cr := ConeRadius(height, radius, u * height);
    && -height / 2.0 <= p.y < height / 2.0
    && 0.0 < cr <= radius
    && -cr <= p.x <= cr && -cr <= p.z <= cr
  }

  lemma TreePointInCone(height: real, radius: real, rand: seq<real>, c: nat, m: MathLib)
    requires height > 0.0 && radius > 0.0 && c + 5 <= |rand| && m.Valid()
    requires forall j :: c <= j < c + 5 ==> 0.0 <= rand[j] < 1.0
    ensures InCone(height, radius, rand[c + 2], TreePoint(height, radius, rand, c, m))
  {
    TreePointHeight(height, radius, rand, c, m);
    ConeRadiusRange(height, radius, rand[c + 2]);
    TreePointAxes(height, radius, rand, c, m);
  }

  /** Every point getTreePoints returns lies inside the cone at the height it drew. */
  lemma TreePointsInCone(count: nat, height: real, radius: real, rand: seq<real>, m: MathLib)
    requires height > 0.0 && radius > 0.0 && |rand| >= 5 * count && UnitDraws(rand) && m.Valid()
    ensures forall i :: 0 <= i < count ==>
      InCone(height, radius, rand[5 * i + 2], TreePoints(count, height, radius, rand, m)[i])
  {
    forall i | 0 <= i < count
      ensures InCone(height, radius, rand[5 * i + 2], TreePoints(count, height, radius, rand, m)[i])
    {
      assert TreePoints(count, height, radius, rand, m)[i] == TreePoint(height, radius, rand, 5 * i, m);
      TreePointInCone(height, radius, rand, 5 * i, m);
    }
  }

  /**
   * The squared offsets on the two horizontal axes add up to at most the
   * squared radius when the trigonometric factors satisfy c^2 + s^2 = 1 and
   * both sqrt factors lie in [0, 1].
   */
  lemma DiscBound(c: real, s: real, cr: real, a: real, b: real)
    requires c * c + s * s == 1.0 && 0.0 <= a <= 1.0 && 0.0 <= b <= 1.0 && 0.0 <= cr
    ensures Offset(c, cr, a) * Offset(c, cr, a) + Offset(s, cr, b) * Offset(s, cr, b) <= cr * cr
  {
    var cc, ss, k := c * c, s * s, cr * cr;
    var aa, bb := a * a, b * b;
    MulBetween(a, a);
    MulBetween(b, b);
    var ck, sk := cc * k, ss * k;
    MulNonneg(c * c, cr * cr);
    MulNonneg(s * s, cr * cr);
    MulNonneg(ck, 1.0 - aa);
    MulNonneg(sk, 1.0 - bb);
    assert Offset(c, cr, a) * Offset(c, cr, a) == ck * aa;
    assert Offset(s, cr, b) * Offset(s, cr, b) == sk * bb;
    assert ck + sk == k;
  }

  /** Point p lies in the disc of the cone radius at height draw u. */
  predicate InDisc(height: real, radius: real, u: real, p: Vec3)
    requires height != 0.0
  {
    var cr := ConeRadius(height, radius, u * height);
    p.x * p.x + p.z * p.z <= cr * cr
  }

  /**
   * With the identity sin^2 + cos^2 = 1, a cone point lies in the disc of
   * the cone radius at its height: x^2 + z^2 <= currentRadius^2.
   */
  lemma TreePointInDisc(height: real, radius: real, rand: seq<real>, c: nat, m: MathLib)
    requires height > 0.0 && radius > 0.0 && c + 5 <= |rand| && m.Valid() && m.Pythagorean()
    requires forall j :: c <= j < c + 5 ==> 0.0 <= rand[j] < 1.0
    ensures InDisc(height, radius, rand[c + 2], TreePoint(height, radius, rand, c, m))
  {
    var p := TreePoint(height, radius, rand, c, m);
    var h := rand[c + 2] * height;
    var a := rand[c + 1] * Pi * 2.0 + h * 1.5;
    var cr := ConeRadius(height, radius, h);
    ConeRadiusRange(height, radius, rand[c + 2]);
    var sx, sz := m.sqrt(rand[c + 3]), m.sqrt(rand[c + 4]);
    assert p.x == Offset(m.cos(a), cr, sx);
    assert p.z == Offset(m.sin(a), cr, sz);
    assert 0.0 <= rand[c + 3] <= 1.0 && 0.0 <= rand[c + 4] <= 1.0;
    assert m.sin(a) * m.sin(a) + m.cos(a) * m.cos(a) == 1.0;
    DiscBound(m.cos(a), m.sin(a), cr, sx, sz);
  }

  /** Every point getTreePoints returns lies in the disc of the cone radius at the height it drew. */
  lemma TreePointsInDisc(count: nat, height: real, radius: real, rand: seq<real>, m: MathLib)
    requires height > 0.0 && radius > 0.0 && |rand| >= 5 * count && UnitDraws(rand)
    requires m.Valid() && m.Pythagorean()
    ensures forall i :: 0 <= i < count ==>
      InDisc(height, radius, rand[5 * i + 2], TreePoints(count, height, radius, rand, m)[i])
  {
    forall i | 0 <= i < count
      ensures InDisc(height, radius, rand[5 * i + 2], TreePoints(count, height, radius, rand, m)[i])
    {
      TreePointsEntry(count, height, radius, rand, m, i);
      TreePointInDisc(height, radius, rand, 5 * i, m);
    }
  }

  /** Point i of the tree is the cone point drawn from rand[5i ..]. */
  lemma TreePointsEntry(count: nat, height: real, radius: real, rand: seq<real>, m: MathLib, i: nat)
    requires height != 0.0 && |rand| >= 5 * count && i < count
    ensures TreePoints(count, height, radius, rand, m)[i] == TreePoint(height, radius, rand, 5 * i, m)
  {
  }
}
