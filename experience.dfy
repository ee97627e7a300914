/**
 * components/Experience.tsx: the transition engine and the per-frame layer.
 * The if/else chains that pick a target shape, the ornament targets and the
 * photo targets are decision functions; the particle buffers, the rotation
 * state and the group rotations live in the class ParticleScene, whose
 * methods write them in place as the effects, the tween callback and the
 * frame hook do.
 */
module Experience {
  import opened MathModel
  import opened Types
  import opened ParticleUtils

  /** The shape a retarget animates the particles toward. */
  datatype Shape =
    | TextShape(text: string, size: int)
    | TreeShape
    | ScatterShape(range: real)

  /**
   * What the target-selection effect does for one (state, mode): the shape,
   * the tween duration in seconds, the new autorotate flag, and whether it
   * schedules the TREE_ASSEMBLE completion callback.
   */
  datatype Retarget = Retarget(shape: Shape, duration: real, autoRotate: bool, schedulesCompletion: bool)

  /**
   * The target-selection effect's decision. INTRO and the photo-focus view
   * select nothing; the countdown phases select text and stop autorotation;
   * the tree configuration and the scattered view select a cloud and
   * autorotate.
   */
  function SelectTarget(state: AppState, mode: TreeDisplayMode, countdownValue: string): (r: Option<Retarget>)
    ensures r.None? <==> state == INTRO || (state == INTERACTIVE_TREE && mode == PHOTO_FOCUS)
    ensures r.Some? ==> (r.value.autoRotate <==> !r.value.shape.TextShape?)
    ensures (r.Some? && r.value.shape.TextShape?) <==> (state == COUNTDOWN || state == TRANSITION_TO_2026)
    ensures (r.Some? && r.value.shape == TreeShape) <==> TreeConfiguration(state, mode)
    ensures (r.Some? && r.value.schedulesCompletion) <==> state == TRANSITION_TO_2026
    ensures state == COUNTDOWN ==> r == Some(Retarget(TextShape(countdownValue, 200), 0.8, false, false))
    ensures state == TRANSITION_TO_2026 ==> r == Some(Retarget(TextShape("2026", 250), 2.0, false, true))
    ensures TreeConfiguration(state, mode) ==> r == Some(Retarget(TreeShape, 2.5, true, false))
    ensures state == INTERACTIVE_TREE && mode == SCATTERED ==> r == Some(Retarget(ScatterShape(20.0), 2.0, true, false))
  {
    if state == COUNTDOWN then Some(Retarget(TextShape(countdownValue, 200), 0.8, false, false))
    else if state == TRANSITION_TO_2026 then Some(Retarget(TextShape("2026", 250), 2.0, false, true))
    else if TreeConfiguration(state, mode) then Some(Retarget(TreeShape, 2.5, true, false))
    else if state == INTERACTIVE_TREE && mode == SCATTERED then Some(Retarget(ScatterShape(20.0), 2.0, true, false))
    else None
  }

  /** The autorotate flag after the effect: a retarget sets it, no retarget leaves it. */
  function AutoRotateAfter(previous: bool, r: Option<Retarget>): (on: bool)
  {
    if r.Some? then r.value.autoRotate else previous
  }

  /**
   * After the effect, autorotation is off exactly in the countdown phases,
   * on in the tree and scattered views, and unchanged in INTRO and photo focus.
   */
  lemma AutoRotatePolicy(previous: bool, state: AppState, mode: TreeDisplayMode, countdownValue: string)
    ensures var a := AutoRotateAfter(previous, SelectTarget(state, mode, countdownValue));
      && ((state == COUNTDOWN || state == TRANSITION_TO_2026) ==> !a)
      && ((state == TREE_ASSEMBLE || state == INTERACTIVE_TREE) && mode != PHOTO_FOCUS ==> a)
      && ((state == INTRO || (state == INTERACTIVE_TREE && mode == PHOTO_FOCUS)) ==> a == previous)
  {
  }

  // ---------------------------------------------------------------------
  // Ornament targets

  /** The height of ornament i of n on the tree: (i / n) * 10 - 5. */
  function OrnamentHeight(i: nat, n: nat): (h: real)
    requires i < n
  {
    (i as real / n as real) * 10.0 - 5.0
  }

  /** The tree radius at height h: 4 * (1 - (h + 5) / 10). */
  function OrnamentRadius(h: real): (r: real)
  {
    4.0 * (1.0 - (h + 5.0) / 10.0)
  }

  /** Ornament i's place on the spiral: angle i * 0.8 at its height and radius. */
  function OrnamentTreeTarget(i: nat, n: nat, m: MathLib): (p: Vec3)
    requires i < n
  {
    var h := OrnamentHeight(i, n);
    var r := OrnamentRadius(h);
    var angle := i as real * 0.8;
    Vec3(m.cos(angle) * r, h, m.sin(angle) * r)
  }

  /** A loose ornament: each coordinate (random - 0.5) * 20, reading rand[c .. c+3]. */
  function OrnamentScatterTarget(rand: seq<real>, c: nat): (p: Vec3)
    requires c + 3 <= |rand|
  {
    Vec3(Centered(rand[c], 20.0), Centered(rand[c + 1], 20.0), Centered(rand[c + 2], 20.0))
  }

  /** Math.random() calls the ornament effect makes per ornament. */
  function OrnamentDraws(state: AppState, mode: TreeDisplayMode): (k: nat)
  {
    if TreeConfiguration(state, mode) then 0 else 3
  }

  /** The targets the ornament effect gives the n ornaments. */
  function OrnamentLayout(state: AppState, mode: TreeDisplayMode, n: nat, rand: seq<real>, m: MathLib): (targets: seq<Vec3>)
    requires |rand| >= 3 * n
  {
    seq(n, i requires 0 <= i < n =>
      if TreeConfiguration(state, mode) then OrnamentTreeTarget(i, n, m)
      else OrnamentScatterTarget(rand, 3 * i))
  }

  /**
   * The ornament effect: one target per child of the ornament group, in
   * child order. `used` is the number of Math.random() calls made.
   */
  method OrnamentTargets(state: AppState, mode: TreeDisplayMode, n: nat, rand: seq<real>, m: MathLib)
    returns (targets: seq<Vec3>, used: nat)
    requires |rand| >= 3 * n
    ensures |targets| == n
    ensures used == OrnamentDraws(state, mode) * n
    ensures targets == OrnamentLayout(state, mode, n, rand, m)
  {
    targets := [];
    used := 0;
    for i := 0 to n
      invariant |targets| == i
      invariant used == OrnamentDraws(state, mode) * i
      invariant forall j :: 0 <= j < i ==> targets[j] == OrnamentLayout(state, mode, n, rand, m)[j]
    {
      var target;
      if state == TREE_ASSEMBLE || (state == INTERACTIVE_TREE && mode == COMPACT) {
        var h := OrnamentHeight(i, n);
        var r := OrnamentRadius(h);
        var angle := i as real * 0.8;
        target := Vec3(m.cos(angle) * r, h, m.sin(angle) * r);
      } else {
        target := Vec3(Centered(rand[used], 20.0), Centered(rand[used + 1], 20.0), Centered(rand[used + 2], 20.0));
        used := used + 3;
      }
      targets := targets + [target];
    }
  }

  /** On the tree, ornament i of n sits at height in [-5, 5) with radius 4 * (1 - i/n) in (0, 4]. */
  lemma OrnamentOnTree(i: nat, n: nat)
    requires i < n
    ensures -5.0 <= OrnamentHeight(i, n) < 5.0
    ensures OrnamentRadius(OrnamentHeight(i, n)) == 4.0 * (1.0 - i as real / n as real)
    ensures 0.0 < OrnamentRadius(OrnamentHeight(i, n)) <= 4.0
  {
    var q := i as real / n as real;
    assert 0.0 <= q < 1.0 by {
      assert q * n as real == i as real;
    }
    MulStrict(q, 10.0);
  }

  /** Each tree ornament is within its radius of the trunk on both horizontal axes. */
  lemma OrnamentTreeTargetBounds(i: nat, n: nat, m: MathLib)
    requires i < n && m.Valid()
    ensures var p := OrnamentTreeTarget(i, n, m);
      var r := OrnamentRadius(p.y);
      && -5.0 <= p.y < 5.0 && 0.0 < r <= 4.0
      && -r <= p.x <= r && -r <= p.z <= r
  {
    var p := OrnamentTreeTarget(i, n, m);
    var h := OrnamentHeight(i, n);
    OrnamentOnTree(i, n);
    var r := OrnamentRadius(h);
    var angle := i as real * 0.8;
    var cs, sn := m.cos(angle), m.sin(angle);
    assert p == Vec3(cs * r, h, sn * r);
    ScaledBound(cs, r);
    ScaledBound(sn, r);
  }

  /**
   * Every ornament target lies on the tree within the radius at its height
   * in the tree configuration, and in the cube [-10, 10)^3 otherwise.
   */
  lemma OrnamentLayoutBounds(state: AppState, mode: TreeDisplayMode, n: nat, rand: seq<real>, m: MathLib)
    requires |rand| >= 3 * n && UnitDraws(rand) && m.Valid()
    ensures forall i :: 0 <= i < n ==>
      var p := OrnamentLayout(state, mode, n, rand, m)[i];
      if TreeConfiguration(state, mode) then
        var r := OrnamentRadius(p.y);
        -5.0 <= p.y < 5.0 && 0.0 < r <= 4.0 && -r <= p.x <= r && -r <= p.z <= r
      else
        -10.0 <= p.x < 10.0 && -10.0 <= p.y < 10.0 && -10.0 <= p.z < 10.0
  {
    forall i | 0 <= i < n
      ensures var p := OrnamentLayout(state, mode, n, rand, m)[i];
        if TreeConfiguration(state, mode) then
          var r := OrnamentRadius(p.y);
          -5.0 <= p.y < 5.0 && 0.0 < r <= 4.0 && -r <= p.x <= r && -r <= p.z <= r
        else
          -10.0 <= p.x < 10.0 && -10.0 <= p.y < 10.0 && -10.0 <= p.z < 10.0
    {
      if TreeConfiguration(state, mode) {
        OrnamentTreeTargetBounds(i, n, m);
      } else {
        assert 0.0 <= rand[3 * i] < 1.0 && 0.0 <= rand[3 * i + 1] < 1.0 && 0.0 <= rand[3 * i + 2] < 1.0;
      }
    }
  }

  // ---------------------------------------------------------------------
  // Photo targets

  /** The tween targets of one photo: position, scale, and whether its rotation is reset. */
  datatype PhotoTarget = PhotoTarget(position: Vec3, scale: Vec3, resetsRotation: bool)

  /** A photo is focused when its group name, the photo's id, equals the focused id. */
  predicate IsFocused(photo: UserPhoto, focused: Option<string>)
  {
    focused == Some(photo.id)
  }

  /** The orbit position of photo i in the scattered view, from the seed i * 13.37. */
  function OrbitPosition(i: nat, m: MathLib): (p: Vec3)
  {
    var seed := i as real * 13.37;
    Vec3(m.sin(seed) * 10.0, m.cos(seed * 0.8) * 8.0, m.sin(seed * 0.5) * 8.0)
  }

  /** The photo effect's priority chain for photo i. */
  function PhotoTargetFor(mode: TreeDisplayMode, focused: bool, i: nat, m: MathLib): (r: PhotoTarget)
    ensures r.resetsRotation == focused
    ensures mode == COMPACT ==> r.position == Origin && r.scale == Vec3(0.0, 0.0, 0.0)
    ensures mode != COMPACT && focused ==> r.position == Vec3(0.0, 0.0, 8.0) && r.scale == Vec3(4.0, 4.0, 1.0)
    ensures mode == SCATTERED && !focused ==> r.position == OrbitPosition(i, m) && r.scale == Vec3(1.5, 1.5, 1.0)
    ensures mode == PHOTO_FOCUS && !focused ==> r.position == Origin && r.scale == Vec3(1.0, 1.0, 1.0)
  {
    if mode == COMPACT then PhotoTarget(Origin, Vec3(0.0, 0.0, 0.0), focused)
    else if focused then PhotoTarget(Vec3(0.0, 0.0, 8.0), Vec3(4.0, 4.0, 1.0), focused)
    else if mode == SCATTERED then PhotoTarget(OrbitPosition(i, m), Vec3(1.5, 1.5, 1.0), focused)
    else PhotoTarget(Origin, Vec3(1.0, 1.0, 1.0), focused)
  }

  /** The targets the photo effect gives every photo, in list order. */
  function PhotoLayout(photos: seq<UserPhoto>, mode: TreeDisplayMode, focused: Option<string>, m: MathLib): (targets: seq<PhotoTarget>)
  {
    seq(|photos|, i requires 0 <= i < |photos| => PhotoTargetFor(mode, IsFocused(photos[i], focused), i, m))
  }

  /** The photo effect: a loop over the children of the photo group. */
  method PhotoTargets(photos: seq<UserPhoto>, mode: TreeDisplayMode, focused: Option<string>, m: MathLib)
    returns (targets: seq<PhotoTarget>)
    ensures |targets| == |photos|
    ensures targets == PhotoLayout(photos, mode, focused, m)
  {
    targets := [];
    for i := 0 to |photos|
      invariant |targets| == i
      invariant forall j :: 0 <= j < i ==> targets[j] == PhotoLayout(photos, mode, focused, m)[j]
    {
      var isFocused := focused.Some? && photos[i].id == focused.value;
      var position, scale := Origin, Vec3(1.0, 1.0, 1.0);
      if mode == COMPACT {
        scale := Vec3(0.0, 0.0, 0.0);
      } else if isFocused {
        position, scale := Vec3(0.0, 0.0, 8.0), Vec3(4.0, 4.0, 1.0);
      } else if mode == SCATTERED {
        var seed := i as real * 13.37;
        position := Vec3(m.sin(seed) * 10.0, m.cos(seed * 0.8) * 8.0, m.sin(seed * 0.5) * 8.0);
        scale := Vec3(1.5, 1.5, 1.0);
      }
      targets := targets + [PhotoTarget(position, scale, isFocused)];
    }
  }

  /** A scattered photo orbits within |x| <= 10, |y| <= 8, |z| <= 8. */
  lemma OrbitBounds(i: nat, m: MathLib)
    requires m.Valid()
    ensures var p := OrbitPosition(i, m);
      -10.0 <= p.x <= 10.0 && -8.0 <= p.y <= 8.0 && -8.0 <= p.z <= 8.0
  {
    var seed := i as real * 13.37;
    ScaledBound(m.sin(seed), 10.0);
    ScaledBound(m.cos(seed * 0.8), 8.0);
    ScaledBound(m.sin(seed * 0.5), 8.0);
  }

  /**
   * In photo focus, the photos enlarged to the front are exactly those whose
   * id is the focused one, and only they have their rotation reset; when the
   * focused id names no photo, every photo rests at the origin at scale 1.
   */
  lemma FocusLayout(photos: seq<UserPhoto>, focused: Option<string>, m: MathLib)
    ensures forall i :: 0 <= i < |photos| ==>
      var t := PhotoLayout(photos, PHOTO_FOCUS, focused, m)[i];
      && (t.scale == Vec3(4.0, 4.0, 1.0) <==> IsFocused(photos[i], focused))
      && (t.resetsRotation <==> IsFocused(photos[i], focused))
    ensures (forall p :: p in photos ==> !IsFocused(p, focused)) ==>
      forall i :: 0 <= i < |photos| ==>
        PhotoLayout(photos, PHOTO_FOCUS, focused, m)[i] == PhotoTarget(Origin, Vec3(1.0, 1.0, 1.0), false)
  {
    if forall p :: p in photos ==> !IsFocused(p, focused) {
      forall i | 0 <= i < |photos|
        ensures PhotoLayout(photos, PHOTO_FOCUS, focused, m)[i] == PhotoTarget(Origin, Vec3(1.0, 1.0, 1.0), false)
      {
        assert photos[i] in photos;
      }
    }
  }

  /** In the compact view every photo shrinks to scale 0 at the origin. */
  lemma CompactHidesPhotos(photos: seq<UserPhoto>, focused: Option<string>, m: MathLib)
    ensures forall i :: 0 <= i < |photos| ==>
      var t := PhotoLayout(photos, COMPACT, focused, m)[i];
      t.position == Origin && t.scale == Vec3(0.0, 0.0, 0.0)
  {
  }

  // ---------------------------------------------------------------------
  // Tweening the particle buffer

  /** newPoints[i], or the origin when the list has no point i. */
  function TargetPoint(target: seq<Vec3>, i: nat): (p: Vec3)
    ensures i < |target| ==> p == target[i]
    ensures i >= |target| ==> p == Origin
  {
    if i < |target| then target[i] else Origin
  }

  /** The n points a tween actually aims at: the list, padded with the origin. */
  function Padded(target: seq<Vec3>, n: nat): (points: seq<Vec3>)
  {
    seq(n, i requires 0 <= i < n => TargetPoint(target, i))
  }

  /** Coordinate k (0 = x, 1 = y, 2 = z) of a point. */
  function Coord(p: Vec3, k: int): (x: real)
  {
    if k == 0 then p.x else if k == 1 then p.y else p.z
  }

  /**
   * The buffer at progress t of a tween from the snapshot `start` toward
   * `target`: entry 3i + k is lerp(start[3i + k], coordinate k of point i, t).
   */
  function Interpolated(start: seq<real>, target: seq<Vec3>, t: real): (r: seq<real>)
    ensures |r| == |start|
  {
    seq(|start|, j requires 0 <= j < |start| => Lerp(start[j], Coord(TargetPoint(target, j / 3), j % 3), t))
  }

  /** At progress 0 the buffer equals the snapshot. */
  lemma InterpolatedAtStart(start: seq<real>, target: seq<Vec3>)
    ensures Interpolated(start, target, 0.0) == start
  {
  }

  /** At progress 1 the buffer equals the padded target list, flattened. */
  lemma InterpolatedAtEnd(start: seq<real>, target: seq<Vec3>, n: nat)
    requires |start| == 3 * n
    ensures Interpolated(start, target, 1.0) == Flatten(Padded(target, n))
  {
    var r, f := Interpolated(start, target, 1.0), Flatten(Padded(target, n));
    forall j | 0 <= j < 3 * n
      ensures r[j] == f[j]
    {
      var i, k := j / 3, j % 3;
      assert j == 3 * i + k;
      var p := Padded(target, n)[i];
      assert p == TargetPoint(target, i);
      assert r[j] == Coord(p, k);
      if k == 0 {
        assert f[3 * i] == p.x;
      } else if k == 1 {
        assert f[3 * i + 1] == p.y;
      } else {
        assert f[3 * i + 2] == p.z;
      }
    }
  }

  /**
   * For progress in [0, 1] every entry lies between its snapshot value and
   * its target coordinate; a particle with no target point heads for the origin.
   */
  lemma InterpolatedBetween(start: seq<real>, target: seq<Vec3>, t: real)
    requires 0.0 <= t <= 1.0
    ensures forall j :: 0 <= j < |start| ==>
      var a, b := start[j], Coord(TargetPoint(target, j / 3), j % 3);
      var v := Interpolated(start, target, t)[j];
      (a <= b ==> a <= v <= b) && (b <= a ==> b <= v <= a)
    ensures forall j :: 0 <= j < |start| && j / 3 >= |target| ==>
      Interpolated(start, target, t)[j] == Lerp(start[j], 0.0, t)
  {
    forall j | 0 <= j < |start|
      ensures var a, b := start[j], Coord(TargetPoint(target, j / 3), j % 3);
        var v := Interpolated(start, target, t)[j];
        (a <= b ==> a <= v <= b) && (b <= a ==> b <= v <= a)
    {
      LerpBetween(start[j], Coord(TargetPoint(target, j / 3), j % 3), t);
    }
  }

  /** Particle k's three entries of `shown` are the lerps of its snapshot entries toward its target point. */
  predicate LerpedParticle(shown: seq<real>, start: seq<real>, target: seq<Vec3>, t: real, k: nat)
  {
    && 3 * k + 2 < |shown| && 3 * k + 2 < |start|
    && shown[3 * k] == Lerp(start[3 * k], TargetPoint(target, k).x, t)
    && shown[3 * k + 1] == Lerp(start[3 * k + 1], TargetPoint(target, k).y, t)
    && shown[3 * k + 2] == Lerp(start[3 * k + 2], TargetPoint(target, k).z, t)
  }

  /** A buffer whose three entries per particle are the lerps toward that particle's target is the interpolation. */
  lemma InterpolatedByParticle(shown: seq<real>, start: seq<real>, target: seq<Vec3>, t: real)
    requires |shown| == |start| && |start| % 3 == 0
    requires forall k: nat :: k < |start| / 3 ==> LerpedParticle(shown, start, target, t, k)
    ensures shown == Interpolated(start, target, t)
  {
    forall j | 0 <= j < |start|
      ensures shown[j] == Interpolated(start, target, t)[j]
    {
      var k := j / 3;
      assert LerpedParticle(shown, start, target, t, k);
      InterpolatedEntries(start, target, t, k);
      assert j == 3 * k || j == 3 * k + 1 || j == 3 * k + 2;
    }
  }

  /** Entries 3i, 3i+1, 3i+2 of the interpolation are the lerps of point i's x, y and z. */
  lemma InterpolatedEntries(start: seq<real>, target: seq<Vec3>, t: real, i: nat)
    requires 3 * i + 2 < |start|
    ensures Interpolated(start, target, t)[3 * i] == Lerp(start[3 * i], TargetPoint(target, i).x, t)
    ensures Interpolated(start, target, t)[3 * i + 1] == Lerp(start[3 * i + 1], TargetPoint(target, i).y, t)
    ensures Interpolated(start, target, t)[3 * i + 2] == Lerp(start[3 * i + 2], TargetPoint(target, i).z, t)
  {
    assert (3 * i) / 3 == i && (3 * i) % 3 == 0;
    assert (3 * i + 1) / 3 == i && (3 * i + 1) % 3 == 1;
    assert (3 * i + 2) / 3 == i && (3 * i + 2) % 3 == 2;
  }

  /** A running tween: the snapshot copied when it began, and its target list. */
  datatype Tween = Tween(start: seq<real>, target: seq<Vec3>)

  // ---------------------------------------------------------------------
  // The frame layer

  /** The shimmer amplitude: 0.02 in the countdown phases, 0.01 otherwise. */
  function ShimmerIntensity(state: AppState): (r: real)
    ensures r == 0.01 || r == 0.02
    ensures r == 0.02 <==> state == COUNTDOWN || state == TRANSITION_TO_2026
  {
    if state == COUNTDOWN || state == TRANSITION_TO_2026 then 0.02 else 0.01
  }

  /** The wave of coordinate k of particle i at time t: sin(2t + i), cos(1.5t + i), sin(3t + i). */
  function Wave(t: real, i: int, k: int, m: MathLib): (w: real)
  {
    if k == 0 then m.sin(t * 2.0 + i as real)
    else if k == 1 then m.cos(t * 1.5 + i as real)
    else m.sin(t * 3.0 + i as real)
  }

  /** One displayed coordinate: its base value plus the wave times the intensity. */
  function Shimmer(base: real, wave: real, intensity: real): (x: real)
  {
    base + wave * intensity
  }

  /** What the frame writes into `positions`, entry by entry. */
  function Shimmered(base: seq<real>, t: real, intensity: real, m: MathLib): (r: seq<real>)
    ensures |r| == |base|
  {
    seq(|base|, j requires 0 <= j < |base| => Shimmer(base[j], Wave(t, j / 3, j % 3, m), intensity))
  }

  /** The three entries of particle i in the shimmered buffer. */
  lemma ShimmerEntries(base: seq<real>, t: real, intensity: real, m: MathLib, i: nat)
    requires 3 * i + 2 < |base|
    ensures Shimmered(base, t, intensity, m)[3 * i] == Shimmer(base[3 * i], m.sin(t * 2.0 + i as real), intensity)
    ensures Shimmered(base, t, intensity, m)[3 * i + 1] == Shimmer(base[3 * i + 1], m.cos(t * 1.5 + i as real), intensity)
    ensures Shimmered(base, t, intensity, m)[3 * i + 2] == Shimmer(base[3 * i + 2], m.sin(t * 3.0 + i as real), intensity)
  {
    assert (3 * i) / 3 == i && (3 * i) % 3 == 0;
    assert (3 * i + 1) / 3 == i && (3 * i + 1) % 3 == 1;
    assert (3 * i + 2) / 3 == i && (3 * i + 2) % 3 == 2;
  }

  /** A buffer whose every particle holds the shimmer of its base entries is the shimmered buffer. */
  /** Particle k's three entries of `shown` are its base entries plus its three waves times the intensity. */
  predicate ShimmeredParticle(shown: seq<real>, base: seq<real>, t: real, intensity: real, m: MathLib, k: nat)
  {
    && 3 * k + 2 < |shown| && 3 * k + 2 < |base|
    && shown[3 * k] == Shimmer(base[3 * k], m.sin(t * 2.0 + k as real), intensity)
    && shown[3 * k + 1] == Shimmer(base[3 * k + 1], m.cos(t * 1.5 + k as real), intensity)
    && shown[3 * k + 2] == Shimmer(base[3 * k + 2], m.sin(t * 3.0 + k as real), intensity)
  }

  lemma ShimmeredByParticle(shown: seq<real>, base: seq<real>, t: real, intensity: real, m: MathLib)
    requires |shown| == |base| && |base| % 3 == 0
    requires forall k: nat :: k < |base| / 3 ==> ShimmeredParticle(shown, base, t, intensity, m, k)
    ensures shown == Shimmered(base, t, intensity, m)
  {
    forall j | 0 <= j < |base|
      ensures shown[j] == Shimmered(base, t, intensity, m)[j]
    {
      assert ShimmeredParticle(shown, base, t, intensity, m, j / 3);
      ShimmeredEntry(shown, base, t, intensity, m, j);
    }
  }

  /** Entry j of a buffer whose particle j / 3 is shimmered is entry j of the shimmer. */
  lemma ShimmeredEntry(shown: seq<real>, base: seq<real>, t: real, intensity: real, m: MathLib, j: nat)
    requires j < |shown| == |base| && ShimmeredParticle(shown, base, t, intensity, m, j / 3)
    ensures shown[j] == Shimmered(base, t, intensity, m)[j]
  {
    var k := j / 3;
    ShimmerEntries(base, t, intensity, m, k);
    assert j == 3 * k || j == 3 * k + 1 || j == 3 * k + 2;
  }

  /** Every written coordinate is within the intensity of its base value. */
  lemma ShimmerBounded(base: seq<real>, t: real, intensity: real, m: MathLib)
    requires m.Valid() && 0.0 <= intensity
    ensures forall j :: 0 <= j < |base| ==>
      base[j] - intensity <= Shimmered(base, t, intensity, m)[j] <= base[j] + intensity
  {
    forall j | 0 <= j < |base|
      ensures base[j] - intensity <= Shimmered(base, t, intensity, m)[j] <= base[j] + intensity
    {
      var w := Wave(t, j / 3, j % 3, m);
      WaveBounded(t, j / 3, j % 3, m);
      ScaledBound(w, intensity);
      assert Shimmered(base, t, intensity, m)[j] == Shimmer(base[j], w, intensity) == base[j] + w * intensity;
    }
  }

  lemma WaveBounded(t: real, i: int, k: int, m: MathLib)
    requires m.Valid()
    ensures -1.0 <= Wave(t, i, k, m) <= 1.0
  {
  }

  /** The oscillation the frame sets while autorotation is off: sin(t / 2) * 0.05. */
  function Oscillation(t: real, m: MathLib): (o: real)
  {
    m.sin(t * 0.5) * 0.05
  }

  lemma OscillationBounded(t: real, m: MathLib)
    requires m.Valid()
    ensures -0.05 <= Oscillation(t, m) <= 0.05
  {
    ScaledBound(m.sin(t * 0.5), 0.05);
  }

  /** The ornament group's rotation: 1.5 times the current rotation in the compact interactive tree. */
  function OrnamentRotation(state: AppState, mode: TreeDisplayMode, currentY: real): (r: real)
    ensures state == INTERACTIVE_TREE && mode == COMPACT ==> r == 1.5 * currentY
    ensures !(state == INTERACTIVE_TREE && mode == COMPACT) ==> r == currentY
  {
    if state == INTERACTIVE_TREE && mode == COMPACT then currentY * 1.5 else currentY
  }

  /** The photo group's rotation: half the current rotation when scattered, 0 in focus, else kept. */
  function PhotoGroupRotation(mode: TreeDisplayMode, currentY: real, previous: real): (r: real)
    ensures mode == SCATTERED ==> r == 0.5 * currentY
    ensures mode == PHOTO_FOCUS ==> r == 0.0
    ensures mode == COMPACT ==> r == previous
  {
    if mode == SCATTERED then currentY * 0.5
    else if mode == PHOTO_FOCUS then 0.0
    else previous
  }

  /** The size of one particle from its draw: random * 0.12 + 0.05. */
  function ParticleSize(u: real): (r: real)
    ensures 0.0 <= u < 1.0 ==> 0.05 <= r < 0.17
  {
    MulStrict(u, 0.12);
    u * 0.12 + 0.05
  }

  /**
   * The scene of Experience: the two Float32Array buffers of 3 * count
   * entries, the size buffer, rotationState, and the rotations the frame
   * hook writes into the particle system and the two groups.
   */
  class ParticleScene {
    /** PARTICLE_COUNT. */
    const count: nat
    /** What the renderer draws: base plus shimmer. */
    const positions: array<real>
    /** Where each particle is heading; written only by the tweens and the mount effect. */
    const basePositions: array<real>
    const particleSizes: array<real>
    /** rotationState.current. */
    var rotY: real
    var autoRotate: bool
    var oscillation: real
    /** particleSystemRef.current.rotation.y, ornamentsRef and photoGroupRef's rotation.y. */
    var particleRotY: real
    var ornamentRotY: real
    var photoGroupRotY: real

    ghost predicate Valid()
    {
      && positions.Length == 3 * count
      && basePositions.Length == 3 * count
      && particleSizes.Length == count
      && positions != basePositions
    }

    /**
     * The component's first render: zeroed buffers, sizes random * 0.12 +
     * 0.05 from the first `count` draws, rotationState { y: 0, autoRotate:
     * true, oscillation: 0 }.
     */
    constructor(count: nat, rand: seq<real>)
      requires |rand| >= count
      ensures Valid() && this.count == count
      ensures fresh(positions) && fresh(basePositions) && fresh(particleSizes)
      ensures forall j :: 0 <= j < 3 * count ==> positions[j] == 0.0 && basePositions[j] == 0.0
      ensures forall i :: 0 <= i < count ==> particleSizes[i] == ParticleSize(rand[i])
      ensures rotY == 0.0 && autoRotate && oscillation == 0.0
      ensures particleRotY == 0.0 && ornamentRotY == 0.0 && photoGroupRotY == 0.0
    {
      this.count := count;
      var sizes := new real[count];
      for i := 0 to count
        invariant forall j :: 0 <= j < i ==> sizes[j] == ParticleSize(rand[j])
      {
        sizes[i] := rand[i] * 0.12 + 0.05;
      }
      particleSizes := sizes;
      positions := new real[3 * count](_ => 0.0);
      basePositions := new real[3 * count](_ => 0.0);
      rotY, autoRotate, oscillation := 0.0, true, 0.0;
      particleRotY, ornamentRotY, photoGroupRotY := 0.0, 0.0, 0.0;
    }

    /** The mount effect: both buffers start from getScatteredPoints(count, 30). */
    method Mount(rand: seq<real>)
      requires Valid() && |rand| >= 3 * count
      modifies positions, basePositions
      ensures Valid()
      ensures basePositions[..] == Flatten(ScatteredPoints(count, 30.0, rand))
      ensures positions[..] == basePositions[..]
    {
      var initial := GetScatteredPoints(count, 30.0, rand);
      for i := 0 to count
        invariant forall j :: 0 <= j < 3 * i ==> basePositions[j] == Flatten(initial)[j] && positions[j] == Flatten(initial)[j]
      {
        basePositions[i * 3] := initial[i].x;
        basePositions[i * 3 + 1] := initial[i].y;
        basePositions[i * 3 + 2] := initial[i].z;
        positions[i * 3] := initial[i].x;
        positions[i * 3 + 1] := initial[i].y;
        positions[i * 3 + 2] := initial[i].z;
      }
    }

    /** animateTo: a tween whose start is a copy of the buffer as it is now. */
    method AnimateTo(newPoints: seq<Vec3>) returns (tw: Tween)
      requires Valid()
      ensures tw.start == basePositions[..] && |tw.start| == 3 * count
      ensures tw.target == newPoints
    {
      tw := Tween(basePositions[..], newPoints);
    }

    /** The tween's onUpdate at progress t: every entry of the buffer is set from the snapshot. */
    method TweenUpdate(tw: Tween, t: real)
      requires Valid() && |tw.start| == 3 * count
      modifies basePositions
      ensures basePositions[..] == Interpolated(tw.start, tw.target, t)
    {
      for i := 0 to count
        invariant forall k :: 0 <= k < i ==>
          && basePositions[3 * k] == Lerp(tw.start[3 * k], TargetPoint(tw.target, k).x, t)
          && basePositions[3 * k + 1] == Lerp(tw.start[3 * k + 1], TargetPoint(tw.target, k).y, t)
          && basePositions[3 * k + 2] == Lerp(tw.start[3 * k + 2], TargetPoint(tw.target, k).z, t)
      {
        var pt := if i < |tw.target| then tw.target[i] else Vec3(0.0, 0.0, 0.0);
        basePositions[i * 3] := Lerp(tw.start[i * 3], pt.x, t);
        basePositions[i * 3 + 1] := Lerp(tw.start[i * 3 + 1], pt.y, t);
        basePositions[i * 3 + 2] := Lerp(tw.start[i * 3 + 2], pt.z, t);
      }
      forall k: nat | k < count
        ensures LerpedParticle(basePositions[..], tw.start, tw.target, t, k)
      {
      }
      InterpolatedByParticle(basePositions[..], tw.start, tw.target, t);
    }

    /**
     * The target-selection effect. `raster` is the canvas image the text is
     * drawn into (None when no 2-D context exists); rand feeds the generator.
     */
    method RetargetEffect(state: AppState, mode: TreeDisplayMode, countdownValue: string,
                          raster: Option<ImageData>, rand: seq<real>, m: MathLib)
      returns (tw: Option<Tween>, schedulesCompletion: bool)
      requires Valid() && |rand| >= 5 * count && UnitDraws(rand)
      requires raster.Some? ==> IsImageData(raster.value)
      modifies this`autoRotate
      ensures var sel := SelectTarget(state, mode, countdownValue);
        && autoRotate == AutoRotateAfter(old(autoRotate), sel)
        && (tw.Some? <==> sel.Some?)
        && schedulesCompletion == (sel.Some? && sel.value.schedulesCompletion)
        && (tw.Some? ==> tw.value.start == basePositions[..])
        && (tw.Some? && sel.value.shape.TextShape? ==>
              tw.value.target == (if raster.None? then [] else TextPoints(Foreground(raster.value), count, rand)))
        && (tw.Some? && sel.value.shape == TreeShape ==> tw.value.target == TreePoints(count, 10.0, 4.0, rand, m))
        && (tw.Some? && sel.value.shape.ScatterShape? ==> tw.value.target == ScatteredPoints(count, 20.0, rand))
    {
      var sel := SelectTarget(state, mode, countdownValue);
      tw, schedulesCompletion := None, false;
      if sel.None? {
        return;
      }
      autoRotate := sel.value.autoRotate;
      var pts;
      match sel.value.shape {
        case TextShape(_, _) =>
          var used;
          pts, used := GetTextPoints(raster, count, rand);
        case TreeShape =>
          pts := GetTreePoints(count, 10.0, 4.0, rand, m);
        case ScatterShape(range) =>
          pts := GetScatteredPoints(count, range, rand);
      }
      var t := AnimateTo(pts);
      tw := Some(t);
      schedulesCompletion := sel.value.schedulesCompletion;
    }

    /** The shimmer loop of the frame hook: positions = base + wave * intensity, entry by entry. */
    method WriteShimmer(t: real, intensity: real, m: MathLib)
      requires Valid()
      modifies positions
      ensures positions[..] == Shimmered(basePositions[..], t, intensity, m)
    {
      for i := 0 to count
        invariant forall k :: 0 <= k < i ==>
          && positions[3 * k] == Shimmer(basePositions[3 * k], m.sin(t * 2.0 + k as real), intensity)
          && positions[3 * k + 1] == Shimmer(basePositions[3 * k + 1], m.cos(t * 1.5 + k as real), intensity)
          && positions[3 * k + 2] == Shimmer(basePositions[3 * k + 2], m.sin(t * 3.0 + k as real), intensity)
      {
        var idx := i * 3;
        positions[idx] := Shimmer(basePositions[idx], m.sin(t * 2.0 + i as real), intensity);
        positions[idx + 1] := Shimmer(basePositions[idx + 1], m.cos(t * 1.5 + i as real), intensity);
        positions[idx + 2] := Shimmer(basePositions[idx + 2], m.sin(t * 3.0 + i as real), intensity);
      }
      forall k: nat | k < count
        ensures ShimmeredParticle(positions[..], basePositions[..], t, intensity, m, k)
      {
      }
      ShimmeredByParticle(positions[..], basePositions[..], t, intensity, m);
    }

    /**
     * One useFrame call at clock time t, delta seconds after the previous one.
     */
    method Frame(t: real, delta: real, state: AppState, mode: TreeDisplayMode, m: MathLib)
      requires Valid()
      modifies this`rotY, this`oscillation, this`particleRotY, this`ornamentRotY, this`photoGroupRotY, positions
      ensures rotY == (if autoRotate then old(rotY) + delta * 0.2 else old(rotY))
      ensures oscillation == (if autoRotate then old(oscillation) else Oscillation(t, m))
      ensures particleRotY == rotY + oscillation
      ensures ornamentRotY == OrnamentRotation(state, mode, rotY + oscillation)
      ensures photoGroupRotY == PhotoGroupRotation(mode, rotY + oscillation, old(photoGroupRotY))
      ensures positions[..] == Shimmered(basePositions[..], t, ShimmerIntensity(state), m)
      ensures delta >= 0.0 ==> old(rotY) <= rotY
      ensures !autoRotate && m.Valid() ==> -0.05 <= oscillation <= 0.05
    {
      if autoRotate {
        rotY := rotY + delta * 0.2;
      } else {
        oscillation := m.sin(t * 0.5) * 0.05;
        if m.Valid() {
          OscillationBounded(t, m);
        }
      }
      var currentY := rotY + oscillation;
      particleRotY := currentY;
      WriteShimmer(t, ShimmerIntensity(state), m);
      ornamentRotY := if state == INTERACTIVE_TREE && mode == COMPACT then currentY * 1.5 else currentY;
      if mode == SCATTERED {
        photoGroupRotY := currentY * 0.5;
      } else if mode == PHOTO_FOCUS {
        photoGroupRotY := 0.0;
      }
    }
  }
}
