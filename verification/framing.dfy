/**
 * The framing heuristic of the assets worker's `_setupDecoration`: fold the
 * (already scaled) bounding boxes of the scene's meshes into one union box,
 * skipping the ground and meshes without bounding info, then place the
 * camera, the directional light and the ground plane from that box.
 *
 * Coordinates are exact reals. The world-matrix decomposition and the
 * per-mesh scaling multiply are done by the engine and arrive here as the
 * mesh's `scaledBounds`; the Euclidean distance arrives as `halfDistance`.
 */
module Framing {
  import opened Common

  datatype Vec3 = Vec3(x: real, y: real, z: real)

  datatype Axis = X | Y | Z

  function Coord(v: Vec3, a: Axis): real {
    match a
    case X => v.x
    case Y => v.y
    case Z => v.z
  }

  /** `Math.max` and `Math.min` on finite numbers. */
  function Max(a: real, b: real): real {
    if a >= b then a else b
  }

  function Min(a: real, b: real): real {
    if a <= b then a else b
  }

  /** An axis-aligned box given by its two extreme corners. */
  datatype Box = Box(minimum: Vec3, maximum: Vec3)

  /** The size of a box along one axis. */
  function Extent(b: Box, a: Axis): real {
    Coord(b.maximum, a) - Coord(b.minimum, a)
  }

  /**
   * One entry of the worker scene's mesh list: whether it is the worker's own
   * ground plane, and its bounding box multiplied by its world scaling, or
   * None when the mesh has no bounding info.
   */
  datatype SceneMesh = SceneMesh(isGround: bool, scaledBounds: Option<Box>)

  /** A mesh takes part in the union box unless it is the ground or has no bounds. */
  predicate Contributes(m: SceneMesh) {
    !m.isGround && m.scaledBounds.Some?
  }

  /** The `a` coordinate of a mesh's scaled maximum corner. */
  function Top(m: SceneMesh, a: Axis): real
    requires m.scaledBounds.Some?
  {
    Coord(m.scaledBounds.value.maximum, a)
  }

  /** The `a` coordinate of a mesh's scaled minimum corner. */
  function Bottom(m: SceneMesh, a: Axis): real
    requires m.scaledBounds.Some?
  {
    Coord(m.scaledBounds.value.minimum, a)
  }

  /** 2^-n, exactly. */
  function InvPow2(n: nat): (r: real)
    ensures 0.0 < r <= 1.0
  {
    if n == 0 then 1.0 else InvPow2(n - 1) / 2.0
  }

  /** `Number.MAX_VALUE`, the largest finite double: (2^53 - 1) * 2^971. */
  const MaxValue: real := 179769313486231570814527423731704356798070567525844996598917476803157260780028538760589558632766878171540458953514382464234321326889464182768467546703537516986049910576551282076245490090389328944075868508455133942304583236903222948165808559332123348274797826204144723168738177180919299881250404026184124858368.0

  /** `Number.MIN_VALUE`, the smallest POSITIVE double: 2^-1074. */
  const MinValue: real := InvPow2(1074)

  /** The box the fold starts from: minimum at `MAX_VALUE`, maximum at `MIN_VALUE`. */
  const InitialBox: Box := Box(Vec3(MaxValue, MaxValue, MaxValue), Vec3(MinValue, MinValue, MinValue))

  /** The `forEach` callback applied to one mesh. */
  function Visit(acc: Box, m: SceneMesh): Box {
    if !Contributes(m) then acc
    else
      var b := m.scaledBounds.value;
      Box(Vec3(Min(b.minimum.x, acc.minimum.x), Min(b.minimum.y, acc.minimum.y), Min(b.minimum.z, acc.minimum.z)),
          Vec3(Max(b.maximum.x, acc.maximum.x), Max(b.maximum.y, acc.maximum.y), Max(b.maximum.z, acc.maximum.z)))
  }

  /** Visits the meshes in list order, starting from `acc`. */
  function FoldBounds(acc: Box, meshes: seq<SceneMesh>): Box
    decreases |meshes|
  {
    if |meshes| == 0 then acc else FoldBounds(Visit(acc, meshes[0]), meshes[1..])
  }

  /** The union box exactly as the worker computes it. */
  function UnionBounds(meshes: seq<SceneMesh>): Box {
    FoldBounds(InitialBox, meshes)
  }

  /** The meshes that take part in the union box, in order. */
  function ContributingMeshes(meshes: seq<SceneMesh>): seq<SceneMesh>
    decreases |meshes|
  {
    if |meshes| == 0 then []
    else if Contributes(meshes[0]) then [meshes[0]] + ContributingMeshes(meshes[1..])
    else ContributingMeshes(meshes[1..])
  }

  /**
   * `v` is the largest of `init` and the `a` coordinates of the contributing
   * meshes' maximum corners: it bounds them all and is one of them.
   */
  ghost predicate IsUpperEnvelope(v: real, init: real, meshes: seq<SceneMesh>, a: Axis) {
    && init <= v
    && (forall i :: 0 <= i < |meshes| && Contributes(meshes[i]) ==> Top(meshes[i], a) <= v)
    && (v == init || exists i :: 0 <= i < |meshes| && Contributes(meshes[i]) && Top(meshes[i], a) == v)
  }

  /** The mirror image of IsUpperEnvelope for the minimum corners. */
  ghost predicate IsLowerEnvelope(v: real, init: real, meshes: seq<SceneMesh>, a: Axis) {
    && v <= init
    && (forall i :: 0 <= i < |meshes| && Contributes(meshes[i]) ==> v <= Bottom(meshes[i], a))
    && (v == init || exists i :: 0 <= i < |meshes| && Contributes(meshes[i]) && Bottom(meshes[i], a) == v)
  }

  /** One visit moves each coordinate of the accumulator by one max / min. */
  lemma VisitCoord(acc: Box, m: SceneMesh, a: Axis)
    ensures Contributes(m) ==> Coord(Visit(acc, m).maximum, a) == Max(Top(m, a), Coord(acc.maximum, a))
    ensures Contributes(m) ==> Coord(Visit(acc, m).minimum, a) == Min(Bottom(m, a), Coord(acc.minimum, a))
    ensures !Contributes(m) ==> Visit(acc, m) == acc
  {
  }

  /**
   * Each coordinate of the folded box is the max (min) of the starting
   * value and the contributing meshes' maxima (minima).
   */
  lemma {:induction false} FoldBoundsEnvelope(acc: Box, meshes: seq<SceneMesh>, a: Axis)
    ensures IsUpperEnvelope(Coord(FoldBounds(acc, meshes).maximum, a), Coord(acc.maximum, a), meshes, a)
    ensures IsLowerEnvelope(Coord(FoldBounds(acc, meshes).minimum, a), Coord(acc.minimum, a), meshes, a)
    decreases |meshes|
  {
    if |meshes| > 0 {
      var m, rest := meshes[0], meshes[1..];
      var next := Visit(acc, m);
      VisitCoord(acc, m, a);
      FoldBoundsEnvelope(next, rest, a);
      var hi := Coord(FoldBounds(acc, meshes).maximum, a);
      var lo := Coord(FoldBounds(acc, meshes).minimum, a);
      assert FoldBounds(acc, meshes) == FoldBounds(next, rest);
      forall i | 0 <= i < |meshes| && Contributes(meshes[i])
        ensures Top(meshes[i], a) <= hi && lo <= Bottom(meshes[i], a)
      {
        if i > 0 {
          assert meshes[i] == rest[i - 1];
        }
      }
      if hi != Coord(acc.maximum, a) {
        if hi == Coord(next.maximum, a) {
          assert Contributes(meshes[0]) && Top(meshes[0], a) == hi;
        } else {
          var j :| 0 <= j < |rest| && Contributes(rest[j]) && Top(rest[j], a) == hi;
          assert meshes[j + 1] == rest[j];
        }
      }
      if lo != Coord(acc.minimum, a) {
        if lo == Coord(next.minimum, a) {
          assert Contributes(meshes[0]) && Bottom(meshes[0], a) == lo;
        } else {
          var j :| 0 <= j < |rest| && Contributes(rest[j]) && Bottom(rest[j], a) == lo;
          assert meshes[j + 1] == rest[j];
        }
      }
    }
  }

  /** The union box depends only on the contributing meshes: the ground and unbounded meshes are ignored. */
  lemma {:induction false} FoldIgnoresNonContributing(acc: Box, meshes: seq<SceneMesh>)
    ensures FoldBounds(acc, meshes) == FoldBounds(acc, ContributingMeshes(meshes))
    decreases |meshes|
  {
    if |meshes| > 0 {
      var m, rest := meshes[0], meshes[1..];
      FoldIgnoresNonContributing(Visit(acc, m), rest);
      if Contributes(m) {
        var kept := [m] + ContributingMeshes(rest);
        assert kept[0] == m && kept[1..] == ContributingMeshes(rest);
      } else {
        FoldIgnoresNonContributing(acc, rest);
      }
    }
  }

  /** With no contributing mesh the fold returns its starting box untouched. */
  lemma {:induction false} FoldWithoutContributors(acc: Box, meshes: seq<SceneMesh>)
    requires forall i :: 0 <= i < |meshes| ==> !Contributes(meshes[i])
    ensures FoldBounds(acc, meshes) == acc
    decreases |meshes|
  {
    if |meshes| > 0 {
      FoldWithoutContributors(acc, meshes[1..]);
    }
  }

  /**
   * Properties of the union box as computed: every coordinate of the maximum
   * is at least `MIN_VALUE`, hence positive; with no contributing mesh the box
   * is the initial one.
   */
  lemma UnionBoundsInitial(meshes: seq<SceneMesh>)
    ensures forall a :: 0.0 < MinValue <= Coord(UnionBounds(meshes).maximum, a)
    ensures forall a :: Coord(UnionBounds(meshes).minimum, a) <= MaxValue
    ensures (forall i :: 0 <= i < |meshes| ==> !Contributes(meshes[i])) ==> UnionBounds(meshes) == InitialBox
  {
    assert MinValue == InvPow2(1074);
    forall a: Axis
      ensures MinValue <= Coord(UnionBounds(meshes).maximum, a)
      ensures Coord(UnionBounds(meshes).minimum, a) <= MaxValue
    {
      FoldBoundsEnvelope(InitialBox, meshes, a);
    }
    if forall i :: 0 <= i < |meshes| ==> !Contributes(meshes[i]) {
      FoldWithoutContributors(InitialBox, meshes);
    }
  }

  /**
   * `halfDistance` is `Vector3.Distance(minimum, maximum) * 0.5`, pinned down
   * without a square root.
   */
  ghost predicate IsHalfDistance(b: Box, halfDistance: real) {
    0.0 <= halfDistance && 4.0 * halfDistance * halfDistance == SquaredDistance(b.minimum, b.maximum)
  }

  function SquaredDistance(p: Vec3, q: Vec3): real {
    (q.x - p.x) * (q.x - p.x) + (q.y - p.y) * (q.y - p.y) + (q.z - p.z) * (q.z - p.z)
  }

  /** `Vector3.Center`: the midpoint of two points. */
  function Center(p: Vec3, q: Vec3): Vec3 {
    Vec3((p.x + q.x) / 2.0, (p.y + q.y) / 2.0, (p.z + q.z) / 2.0)
  }

  /** Where `_setupDecoration` puts the camera, the light and the ground. */
  datatype Placement = Placement(
    cameraPosition: Vec3,
    cameraTarget: Vec3,
    lightPosition: Vec3,
    lightTarget: Vec3,
    groundY: real,
    groundScaling: real)

  /** The placements derived from a union box. */
  function Frame(b: Box, halfDistance: real): (p: Placement)
    requires 0.0 <= halfDistance
    ensures p.cameraTarget == p.lightTarget
    ensures forall a :: Coord(p.cameraTarget, a) - Coord(b.minimum, a) == Coord(b.maximum, a) - Coord(p.cameraTarget, a)
    ensures forall a :: Coord(p.cameraPosition, a) - Coord(p.cameraTarget, a) == halfDistance
    ensures IsHalfDistance(b, halfDistance) ==>
              4.0 * SquaredDistance(p.cameraTarget, p.cameraPosition) == 3.0 * SquaredDistance(b.minimum, b.maximum)
    ensures p.lightPosition == b.maximum
    ensures p.groundY == b.minimum.y
    ensures 10.0 * Extent(b, X) <= p.groundScaling && 10.0 * Extent(b, Z) <= p.groundScaling
    ensures p.groundScaling == 10.0 * Extent(b, X) || p.groundScaling == 10.0 * Extent(b, Z)
  {
    var center := Center(b.minimum, b.maximum);
    var d := halfDistance;
    var position := Vec3(center.x + d, center.y + d, center.z + d);
    assert SquaredDistance(center, position) == 3.0 * (d * d);
    Placement(
      position,
      center,
      b.maximum,
      center,
      b.minimum.y,
      Max((b.maximum.x - b.minimum.x) * 10.0, (b.maximum.z - b.minimum.z) * 10.0))
  }

  /**
   * `_setupDecoration` as written: the ground sits at or below every
   * contributing mesh, and the light, placed at the box maximum, never has a
   * coordinate below `MIN_VALUE`.
   */
  function Decorate(meshes: seq<SceneMesh>, halfDistance: real): (p: Placement)
    requires 0.0 <= halfDistance
    ensures forall i :: 0 <= i < |meshes| && Contributes(meshes[i]) ==> p.groundY <= Bottom(meshes[i], Y)
    ensures forall a :: MinValue <= Coord(p.lightPosition, a)
    ensures p.cameraTarget == p.lightTarget
    ensures forall a :: Coord(p.cameraPosition, a) - Coord(p.cameraTarget, a) == halfDistance
  {
    FoldBoundsEnvelope(InitialBox, meshes, Y);
    UnionBoundsInitial(meshes);
    Frame(UnionBounds(meshes), halfDistance)
  }

  // ---------------------------------------------------------------------
  // The union box the framing evidently intends: the smallest box holding
  // every contributing mesh. Starting the maximum at MIN_VALUE (a positive
  // number) misses it whenever a scene lies below zero on some axis.
  // ---------------------------------------------------------------------

  /** Some mesh takes part in the union box. */
  predicate HasContributor(meshes: seq<SceneMesh>) {
    exists i :: 0 <= i < |meshes| && Contributes(meshes[i])
  }

  /** Every contributing mesh lies within the range of finite doubles. */
  ghost predicate WithinDoubles(meshes: seq<SceneMesh>) {
    forall i, a :: 0 <= i < |meshes| && Contributes(meshes[i]) ==>
      -MaxValue <= Bottom(meshes[i], a) && -MaxValue <= Top(meshes[i], a) <= MaxValue && Bottom(meshes[i], a) <= MaxValue
  }

  /** `b` is the smallest axis-aligned box enclosing the contributing meshes. */
  ghost predicate IsHull(b: Box, meshes: seq<SceneMesh>) {
    forall a: Axis ::
      && (forall i :: 0 <= i < |meshes| && Contributes(meshes[i]) ==>
            Coord(b.minimum, a) <= Bottom(meshes[i], a) && Top(meshes[i], a) <= Coord(b.maximum, a))
      && (exists i :: 0 <= i < |meshes| && Contributes(meshes[i]) && Top(meshes[i], a) == Coord(b.maximum, a))
      && (exists i :: 0 <= i < |meshes| && Contributes(meshes[i]) && Bottom(meshes[i], a) == Coord(b.minimum, a))
  }

  /** A single mesh lying entirely below zero, used to exhibit the discrepancy. */
  const BelowZeroMesh: SceneMesh := SceneMesh(false, Some(Box(Vec3(-2.0, -2.0, -2.0), Vec3(-1.0, -1.0, -1.0))))

  /**
   * As written, the union box of one mesh lying below zero is not that mesh's
   * box: its maximum is pulled up to `MIN_VALUE` on every axis.
   */
  lemma SourceUnionMissesNegativeScene()
    ensures UnionBounds([BelowZeroMesh]).maximum == Vec3(MinValue, MinValue, MinValue)
    ensures !IsHull(UnionBounds([BelowZeroMesh]), [BelowZeroMesh])
  {
    var ms := [BelowZeroMesh];
    assert FoldBounds(InitialBox, ms) == FoldBounds(Visit(InitialBox, BelowZeroMesh), ms[1..]);
    assert ms[1..] == [];
    var u := UnionBounds(ms);
    assert u.maximum == Vec3(MinValue, MinValue, MinValue);
    assert Top(ms[0], X) == -1.0 != Coord(u.maximum, X);
  }

  /** The corrected starting box: the maximum starts at `-MAX_VALUE`. */
  const TightInitialBox: Box := Box(Vec3(MaxValue, MaxValue, MaxValue), Vec3(-MaxValue, -MaxValue, -MaxValue))

  function TightUnionBounds(meshes: seq<SceneMesh>): Box {
    FoldBounds(TightInitialBox, meshes)
  }

  /** The corrected fold yields exactly the hull of the contributing meshes. */
  lemma TightUnionIsHull(meshes: seq<SceneMesh>)
    requires HasContributor(meshes)
    requires WithinDoubles(meshes)
    ensures IsHull(TightUnionBounds(meshes), meshes)
  {
    var b := TightUnionBounds(meshes);
    var k :| 0 <= k < |meshes| && Contributes(meshes[k]);
    forall a: Axis
      ensures exists i :: 0 <= i < |meshes| && Contributes(meshes[i]) && Top(meshes[i], a) == Coord(b.maximum, a)
      ensures exists i :: 0 <= i < |meshes| && Contributes(meshes[i]) && Bottom(meshes[i], a) == Coord(b.minimum, a)
      ensures forall i :: 0 <= i < |meshes| && Contributes(meshes[i]) ==>
                Coord(b.minimum, a) <= Bottom(meshes[i], a) && Top(meshes[i], a) <= Coord(b.maximum, a)
    {
      FoldBoundsEnvelope(TightInitialBox, meshes, a);
      if Coord(b.maximum, a) == Coord(TightInitialBox.maximum, a) {
        assert Top(meshes[k], a) == Coord(b.maximum, a);
      }
      if Coord(b.minimum, a) == Coord(TightInitialBox.minimum, a) {
        assert Bottom(meshes[k], a) == Coord(b.minimum, a);
      }
    }
  }

  /**
   * The corrected framing: the ground sits exactly at the lowest point of the
   * contributing meshes and the light exactly at the hull's top corner.
   */
  function DecorateTight(meshes: seq<SceneMesh>, halfDistance: real): (p: Placement)
    requires HasContributor(meshes) && WithinDoubles(meshes)
    requires 0.0 <= halfDistance
    ensures forall i :: 0 <= i < |meshes| && Contributes(meshes[i]) ==> p.groundY <= Bottom(meshes[i], Y)
    ensures exists i :: 0 <= i < |meshes| && Contributes(meshes[i]) && p.groundY == Bottom(meshes[i], Y)
    ensures forall a :: exists i :: 0 <= i < |meshes| && Contributes(meshes[i]) && Coord(p.lightPosition, a) == Top(meshes[i], a)
  {
    var b := TightUnionBounds(meshes);
    TightUnionIsHull(meshes);
    var p := Frame(b, halfDistance);
    assert p.groundY == Coord(b.minimum, Y);
    assert forall a :: Coord(p.lightPosition, a) == Coord(b.maximum, a);
    p
  }
}
