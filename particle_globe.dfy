/** The particle globe (src/components/ParticleGlobe.tsx): a faint sphere of
    random background points, the continents drawn as clusters of jittered
    points around every other vertex of every ring of the world outline, and
    a rotation that follows the mouse with inertia.

    `Math.random()` is a stream: `rand(k)` is its k-th draw. */
module ParticleGlobe {

  import opened GeoJson
  import opened Optional
  import Numeric

  const ContinentRadius: real := 1.002
  const SphereRadius: real := 1.0
  const SphereCount: nat := 2000
  /** `offset` of the jitter: each jittered number moves by less than half. */
  const JitterSpan: real := 0.005
  /** Math.PI as the double the code uses. */
  const Pi: real := 3.141592653589793

  // ---------------------------------------------------------------------
  // Which coordinates become clusters

  /** The coordinates of a ring at even indices (`index % 2 !== 0` skips the
      others). */
  function Kept(ring: Ring): (r: seq<Coord>)
    ensures |r| <= |ring|
  {
    if ring == [] then []
    else Kept(ring[..|ring| - 1]) + (if (|ring| - 1) % 2 == 0 then [ring[|ring| - 1]] else [])
  }

  /** A ring of n coordinates keeps ceil(n / 2) of them. */
  lemma {:induction false} KeptLength(ring: Ring)
    ensures |Kept(ring)| == (|ring| + 1) / 2
  {
    if ring != [] {
      var n := |ring| - 1;
      KeptLength(ring[..n]);
      if n % 2 == 0 {
        assert n == 2 * (n / 2);
      } else {
        assert n == 2 * (n / 2) + 1;
      }
    }
  }

  /** `Kept` takes exactly the coordinates 0, 2, 4, ... of the ring. */
  lemma {:induction false} KeptIsEvenIndexed(ring: Ring)
    ensures forall j :: 0 <= j < |Kept(ring)| ==> 2 * j < |ring| && Kept(ring)[j] == ring[2 * j]
  {
    if ring != [] {
      var n := |ring| - 1;
      var init := ring[..n];
      KeptIsEvenIndexed(init);
      KeptLength(init);
      if n % 2 == 0 {
        assert n == 2 * |Kept(init)|;
      }
    }
  }

  function KeptOfRings(rings: seq<Ring>): seq<Coord>
  {
    if rings == [] then [] else KeptOfRings(rings[..|rings| - 1]) + Kept(rings[|rings| - 1])
  }

  function KeptOfPolygons(polys: seq<seq<Ring>>): seq<Coord>
  {
    if polys == [] then [] else KeptOfPolygons(polys[..|polys| - 1]) + KeptOfRings(polys[|polys| - 1])
  }

  /** Every ring of a Polygon, every ring of every polygon of a MultiPolygon
      (holes included), nothing for other geometries. */
  function FeatureKept(g: Geometry): seq<Coord>
  {
    match g
    case Polygon(rings) => KeptOfRings(rings)
    case MultiPolygon(polys) => KeptOfPolygons(polys)
    case OtherGeometry(_) => []
  }

  /** The coordinates that become clusters, in file order. */
  function KeptCoords(features: seq<Feature>): seq<Coord>
  {
    if features == [] then []
    else KeptCoords(features[..|features| - 1]) + FeatureKept(features[|features| - 1].geometry)
  }

  // ---------------------------------------------------------------------
  // What a kept coordinate becomes

  /** `(Math.random() - 0.5) * offset`. */
  function Jitter(r: real): (j: real)
    requires 0.0 <= r < 1.0
    ensures -JitterSpan / 2.0 <= j < JitterSpan / 2.0
  {
    (r - 0.5) * JitterSpan
  }

  /** The jitter of a draw the stream may return out of range is still
      written as the same formula; only in-range draws are bounded. */
  function Offset(r: real): real
  {
    (r - 0.5) * JitterSpan
  }

  /** One jittered copy of `v`, from draws s, s+1, s+2 (x, y, z in that order). */
  function Triple(v: Vertex, rand: nat -> real, s: nat): (r: seq<Component>)
    ensures |r| == 3
  {
    [Component(v, X, Offset(rand(s))), Component(v, Y, Offset(rand(s + 1))), Component(v, Z, Offset(rand(s + 2)))]
  }

  /** n jittered copies of `v` from draws s to s + 3n - 1. */
  function Jitters(v: Vertex, rand: nat -> real, s: nat, n: nat): (r: seq<Component>)
    ensures |r| == 3 * n
  {
    if n == 0 then [] else Jitters(v, rand, s, n - 1) + Triple(v, rand, s + 3 * (n - 1))
  }

  /** The base point of a kept coordinate and three jittered copies: twelve
      numbers, nine draws starting at s. */
  function Cluster(c: Coord, rand: nat -> real, s: nat): (r: seq<Component>)
    ensures |r| == 12
  {
    Xyz(Geo(c, ContinentRadius)) + Jitters(Geo(c, ContinentRadius), rand, s, 3)
  }

  /** The continent positions for the kept coordinates, draws from s on. */
  function Expand(kept: seq<Coord>, rand: nat -> real, s: nat): (r: seq<Component>)
    ensures |r| == 12 * |kept|
  {
    if kept == [] then []
    else Expand(kept[..|kept| - 1], rand, s) + Cluster(kept[|kept| - 1], rand, s + 9 * (|kept| - 1))
  }

  lemma ExpandSnoc(k: seq<Coord>, c: Coord, rand: nat -> real, s: nat, t: nat)
    requires t == s + 9 * |k|
    ensures Expand(k + [c], rand, s) == Expand(k, rand, s) + Cluster(c, rand, t)
  {
    assert (k + [c])[..|k|] == k;
  }

  lemma {:induction false} ExpandAppend(a: seq<Coord>, b: seq<Coord>, rand: nat -> real, s: nat, t: nat)
    requires t == s + 9 * |a|
    ensures Expand(a + b, rand, s) == Expand(a, rand, s) + Expand(b, rand, t)
  {
    if b == [] {
      assert a + b == a;
      assert Expand(a, rand, s) + [] == Expand(a, rand, s);
    } else {
      var n := |b| - 1;
      var b', last := b[..n], b[n];
      var u: nat := t + 9 * n;
      assert a + b == (a + b') + [last];
      assert b == b' + [last];
      ExpandAppend(a, b', rand, s, t);
      ExpandSnoc(a + b', last, rand, s, u);
      ExpandSnoc(b', last, rand, t, u);
      AppendAssoc(Expand(a, rand, s), Expand(b', rand, t), Cluster(last, rand, u));
    }
  }

  lemma AppendAssoc<T>(a: seq<T>, b: seq<T>, c: seq<T>)
    ensures (a + b) + c == a + (b + c)
  {
  }

  /** Appending the positions of `more` after those of `done`. */
  lemma Extend(positions: seq<Component>, before: seq<Component>, after: seq<Component>,
               done: seq<Coord>, more: seq<Coord>, rand: nat -> real, s: nat, t: nat)
    requires before == positions + Expand(done, rand, s)
    requires t == s + 9 * |done|
    requires after == before + Expand(more, rand, t)
    ensures after == positions + Expand(done + more, rand, s)
  {
    ExpandAppend(done, more, rand, s, t);
    AppendAssoc(positions, Expand(done, rand, s), Expand(more, rand, t));
  }

  lemma ExpandSingle(c: Coord, rand: nat -> real, s: nat)
    ensures Expand([c], rand, s) == Cluster(c, rand, s)
  {
    assert [c][..0] == [];
    assert [] + Cluster(c, rand, s) == Cluster(c, rand, s);
  }

  /** Each kept coordinate yields its base point at offset 0, then three
      copies whose every number is moved by less than 0.0025 either way. */
  lemma {:induction false} OffsetsBounded(kept: seq<Coord>, rand: nat -> real, s: nat)
    requires forall k :: 0.0 <= rand(k) < 1.0
    ensures forall k :: 0 <= k < |Expand(kept, rand, s)| ==>
      -0.0025 <= Expand(kept, rand, s)[k].offset < 0.0025
  {
    if kept != [] {
      OffsetsBounded(kept[..|kept| - 1], rand, s);
      var c := kept[|kept| - 1];
      var t := s + 9 * (|kept| - 1);
      forall n | 1 <= n <= 3
        ensures forall k :: 0 <= k < |Jitters(Geo(c, ContinentRadius), rand, t, n)| ==>
          -0.0025 <= Jitters(Geo(c, ContinentRadius), rand, t, n)[k].offset < 0.0025
      {
        JittersBounded(Geo(c, ContinentRadius), rand, t, n);
      }
    }
  }

  lemma {:induction false} JittersBounded(v: Vertex, rand: nat -> real, s: nat, n: nat)
    requires forall k :: 0.0 <= rand(k) < 1.0
    ensures forall k :: 0 <= k < |Jitters(v, rand, s, n)| ==> -0.0025 <= Jitters(v, rand, s, n)[k].offset < 0.0025
  {
    if n > 0 {
      JittersBounded(v, rand, s, n - 1);
      var t := s + 3 * (n - 1);
      assert Offset(rand(t)) == Jitter(rand(t));
      assert Offset(rand(t + 1)) == Jitter(rand(t + 1));
      assert Offset(rand(t + 2)) == Jitter(rand(t + 2));
    }
  }

  // ---------------------------------------------------------------------
  // The loops of `continentPositions`

  /** The body of the forEach for a kept coordinate: its base point, then
      `for (let i = 0; i < 3; i++)` jittered copies. */
  method PushCluster(c: Coord, rand: nat -> real, positions: seq<Component>, cursor: nat)
    returns (positions': seq<Component>, cursor': nat)
    ensures positions' == positions + Cluster(c, rand, cursor)
    ensures cursor' == cursor + 9
  {
    var base := Geo(c, ContinentRadius);
    positions' := positions + Xyz(base);
    cursor' := cursor;
    for i := 0 to 3
      invariant positions' == positions + Xyz(base) + Jitters(base, rand, cursor, i)
      invariant cursor' == cursor + 3 * i
    {
      var dx := rand(cursor');
      var dy := rand(cursor' + 1);
      var dz := rand(cursor' + 2);
      assert Jitters(base, rand, cursor, i + 1) == Jitters(base, rand, cursor, i) + Triple(base, rand, cursor');
      positions' := positions' + [Component(base, X, Offset(dx)), Component(base, Y, Offset(dy)), Component(base, Z, Offset(dz))];
      cursor' := cursor' + 3;
    }
  }

  /** `ring.forEach(...)`: a cluster per even index, nine draws each. */
  method ProcessRing(ring: Ring, rand: nat -> real, positions: seq<Component>, cursor: nat)
    returns (positions': seq<Component>, cursor': nat)
    ensures positions' == positions + Expand(Kept(ring), rand, cursor)
    ensures cursor' == cursor + 9 * |Kept(ring)|
  {
    positions', cursor' := positions, cursor;
    for index := 0 to |ring|
      invariant positions' == positions + Expand(Kept(ring[..index]), rand, cursor)
      invariant cursor' == cursor + 9 * |Kept(ring[..index])|
    {
      ghost var k := Kept(ring[..index]);
      assert ring[..index + 1][..index] == ring[..index];
      if index % 2 != 0 {
        assert Kept(ring[..index + 1]) == k + [];
        assert k + [] == k;
        continue;
      }
      var c := ring[index];
      ghost var before, start := positions', cursor';
      positions', cursor' := PushCluster(c, rand, positions', cursor');
      ExpandSingle(c, rand, start);
      Extend(positions, before, positions', k, [c], rand, cursor, start);
      assert Kept(ring[..index + 1]) == k + [c];
    }
    assert ring[..|ring|] == ring;
  }

  /** Every ring of a polygon, one after the other. */
  method ProcessRings(rings: seq<Ring>, rand: nat -> real, positions: seq<Component>, cursor: nat)
    returns (positions': seq<Component>, cursor': nat)
    ensures positions' == positions + Expand(KeptOfRings(rings), rand, cursor)
    ensures cursor' == cursor + 9 * |KeptOfRings(rings)|
  {
    positions', cursor' := positions, cursor;
    for j := 0 to |rings|
      invariant positions' == positions + Expand(KeptOfRings(rings[..j]), rand, cursor)
      invariant cursor' == cursor + 9 * |KeptOfRings(rings[..j])|
    {
      ghost var k := KeptOfRings(rings[..j]);
      assert rings[..j + 1][..j] == rings[..j];
      assert KeptOfRings(rings[..j + 1]) == k + Kept(rings[j]);
      ghost var before, start := positions', cursor';
      positions', cursor' := ProcessRing(rings[j], rand, positions', cursor');
      Extend(positions, before, positions', k, Kept(rings[j]), rand, cursor, start);
    }
    assert rings[..|rings|] == rings;
  }

  /** Every polygon of a MultiPolygon, one after the other. */
  method ProcessPolygons(polys: seq<seq<Ring>>, rand: nat -> real, positions: seq<Component>, cursor: nat)
    returns (positions': seq<Component>, cursor': nat)
    ensures positions' == positions + Expand(KeptOfPolygons(polys), rand, cursor)
    ensures cursor' == cursor + 9 * |KeptOfPolygons(polys)|
  {
    positions', cursor' := positions, cursor;
    for j := 0 to |polys|
      invariant positions' == positions + Expand(KeptOfPolygons(polys[..j]), rand, cursor)
      invariant cursor' == cursor + 9 * |KeptOfPolygons(polys[..j])|
    {
      ghost var k := KeptOfPolygons(polys[..j]);
      assert polys[..j + 1][..j] == polys[..j];
      assert KeptOfPolygons(polys[..j + 1]) == k + KeptOfRings(polys[j]);
      ghost var before, start := positions', cursor';
      positions', cursor' := ProcessRings(polys[j], rand, positions', cursor');
      Extend(positions, before, positions', k, KeptOfRings(polys[j]), rand, cursor, start);
    }
    assert polys[..|polys|] == polys;
  }

  /** One feature: a Polygon's rings, a MultiPolygon's polygons, or nothing. */
  method ProcessFeature(g: Geometry, rand: nat -> real, positions: seq<Component>, cursor: nat)
    returns (positions': seq<Component>, cursor': nat)
    ensures positions' == positions + Expand(FeatureKept(g), rand, cursor)
    ensures cursor' == cursor + 9 * |FeatureKept(g)|
  {
    match g {
      case Polygon(rings) =>
        positions', cursor' := ProcessRings(rings, rand, positions, cursor);
      case MultiPolygon(polys) =>
        positions', cursor' := ProcessPolygons(polys, rand, positions, cursor);
      case OtherGeometry(_) =>
        assert positions + Expand([], rand, cursor) == positions;
        positions', cursor' := positions, cursor;
    }
  }

  /** `continentPositions`: empty before the file is loaded, otherwise the
      clusters of every kept coordinate of every Polygon and MultiPolygon
      feature, in file order, drawing nine random numbers per cluster. */
  method ContinentPositions(geoData: Option<GeoData>, rand: nat -> real) returns (positions: seq<Component>)
    ensures geoData.None? ==> positions == []
    ensures geoData.Some? ==> positions == Expand(KeptCoords(geoData.value.features), rand, 0)
    ensures geoData.Some? ==> |positions| == 12 * |KeptCoords(geoData.value.features)|
  {
    if geoData.None? {
      return [];
    }
    var features := geoData.value.features;
    positions := [];
    var cursor: nat := 0;
    for f := 0 to |features|
      invariant positions == Expand(KeptCoords(features[..f]), rand, 0)
      invariant cursor == 9 * |KeptCoords(features[..f])|
    {
      ghost var done := KeptCoords(features[..f]);
      ghost var more := FeatureKept(features[f].geometry);
      KeptCoordsStep(features, f);
      ghost var before, start := positions, cursor;
      positions, cursor := ProcessFeature(features[f].geometry, rand, positions, cursor);
      ExtendFromStart(before, positions, done, more, rand, start);
    }
    assert features[..|features|] == features;
  }

  lemma KeptCoordsStep(features: seq<Feature>, f: nat)
    requires f < |features|
    ensures KeptCoords(features[..f + 1]) == KeptCoords(features[..f]) + FeatureKept(features[f].geometry)
  {
    assert features[..f + 1][..f] == features[..f];
  }

  lemma ExtendFromStart(before: seq<Component>, after: seq<Component>,
                        done: seq<Coord>, more: seq<Coord>, rand: nat -> real, t: nat)
    requires before == Expand(done, rand, 0)
    requires t == 9 * |done|
    requires after == before + Expand(more, rand, t)
    ensures after == Expand(done + more, rand, 0)
  {
    ExpandAppend(done, more, rand, 0, t);
  }

  /** The globe renders only once the file is loaded and yields at least
      one cluster; otherwise the component returns null. */
  predicate Renders(geoData: Option<GeoData>, positions: seq<Component>)
  {
    geoData.Some? && |positions| != 0
  }

  lemma RenderGuard(geoData: Option<GeoData>, rand: nat -> real)
    ensures geoData.None? ==> !Renders(geoData, [])
    ensures geoData.Some? ==>
      var kept := KeptCoords(geoData.value.features);
      (Renders(geoData, Expand(kept, rand, 0)) <==> |kept| > 0)
  {
  }

  // ---------------------------------------------------------------------
  // The background sphere

  /** The first n points of the background sphere: point i is the Marsaglia
      point of draws 2i (u) and 2i + 1 (v). */
  function MarsagliaSphere(rand: nat -> real, n: nat): (r: seq<Component>)
    ensures |r| == 3 * n
    ensures forall k :: 0 <= k < |r| ==> r[k].vertex.Marsaglia? && r[k].offset == 0.0
  {
    if n == 0 then []
    else MarsagliaSphere(rand, n - 1) + Xyz(Marsaglia(rand(2 * (n - 1)), rand(2 * (n - 1) + 1), SphereRadius))
  }

  /** Point i of the sphere uses exactly draws 2i and 2i + 1. */
  lemma {:induction false} SpherePointAt(rand: nat -> real, n: nat, i: nat)
    requires i < n
    ensures MarsagliaSphere(rand, n)[3 * i].vertex == Marsaglia(rand(2 * i), rand(2 * i + 1), SphereRadius)
  {
    if i < n - 1 {
      SpherePointAt(rand, n - 1, i);
    }
  }

  /** `spherePositions`: 2000 unit-sphere points, two draws each. */
  method SpherePositions(rand: nat -> real) returns (positions: seq<Component>)
    ensures positions == MarsagliaSphere(rand, SphereCount)
    ensures |positions| == 6000
  {
    positions := [];
    for i := 0 to SphereCount
      invariant positions == MarsagliaSphere(rand, i)
    {
      var u := rand(2 * i);
      var v := rand(2 * i + 1);
      positions := positions + Xyz(Marsaglia(u, v, SphereRadius));
    }
  }

  // ---------------------------------------------------------------------
  // Mouse-driven rotation

  /** Vertical and horizontal limits of the target rotation. */
  const MaxRotationX: real := Pi * 0.25
  const MaxRotationY: real := Pi * 0.5

  predicate InBounds(x: real, y: real)
  {
    -MaxRotationX <= x <= MaxRotationX && -MaxRotationY <= y <= MaxRotationY
  }

  /** The mouse and rotation refs. */
  class GlobeRotation {
    var mouseX: real
    var mouseY: real
    var targetX: real
    var targetY: real
    var currentX: real
    var currentY: real

    ghost predicate Valid()
      reads this
    {
      InBounds(targetX, targetY) && InBounds(currentX, currentY)
    }

    constructor ()
      ensures Valid()
      ensures mouseX == 0.0 && mouseY == 0.0 && targetX == 0.0 && targetY == 0.0
      ensures currentX == 0.0 && currentY == 0.0
    {
      mouseX, mouseY := 0.0, 0.0;
      targetX, targetY := 0.0, 0.0;
      currentX, currentY := 0.0, 0.0;
    }

    /** `handleMouseMove`: the mouse position normalised to [-1, 1] on each axis (y
        up), then a target rotation of 0.8 of the height and 1.2 of the
        width, clamped to 45 and 90 degrees. */
    method MouseMove(clientX: real, clientY: real, innerWidth: real, innerHeight: real)
      requires Valid() && innerWidth > 0.0 && innerHeight > 0.0
      modifies this`mouseX, this`mouseY, this`targetX, this`targetY
      ensures Valid()
      ensures mouseX == clientX / innerWidth * 2.0 - 1.0
      ensures mouseY == -(clientY / innerHeight) * 2.0 + 1.0
      ensures targetX == Numeric.Clamp(-MaxRotationX, MaxRotationX, mouseY * 0.8)
      ensures targetY == Numeric.Clamp(-MaxRotationY, MaxRotationY, mouseX * 1.2)
    {
      mouseX := (clientX / innerWidth) * 2.0 - 1.0;
      mouseY := -(clientY / innerHeight) * 2.0 + 1.0;
      targetX := Numeric.Clamp(-MaxRotationX, MaxRotationX, mouseY * 0.8);
      targetY := Numeric.Clamp(-MaxRotationY, MaxRotationY, mouseX * 1.2);
    }

    /** One frame: the current rotation moves the fraction `lerpFactor`
        (`1 - 0.85^(delta * 60)`, in [0, 1) for a non-negative delta) of the
        way to the target. */
    method Frame(lerpFactor: real)
      requires Valid() && 0.0 <= lerpFactor <= 1.0
      modifies this`currentX, this`currentY
      ensures Valid()
      ensures currentX == old(currentX) + (targetX - old(currentX)) * lerpFactor
      ensures currentY == old(currentY) + (targetY - old(currentY)) * lerpFactor
      ensures Numeric.Abs(targetX - currentX) <= Numeric.Abs(targetX - old(currentX))
      ensures Numeric.Abs(targetY - currentY) <= Numeric.Abs(targetY - old(currentY))
    {
      var nextX := currentX + (targetX - currentX) * lerpFactor;
      var nextY := currentY + (targetY - currentY) * lerpFactor;
      Between(currentX, targetX, lerpFactor, nextX);
      Between(currentY, targetY, lerpFactor, nextY);
      currentX, currentY := nextX, nextY;
    }
  }

  /** A step of linear interpolation lands between its two ends, no further
      from the target than before. */
  lemma Between(a: real, b: real, f: real, c: real)
    requires 0.0 <= f <= 1.0
    requires c == a + (b - a) * f
    ensures a <= b ==> a <= c <= b
    ensures b <= a ==> b <= c <= a
    ensures Numeric.Abs(b - c) <= Numeric.Abs(b - a)
  {
    assert b - c == (b - a) * (1.0 - f);
    if a <= b {
      Numeric.MulUnit(b - a, f);
      Numeric.MulUnit(b - a, 1.0 - f);
    } else {
      Numeric.MulUnit(a - b, f);
      Numeric.MulUnit(a - b, 1.0 - f);
    }
  }

  /** Inside the window the horizontal target is never clamped (1.2 is below
      pi/2), while the vertical one saturates near the top and bottom edges
      (0.8 is above pi/4). */
  lemma MouseLimits(clientX: real, clientY: real, innerWidth: real, innerHeight: real)
    requires innerWidth > 0.0 && innerHeight > 0.0
    requires 0.0 <= clientX <= innerWidth && 0.0 <= clientY <= innerHeight
    ensures var mx := clientX / innerWidth * 2.0 - 1.0;
      && -1.0 <= mx <= 1.0
      && Numeric.Clamp(-MaxRotationY, MaxRotationY, mx * 1.2) == mx * 1.2
    ensures Numeric.Clamp(-MaxRotationX, MaxRotationX, 1.0 * 0.8) == MaxRotationX
  {
    Numeric.DivUnit(clientX, innerWidth);
  }
}
