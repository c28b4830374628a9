/** The educational section (src/components/EducationalSection.tsx): a
    four-phase stepper with Back/Next controls, the continental particle
    cloud sampled from the world outline file under a per-phase cap, the
    Fibonacci-sphere fallback and the "Enter WorldLore" link. */
module EducationalSection {

  import opened GeoJson
  import opened Optional
  import opened UrlText
  import Numeric

  // ---------------------------------------------------------------------
  // The phase stepper

  const TotalPhases: int := 4

  /** `handleNext`: `Math.min(prev + 1, totalPhases - 1)`. */
  function HandleNext(prev: int): (r: int)
    ensures r <= TotalPhases - 1
    ensures prev < TotalPhases - 1 ==> r == prev + 1
    ensures prev >= TotalPhases - 1 ==> r == TotalPhases - 1
  {
    if prev + 1 <= TotalPhases - 1 then prev + 1 else TotalPhases - 1
  }

  /** `handleBack`: `Math.max(prev - 1, 0)`. */
  function HandleBack(prev: int): (r: int)
    ensures 0 <= r
    ensures prev > 0 ==> r == prev - 1
    ensures prev <= 0 ==> r == 0
  {
    if prev - 1 >= 0 then prev - 1 else 0
  }

  /** Back undoes Next anywhere before the last phase, and Next undoes Back
      anywhere after the first. */
  lemma BackNextInverse(p: int)
    ensures 0 <= p < TotalPhases - 1 ==> HandleBack(HandleNext(p)) == p
    ensures 0 < p <= TotalPhases - 1 ==> HandleNext(HandleBack(p)) == p
  {
  }

  /** Next is idempotent at the last phase and Back at the first. */
  lemma EndsAreFixed()
    ensures HandleNext(TotalPhases - 1) == TotalPhases - 1
    ensures HandleBack(0) == 0
  {
  }

  datatype Click = NextClick | BackClick

  function Press(p: int, c: Click): int
  {
    match c
    case NextClick => HandleNext(p)
    case BackClick => HandleBack(p)
  }

  /** The phase after a sequence of clicks from the initial phase 0: it
      always names one of the four phases. */
  function PhaseAfter(clicks: seq<Click>): (p: int)
    ensures 0 <= p < TotalPhases
  {
    if clicks == [] then 0 else Press(PhaseAfter(clicks[..|clicks| - 1]), clicks[|clicks| - 1])
  }

  /** `TotalPhases - 1` presses of Next from the start reach the last phase,
      and from there further presses change nothing. */
  lemma {:induction false} NextClicksReachPhase(k: nat)
    ensures PhaseAfter(seq(k, _ => NextClick)) == if k < TotalPhases then k else TotalPhases - 1
  {
    if k > 0 {
      var cs := seq(k, _ => NextClick);
      assert cs[..k - 1] == seq(k - 1, _ => NextClick);
      NextClicksReachPhase(k - 1);
    }
  }

  datatype Forward = NextButton | MapLink(href: string)

  /** The control row: Back (disabled and hidden on phase 0) and either the
      Next button or the link to the map. */
  datatype Controls = Controls(backDisabled: bool, forward: Forward)

  function ControlsFor(phase: int, mapUrl: string): (c: Controls)
    ensures c.backDisabled <==> phase == 0
    ensures c.forward.NextButton? <==> phase < TotalPhases - 1
    ensures c.forward.MapLink? ==> c.forward.href == mapUrl
  {
    Controls(phase == 0, if phase < TotalPhases - 1 then NextButton else MapLink(mapUrl))
  }

  /** On every phase reachable by clicking, the map link is offered exactly
      on the last one, and Next moves forward whenever it is offered. */
  lemma LinkOnlyOnLastPhase(clicks: seq<Click>, mapUrl: string)
    ensures var p := PhaseAfter(clicks);
      && (ControlsFor(p, mapUrl).forward.MapLink? <==> p == TotalPhases - 1)
      && (ControlsFor(p, mapUrl).forward.NextButton? ==> PhaseAfter(clicks + [NextClick]) == p + 1)
  {
    assert (clicks + [NextClick])[..|clicks|] == clicks;
  }

  // ---------------------------------------------------------------------
  // Per-phase particle configuration

  datatype ParticleConfig = ParticleConfig(maxPoints: nat, samplingRate: nat, color: string, size: real)

  /** `getPhaseParticleConfig`: the cap grows by 2000 points a phase; any
      other phase gets the phase-0 configuration. */
  function PhaseConfig(phase: int): (c: ParticleConfig)
    ensures c.samplingRate == 1 && c.size == 0.06
    ensures 0 <= phase < TotalPhases ==> c.maxPoints == 18000 + 2000 * phase
    ensures !(0 <= phase < TotalPhases) ==> c == ParticleConfig(18000, 1, "#4ecdc4", 0.06)
    ensures c.color == (if phase == 1 then "#c084fc" else if phase == 2 then "#ff6b6b" else "#4ecdc4")
  {
    match phase
    case 0 => ParticleConfig(18000, 1, "#4ecdc4", 0.06)
    case 1 => ParticleConfig(20000, 1, "#c084fc", 0.06)
    case 2 => ParticleConfig(22000, 1, "#ff6b6b", 0.06)
    case 3 => ParticleConfig(24000, 1, "#4ecdc4", 0.06)
    case _ => ParticleConfig(18000, 1, "#4ecdc4", 0.06)
  }

  // ---------------------------------------------------------------------
  // Sampling the world outline

  const ContinentRadius: real := 2.23
  const FallbackRadius: real := 2.2
  const FallbackCount: nat := 6000

  /** The positions of a sequence of coordinates on the continent sphere. */
  function Flat(cs: seq<Coord>): (r: seq<Component>)
    ensures |r| == 3 * |cs|
    ensures forall k :: 0 <= k < |r| ==> r[k].vertex.Geo? && r[k].vertex.radius == ContinentRadius
  {
    if cs == [] then [] else Xyz(Geo(cs[0], ContinentRadius)) + Flat(cs[1..])
  }

  lemma {:induction false} FlatAppend(a: seq<Coord>, b: seq<Coord>)
    ensures Flat(a + b) == Flat(a) + Flat(b)
  {
    if a != [] {
      assert (a + b)[1..] == a[1..] + b;
      FlatAppend(a[1..], b);
    } else {
      assert a + b == b;
    }
  }

  /** The first `room` coordinates of `c` (all of them when fewer). */
  function Cap(c: seq<Coord>, room: nat): (r: seq<Coord>)
    ensures |r| <= room && |r| <= |c|
    ensures |r| == room || r == c
    ensures r <= c
  {
    if |c| <= room then c else c[..room]
  }

  lemma CapAppend(a: seq<Coord>, b: seq<Coord>, room: nat)
    ensures Cap(a + b, room) == Cap(a, room) + Cap(b, room - |Cap(a, room)|)
  {
    if |a| >= room {
      assert (a + b)[..room] == a[..room];
    } else if |a| + |b| <= room {
    } else {
      assert (a + b)[..room] == a + b[..room - |a|];
    }
  }

  /** The coordinates of rings laid end to end. */
  function Concat(rings: seq<Ring>): (r: seq<Coord>)
  {
    if rings == [] then [] else rings[0] + Concat(rings[1..])
  }

  lemma {:induction false} ConcatSnoc(rings: seq<Ring>, ring: Ring)
    ensures Concat(rings + [ring]) == Concat(rings) + ring
  {
    if rings != [] {
      assert (rings + [ring])[1..] == rings[1..] + [ring];
      ConcatSnoc(rings[1..], ring);
    } else {
      assert [] + [ring] == [ring];
    }
  }

  /** `polygon[0]` for every polygon of a MultiPolygon, or None when one of
      them has no ring (its `undefined` first ring makes the loop throw). */
  function FirstRings(polys: seq<seq<Ring>>): (r: Option<seq<Ring>>)
    ensures r.Some? ==> |r.value| == |polys|
  {
    if polys == [] then Some([])
    else
      var last := polys[|polys| - 1];
      match FirstRings(polys[..|polys| - 1])
      case None => None
      case Some(rs) => if |last| == 0 then None else Some(rs + [last[0]])
  }

  /** The first rings are missing exactly when some polygon has no ring, and
      otherwise are the polygons' first rings in order. */
  lemma {:induction false} FirstRingsMeaning(polys: seq<seq<Ring>>)
    ensures FirstRings(polys).None? <==> exists k :: 0 <= k < |polys| && |polys[k]| == 0
    ensures FirstRings(polys).Some? ==> forall k :: 0 <= k < |polys| ==> FirstRings(polys).value[k] == polys[k][0]
  {
    if polys != [] {
      var init := polys[..|polys| - 1];
      FirstRingsMeaning(init);
      if exists k :: 0 <= k < |init| && |init[k]| == 0 {
        var k :| 0 <= k < |init| && |init[k]| == 0;
        assert |polys[k]| == 0;
      }
      if exists k :: 0 <= k < |polys| && |polys[k]| == 0 {
        var k :| 0 <= k < |polys| && |polys[k]| == 0;
        if k < |init| {
          assert |init[k]| == 0;
        }
      }
      if FirstRings(polys).Some? {
        forall k | 0 <= k < |polys|
          ensures FirstRings(polys).value[k] == polys[k][0]
        {
          if k < |init| {
            assert init[k] == polys[k];
          }
        }
      }
    }
  }

  /** The rings `processCoordinates` walks for one feature: the outer ring of
      a Polygon, the outer ring of each polygon of a MultiPolygon, nothing
      for other geometries; None when the code throws on a missing ring. */
  function VisitedRings(g: Geometry): Option<seq<Ring>>
  {
    match g
    case Polygon(rings) => if |rings| == 0 then None else Some([rings[0]])
    case MultiPolygon(polys) => FirstRings(polys)
    case OtherGeometry(_) => Some([])
  }

  /** Specification of `processGeoData`: the coordinates it emits for
      `features` with room for `room` more points, or None when it throws. A
      feature is skipped once the cap is reached, so only features met with
      room left can throw. */
  function Emitted(features: seq<Feature>, room: nat): (r: Option<seq<Coord>>)
    ensures r.Some? ==> |r.value| <= room
  {
    if features == [] || room == 0 then Some([])
    else match VisitedRings(features[0].geometry)
      case None => None
      case Some(rs) =>
        var taken := Cap(Concat(rs), room);
        match Emitted(features[1..], room - |taken|)
        case None => None
        case Some(rest) => Some(taken + rest)
  }

  /** A geometry the loop walks without throwing. */
  predicate WellFormed(g: Geometry)
  {
    VisitedRings(g).Some?
  }

  /** The result once `taken` has already been emitted. */
  function Prepend(taken: seq<Coord>, o: Option<seq<Coord>>): Option<seq<Coord>>
  {
    match o
    case None => None
    case Some(rest) => Some(taken + rest)
  }

  lemma PrependNothing(o: Option<seq<Coord>>)
    ensures Prepend([], o) == o
  {
    if o.Some? {
      assert [] + o.value == o.value;
    }
  }

  lemma PrependTwice(a: seq<Coord>, b: seq<Coord>, o: Option<seq<Coord>>)
    ensures Prepend(a, Prepend(b, o)) == Prepend(a + b, o)
  {
    if o.Some? {
      assert a + (b + o.value) == (a + b) + o.value;
    }
  }

  /** One feature of the loop, met with room left: it throws, or it emits
      its capped outer-ring coordinates and leaves the rest to what follows. */
  lemma EmittedStep(features: seq<Feature>, f: nat, room: nat)
    requires f < |features| && room > 0
    ensures features[f..][1..] == features[f + 1..]
    ensures !WellFormed(features[f].geometry) ==> Emitted(features[f..], room).None?
    ensures WellFormed(features[f].geometry) ==>
      var taken := Cap(Concat(VisitedRings(features[f].geometry).value), room);
      Emitted(features[f..], room) == Prepend(taken, Emitted(features[f + 1..], room - |taken|))
  {
    assert features[f..][0] == features[f];
    assert features[f..][1..] == features[f + 1..];
  }

  /** All outer-ring coordinates of the well-formed features, in order. */
  function AllCoords(features: seq<Feature>): seq<Coord>
    requires forall k :: 0 <= k < |features| ==> VisitedRings(features[k].geometry).Some?
  {
    if features == [] then [] else Concat(VisitedRings(features[0].geometry).value) + AllCoords(features[1..])
  }

  /** When no feature is malformed, the points are exactly the first `room`
      outer-ring coordinates of the whole file. */
  lemma {:induction false} EmittedIsCappedPrefix(features: seq<Feature>, room: nat)
    requires forall k :: 0 <= k < |features| ==> VisitedRings(features[k].geometry).Some?
    ensures Emitted(features, room) == Some(Cap(AllCoords(features), room))
  {
    if features != [] && room > 0 {
      var rs := VisitedRings(features[0].geometry).value;
      var taken := Cap(Concat(rs), room);
      EmittedIsCappedPrefix(features[1..], room - |taken|);
      CapAppend(Concat(rs), AllCoords(features[1..]), room);
    } else if features != [] {
      assert Cap(AllCoords(features), 0) == [];
    }
  }

  /** Processing fails only on a malformed feature met before the cap. */
  lemma {:induction false} FailureNeedsMalformed(features: seq<Feature>, room: nat)
    requires Emitted(features, room).None?
    ensures exists k :: 0 <= k < |features| && !WellFormed(features[k].geometry)
  {
    if VisitedRings(features[0].geometry).Some? {
      var rs := VisitedRings(features[0].geometry).value;
      FailureNeedsMalformed(features[1..], room - |Cap(Concat(rs), room)|);
      var k :| 0 <= k < |features[1..]| && !WellFormed(features[1..][k].geometry);
      assert features[1..][k] == features[k + 1];
    }
  }

  function MapPositions(o: Option<seq<Coord>>): Option<seq<Component>>
  {
    match o
    case None => None
    case Some(cs) => Some(Flat(cs))
  }

  /** `processCoordinates(coords)`: push each coordinate while the cap is not
      reached and its index is a multiple of the sampling rate (always 1). */
  method ProcessCoordinates(coords: Ring, config: ParticleConfig, points: seq<Component>, pointCount: nat)
    returns (points': seq<Component>, pointCount': nat)
    requires config.samplingRate == 1 && pointCount <= config.maxPoints
    ensures var taken := Cap(coords, config.maxPoints - pointCount);
      && pointCount' == pointCount + |taken|
      && points' == points + Flat(taken)
    ensures pointCount' <= config.maxPoints
  {
    ghost var room := config.maxPoints - pointCount;
    points', pointCount' := points, pointCount;
    ghost var taken: seq<Coord> := [];
    var index := 0;
    while index < |coords|
      invariant 0 <= index <= |coords|
      invariant taken == Cap(coords[..index], room)
      invariant pointCount' == pointCount + |taken|
      invariant points' == points + Flat(taken)
    {
      CapStep(coords, index, room);
      Numeric.DivModUnique(index, 1, index, 0);
      if pointCount' >= config.maxPoints || index % config.samplingRate != 0 {
      } else {
        FlatSnoc(taken, coords[index]);
        points' := points' + Xyz(Geo(coords[index], ContinentRadius));
        pointCount' := pointCount' + 1;
        taken := taken + [coords[index]];
      }
      index := index + 1;
    }
    assert coords[..|coords|] == coords;
  }

  /** Looking at one more coordinate adds it unless the cap is reached. */
  lemma CapStep(coords: seq<Coord>, index: nat, room: nat)
    requires index < |coords|
    ensures var before := Cap(coords[..index], room);
      Cap(coords[..index + 1], room) == if |before| >= room then before else before + [coords[index]]
  {
    assert coords[..index + 1] == coords[..index] + [coords[index]];
    CapAppend(coords[..index], [coords[index]], room);
  }

  lemma FlatSnoc(cs: seq<Coord>, c: Coord)
    ensures Flat(cs + [c]) == Flat(cs) + Xyz(Geo(c, ContinentRadius))
  {
    FlatAppend(cs, [c]);
    assert Flat([c]) == Xyz(Geo(c, ContinentRadius)) + Flat([]);
  }

  lemma FirstRingsSnoc(polys: seq<seq<Ring>>, j: nat, rings: seq<Ring>)
    requires j < |polys| && |polys[j]| > 0
    requires FirstRings(polys[..j]) == Some(rings)
    ensures FirstRings(polys[..j + 1]) == Some(rings + [polys[j][0]])
  {
    assert polys[..j + 1][..j] == polys[..j];
  }

  lemma FirstRingsStop(polys: seq<seq<Ring>>, j: nat)
    requires j < |polys| && |polys[j]| == 0
    ensures FirstRings(polys).None?
  {
    FirstRingsMeaning(polys);
  }

  /** Positions pushed after positions already pushed. */
  lemma Pushed(p0: seq<Component>, p1: seq<Component>, p2: seq<Component>, taken: seq<Coord>, add: seq<Coord>)
    requires p1 == p0 + Flat(taken) && p2 == p1 + Flat(add)
    ensures p2 == p0 + Flat(taken + add)
  {
    FlatAppend(taken, add);
    assert (p0 + Flat(taken)) + Flat(add) == p0 + (Flat(taken) + Flat(add));
  }

  /** Walking one more ring extends the capped prefix by that ring, capped
      to the room left. */
  lemma RingStep(rings: seq<Ring>, ring: Ring, room: nat, left: nat)
    requires left == room - |Cap(Concat(rings), room)|
    ensures Cap(Concat(rings + [ring]), room) == Cap(Concat(rings), room) + Cap(ring, left)
  {
    ConcatSnoc(rings, ring);
    CapAppend(Concat(rings), ring, room);
  }

  /** The outer rings of one MultiPolygon, polygon by polygon; `ok` is false
      where a polygon without rings makes the code throw. */
  method ProcessMultiPolygon(polys: seq<seq<Ring>>, config: ParticleConfig, points: seq<Component>, pointCount: nat)
    returns (ok: bool, points': seq<Component>, pointCount': nat)
    requires config.samplingRate == 1 && pointCount <= config.maxPoints
    ensures ok <==> FirstRings(polys).Some?
    ensures ok ==>
      var taken := Cap(Concat(FirstRings(polys).value), config.maxPoints - pointCount);
      points' == points + Flat(taken) && pointCount' == pointCount + |taken|
  {
    ghost var room := config.maxPoints - pointCount;
    points', pointCount' := points, pointCount;
    ghost var rings: seq<Ring> := [];
    ghost var taken: seq<Coord> := [];
    for j := 0 to |polys|
      invariant FirstRings(polys[..j]) == Some(rings)
      invariant taken == Cap(Concat(rings), room)
      invariant pointCount' == pointCount + |taken| <= config.maxPoints
      invariant points' == points + Flat(taken)
    {
      if |polys[j]| == 0 {
        FirstRingsStop(polys, j);
        return false, points', pointCount';
      }
      var ring := polys[j][0];
      FirstRingsSnoc(polys, j, rings);
      ghost var left: nat := config.maxPoints - pointCount';
      ghost var add := Cap(ring, left);
      RingStep(rings, ring, room, left);
      ghost var before := points';
      points', pointCount' := ProcessCoordinates(ring, config, points', pointCount');
      Pushed(points, before, points', taken, add);
      rings, taken := rings + [ring], taken + add;
    }
    assert polys[..|polys|] == polys;
    ok := true;
  }

  /** The body of the `data.features.forEach` callback for a feature met
      before the cap: `ok` is false where the code throws. */
  method ProcessFeature(g: Geometry, config: ParticleConfig, points: seq<Component>, pointCount: nat)
    returns (ok: bool, points': seq<Component>, pointCount': nat)
    requires config.samplingRate == 1 && pointCount <= config.maxPoints
    ensures ok <==> WellFormed(g)
    ensures ok ==>
      var taken := Cap(Concat(VisitedRings(g).value), config.maxPoints - pointCount);
      points' == points + Flat(taken) && pointCount' == pointCount + |taken|
  {
    match g {
      case Polygon(rings) =>
        if |rings| == 0 {
          return false, points, pointCount;
        }
        assert Concat([rings[0]]) == rings[0] + Concat([]);
        assert rings[0] + [] == rings[0];
        assert VisitedRings(g).value == [rings[0]];
        ok := true;
        points', pointCount' := ProcessCoordinates(rings[0], config, points, pointCount);
      case MultiPolygon(polys) =>
        ok, points', pointCount' := ProcessMultiPolygon(polys, config, points, pointCount);
      case OtherGeometry(_) =>
        assert Cap(Concat([]), config.maxPoints - pointCount) == [];
        assert points + Flat([]) == points;
        return true, points, pointCount;
    }
  }

  /** `processGeoData(data)` for the given phase: the positions of the
      sampled outer-ring coordinates, or None where the code throws a
      TypeError on a polygon without rings. */
  method ProcessGeoData(data: GeoData, phase: int) returns (positions: Option<seq<Component>>)
    ensures positions == MapPositions(Emitted(data.features, PhaseConfig(phase).maxPoints))
    ensures positions.Some? ==> |positions.value| <= 3 * PhaseConfig(phase).maxPoints
  {
    var config := PhaseConfig(phase);
    var features := data.features;
    var points: seq<Component> := [];
    var pointCount: nat := 0;
    ghost var all := Emitted(features, config.maxPoints);
    ghost var taken: seq<Coord> := [];
    ghost var left: nat := config.maxPoints;
    assert features[0..] == features;
    PrependNothing(all);
    for f := 0 to |features|
      invariant pointCount == |taken| && pointCount + left == config.maxPoints
      invariant points == Flat(taken)
      invariant all == Prepend(taken, Emitted(features[f..], left))
    {
      if pointCount >= config.maxPoints {
        EmittedFull(all, features, f, taken);
        continue;
      }
      var g := features[f].geometry;
      EmittedAdvance(all, features, f, taken, left);
      ghost var add := if WellFormed(g) then Cap(Concat(VisitedRings(g).value), left) else [];
      var ok, pts, count := ProcessFeature(g, config, points, pointCount);
      if !ok {
        return None;
      }
      FlatAppend(taken, add);
      points, pointCount := pts, count;
      taken, left := taken + add, left - |add|;
    }
    EmittedDone(all, features, taken, left);
    positions := Some(points);
  }

  /** A feature met with no room left adds nothing. */
  lemma EmittedFull(all: Option<seq<Coord>>, features: seq<Feature>, f: nat, taken: seq<Coord>)
    requires f < |features|
    requires all == Prepend(taken, Emitted(features[f..], 0))
    ensures all == Prepend(taken, Emitted(features[f + 1..], 0))
  {
  }

  /** A feature met with room left either throws or adds its capped
      outer-ring coordinates to what was taken so far. */
  lemma EmittedAdvance(all: Option<seq<Coord>>, features: seq<Feature>, f: nat, taken: seq<Coord>, room: nat)
    requires f < |features| && room > 0
    requires all == Prepend(taken, Emitted(features[f..], room))
    ensures !WellFormed(features[f].geometry) ==> all.None?
    ensures WellFormed(features[f].geometry) ==>
      var add := Cap(Concat(VisitedRings(features[f].geometry).value), room);
      all == Prepend(taken + add, Emitted(features[f + 1..], room - |add|))
  {
    EmittedStep(features, f, room);
    if WellFormed(features[f].geometry) {
      var add := Cap(Concat(VisitedRings(features[f].geometry).value), room);
      PrependTwice(taken, add, Emitted(features[f + 1..], room - |add|));
    }
  }

  /** Past the last feature, what was taken is all that is emitted. */
  lemma EmittedDone(all: Option<seq<Coord>>, features: seq<Feature>, taken: seq<Coord>, room: nat)
    requires all == Prepend(taken, Emitted(features[|features|..], room))
    ensures all == Some(taken)
  {
    assert features[|features|..] == [];
    assert taken + [] == taken;
  }

  /** The i-th point of the Fibonacci sphere, for points 0 to n - 1. */
  function FibonacciSphere(n: nat, count: nat): (r: seq<Component>)
    ensures |r| == 3 * n
    ensures forall k :: 0 <= k < |r| ==> r[k].vertex.Fibonacci? && r[k].vertex.index < n
  {
    if n == 0 then [] else FibonacciSphere(n - 1, count) + Xyz(Fibonacci(n - 1, count, FallbackRadius))
  }

  /** Point i of the sphere sits at positions 3i, 3i+1, 3i+2. */
  lemma {:induction false} FibonacciPointAt(n: nat, count: nat, i: nat)
    requires i < n
    ensures FibonacciSphere(n, count)[3 * i..3 * i + 3] == Xyz(Fibonacci(i, count, FallbackRadius))
  {
    if i < n - 1 {
      FibonacciPointAt(n - 1, count, i);
      assert FibonacciSphere(n, count)[3 * i..3 * i + 3] == FibonacciSphere(n - 1, count)[3 * i..3 * i + 3];
    }
  }

  /** `generateFallbackParticles(count)`: `count` points of a Fibonacci
      sphere of radius 2.2, in index order. */
  method GenerateFallbackParticles(count: nat) returns (pts: seq<Component>)
    ensures pts == FibonacciSphere(count, count)
  {
    pts := [];
    for i := 0 to count
      invariant pts == FibonacciSphere(i, count)
    {
      pts := pts + Xyz(Fibonacci(i, count, FallbackRadius));
    }
  }

  /** What the load effect hands `setParticles`: `fetched` is the parsed file,
      or None when the request or the JSON parse fails. A failure, a throw
      while processing or an empty result all select 6000 fallback points,
      so the particle buffer is never empty. */
  method LoadParticles(fetched: Option<GeoData>, phase: int) returns (particles: seq<Component>)
    ensures |particles| > 0
    ensures var e := if fetched.None? then None else Emitted(fetched.value.features, PhaseConfig(phase).maxPoints);
      particles == if e.Some? && |e.value| > 0 then Flat(e.value) else FibonacciSphere(FallbackCount, FallbackCount)
  {
    if fetched.None? {
      particles := GenerateFallbackParticles(FallbackCount);
      return;
    }
    var processed := ProcessGeoData(fetched.value, phase);
    if processed.Some? && |processed.value| > 0 {
      particles := processed.value;
    } else {
      particles := GenerateFallbackParticles(FallbackCount);
    }
  }

  // ---------------------------------------------------------------------
  // The link to the map

  /** What this section's resolver sees: VITE_WL_APP_URL ("" when unset),
      whether a window exists and its port. Unlike the hero's resolver it
      does not look at the development flag or the host name. */
  datatype LinkEnv = LinkEnv(appUrl: string, hasWindow: bool, port: string)

  /** WL_MAP_URL of this section. */
  function MapUrl(env: LinkEnv): (r: string)
    ensures EndsWith(r, "/map")
    ensures env.appUrl != "" ==> r == StripTrailingSlash(env.appUrl) + "/map"
    ensures env.appUrl == "" && env.hasWindow && env.port == "5174" ==> r == "http://localhost:5173/map"
    ensures env.appUrl == "" && !(env.hasWindow && env.port == "5174") ==> r == "/map"
  {
    if env.appUrl != "" then
      MapSuffix(StripTrailingSlash(env.appUrl));
      StripTrailingSlash(env.appUrl) + "/map"
    else if env.hasWindow && env.port == "5174" then "http://localhost:5173/map"
    else "/map"
  }
}
