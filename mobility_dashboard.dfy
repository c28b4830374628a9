/** The mobility dashboard of the mobility hero section
    (src/components/MobilityHeroSection.tsx): every 4 seconds it moves to the
    next example route, re-colours the requirement checklist from that route
    and nudges the headline metrics and the trend bars by random amounts.

    Each `Math.random()` of one tick is a parameter in [0, 1); numbers are
    exact reals, so floating-point rounding is not modelled. */
module MobilityDashboard {

  import Numeric

  datatype Route = Route(
    from: string,
    to: string,
    requirement: string,
    cost: string,
    requirements: map<string, string>)

  datatype Requirement = Requirement(kind: string, status: string, color: string)

  datatype Trend = Trend(name: string, value: int, color: string, trend: string, baseValue: int)

  const Routes: seq<Route> := [
    Route("Spain", "Portugal", "EU Freedom of Movement", "€1,200/mo",
      map["Destination Analysis" := "Complete", "Visa" := "Not Required",
          "Documentation" := "ID Card Only", "Job Matching" := "Active"]),
    Route("USA", "Estonia", "Digital Nomad Visa", "€1,800/mo",
      map["Destination Analysis" := "Complete", "Visa" := "Required",
          "Documentation" := "Collecting", "Job Matching" := "Searching"]),
    Route("Brazil", "Germany", "Work Permit Required", "€2,400/mo",
      map["Destination Analysis" := "Updated", "Visa" := "Requirements Found",
          "Documentation" := "Analyzing", "Job Matching" := "Matching"]),
    Route("Mexico", "Netherlands", "Student Visa", "€2,100/mo",
      map["Destination Analysis" := "Complete", "Visa" := "Checking Requirements",
          "Documentation" := "Identified", "Job Matching" := "Found Matches"])
  ]

  /** The status colours of the update; a status missing here gets amber. */
  const StatusColors: map<string, string> := map[
    "Complete" := "#10b981", "Analyzing" := "#3b82f6", "Updated" := "#10b981",
    "Required" := "#ef4444", "Not Required" := "#10b981", "Checking Requirements" := "#3b82f6",
    "Requirements Found" := "#10b981", "Identified" := "#10b981", "Collecting" := "#f59e0b",
    "ID Card Only" := "#10b981", "Searching" := "#f59e0b", "Matching" := "#3b82f6",
    "Found Matches" := "#10b981", "Active" := "#10b981"]

  const DefaultColor: string := "#f59e0b"

  const InitialRequirements: seq<Requirement> := [
    Requirement("Destination Analysis", "Complete", "#10b981"),
    Requirement("Visa", "Required", "#f59e0b"),
    Requirement("Documentation", "Analyzing", "#3b82f6"),
    Requirement("Job Matching", "Searching", "#f59e0b")
  ]

  const InitialTrends: seq<Trend> := [
    Trend("Digital Nomad", 78, "bg-green-400", "+12%", 78),
    Trend("Work Permits", 65, "bg-blue-400", "+8%", 65),
    Trend("Student Visas", 82, "bg-purple-400", "+15%", 82),
    Trend("Investment", 45, "bg-yellow-400", "+5%", 45)
  ]

  const MaxCountries: int := 195

  /** `(prev + 1) % routes.length`. */
  function NextRoute(prev: nat): (r: nat)
    requires prev < |Routes|
    ensures r < |Routes|
    ensures prev + 1 < |Routes| ==> r == prev + 1
    ensures prev == |Routes| - 1 ==> r == 0
  {
    (prev + 1) % |Routes|
  }

  /** Four ticks bring the dashboard back to the route it showed. */
  lemma RouteCycle(r: nat)
    requires r < |Routes|
    ensures NextRoute(NextRoute(NextRoute(NextRoute(r)))) == r
  {
  }

  function ColorOf(status: string): (c: string)
    ensures status in StatusColors ==> c == StatusColors[status]
    ensures status !in StatusColors ==> c == DefaultColor
  {
    if status in StatusColors then StatusColors[status] else DefaultColor
  }

  /** One requirement under a route: the route's status for its type (the
      old one when the route has none), coloured from the table. */
  function Remap(req: Requirement, route: Route): (r: Requirement)
    ensures r.kind == req.kind
    ensures req.kind in route.requirements ==> r.status == route.requirements[req.kind]
    ensures req.kind !in route.requirements ==> r.status == req.status
    ensures r.color == ColorOf(r.status)
  {
    var status := if req.kind in route.requirements then route.requirements[req.kind] else req.status;
    Requirement(req.kind, status, ColorOf(status))
  }

  /** `prevReq.map(...)` for the new route: same rows in the same order. */
  function RemapAll(reqs: seq<Requirement>, route: Route): (r: seq<Requirement>)
    ensures |r| == |reqs|
    ensures forall k :: 0 <= k < |r| ==> r[k] == Remap(reqs[k], route)
  {
    seq(|reqs|, k requires 0 <= k < |reqs| => Remap(reqs[k], route))
  }

  /** Remapping twice under one route is remapping once. */
  lemma RemapIdempotent(reqs: seq<Requirement>, route: Route)
    ensures RemapAll(RemapAll(reqs, route), route) == RemapAll(reqs, route)
  {
  }

  /** After a remap every row's colour agrees with its status; the initial
      table does not ("Required" starts amber but the table says red). */
  lemma ColorsConsistentAfterRemap(reqs: seq<Requirement>, route: Route)
    ensures forall k :: 0 <= k < |reqs| ==> RemapAll(reqs, route)[k].color == ColorOf(RemapAll(reqs, route)[k].status)
    ensures InitialRequirements[1].color != ColorOf(InitialRequirements[1].status)
  {
  }

  /** `Math.min(195, prev + Math.floor(Math.random() * 2))`. */
  function StepCountries(prev: int, r: real): (c: int)
    requires 0.0 <= r < 1.0
    ensures c <= MaxCountries
    ensures c == prev || c == prev + 1 || c == MaxCountries
    ensures prev <= MaxCountries ==> prev <= c
  {
    var next := prev + Numeric.Floor(r * 2.0);
    if MaxCountries <= next then MaxCountries else next
  }

  /** Starting at 195, the count never moves. */
  lemma CountriesStayAtMax(r: real)
    requires 0.0 <= r < 1.0
    ensures StepCountries(MaxCountries, r) == MaxCountries
  {
  }

  /** `prev + Math.floor(Math.random() * 15 + 5)`: between 5 and 19 more. */
  function StepDataPoints(prev: int, r: real): (d: int)
    requires 0.0 <= r < 1.0
    ensures prev + 5 <= d <= prev + 19
  {
    prev + Numeric.Floor(r * 15.0 + 5.0)
  }

  /** The accuracy rate moves by a tenth up (draw above one half) or down,
      is clamped to [95, 99] and rounded to one decimal. */
  function StepAccuracy(prev: real, r: real): (a: real)
    requires 0.0 <= r < 1.0
    ensures 95.0 <= a <= 99.0
    ensures (a * 10.0).Floor as real == a * 10.0
    ensures var c := Numeric.Clamp(95.0, 99.0, if r > 0.5 then prev + 0.1 else prev - 0.1);
      c - 0.05 < a <= c + 0.05
  {
    var newValue := prev + (if r > 0.5 then 0.1 else -0.1);
    var c := Numeric.Clamp(95.0, 99.0, newValue);
    var n := Numeric.Round(c * 10.0);
    Numeric.RoundWithin(c * 10.0, 950, 990);
    n as real / 10.0
  }

  /** Decimal digits of a natural number, as `String(n)` writes it. */
  function DecimalString(n: nat): (s: string)
    ensures |s| >= 1
    ensures forall k :: 0 <= k < |s| ==> '0' <= s[k] <= '9'
  {
    if n < 10 then [('0' as int + n) as char]
    else DecimalString(n / 10) + [('0' as int + n % 10) as char]
  }

  /** The value of a string of decimal digits. */
  function DecimalValue(s: string): nat
    requires forall k :: 0 <= k < |s| ==> '0' <= s[k] <= '9'
  {
    if s == [] then 0 else 10 * DecimalValue(s[..|s| - 1]) + (s[|s| - 1] as int - '0' as int)
  }

  /** The digits read back to the number they were written from. */
  lemma {:induction false} DecimalRoundTrip(n: nat)
    ensures DecimalValue(DecimalString(n)) == n
  {
    if n >= 10 {
      var s := DecimalString(n);
      assert s[..|s| - 1] == DecimalString(n / 10);
      DecimalRoundTrip(n / 10);
    }
  }

  /** One trend bar: its base value plus a fluctuation of up to ±2, clamped
      to [20, 95]; the shown value is rounded, and the label carries "+" only
      when the new value exceeds the value shown before, then the rounded
      distance from the base (toFixed(0) on a non-negative number rounds
      half up). */
  function StepTrend(t: Trend, r: real): (u: Trend)
    requires 0.0 <= r < 1.0
    ensures u.name == t.name && u.color == t.color && u.baseValue == t.baseValue
    ensures 20 <= u.value <= 95
    ensures var newValue := Numeric.Clamp(20.0, 95.0, t.baseValue as real + (r - 0.5) * 4.0);
      && u.value as real - 0.5 <= newValue < u.value as real + 0.5
      && u.trend == (if newValue > t.value as real then "+" else "")
                    + DecimalString(Numeric.Round(Numeric.Abs(newValue - t.baseValue as real)) as nat) + "%"
    ensures 20 <= t.baseValue <= 95 ==> t.baseValue - 2 <= u.value <= t.baseValue + 2
  {
    var fluctuation := (r - 0.5) * 4.0;
    var newValue := Numeric.Clamp(20.0, 95.0, t.baseValue as real + fluctuation);
    var distance := Numeric.Round(Numeric.Abs(newValue - t.baseValue as real));
    Numeric.RoundWithin(newValue, 20, 95);
    t.(value := Numeric.Round(newValue),
       trend := (if newValue > t.value as real then "+" else "") + DecimalString(distance as nat) + "%")
  }

  /** The label starts with "+" exactly when the bar rose above the value
      shown before, and the number in it is at most 2 for a base in range. */
  lemma TrendLabelMeaning(t: Trend, r: real)
    requires 0.0 <= r < 1.0 && 20 <= t.baseValue <= 95
    ensures var u := StepTrend(t, r);
      var newValue := Numeric.Clamp(20.0, 95.0, t.baseValue as real + (r - 0.5) * 4.0);
      && (u.trend[0] == '+' <==> newValue > t.value as real)
      && u.trend[|u.trend| - 1] == '%'
      && DecimalValue(u.trend[(if u.trend[0] == '+' then 1 else 0)..|u.trend| - 1]) <= 2
  {
    var u := StepTrend(t, r);
    var newValue := Numeric.Clamp(20.0, 95.0, t.baseValue as real + (r - 0.5) * 4.0);
    var d := Numeric.Round(Numeric.Abs(newValue - t.baseValue as real));
    Numeric.RoundWithin(Numeric.Abs(newValue - t.baseValue as real), 0, 2);
    var digits := DecimalString(d as nat);
    DecimalRoundTrip(d as nat);
    if newValue > t.value as real {
      assert u.trend == "+" + digits + "%";
      assert u.trend[1..|u.trend| - 1] == digits;
    } else {
      assert u.trend == digits + "%";
      assert u.trend[0..|u.trend| - 1] == digits;
    }
  }

  /** The random draws of one tick. */
  datatype Draws = Draws(countries: real, dataPoints: real, accuracy: real, trends: seq<real>)

  predicate ValidDraws(d: Draws, trendCount: nat)
  {
    && 0.0 <= d.countries < 1.0
    && 0.0 <= d.dataPoints < 1.0
    && 0.0 <= d.accuracy < 1.0
    && |d.trends| == trendCount
    && forall k :: 0 <= k < |d.trends| ==> 0.0 <= d.trends[k] < 1.0
  }

  function StepTrends(ts: seq<Trend>, rs: seq<real>): (u: seq<Trend>)
    requires |rs| == |ts| && forall k :: 0 <= k < |rs| ==> 0.0 <= rs[k] < 1.0
    ensures |u| == |ts|
    ensures forall k :: 0 <= k < |u| ==> u[k] == StepTrend(ts[k], rs[k])
  {
    seq(|ts|, k requires 0 <= k < |ts| => StepTrend(ts[k], rs[k]))
  }

  /** The dashboard's state and its 4-second interval. */
  class Dashboard {
    var currentRoute: nat
    var countriesAnalyzed: int
    var dataPoints: int
    var accuracyRate: real
    var mobilityTrends: seq<Trend>
    var requirements: seq<Requirement>

    ghost predicate Valid()
      reads this
    {
      && currentRoute < |Routes|
      && countriesAnalyzed <= MaxCountries
      && 95.0 <= accuracyRate <= 99.0
      && |mobilityTrends| == |InitialTrends|
      && (forall k :: 0 <= k < |mobilityTrends| ==>
            mobilityTrends[k].baseValue == InitialTrends[k].baseValue
            && mobilityTrends[k].name == InitialTrends[k].name
            && 20 <= mobilityTrends[k].value <= 95)
      && |requirements| == |InitialRequirements|
      && (forall k :: 0 <= k < |requirements| ==> requirements[k].kind == InitialRequirements[k].kind)
    }

    constructor ()
      ensures Valid()
      ensures currentRoute == 0 && countriesAnalyzed == 195 && dataPoints == 2847 && accuracyRate == 97.3
      ensures mobilityTrends == InitialTrends && requirements == InitialRequirements
    {
      currentRoute := 0;
      countriesAnalyzed := 195;
      dataPoints := 2847;
      accuracyRate := 97.3;
      mobilityTrends := InitialTrends;
      requirements := InitialRequirements;
    }

    /** One firing of the interval. */
    method Tick(draws: Draws)
      requires Valid() && ValidDraws(draws, |mobilityTrends|)
      modifies this
      ensures Valid()
      ensures currentRoute == NextRoute(old(currentRoute))
      ensures requirements == RemapAll(old(requirements), Routes[currentRoute])
      ensures forall k :: 0 <= k < |requirements| ==>
        requirements[k].status == Routes[currentRoute].requirements[requirements[k].kind]
      ensures countriesAnalyzed == StepCountries(old(countriesAnalyzed), draws.countries)
      ensures dataPoints == StepDataPoints(old(dataPoints), draws.dataPoints)
      ensures accuracyRate == StepAccuracy(old(accuracyRate), draws.accuracy)
      ensures mobilityTrends == StepTrends(old(mobilityTrends), draws.trends)
    {
      var newRoute := (currentRoute + 1) % |Routes|;
      currentRoute := newRoute;
      requirements := RemapAll(requirements, Routes[newRoute]);
      countriesAnalyzed := StepCountries(countriesAnalyzed, draws.countries);
      dataPoints := StepDataPoints(dataPoints, draws.dataPoints);
      accuracyRate := StepAccuracy(accuracyRate, draws.accuracy);
      mobilityTrends := StepTrends(mobilityTrends, draws.trends);
    }
  }
}
