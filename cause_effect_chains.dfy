/** The cause-effect chains card (src/components/CauseEffectChains.tsx):
    three cases (agriculture, rates, shipping), each showing one of three
    variants picked by a rotation counter, with a sparkline of a normalised
    index series, the percentage change over the period, and an "AI
    reasoning" box for the selected case. */
module CauseEffectChains {

  import opened Optional
  import Numeric

  datatype ScenarioId = Agri | Rates | Shipping

  /** A variant of a case; `series` is an index with 100 at the start. */
  datatype Variant = Variant(title: string, tags: seq<string>, note: string, series: seq<int>, periodLabel: string)

  datatype Case = Case(id: ScenarioId, variant: Variant)

  /** The order the header selector follows as the counter advances. */
  const Order: seq<ScenarioId> := [Agri, Rates, Shipping]

  const AgriVariants: seq<Variant> := [
    Variant("Brazil: drought and soybean prices", ["Agriculture", "Commodities", "Inflation"],
      "Crop cuts push futures higher and add CPI pressure in the region.",
      [100, 99, 101, 103, 104, 102, 105], "Last 3 months"),
    Variant("Argentina: corn yields and export volumes", ["Agriculture", "Trade"],
      "Lower yields reduce exports; regional supply tightens and prices rise.",
      [100, 98, 97, 99, 101, 100, 102], "Last 3 months"),
    Variant("Brazil: rainfall anomaly and food CPI", ["Climate", "Prices"],
      "Rainfall anomalies increase food CPI volatility across metro baskets.",
      [100, 101, 102, 103, 102, 104, 105], "Last 2 months")
  ]

  const RatesVariants: seq<Variant> := [
    Variant("US: rate hikes and stronger dollar", ["Rates", "FX", "Financing"],
      "Restrictive cycle strengthens USD; financing costs rise in EM.",
      [100, 102, 104, 106, 105, 107, 106], "Last 6 months"),
    Variant("EM: sovereign spreads and issuance", ["Debt", "EM"],
      "Wider spreads slow issuance; refinancing costs climb for high beta EMs.",
      [100, 101, 103, 104, 104, 103, 105], "Last 6 months"),
    Variant("US: mortgage rates and housing activity", ["Rates", "Housing"],
      "Higher mortgage rates cool housing starts and transaction volumes.",
      [100, 101, 101, 100, 99, 98, 97], "Last 6 months")
  ]

  const ShippingVariants: seq<Variant> := [
    Variant("Red Sea: disruptions and logistics costs", ["Shipping", "Trade", "Food prices"],
      "Rerouting and delays lift freight and insurance; imported staples face pressure.",
      [100, 105, 115, 122, 118, 120, 124], "Last 4 months"),
    Variant("Container rates: trans-Pacific lanes", ["Shipping", "Logistics"],
      "Peak season demand and capacity shifts elevate container rates.",
      [100, 104, 110, 113, 111, 115, 118], "Last 4 months"),
    Variant("Port congestion: dwell times and delays", ["Ports", "Logistics"],
      "Congestion increases dwell times; supply chains adjust lead times upward.",
      [100, 102, 108, 106, 107, 109, 110], "Last 4 months")
  ]

  function Variants(id: ScenarioId): (vs: seq<Variant>)
    ensures |vs| == 3
  {
    match id
    case Agri => AgriVariants
    case Rates => RatesVariants
    case Shipping => ShippingVariants
  }

  /** The three cards for a counter value: one per id, in the order
      agri, rates, shipping, each showing variant `cycleIndex % 3`. */
  function Cases(cycleIndex: nat): (cs: seq<Case>)
    ensures |cs| == 3
    ensures forall k :: 0 <= k < 3 ==> cs[k].id == Order[k]
    ensures forall k :: 0 <= k < 3 ==> cs[k].variant == Variants(cs[k].id)[cycleIndex % 3]
  {
    [Case(Agri, AgriVariants[cycleIndex % |AgriVariants|]),
     Case(Rates, RatesVariants[cycleIndex % |RatesVariants|]),
     Case(Shipping, ShippingVariants[cycleIndex % |ShippingVariants|])]
  }

  /** No card before position `k` carries `id`. */
  predicate FirstWithId(cases: seq<Case>, k: nat, id: ScenarioId)
    requires k <= |cases|
  {
    forall j :: 0 <= j < k ==> cases[j].id != id
  }

  /** `cases.find(c => c.id === scenario)`: the first card with that id. */
  function Find(cases: seq<Case>, id: ScenarioId): (r: Option<Case>)
    ensures r.Some? ==> r.value in cases && r.value.id == id
    ensures r.Some? ==> exists k :: 0 <= k < |cases| && cases[k] == r.value && FirstWithId(cases, k, id)
    ensures r.None? <==> forall k :: 0 <= k < |cases| ==> cases[k].id != id
  {
    if cases == [] then None
    else if cases[0].id == id then Some(cases[0])
    else
      var r := Find(cases[1..], id);
      assert r.Some? ==> exists k :: 1 <= k < |cases| && cases[k] == r.value && FirstWithId(cases, k, id) by {
        if r.Some? {
          var k :| 0 <= k < |cases[1..]| && cases[1..][k] == r.value && FirstWithId(cases[1..], k, id);
          assert cases[k + 1] == r.value;
          forall j | 0 <= j < k + 1
            ensures cases[j].id != id
          {
            if j > 0 { assert cases[j] == cases[1..][j - 1]; }
          }
        }
      }
      r
  }

  /** The reasoning box always finds the selected case: its `null` branch
      cannot be taken. */
  lemma ActiveCaseAlwaysFound(cycleIndex: nat, id: ScenarioId)
    ensures Find(Cases(cycleIndex), id) == Some(Case(id, Variants(id)[cycleIndex % 3]))
  {
    var cs := Cases(cycleIndex);
    assert cs[1..][1..] == [cs[2]];
  }

  /** The card state: the rotation counter and the selected scenario. */
  class ChainsCard {
    var cycleIndex: nat
    var scenario: ScenarioId

    /** Mounted: the counter at 0 and, after the sync effect, `agri`. */
    constructor ()
      ensures cycleIndex == 0 && scenario == Agri
    {
      cycleIndex := 0;
      scenario := Order[0];
    }

    /** One firing of the 2500 ms interval and the sync effect it triggers:
        the selector jumps to `order[cycleIndex % 3]`. */
    method Tick()
      modifies this
      ensures cycleIndex == old(cycleIndex) + 1
      ensures scenario == Order[cycleIndex % 3]
    {
      cycleIndex := cycleIndex + 1;
      scenario := Order[cycleIndex % |Order|];
    }

    /** A click on a selector button or on a card. */
    method Select(id: ScenarioId)
      modifies this`scenario
      ensures scenario == id && cycleIndex == old(cycleIndex)
    {
      scenario := id;
    }

    /** The case the reasoning box explains. */
    method ActiveCase() returns (c: Case)
      ensures c == Case(scenario, Variants(scenario)[cycleIndex % 3])
    {
      ActiveCaseAlwaysFound(cycleIndex, scenario);
      var found := Find(Cases(cycleIndex), scenario);
      c := found.value;
    }
  }

  /** Scenario and variant follow the same counter, so without clicks the
      reasoning box only ever explains variant k of the k-th scenario: three
      of the nine variants. */
  lemma RotationShowsDiagonal(cycleIndex: nat)
    ensures var id := Order[cycleIndex % 3];
      Find(Cases(cycleIndex), id) == Some(Case(id, Variants(id)[cycleIndex % 3]))
    ensures Order[cycleIndex % 3] == Order[(cycleIndex + 3) % 3]
  {
    ActiveCaseAlwaysFound(cycleIndex, Order[cycleIndex % 3]);
    Numeric.DivModUnique(cycleIndex + 3, 3, cycleIndex / 3 + 1, cycleIndex % 3);
  }

  /** `Math.min(...series)`. */
  function SeqMin(s: seq<int>): (m: int)
    requires |s| > 0
    ensures m in s && forall k :: 0 <= k < |s| ==> m <= s[k]
  {
    if |s| == 1 then s[0]
    else var rest := SeqMin(s[1..]); if s[0] <= rest then s[0] else rest
  }

  /** `Math.max(...series)`. */
  function SeqMax(s: seq<int>): (m: int)
    requires |s| > 0
    ensures m in s && forall k :: 0 <= k < |s| ==> s[k] <= m
  {
    if |s| == 1 then s[0]
    else var rest := SeqMax(s[1..]); if s[0] >= rest then s[0] else rest
  }

  /** `((last - first) / first) * 100`; the series is an index that starts
      positive (100 in every variant). */
  function ChangePct(s: seq<int>): (p: real)
    requires |s| > 0 && s[0] > 0
    ensures p >= 0.0 <==> s[|s| - 1] >= s[0]
    ensures p == 0.0 <==> s[|s| - 1] == s[0]
  {
    var first := s[0] as real;
    var last := s[|s| - 1] as real;
    var d := last - first;
    assert d / first >= 0.0 <==> d >= 0.0;
    assert d / first == 0.0 <==> d == 0.0;
    (d / first) * 100.0
  }

  /** On a series starting at 100 the change is the last value minus 100. */
  lemma ChangeFromHundred(s: seq<int>)
    requires |s| > 0 && s[0] == 100
    ensures ChangePct(s) == (s[|s| - 1] - 100) as real
  {
  }

  /** Every variant's series starts at 100 and has seven points. */
  lemma VariantSeriesShape(id: ScenarioId, k: nat)
    requires k < 3
    ensures |Variants(id)[k].series| == 7 && Variants(id)[k].series[0] == 100
  {
  }

  /** The sparkline's horizontal position of point i: spread evenly from 0
      to 100 across the view box. */
  function SparkX(i: nat, n: nat): (x: real)
    requires i < n && n >= 2
    ensures 0.0 <= x <= 100.0
    ensures i == 0 ==> x == 0.0
    ensures i == n - 1 ==> x == 100.0
  {
    var f := i as real / (n - 1) as real;
    assert 0.0 <= f <= 1.0;
    f * 100.0
  }

  /** The points are evenly spaced: each lies 100 / (n - 1) right of the one
      before. */
  lemma SparkXEqualSteps(i: nat, n: nat)
    requires i + 1 < n && n >= 2
    ensures SparkX(i + 1, n) - SparkX(i, n) == 100.0 / (n - 1) as real
  {
    var m := (n - 1) as real;
    assert (i + 1) as real / m - i as real / m == 1.0 / m;
  }

  /** Later points lie further right. */
  lemma SparkXIncreasing(i: nat, j: nat, n: nat)
    requires i < j < n && n >= 2
    ensures SparkX(i, n) < SparkX(j, n)
  {
    var m := (n - 1) as real;
    assert i as real / m < j as real / m;
  }

  /** The sparkline's vertical position of a value: the lowest value of the
      series at the bottom (22), the highest at the top (2), a flat series
      (span 0, replaced by 1) on the bottom line. */
  function SparkY(v: int, lo: int, hi: int): (y: real)
    requires lo <= v <= hi
    ensures 2.0 <= y <= 22.0
    ensures v == lo ==> y == 22.0
    ensures v == hi && lo < hi ==> y == 2.0
  {
    var span := if hi - lo == 0 then 1 else hi - lo;
    var f := (v - lo) as real / span as real;
    assert 0.0 <= f <= 1.0;
    22.0 - f * 20.0
  }

  /** Higher values are drawn higher up (smaller y). */
  lemma SparkYMonotone(v: int, w: int, lo: int, hi: int)
    requires lo <= v < w <= hi
    ensures SparkY(w, lo, hi) < SparkY(v, lo, hi)
  {
    var span := (hi - lo) as real;
    assert (v - lo) as real / span < (w - lo) as real / span;
  }

  /** The sparkline of a series: one (x, y) per value. */
  function Sparkline(s: seq<int>): (pts: seq<(real, real)>)
    requires |s| >= 2
    ensures |pts| == |s|
    ensures forall k :: 0 <= k < |s| ==> pts[k].0 == SparkX(k, |s|) && pts[k].1 == SparkY(s[k], SeqMin(s), SeqMax(s))
  {
    var lo, hi := SeqMin(s), SeqMax(s);
    seq(|s|, k requires 0 <= k < |s| => (SparkX(k, |s|), SparkY(s[k], lo, hi)))
  }

  /** The sparkline spans the full height whenever the series is not flat. */
  lemma SparklineSpansHeight(s: seq<int>)
    requires |s| >= 2 && SeqMin(s) < SeqMax(s)
    ensures exists k :: 0 <= k < |s| && Sparkline(s)[k].1 == 22.0
    ensures exists k :: 0 <= k < |s| && Sparkline(s)[k].1 == 2.0
  {
    var lo, hi := SeqMin(s), SeqMax(s);
    var i :| 0 <= i < |s| && s[i] == lo;
    var j :| 0 <= j < |s| && s[j] == hi;
    assert Sparkline(s)[i].1 == 22.0;
    assert Sparkline(s)[j].1 == 2.0;
  }

  /** `Math.round(65 + Math.min(25, Math.abs(changePct)))`: between 65 and
      90, growing with the size of the change and saturating at 25 points. */
  function Confidence(changePct: real): (c: int)
    ensures 65 <= c <= 90
    ensures Numeric.Abs(changePct) >= 25.0 ==> c == 90
    ensures changePct == 0.0 ==> c == 65
  {
    var v := 65.0 + Numeric.MinReal(25.0, Numeric.Abs(changePct));
    Numeric.RoundWithin(v, 65, 90);
    Numeric.Round(v)
  }

  /** A larger change never lowers the confidence. */
  lemma ConfidenceMonotone(a: real, b: real)
    requires Numeric.Abs(a) <= Numeric.Abs(b)
    ensures Confidence(a) <= Confidence(b)
  {
  }
}
