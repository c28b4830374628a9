/** The scenario simulator card (src/components/ScenarioSimulator.tsx): the
    baseline/simulated message pairs of the active scenario are grouped by
    category, and a timer visits the categories in a fixed cyclic order, each
    visit showing the next pair of that category. */
module ScenarioSimulator {

  import opened Optional
  import Numeric

  datatype Pair = Pair(category: string, baseline: string, simulated: string)

  /** `comparative.spainRent`, the pairs of the only scenario. */
  const SpainRent: seq<Pair> := [
    Pair("Energy", "⚡ Energy — Electricity stays high, but fairly stable.", "⚡ Energy — With rent absorbing more income, households lower electricity and heating by roughly 3–5%. They shift usage to off‑peak hours and delay appliance upgrades, prioritizing essentials."),
    Pair("Energy", "⚡ Energy — Households use more energy than they’d like.", "⚡ Energy — Consumption at home drops as families adopt efficient habits and turn off devices more often. Bills become a target for savings, reducing comfort during peak winter and summer days."),
    Pair("Economy", "📉 Economy — Inflation is still felt and things remain pricey.", "📉 Economy — Higher rent cuts disposable income, pushing retail and leisure spending down about 4–7%. Small businesses feel softer demand, and overall growth cools as households prioritize essentials."),
    Pair("Economy", "📉 Economy — Families shop more carefully than before.", "📉 Economy — Budgets tighten further; price sensitivity rises and non‑essential purchases are postponed. Promotions and discounts drive timing of buys, concentrating sales around deal periods."),
    Pair("Housing", "🏠 Housing — Rents have been creeping up for months.", "🏠 Housing — Flat‑sharing rises by roughly 2–4 percentage points, and smaller units are favored to afford monthly rent. Occupancy density increases, subtly changing neighborhood composition."),
    Pair("Housing", "🏠 Housing — Few homes are available and many people are looking.", "🏠 Housing — Moves to cheaper outskirts pick up as people search lower rent per m². Demand eases slightly in the center while commute times increase for many households."),
    Pair("Work", "💼 Work — Many young people still have unstable jobs.", "💼 Work — Job mobility declines because relocating becomes harder to afford with higher rent. Workers hesitate to change cities, slowing career transitions and wage progression."),
    Pair("Work", "💼 Work — Quality job offers are hard to find.", "💼 Work — Preference for remote roles rises by around 3–5 percentage points to cut commuting and living costs. Companies offering flexible arrangements attract more applicants and retain talent."),
    Pair("Social", "👥 Social — Many families struggle to make ends meet.", "👥 Social — Financial stress rises as savings buffers shrink and unexpected expenses become harder to absorb. Wellbeing is affected, with more worry about monthly bills and stability."),
    Pair("Social", "👥 Social — People move out late because rent is expensive.", "👥 Social — Independence is delayed; young adults stay longer with family, adding months before moving out. Household formation slows, which reshapes rental demand patterns over time.")
  ]

  /** The order in which the categories are visited. */
  const Order: seq<string> := ["Social", "Work", "Housing", "Economy", "Energy"]

  /** The pairs of category `cat`, in their original order. */
  function Filter(pairs: seq<Pair>, cat: string): (r: seq<Pair>)
    ensures |r| <= |pairs|
  {
    if pairs == [] then []
    else (if pairs[0].category == cat then [pairs[0]] else []) + Filter(pairs[1..], cat)
  }

  /** The categories that occur in `pairs`. */
  function Categories(pairs: seq<Pair>): set<string>
  {
    set p | p in pairs :: p.category
  }

  /** Filtering a longer list extends the filtered list at its end. */
  lemma {:induction false} FilterAppend(pairs: seq<Pair>, p: Pair, cat: string)
    ensures Filter(pairs + [p], cat) == Filter(pairs, cat) + (if p.category == cat then [p] else [])
  {
    if pairs != [] {
      assert (pairs + [p])[1..] == pairs[1..] + [p];
      FilterAppend(pairs[1..], p, cat);
    } else {
      assert Filter([p], cat) == (if p.category == cat then [p] else []) + Filter([], cat);
    }
  }

  /** A group holds only pairs of its category, all taken from the input. */
  lemma {:induction false} FilterSound(pairs: seq<Pair>, cat: string)
    ensures forall q :: q in Filter(pairs, cat) ==> q in pairs && q.category == cat
  {
    if pairs != [] {
      FilterSound(pairs[1..], cat);
    }
  }

  /** No pair is lost: each one is in the group of its own category. */
  lemma {:induction false} FilterComplete(pairs: seq<Pair>, cat: string)
    ensures forall q :: q in pairs && q.category == cat ==> q in Filter(pairs, cat)
  {
    if pairs != [] {
      FilterComplete(pairs[1..], cat);
      assert forall q :: q in pairs ==> q == pairs[0] || q in pairs[1..];
    }
  }

  /** A category that does not occur has an empty group. */
  lemma {:induction false} FilterAbsent(pairs: seq<Pair>, cat: string)
    requires cat !in Categories(pairs)
    ensures Filter(pairs, cat) == []
  {
    if pairs != [] {
      assert pairs[0] in pairs;
      assert Categories(pairs[1..]) <= Categories(pairs) by {
        forall c | c in Categories(pairs[1..]) ensures c in Categories(pairs) {
          var q :| q in pairs[1..] && q.category == c;
          assert q in pairs;
        }
      }
      FilterAbsent(pairs[1..], cat);
    }
  }

  /** A category occurring in the input has a non-empty group. */
  lemma CategoryHasPairs(pairs: seq<Pair>, cat: string)
    requires cat in Categories(pairs)
    ensures |Filter(pairs, cat)| > 0
  {
    var q :| q in pairs && q.category == cat;
    FilterComplete(pairs, cat);
    assert q in Filter(pairs, cat);
  }

  lemma FilterStep(pairs: seq<Pair>, k: nat, cat: string)
    requires k < |pairs|
    ensures Filter(pairs[..k + 1], cat) == Filter(pairs[..k], cat) + (if pairs[k].category == cat then [pairs[k]] else [])
  {
    assert pairs[..k + 1] == pairs[..k] + [pairs[k]];
    FilterAppend(pairs[..k], pairs[k], cat);
  }

  lemma CategoriesStep(pairs: seq<Pair>, k: nat)
    requires k < |pairs|
    ensures Categories(pairs[..k + 1]) == Categories(pairs[..k]) + {pairs[k].category}
  {
    assert pairs[..k + 1] == pairs[..k] + [pairs[k]];
  }

  /** The `for (const p of pairs)` loop that fills `groups`: one entry per
      category that occurs, holding that category's pairs in input order. */
  method BuildGroups(pairs: seq<Pair>) returns (groups: map<string, seq<Pair>>)
    ensures groups.Keys == Categories(pairs)
    ensures forall c :: c in groups ==> groups[c] == Filter(pairs, c) && |groups[c]| > 0
  {
    groups := map[];
    for k := 0 to |pairs|
      invariant groups.Keys == Categories(pairs[..k])
      invariant forall c :: c in groups ==> groups[c] == Filter(pairs[..k], c) && |groups[c]| > 0
    {
      var p := pairs[k];
      CategoriesStep(pairs, k);
      if p.category !in groups {
        FilterAbsent(pairs[..k], p.category);
        groups := groups[p.category := []];
      }
      groups := groups[p.category := groups[p.category] + [p]];
      forall c | c in groups
        ensures groups[c] == Filter(pairs[..k + 1], c) && |groups[c]| > 0
      {
        FilterStep(pairs, k, c);
      }
    }
    assert pairs[..|pairs|] == pairs;
  }

  /** Each category's offset is the number of its visits so far, modulo the
      size of its group. */
  ghost predicate OffsetsFollowVisits(groups: map<string, seq<Pair>>, offsets: map<string, nat>, visits: map<string, nat>)
  {
    forall c :: c in offsets && c in groups && |groups[c]| > 0 && c in visits ==>
      offsets[c] == visits[c] % |groups[c]|
  }

  /** One more visit of `cat` moves its offset on by one, cyclically. */
  lemma VisitAdvances(groups: map<string, seq<Pair>>, offsets: map<string, nat>, visits: map<string, nat>, cat: string)
    requires OffsetsFollowVisits(groups, offsets, visits)
    requires cat in groups && |groups[cat]| > 0 && cat in offsets && cat in visits
    ensures offsets[cat] % |groups[cat]| == visits[cat] % |groups[cat]|
    ensures var offsets' := offsets[cat := (offsets[cat] % |groups[cat]| + 1) % |groups[cat]|];
      var visits' := visits[cat := visits[cat] + 1];
      && OffsetsFollowVisits(groups, offsets', visits')
      && offsets'.Keys == offsets.Keys && visits'.Keys == visits.Keys
  {
    var n, v := |groups[cat]|, visits[cat];
    Numeric.DivModUnique(v % n, n, 0, v % n);
    Numeric.ModSucc(v, n);
  }

  /** The offsets the effect starts from: 0 for every category of the order. */
  const StartOffsets: map<string, nat> := map c | c in Order :: 0

  /** Starting every count at 0 keeps offsets and visits in step, for any
      groups, and covers every category of the order. */
  lemma StartOffsetsFollow(groups: map<string, seq<Pair>>)
    ensures OffsetsFollowVisits(groups, StartOffsets, StartOffsets)
    ensures forall k :: 0 <= k < |Order| ==> Order[k] in StartOffsets && StartOffsets[Order[k]] == 0
  {
    forall c | c in StartOffsets && c in groups && |groups[c]| > 0
      ensures StartOffsets[c] == StartOffsets[c] % |groups[c]|
    {
      Numeric.DivModUnique(0, |groups[c]|, 0, 0);
    }
  }

  /** The rotation state the effect keeps: `groups`, `offsetsRef`, the
      category counter `i`, the two shown messages and the pending reply. */
  class CategoryRotation {
    var groups: map<string, seq<Pair>>
    var offsets: map<string, nat>
    var i: nat
    var curMsg: string
    var simMsg: string
    var pendingReply: Option<string>
    var running: bool
    ghost var ticks: nat
    ghost var visits: map<string, nat>

    ghost predicate Valid()
      reads this
    {
      && i < |Order|
      && (running ==> i == ticks % |Order|)
      && (running ==> forall k :: 0 <= k < |Order| ==> Order[k] in offsets && Order[k] in visits)
      && OffsetsFollowVisits(groups, offsets, visits)
    }

    /** The effect for the pairs of the active scenario: with no pairs it
        schedules nothing; otherwise it groups them, sets every offset of the
        order to 0 and shows the first category at once. */
    constructor (pairs: seq<Pair>)
      ensures Valid()
      ensures running <==> |pairs| > 0
      ensures simMsg == ""
      ensures !running ==> curMsg == "" && pendingReply == None
      ensures running ==>
        && i == 0 && ticks == 0
        && groups.Keys == Categories(pairs)
        && (forall c :: c in groups ==> groups[c] == Filter(pairs, c))
      ensures running && (Order[0] !in groups || |groups[Order[0]]| == 0) ==>
        && offsets == StartOffsets && visits == StartOffsets
        && curMsg == "" && pendingReply == None
      ensures running && Order[0] in groups && |groups[Order[0]]| > 0 ==>
        var first := groups[Order[0]][0];
        && offsets == StartOffsets[Order[0] := 1 % |groups[Order[0]]|]
        && visits == StartOffsets[Order[0] := 1]
        && curMsg == first.baseline && pendingReply == Some(first.simulated)
    {
      curMsg := "";
      simMsg := "";
      pendingReply := None;
      i := 0;
      ticks := 0;
      groups := map[];
      offsets := map[];
      visits := map[];
      running := false;
      if |pairs| > 0 {
        var g := BuildGroups(pairs);
        StartOffsetsFollow(g);
        groups := g;
        offsets := StartOffsets;
        visits := StartOffsets;
        running := true;
      }
      new;
      if running {
        ShowFirstCategory();
      }
    }

    /** The visit the effect makes at once, before the first interval tick:
        the first pair of the first category of the order, from offset 0. */
    method ShowFirstCategory()
      requires Valid() && running && offsets == StartOffsets && visits == StartOffsets
      modifies this`curMsg, this`pendingReply, this`offsets, this`visits
      ensures Valid()
      ensures (Order[0] !in groups || |groups[Order[0]]| == 0) ==>
        && offsets == StartOffsets && visits == StartOffsets
        && curMsg == old(curMsg) && pendingReply == old(pendingReply)
      ensures Order[0] in groups && |groups[Order[0]]| > 0 ==>
        var first := groups[Order[0]][0];
        && offsets == StartOffsets[Order[0] := 1 % |groups[Order[0]]|]
        && visits == StartOffsets[Order[0] := 1]
        && curMsg == first.baseline && pendingReply == Some(first.simulated)
    {
      StartOffsetsFollow(groups);
      if Order[0] in groups && |groups[Order[0]]| > 0 {
        Numeric.DivModUnique(0, |groups[Order[0]]|, 0, 0);
      }
      ShowPairForCategory(Order[0]);
    }

    /** `showPairForCategory(cat)`: the next pair of the category's group, its
        baseline at once and its simulated line when the reply timer fires;
        the category's offset moves on. */
    method ShowPairForCategory(cat: string)
      requires Valid() && running && cat in Order
      modifies this`curMsg, this`pendingReply, this`offsets, this`visits
      ensures Valid()
      ensures offsets.Keys == old(offsets).Keys && visits.Keys == old(visits).Keys
      ensures (cat !in groups || |groups[cat]| == 0) ==>
        && curMsg == old(curMsg) && pendingReply == old(pendingReply)
        && offsets == old(offsets) && visits == old(visits)
      ensures cat in groups && |groups[cat]| > 0 ==>
        var arr := groups[cat];
        var idx := old(offsets)[cat] % |arr|;
        && curMsg == arr[idx].baseline
        && pendingReply == Some(arr[idx].simulated)
        && offsets == old(offsets)[cat := (idx + 1) % |arr|]
        && visits == old(visits)[cat := old(visits)[cat] + 1]
    {
      var arr := if cat in groups then groups[cat] else [];
      if |arr| == 0 {
        return;
      }
      VisitAdvances(groups, offsets, visits, cat);
      var idx := offsets[cat] % |arr|;
      var pair := arr[idx];
      curMsg := pair.baseline;
      pendingReply := Some(pair.simulated);
      offsets, visits := offsets[cat := (idx + 1) % |arr|], visits[cat := visits[cat] + 1];
    }

    /** One firing of the 5200 ms interval: the next category of the order. */
    method Tick()
      requires Valid()
      modifies this`i, this`ticks, this`curMsg, this`pendingReply, this`offsets, this`visits
      ensures Valid()
      ensures !old(running) ==>
        && curMsg == old(curMsg) && pendingReply == old(pendingReply)
        && offsets == old(offsets) && i == old(i)
      ensures old(running) ==> i == (old(i) + 1) % |Order| && ticks == old(ticks) + 1
      ensures old(running) && (Order[i] !in groups || |groups[Order[i]]| == 0) ==>
        curMsg == old(curMsg) && pendingReply == old(pendingReply) && offsets == old(offsets)
      ensures old(running) && Order[i] in groups && |groups[Order[i]]| > 0 ==>
        var arr := groups[Order[i]];
        var idx := old(offsets)[Order[i]] % |arr|;
        && curMsg == arr[idx].baseline
        && pendingReply == Some(arr[idx].simulated)
        && offsets == old(offsets)[Order[i] := (idx + 1) % |arr|]
    {
      if !running {
        return;
      }
      Numeric.ModSucc(ticks, |Order|);
      i := (i + 1) % |Order|;
      ticks := ticks + 1;
      ShowPairForCategory(Order[i]);
    }

    /** The 900 ms reply timer: the simulated line of the pair last shown. */
    method DeliverReply()
      requires Valid()
      modifies this`simMsg, this`pendingReply
      ensures Valid() && pendingReply == None
      ensures old(pendingReply).Some? ==> simMsg == old(pendingReply).value
      ensures old(pendingReply).None? ==> simMsg == old(simMsg)
    {
      if pendingReply.Some? {
        simMsg := pendingReply.value;
        pendingReply := None;
      }
    }
  }
}
