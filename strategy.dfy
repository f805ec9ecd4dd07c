/**
 * The strategy planner: the badge purchase a budget affords, the badge
 * bonus and representative badge count of the user's current tier, the
 * split-day ad-boost earnings formula, and the candidate strategies
 * ("all Commons" and "upgrade the badge tier, then Commons") ranked by
 * efficiency.
 */
module Strategy {
  import opened Optional
  import opened ParcelData
  import opened BadgeTable
  import Calculator

  /** Hours in a day, split between boosted and unboosted hours. */
  const HoursPerDay: int := 24

  // ---------------------------------------------------------------------
  // Budget-constrained badge recommendation
  // ---------------------------------------------------------------------

  /** A badge purchase: how many badges, their price, the tier they reach and what is left. */
  datatype Recommendation = Recommendation(
    badges: int,
    cost: int,
    bonus: real,
    tier: nat,
    remainingBudget: int)

  /**
   * The largest badge purchase the budget affords: with `k` = floor(budget /
   * 200) badges affordable, the highest tier whose minimum is at most `k`,
   * and `k` badges capped at that tier's maximum. A budget below one badge
   * buys nothing and keeps the whole budget.
   */
  method GetBadgeRecommendation(budget: int) returns (rec: Recommendation)
    ensures rec.tier < |Tiers| && rec.bonus == Tiers[rec.tier].bonus
    ensures rec.cost == rec.badges * BadgeCost
    ensures rec.remainingBudget == budget - rec.cost
    ensures budget < BadgeCost ==>
      rec.badges == 0 && rec.cost == 0 && rec.tier == 0 && rec.bonus == 0.0 && rec.remainingBudget == budget
    ensures budget >= BadgeCost ==>
      var k := budget / BadgeCost;
      && Tiers[rec.tier].minBadges <= k
      && (forall j :: rec.tier < j < |Tiers| ==> k < Tiers[j].minBadges)
      && rec.badges == MinInt(Tiers[rec.tier].maxBadges, k)
      && 1 <= rec.badges
      && InTier(Tiers, rec.tier, rec.badges)
      && 0 <= rec.remainingBudget < budget
  {
    var maxAffordable := budget / BadgeCost;
    if maxAffordable == 0 {
      return Recommendation(0, 0, 0.0, 0, budget);
    }
    var recommended := 0;
    var tier: nat := 0;
    ghost var found := false;
    for i := 0 to |Tiers|
      invariant tier < |Tiers|
      invariant found ==> tier < i && Tiers[tier].minBadges <= maxAffordable
      invariant found ==> recommended == MinInt(Tiers[tier].maxBadges, maxAffordable)
      invariant !found ==> tier == 0 && recommended == 0
      invariant forall j :: tier < j < i ==> maxAffordable < Tiers[j].minBadges
      invariant !found ==> forall j :: 0 <= j < i ==> maxAffordable < Tiers[j].minBadges
    {
      if Tiers[i].minBadges <= maxAffordable {
        recommended := MinInt(Tiers[i].maxBadges, maxAffordable);
        tier := i;
        found := true;
      }
    }
    if maxAffordable > 0 {
      assert Tiers[1].minBadges <= maxAffordable;
    }
    var badgeCost := recommended * BadgeCost;
    rec := Recommendation(recommended, badgeCost, Tiers[tier].bonus, tier, budget - badgeCost);
  }

  /** A budget of 1,000 AB buys 5 badges of the "1-10 badges" tier and spends it all. */
  method RecommendationForThousand() returns (rec: Recommendation)
    ensures rec.badges == 5 && rec.cost == 1000 && rec.remainingBudget == 0
    ensures rec.tier == 1 && rec.bonus == 0.05
  {
    rec := GetBadgeRecommendation(1000);
    assert Tiers[1].minBadges <= 5 < Tiers[2].minBadges;
  }

  // ---------------------------------------------------------------------
  // The user's current badge tier
  // ---------------------------------------------------------------------

  /** The bonus of the selected tier; 0 for an index outside the table. */
  function CurrentBadgeBonus(tierIndex: int): (b: real)
    ensures 0 <= tierIndex < |Tiers| ==> b == Tiers[tierIndex].bonus
    ensures !(0 <= tierIndex < |Tiers|) ==> b == 0.0
    ensures 0.0 <= b <= 0.25
  {
    if 0 <= tierIndex < |Tiers| then Tiers[tierIndex].bonus else 0.0
  }

  /**
   * The badge count taken as representative of the selected tier: 0 for
   * tier 0 or an index outside the table, 101 for the open-ended top tier,
   * the midpoint of the range otherwise.
   */
  function CurrentBadgeCount(tierIndex: int): (n: int)
    ensures !(0 <= tierIndex < |Tiers|) ==> n == 0
    ensures 0 <= tierIndex < |Tiers| ==> InTier(Tiers, tierIndex, n)
    ensures tierIndex == 0 ==> n == 0
    ensures tierIndex == TopTier ==> n == Tiers[TopTier].minBadges
    ensures 0 < tierIndex < TopTier ==>
      n == (Tiers[tierIndex].minBadges + Tiers[tierIndex].maxBadges) / 2
  {
    if !(0 <= tierIndex < |Tiers|) then 0
    else
      var t := Tiers[tierIndex];
      if t.minBadges == 0 && t.maxBadges == 0 then 0
      else if t.maxBadges == Unbounded then 101
      else (t.minBadges + t.maxBadges) / 2
  }

  // ---------------------------------------------------------------------
  // Split-day ad-boost earnings
  // ---------------------------------------------------------------------

  /**
   * A day's earnings on `baseRent` per second with the badge bonus, where
   * `adHours` hours (at most 24) earn `adBoost` times the rate and the rest
   * earn the plain rate.
   */
  function DailyEarnings(baseRent: real, badgeBonus: real, adBoost: real, adHours: int): (d: real)
    ensures var h := MinInt(adHours, HoursPerDay) as real;
      d * 24.0 == baseRent * SecondsPerDay * (1.0 + badgeBonus) * ((24.0 - h) + h * adBoost)
  {
    var rentWithBadgeBonus := baseRent * SecondsPerDay * (1.0 + badgeBonus);
    var boostedHours := MinInt(adHours, HoursPerDay) as real;
    var unboostedHours := 24.0 - boostedHours;
    var hourly := rentWithBadgeBonus / 24.0;
    assert hourly * 24.0 == rentWithBadgeBonus;
    assert (hourly * boostedHours * adBoost + hourly * unboostedHours) * 24.0
        == hourly * 24.0 * ((24.0 - boostedHours) + boostedHours * adBoost);
    hourly * boostedHours * adBoost + hourly * unboostedHours
  }

  /** Without boosted hours, or with a 1x boost, a day earns the plain bonus-adjusted rate. */
  lemma DailyEarningsUnboosted(baseRent: real, badgeBonus: real, adBoost: real, adHours: int)
    requires adHours == 0 || adBoost == 1.0
    ensures DailyEarnings(baseRent, badgeBonus, adBoost, adHours) == baseRent * SecondsPerDay * (1.0 + badgeBonus)
  {
    var h := MinInt(adHours, HoursPerDay) as real;
    assert (24.0 - h) + h * adBoost == 24.0;
  }

  /** Boosting all day (24 hours or more asked) earns the boost times the plain rate. */
  lemma DailyEarningsAllDay(baseRent: real, badgeBonus: real, adBoost: real, adHours: int)
    requires adHours >= HoursPerDay
    ensures DailyEarnings(baseRent, badgeBonus, adBoost, adHours)
         == baseRent * SecondsPerDay * (1.0 + badgeBonus) * adBoost
  {
  }

  /**
   * Boosting all day agrees with the calculator's rent for the same parcels,
   * taking the ad boost as the calculator's boost.
   */
  lemma AllDayBoostMatchesCalculator(p: ParcelType, quantity: int, badgeBonus: real, adBoost: real)
    ensures DailyEarnings(Rent(p) * (quantity as real), badgeBonus, adBoost, HoursPerDay)
         == Calculator.CalculateReturns(p, quantity, adBoost, badgeBonus).dailyRent
  {
    DailyEarningsAllDay(Rent(p) * (quantity as real), badgeBonus, adBoost, HoursPerDay);
    Calculator.DailyRentFormula(p, quantity, adBoost, badgeBonus);
  }

  /** A positive rate, a non-negative bonus, a positive boost and no negative hours earn a positive amount. */
  lemma DailyEarningsPositive(baseRent: real, badgeBonus: real, adBoost: real, adHours: int)
    requires baseRent > 0.0 && badgeBonus >= 0.0 && adBoost > 0.0 && adHours >= 0
    ensures DailyEarnings(baseRent, badgeBonus, adBoost, adHours) > 0.0
  {
    var h := MinInt(adHours, HoursPerDay) as real;
    var split := (24.0 - h) + h * adBoost;
    assert split > 0.0 by {
      if h < 24.0 {
        assert h * adBoost >= 0.0;
      } else {
        assert h * adBoost > 0.0;
      }
    }
    var rate := baseRent * SecondsPerDay * (1.0 + badgeBonus);
    assert rate > 0.0;
    assert rate * split > 0.0;
  }

  // ---------------------------------------------------------------------
  // Candidate strategies
  // ---------------------------------------------------------------------

  datatype StrategyKind =
    | AllCommons
    | UpgradeThenCommons(targetTier: nat, badgesBought: int)

  /**
   * A candidate strategy: what it buys, the Atlas Bucks it invests, its daily
   * return, the days to break even (absent where JavaScript would divide by a
   * zero return) and its efficiency, the daily return per Atlas Buck.
   */
  datatype Strategy = Strategy(
    kind: StrategyKind,
    commons: int,
    investment: int,
    dailyReturn: real,
    breakEven: Option<real>,
    efficiency: real)

  /** Break-even and efficiency agree with the investment and the daily return. */
  predicate Consistent(s: Strategy)
  {
    && s.investment > 0
    && s.efficiency * (s.investment as real) == s.dailyReturn
    && (s.breakEven.Some? <==> s.dailyReturn != 0.0)
    && (s.breakEven.Some? ==> s.breakEven.value * s.dailyReturn == s.investment as real)
  }

  /** A strategy record as the planner pushes it: break-even and efficiency derived from investment and return. */
  function MakeStrategy(kind: StrategyKind, commons: int, investment: int, dailyReturn: real): (s: Strategy)
    requires investment > 0
    ensures Consistent(s)
    ensures s.kind == kind && s.commons == commons && s.investment == investment && s.dailyReturn == dailyReturn
  {
    var inv := investment as real;
    Strategy(
      kind, commons, investment, dailyReturn,
      if dailyReturn != 0.0 then Some(inv / dailyReturn) else None,
      dailyReturn / inv)
  }

  /** Strategy 1: spend the budget on Commons with the current badges. */
  function AllCommonsCandidate(budget: int, tierIndex: int, adBoost: real, adHours: int): (r: Option<Strategy>)
    ensures r.Some? <==> budget / Cost(Common) > 0
    ensures r.Some? ==>
      && r.value.kind == AllCommons
      && r.value.commons == budget / Cost(Common)
      && r.value.investment == Cost(Common) * r.value.commons
      && 0 < r.value.investment <= budget
      && budget - r.value.investment < Cost(Common)
      && Consistent(r.value)
      && r.value.dailyReturn
         == DailyEarnings(Rent(Common) * (r.value.commons as real), CurrentBadgeBonus(tierIndex), adBoost, adHours)
  {
    var commonCount := budget / Cost(Common);
    if commonCount > 0 then
      var baseRent := Rent(Common) * (commonCount as real);
      var dailyReturn := DailyEarnings(baseRent, CurrentBadgeBonus(tierIndex), adBoost, adHours);
      Some(MakeStrategy(AllCommons, commonCount, commonCount * Cost(Common), dailyReturn))
    else None
  }

  /** The badge count strategy 2 aims for in tier `next`: its maximum, or 101 for the open-ended top tier. */
  function TargetBadgeCount(next: nat): (n: int)
    requires next < |Tiers|
    ensures InTier(Tiers, next, n)
    ensures next < TopTier ==> n == Tiers[next].maxBadges
    ensures next == TopTier ==> n == Tiers[TopTier].minBadges
  {
    if Tiers[next].maxBadges == Unbounded then 101 else Tiers[next].maxBadges
  }

  /** The tier after the selected one (an index of -1 wraps up only to tier 0). */
  function NextTierIndex(tierIndex: int): (next: nat)
    requires -1 <= tierIndex < TopTier
    ensures next == tierIndex + 1
  {
    MinInt(tierIndex + 1, TopTier)
  }

  /** Badges to buy to move from the selected tier's representative count to the next tier's target. */
  function AdditionalBadges(tierIndex: int): (n: int)
    requires -1 <= tierIndex < TopTier
    ensures n >= 0
    ensures n == 0 || CurrentBadgeCount(tierIndex) + n == TargetBadgeCount(tierIndex + 1)
  {
    MaxInt(0, TargetBadgeCount(NextTierIndex(tierIndex)) - CurrentBadgeCount(tierIndex))
  }

  /**
   * From every tier below the top, the upgrade needs at least one badge and
   * ends inside the next tier; from the out-of-table index -1 it needs none.
   */
  lemma AdditionalBadgesFromTier(tierIndex: int)
    requires -1 <= tierIndex < TopTier
    ensures tierIndex == -1 ==> AdditionalBadges(tierIndex) == 0
    ensures 0 <= tierIndex ==>
      && AdditionalBadges(tierIndex) >= 1
      && InTier(Tiers, tierIndex + 1, CurrentBadgeCount(tierIndex) + AdditionalBadges(tierIndex))
  {
    TiersWellFormed();
    if 0 <= tierIndex {
      assert CurrentBadgeCount(tierIndex) <= Tiers[tierIndex].maxBadges;
      assert Tiers[tierIndex].maxBadges < Tiers[tierIndex + 1].minBadges;
    }
  }

  /** When strategy 2 is offered: budget for one badge, a tier above, badges to buy, and 100 AB left for a Common. */
  predicate UpgradeOffered(budget: int, tierIndex: int)
    requires tierIndex >= -1 || budget < BadgeCost
  {
    && budget >= BadgeCost
    && tierIndex < TopTier
    && AdditionalBadges(tierIndex) > 0
    && budget - AdditionalBadges(tierIndex) * BadgeCost >= Cost(Common)
  }

  /** Strategy 2: buy the badges to reach the next tier, then spend the rest on Commons with the new bonus. */
  function UpgradeCandidate(budget: int, tierIndex: int, adBoost: real, adHours: int): (r: Option<Strategy>)
    requires tierIndex >= -1 || budget < BadgeCost
    ensures r.Some? <==> UpgradeOffered(budget, tierIndex)
    ensures r.Some? ==>
      var badges := AdditionalBadges(tierIndex);
      && r.value.kind == UpgradeThenCommons(tierIndex + 1, badges)
      && r.value.commons == (budget - badges * BadgeCost) / Cost(Common)
      && r.value.commons >= 1
      && r.value.investment == badges * BadgeCost + Cost(Common) * r.value.commons
      && 0 < r.value.investment <= budget
      && budget - r.value.investment < Cost(Common)
      && Consistent(r.value)
      && r.value.dailyReturn
         == DailyEarnings(Rent(Common) * (r.value.commons as real), Tiers[tierIndex + 1].bonus, adBoost, adHours)
  {
    if budget >= BadgeCost && tierIndex < TopTier then
      var next := NextTierIndex(tierIndex);
      var additional := AdditionalBadges(tierIndex);
      if additional > 0 then
        var badgeCost := additional * BadgeCost;
        var remainingForParcels := budget - badgeCost;
        if remainingForParcels >= Cost(Common) then
          var commonCount := remainingForParcels / Cost(Common);
          var baseRent := Rent(Common) * (commonCount as real);
          var dailyReturn := DailyEarnings(baseRent, Tiers[next].bonus, adBoost, adHours);
          var total := badgeCost + commonCount * Cost(Common);
          Some(MakeStrategy(UpgradeThenCommons(next, additional), commonCount, total, dailyReturn))
        else None
      else None
    else None
  }

  /** The candidates in the order the planner pushes them. */
  function Candidates(budget: int, tierIndex: int, adBoost: real, adHours: int): (cs: seq<Strategy>)
    requires tierIndex >= -1 || budget < BadgeCost
    ensures |cs| <= 2
    ensures forall i :: 0 <= i < |cs| ==> Consistent(cs[i]) && cs[i].investment <= budget
  {
    var all := AllCommonsCandidate(budget, tierIndex, adBoost, adHours);
    var upgrade := UpgradeCandidate(budget, tierIndex, adBoost, adHours);
    (if all.Some? then [all.value] else []) + (if upgrade.Some? then [upgrade.value] else [])
  }

  // ---------------------------------------------------------------------
  // Ranking by efficiency (a stable sort, descending)
  // ---------------------------------------------------------------------

  predicate NonIncreasing(ss: seq<Strategy>)
  {
    forall i, j :: 0 <= i < j < |ss| ==> ss[i].efficiency >= ss[j].efficiency
  }

  /** Inserts `x` after every element at least as efficient, so equal elements keep their order. */
  function Insert(x: Strategy, sorted: seq<Strategy>): (r: seq<Strategy>)
    ensures multiset(r) == multiset(sorted) + multiset{x}
    ensures |r| == |sorted| + 1
    decreases |sorted|
  {
    if sorted == [] then [x]
    else if sorted[0].efficiency < x.efficiency then [x] + sorted
    else
      assert sorted == [sorted[0]] + sorted[1..];
      [sorted[0]] + Insert(x, sorted[1..])
  }

  /** Insertion sort by descending efficiency. */
  function SortedByEfficiency(s: seq<Strategy>): (r: seq<Strategy>)
    decreases |s|
  {
    if s == [] then [] else Insert(s[|s| - 1], SortedByEfficiency(s[..|s| - 1]))
  }

  /** Inserting an element no more efficient than a bound keeps every element within it. */
  lemma {:induction false} InsertBounded(x: Strategy, sorted: seq<Strategy>, bound: real)
    requires x.efficiency <= bound
    requires forall i :: 0 <= i < |sorted| ==> sorted[i].efficiency <= bound
    ensures forall i :: 0 <= i < |Insert(x, sorted)| ==> Insert(x, sorted)[i].efficiency <= bound
    decreases |sorted|
  {
    if sorted != [] && sorted[0].efficiency >= x.efficiency {
      InsertBounded(x, sorted[1..], bound);
    }
  }

  lemma {:induction false} InsertKeepsOrder(x: Strategy, sorted: seq<Strategy>)
    requires NonIncreasing(sorted)
    ensures NonIncreasing(Insert(x, sorted))
    decreases |sorted|
  {
    if sorted != [] && sorted[0].efficiency >= x.efficiency {
      var rest := sorted[1..];
      InsertKeepsOrder(x, rest);
      InsertBounded(x, rest, sorted[0].efficiency);
    }
  }

  /** The ranking is in non-increasing order of efficiency and is a permutation of its input. */
  lemma {:induction false} SortedByEfficiencyCorrect(s: seq<Strategy>)
    ensures NonIncreasing(SortedByEfficiency(s))
    ensures multiset(SortedByEfficiency(s)) == multiset(s)
    decreases |s|
  {
    if s != [] {
      var init := s[..|s| - 1];
      SortedByEfficiencyCorrect(init);
      InsertKeepsOrder(s[|s| - 1], SortedByEfficiency(init));
      assert s == init + [s[|s| - 1]];
    }
  }

  /** Two candidates stay in pushed order unless the second is strictly more efficient (the sort is stable). */
  lemma SortTwo(a: Strategy, b: Strategy)
    ensures SortedByEfficiency([a, b]) == if a.efficiency >= b.efficiency then [a, b] else [b, a]
  {
    assert [a, b][..1] == [a];
    assert [a][..0] == [];
    assert SortedByEfficiency([a]) == [a];
    assert Insert(b, []) == [b];
  }

  /** The in-place sort of the strategy list: inserts each element into the sorted prefix. */
  method SortStrategies(s: seq<Strategy>) returns (r: seq<Strategy>)
    ensures r == SortedByEfficiency(s)
  {
    r := [];
    for i := 0 to |s|
      invariant r == SortedByEfficiency(s[..i])
    {
      assert s[..i + 1][..i] == s[..i];
      r := Insert(s[i], r);
    }
    assert s[..|s|] == s;
  }

  /** Ranking keeps the length, the elements and what holds of every element. */
  lemma RankingKeeps(cs: seq<Strategy>, budget: int)
    requires forall i :: 0 <= i < |cs| ==> Consistent(cs[i]) && 0 < cs[i].investment <= budget
    ensures var ss := SortedByEfficiency(cs);
      && |ss| == |cs|
      && NonIncreasing(ss)
      && (forall x :: x in ss <==> x in cs)
      && (forall i :: 0 <= i < |ss| ==> Consistent(ss[i]) && 0 < ss[i].investment <= budget)
  {
    var ss := SortedByEfficiency(cs);
    SortedByEfficiencyCorrect(cs);
    assert |ss| == |multiset(ss)| == |multiset(cs)| == |cs|;
    forall x
      ensures x in ss <==> x in cs
    {
      assert x in ss <==> x in multiset(ss);
      assert x in cs <==> x in multiset(cs);
    }
    forall i | 0 <= i < |ss|
      ensures Consistent(ss[i]) && 0 < ss[i].investment <= budget
    {
      assert ss[i] in cs;
    }
  }

  /** Which kinds of strategy the candidate list holds. */
  lemma CandidateKinds(budget: int, tierIndex: int, adBoost: real, adHours: int)
    requires tierIndex >= -1 || budget < BadgeCost
    ensures var cs := Candidates(budget, tierIndex, adBoost, adHours);
      && ((exists x :: x in cs && x.kind == AllCommons) <==> budget / Cost(Common) > 0)
      && ((exists x :: x in cs && x.kind.UpgradeThenCommons?) <==> UpgradeOffered(budget, tierIndex))
  {
    var all := AllCommonsCandidate(budget, tierIndex, adBoost, adHours);
    var upgrade := UpgradeCandidate(budget, tierIndex, adBoost, adHours);
    var cs := Candidates(budget, tierIndex, adBoost, adHours);
    assert forall x :: x in cs <==> (all.Some? && x == all.value) || (upgrade.Some? && x == upgrade.value);
  }

  /**
   * The planner's strategy list: the candidates that apply, ranked by
   * descending efficiency. "All Commons" is listed iff the budget buys a
   * Common; the upgrade iff it is offered; every entry invests within the
   * budget. The tier after the selected one is read only when the budget
   * buys a badge, and that read fails below index -1, so a lower index is
   * admitted only with a smaller budget.
   */
  method GenerateStrategies(budget: int, tierIndex: int, adBoost: real, adHours: int) returns (ss: seq<Strategy>)
    requires tierIndex >= -1 || budget < BadgeCost
    ensures ss == SortedByEfficiency(Candidates(budget, tierIndex, adBoost, adHours))
    ensures |ss| <= 2 && NonIncreasing(ss)
    ensures (exists x :: x in ss && x.kind == AllCommons) <==> budget / Cost(Common) > 0
    ensures (exists x :: x in ss && x.kind.UpgradeThenCommons?) <==> UpgradeOffered(budget, tierIndex)
    ensures forall i :: 0 <= i < |ss| ==> Consistent(ss[i]) && 0 < ss[i].investment <= budget
  {
    var newStrategies: seq<Strategy> := [];
    var all := AllCommonsCandidate(budget, tierIndex, adBoost, adHours);
    if all.Some? {
      newStrategies := newStrategies + [all.value];
    }
    var upgrade := UpgradeCandidate(budget, tierIndex, adBoost, adHours);
    if upgrade.Some? {
      newStrategies := newStrategies + [upgrade.value];
    }
    assert newStrategies == Candidates(budget, tierIndex, adBoost, adHours);
    ss := SortStrategies(newStrategies);
    RankingKeeps(newStrategies, budget);
    CandidateKinds(budget, tierIndex, adBoost, adHours);
  }
}
