/**
 * The portfolio tracker: one holding per parcel tier, quantities edited by
 * the user, totals of cost and rent with the boost level and badge bonus
 * applied once to the combined rate, the share of each tier in the parcel
 * count, rule-based suggestions, and the holdings written to an export.
 */
module Portfolio {
  import opened Optional
  import opened ParcelData
  import opened BadgeTable
  import Calculator

  datatype Holding = Holding(kind: ParcelType, quantity: int)

  /** The page starts with one zero holding per tier. */
  const InitialHoldings: seq<Holding> :=
    [Holding(Common, 0), Holding(Rare, 0), Holding(Epic, 0), Holding(Legendary, 0)]

  predicate NonNegative(ps: seq<Holding>)
  {
    forall i :: 0 <= i < |ps| ==> ps[i].quantity >= 0
  }

  // ---------------------------------------------------------------------
  // Editing a quantity
  // ---------------------------------------------------------------------

  /**
   * Sets every holding of `kind` to `quantity` clamped at 0; every other
   * holding, the length and the order stay as they were.
   */
  function UpdateParcelQuantity(ps: seq<Holding>, kind: ParcelType, quantity: int): (r: seq<Holding>)
    ensures |r| == |ps|
    ensures forall i :: 0 <= i < |ps| ==> r[i].kind == ps[i].kind
    ensures forall i :: 0 <= i < |ps| && ps[i].kind == kind ==> r[i].quantity == MaxInt(0, quantity)
    ensures forall i :: 0 <= i < |ps| && ps[i].kind != kind ==> r[i] == ps[i]
    ensures NonNegative(ps) ==> NonNegative(r)
  {
    seq(|ps|, i requires 0 <= i < |ps| =>
      if ps[i].kind == kind then Holding(kind, MaxInt(0, quantity)) else ps[i])
  }

  /** Entering the same quantity twice changes nothing the second time. */
  lemma UpdateIdempotent(ps: seq<Holding>, kind: ParcelType, quantity: int)
    ensures UpdateParcelQuantity(UpdateParcelQuantity(ps, kind, quantity), kind, quantity)
         == UpdateParcelQuantity(ps, kind, quantity)
  {
    var once := UpdateParcelQuantity(ps, kind, quantity);
    var twice := UpdateParcelQuantity(once, kind, quantity);
    assert forall i :: 0 <= i < |ps| ==> twice[i] == once[i];
  }

  /** `find(p => p.type === kind)?.quantity || 0`: the first holding of a tier, 0 when there is none. */
  function FirstQuantity(ps: seq<Holding>, kind: ParcelType): (q: int)
    ensures (forall i :: 0 <= i < |ps| ==> ps[i].kind != kind) ==> q == 0
    ensures (exists i :: 0 <= i < |ps| && ps[i].kind == kind) ==>
      exists i :: 0 <= i < |ps| && ps[i].kind == kind && q == ps[i].quantity
        && forall j :: 0 <= j < i ==> ps[j].kind != kind
    decreases |ps|
  {
    if ps == [] then 0
    else if ps[0].kind == kind then ps[0].quantity
    else
      var q := FirstQuantity(ps[1..], kind);
      assert forall j :: 0 <= j < |ps[1..]| ==> ps[1..][j] == ps[j + 1];
      q
  }

  /** After an edit, the tier's quantity reads back as the clamped value. */
  lemma UpdateThenRead(ps: seq<Holding>, kind: ParcelType, quantity: int)
    requires exists i :: 0 <= i < |ps| && ps[i].kind == kind
    ensures FirstQuantity(UpdateParcelQuantity(ps, kind, quantity), kind) == MaxInt(0, quantity)
  {
    var r := UpdateParcelQuantity(ps, kind, quantity);
    assert exists i :: 0 <= i < |r| && r[i].kind == kind;
  }

  // ---------------------------------------------------------------------
  // Totals
  // ---------------------------------------------------------------------

  /** What a holding cost: the tier's price times the quantity. */
  function HoldingCost(h: Holding): (c: int)
    ensures h.quantity >= 0 ==> c >= 0
    ensures h.quantity == 0 ==> c == 0
  {
    Cost(h.kind) * h.quantity
  }

  /** A holding's base rent per second: the tier's rate times the quantity. */
  function HoldingRent(h: Holding): (r: real)
    ensures h.quantity >= 0 ==> r >= 0.0
    ensures h.quantity == 0 ==> r == 0.0
  {
    Rent(h.kind) * (h.quantity as real)
  }

  /** Sum of cost times quantity, accumulated from the first holding to the last. */
  function TotalCost(ps: seq<Holding>): int
    decreases |ps|
  {
    if ps == [] then 0
    else TotalCost(ps[..|ps| - 1]) + HoldingCost(ps[|ps| - 1])
  }

  /** Sum of rent per second times quantity. */
  function TotalRentRate(ps: seq<Holding>): real
    decreases |ps|
  {
    if ps == [] then 0.0
    else TotalRentRate(ps[..|ps| - 1]) + HoldingRent(ps[|ps| - 1])
  }

  /** Sum of the quantities (`reduce((sum, p) => sum + p.quantity, 0)`). */
  function TotalQuantity(ps: seq<Holding>): int
    decreases |ps|
  {
    if ps == [] then 0
    else TotalQuantity(ps[..|ps| - 1]) + ps[|ps| - 1].quantity
  }

  /** With no negative quantity the totals are non-negative, and zero exactly when every quantity is. */
  lemma {:induction false} TotalsNonNegative(ps: seq<Holding>)
    requires NonNegative(ps)
    ensures TotalCost(ps) >= 0 && TotalRentRate(ps) >= 0.0 && TotalQuantity(ps) >= 0
    ensures TotalQuantity(ps) == 0 <==> forall i :: 0 <= i < |ps| ==> ps[i].quantity == 0
    ensures TotalQuantity(ps) == 0 ==> TotalCost(ps) == 0 && TotalRentRate(ps) == 0.0
    decreases |ps|
  {
    if ps != [] {
      var init := ps[..|ps| - 1];
      assert forall i :: 0 <= i < |init| ==> init[i] == ps[i];
      TotalsNonNegative(init);
    }
  }

  /** Each quantity is at most the total when none is negative. */
  lemma {:induction false} QuantityAtMostTotal(ps: seq<Holding>, k: int)
    requires NonNegative(ps)
    requires 0 <= k < |ps|
    ensures ps[k].quantity <= TotalQuantity(ps)
    decreases |ps|
  {
    var init := ps[..|ps| - 1];
    assert forall i :: 0 <= i < |init| ==> init[i] == ps[i];
    TotalsNonNegative(init);
    if k < |ps| - 1 {
      QuantityAtMostTotal(init, k);
    }
  }

  /** What the portfolio panel shows. */
  datatype PortfolioData = PortfolioData(
    parcels: seq<Holding>,
    boostLevel: real,
    badgeBonus: real,
    totalInvestment: int,
    dailyEarnings: real,
    monthlyEarnings: real,
    yearlyEarnings: real,
    efficiency: real,
    breakEvenDays: real)

  /** Daily earnings per Atlas Buck invested; 0 without investment. */
  function PortfolioEfficiency(totalInvestment: int, dailyEarnings: real): (e: real)
    ensures totalInvestment > 0 ==> e * (totalInvestment as real) == dailyEarnings
    ensures totalInvestment > 0 && dailyEarnings >= 0.0 ==> e >= 0.0
    ensures totalInvestment <= 0 ==> e == 0.0
  {
    if totalInvestment > 0 then dailyEarnings / (totalInvestment as real) else 0.0
  }

  /** Days of earnings that repay the investment; 0 (not infinite) without earnings. */
  function PortfolioBreakEven(totalInvestment: int, dailyEarnings: real): (b: real)
    ensures dailyEarnings > 0.0 ==> b * dailyEarnings == totalInvestment as real
    ensures dailyEarnings > 0.0 && totalInvestment >= 0 ==> b >= 0.0
    ensures dailyEarnings <= 0.0 ==> b == 0.0
  {
    if dailyEarnings > 0.0 then (totalInvestment as real) / dailyEarnings else 0.0
  }

  /**
   * Accumulates cost and rent over the holdings, applies boost × (1 + bonus)
   * once to the summed rate, and derives a day, 30 days and 365 days of
   * earnings, the efficiency and the break-even time.
   */
  method CalculatePortfolio(ps: seq<Holding>, boostLevel: real, badgeBonus: real) returns (d: PortfolioData)
    ensures d.parcels == ps && d.boostLevel == boostLevel && d.badgeBonus == badgeBonus
    ensures d.totalInvestment == TotalCost(ps)
    ensures d.dailyEarnings == TotalRentRate(ps) * (boostLevel * (1.0 + badgeBonus)) * SecondsPerDay
    ensures d.monthlyEarnings == 30.0 * d.dailyEarnings && d.yearlyEarnings == 365.0 * d.dailyEarnings
    ensures d.efficiency == PortfolioEfficiency(d.totalInvestment, d.dailyEarnings)
    ensures d.breakEvenDays == PortfolioBreakEven(d.totalInvestment, d.dailyEarnings)
  {
    var totalInvestment := 0;
    var baseRentPerSecond := 0.0;
    for i := 0 to |ps|
      invariant totalInvestment == TotalCost(ps[..i])
      invariant baseRentPerSecond == TotalRentRate(ps[..i])
    {
      assert ps[..i + 1][..i] == ps[..i];
      totalInvestment := totalInvestment + HoldingCost(ps[i]);
      baseRentPerSecond := baseRentPerSecond + HoldingRent(ps[i]);
    }
    assert ps[..|ps|] == ps;
    var totalMultiplier := boostLevel * (1.0 + badgeBonus);
    var adjustedRentPerSecond := baseRentPerSecond * totalMultiplier;
    var dailyEarnings := adjustedRentPerSecond * SecondsPerDay;
    d := PortfolioData(ps, boostLevel, badgeBonus, totalInvestment,
      dailyEarnings, dailyEarnings * 30.0, dailyEarnings * 365.0,
      PortfolioEfficiency(totalInvestment, dailyEarnings), PortfolioBreakEven(totalInvestment, dailyEarnings));
  }

  /** Rent per second to rent per day under boost × (1 + bonus). */
  function DailyFactor(boostLevel: real, badgeBonus: real): real
  {
    boostLevel * (1.0 + badgeBonus) * SecondsPerDay
  }

  /** One holding's base rate scaled to a day under boost × (1 + bonus). */
  function HoldingDaily(h: Holding, boostLevel: real, badgeBonus: real): real
  {
    HoldingRent(h) * DailyFactor(boostLevel, badgeBonus)
  }

  /** A holding's scaled daily rent is what the calculator shows for it taken on its own. */
  lemma HoldingDailyIsCalculators(h: Holding, boostLevel: real, badgeBonus: real)
    ensures HoldingDaily(h, boostLevel, badgeBonus)
         == Calculator.CalculateReturns(h.kind, h.quantity, boostLevel, badgeBonus).dailyRent
  {
    Calculator.DailyRentFormula(h.kind, h.quantity, boostLevel, badgeBonus);
    ScaleAssociates(HoldingRent(h), boostLevel, 1.0 + badgeBonus, SecondsPerDay);
  }

  /**
   * Sum of the calculator's daily rent for each holding taken on its own
   * (see `HoldingDailyIsCalculators`).
   */
  function PerTierDailyRent(ps: seq<Holding>, boostLevel: real, badgeBonus: real): real
    decreases |ps|
  {
    if ps == [] then 0.0
    else PerTierDailyRent(ps[..|ps| - 1], boostLevel, badgeBonus) + HoldingDaily(ps[|ps| - 1], boostLevel, badgeBonus)
  }

  /**
   * Scaling the combined rate to a day, as the portfolio panel does, gives
   * over exact reals the sum of what the calculator shows for each holding.
   */
  lemma CombinedRateMatchesPerTier(ps: seq<Holding>, boostLevel: real, badgeBonus: real)
    ensures TotalRentRate(ps) * (boostLevel * (1.0 + badgeBonus)) * SecondsPerDay
         == PerTierDailyRent(ps, boostLevel, badgeBonus)
  {
    ScaledTotal(ps, boostLevel, badgeBonus);
    ScaleAssociates(TotalRentRate(ps), boostLevel, 1.0 + badgeBonus, SecondsPerDay);
  }

  lemma {:induction false} ScaledTotal(ps: seq<Holding>, boostLevel: real, badgeBonus: real)
    ensures TotalRentRate(ps) * DailyFactor(boostLevel, badgeBonus) == PerTierDailyRent(ps, boostLevel, badgeBonus)
    decreases |ps|
  {
    if ps != [] {
      var init := ps[..|ps| - 1];
      ScaledTotal(init, boostLevel, badgeBonus);
      Distributes(TotalRentRate(init), HoldingRent(ps[|ps| - 1]), DailyFactor(boostLevel, badgeBonus));
    }
  }

  lemma ScaleAssociates(a: real, x: real, y: real, z: real)
    ensures a * x * y * z == a * (x * y) * z
    ensures a * (x * y) * z == a * (x * y * z)
  {
  }

  lemma Distributes(a: real, b: real, k: real)
    ensures (a + b) * k == a * k + b * k
  {
  }

  /** 10 Commons and 2 Legendaries cost 6,000 AB and earn 10 × 0.0000000011 + 2 × 0.0000000044 per second. */
  lemma MixedPortfolioTotals()
    ensures var ps := [Holding(Common, 10), Holding(Legendary, 2)];
      && TotalCost(ps) == 6000
      && TotalRentRate(ps) == 10.0 * 0.0000000011 + 2.0 * 0.0000000044
  {
    var ps := [Holding(Common, 10), Holding(Legendary, 2)];
    assert ps[..1] == [Holding(Common, 10)];
    assert ps[..1][..0] == [];
  }

  // ---------------------------------------------------------------------
  // Distribution
  // ---------------------------------------------------------------------

  /** A holding with its share of the total parcel count, in percent. */
  datatype Share = Share(holding: Holding, percentage: real)

  /**
   * Every holding, in order, with its share of the total parcel count; all
   * shares are 0 when the total is not positive.
   */
  function ParcelDistribution(ps: seq<Holding>): (r: seq<Share>)
    ensures |r| == |ps|
    ensures forall i :: 0 <= i < |ps| ==> r[i].holding == ps[i]
    ensures forall i :: 0 <= i < |r| ==> r[i].percentage == SharePercent(ps[i].quantity, TotalQuantity(ps))
  {
    var total := TotalQuantity(ps);
    seq(|ps|, i requires 0 <= i < |ps| => Share(ps[i], SharePercent(ps[i].quantity, total)))
  }

  /** `total > 0 ? (quantity / total) * 100 : 0`. */
  function SharePercent(quantity: int, total: int): (p: real)
    ensures total > 0 ==> p * (total as real) == (quantity as real) * 100.0
    ensures total > 0 && 0 <= quantity <= total ==> 0.0 <= p <= 100.0
    ensures total <= 0 ==> p == 0.0
  {
    if total > 0 then (quantity as real) / (total as real) * 100.0 else 0.0
  }

  function SumPercentages(shares: seq<Share>): real
    decreases |shares|
  {
    if shares == [] then 0.0
    else SumPercentages(shares[..|shares| - 1]) + shares[|shares| - 1].percentage
  }

  lemma {:induction false} SumOfShares(ps: seq<Holding>, shares: seq<Share>, total: real)
    requires |shares| == |ps|
    requires forall i :: 0 <= i < |ps| ==> shares[i].percentage * total == (ps[i].quantity as real) * 100.0
    ensures SumPercentages(shares) * total == (TotalQuantity(ps) as real) * 100.0
    decreases |ps|
  {
    if ps != [] {
      var n := |ps| - 1;
      SumOfShares(ps[..n], shares[..n], total);
      assert SumPercentages(shares) * total
          == SumPercentages(shares[..n]) * total + shares[n].percentage * total;
    }
  }

  lemma CancelPositive(x: real, y: real, t: real)
    requires t > 0.0 && x * t == t * y
    ensures x == y
  {
    assert (x - y) * t == 0.0;
  }

  /** With a positive total the shares add up to exactly 100 %. */
  lemma DistributionSumsTo100(ps: seq<Holding>)
    requires TotalQuantity(ps) > 0
    ensures SumPercentages(ParcelDistribution(ps)) == 100.0
  {
    var total := TotalQuantity(ps) as real;
    var r := ParcelDistribution(ps);
    assert forall i :: 0 <= i < |ps| ==> r[i].percentage * total == (ps[i].quantity as real) * 100.0;
    SharesSumTo100(ps, r, total);
  }

  lemma {:induction false} SharesSumTo100(ps: seq<Holding>, shares: seq<Share>, total: real)
    requires |shares| == |ps| && total == TotalQuantity(ps) as real && total > 0.0
    requires forall i :: 0 <= i < |ps| ==> shares[i].percentage * total == (ps[i].quantity as real) * 100.0
    ensures SumPercentages(shares) == 100.0
  {
    SumOfShares(ps, shares, total);
    CancelPositive(SumPercentages(shares), 100.0, total);
  }

  /** With no negative quantity every share lies within 0..100 %. */
  lemma DistributionSharesBounded(ps: seq<Holding>)
    requires NonNegative(ps)
    ensures forall i :: 0 <= i < |ps| ==> 0.0 <= ParcelDistribution(ps)[i].percentage <= 100.0
  {
    var r := ParcelDistribution(ps);
    forall i | 0 <= i < |ps|
      ensures 0.0 <= r[i].percentage <= 100.0
    {
      QuantityAtMostTotal(ps, i);
    }
  }

  // ---------------------------------------------------------------------
  // Suggestions
  // ---------------------------------------------------------------------

  datatype Severity = Info | Warning | Alert | Success

  datatype Topic =
    | AddHoldings
    | MoreCommons
    | LegendarySwap(legendaryCount: int, commonEquivalent: int)
    | BoostLevels
    | BadgeAdvice(tier: nat)

  datatype Suggestion = Suggestion(severity: Severity, topic: Topic)

  /** Share of Commons below which the page suggests buying more. */
  const CommonShareTarget: real := 0.7

  /** Total investment above which a 1x boost level draws a suggestion. */
  const LargePortfolio: int := 1000

  /** Commons that cost what one Legendary costs. */
  const CommonsPerLegendary: int := 25

  /**
   * The badge hint for a badge bonus: for each of the six tier bonuses the
   * hint about that tier (a success for the top tier, information
   * otherwise), and none for any other bonus.
   */
  function BadgeSuggestion(badgeBonus: real): (s: Option<Suggestion>)
    ensures s.Some? <==> exists i :: 0 <= i < |Tiers| && Tiers[i].bonus == badgeBonus
    ensures s.Some? ==>
      && s.value.topic.BadgeAdvice?
      && s.value.topic.tier < |Tiers|
      && Tiers[s.value.topic.tier].bonus == badgeBonus
      && (s.value.severity == Success <==> s.value.topic.tier == TopTier)
      && (s.value.severity != Success ==> s.value.severity == Info)
  {
    TierWithBonus(badgeBonus);
    if badgeBonus == 0.0 then Some(Suggestion(Info, BadgeAdvice(0)))
    else if badgeBonus == 0.05 then Some(Suggestion(Info, BadgeAdvice(1)))
    else if badgeBonus == 0.10 then Some(Suggestion(Info, BadgeAdvice(2)))
    else if badgeBonus == 0.15 then Some(Suggestion(Info, BadgeAdvice(3)))
    else if badgeBonus == 0.20 then Some(Suggestion(Info, BadgeAdvice(4)))
    else if badgeBonus == 0.25 then Some(Suggestion(Success, BadgeAdvice(5)))
    else None
  }

  /** The hints about the holdings and the boost level, in the order the page lists them. */
  function PortfolioHints(ps: seq<Holding>, boostLevel: real, shown: Option<PortfolioData>): (r: seq<Suggestion>)
    requires TotalQuantity(ps) != 0
    ensures forall i :: 0 <= i < |r| ==> !r[i].topic.BadgeAdvice?
  {
    var legendaries := FirstQuantity(ps, Legendary);
    (if (FirstQuantity(ps, Common) as real) / (TotalQuantity(ps) as real) < CommonShareTarget
     then [Suggestion(Warning, MoreCommons)] else [])
    + (if legendaries > 0
       then [Suggestion(Alert, LegendarySwap(legendaries, CommonsPerLegendary * legendaries))] else [])
    + (if boostLevel == 1.0 && shown.Some? && shown.value.totalInvestment > LargePortfolio
       then [Suggestion(Info, BoostLevels)] else [])
  }

  /** The suggestions for a non-empty portfolio: the portfolio hints, then the badge hint if any. */
  function Suggestions(ps: seq<Holding>, boostLevel: real, badgeBonus: real, shown: Option<PortfolioData>): seq<Suggestion>
    requires TotalQuantity(ps) != 0
  {
    var badge := BadgeSuggestion(badgeBonus);
    PortfolioHints(ps, boostLevel, shown) + (if badge.Some? then [badge.value] else [])
  }

  /**
   * The suggestions shown for the holdings: with no parcels, only the
   * invitation to add holdings; otherwise the hints of `Suggestions`, whose
   * content `SuggestionsSay` states.
   */
  method GetOptimizationSuggestions(ps: seq<Holding>, boostLevel: real, badgeBonus: real, shown: Option<PortfolioData>)
    returns (r: seq<Suggestion>)
    ensures TotalQuantity(ps) == 0 ==> r == [Suggestion(Info, AddHoldings)]
    ensures TotalQuantity(ps) != 0 ==> r == Suggestions(ps, boostLevel, badgeBonus, shown)
  {
    var totalParcels := TotalQuantity(ps);
    if totalParcels == 0 {
      return [Suggestion(Info, AddHoldings)];
    }
    r := [];
    var commonRatio := (FirstQuantity(ps, Common) as real) / (totalParcels as real);
    if commonRatio < CommonShareTarget {
      r := r + [Suggestion(Warning, MoreCommons)];
    }
    var legendaryCount := FirstQuantity(ps, Legendary);
    if legendaryCount > 0 {
      r := r + [Suggestion(Alert, LegendarySwap(legendaryCount, legendaryCount * CommonsPerLegendary))];
    }
    if boostLevel == 1.0 && shown.Some? && shown.value.totalInvestment > LargePortfolio {
      r := r + [Suggestion(Info, BoostLevels)];
    }
    var badge := BadgeSuggestion(badgeBonus);
    if badge.Some? {
      r := r + [badge.value];
    }
  }

  /**
   * The page as first shown: no parcels, boost level 1, no badge bonus and
   * no panel data yet. Nothing is invested or earned, efficiency and
   * break-even are 0, and the only suggestion is to add holdings.
   */
  method StartingPage() returns (d: PortfolioData, hints: seq<Suggestion>)
    ensures NonNegative(InitialHoldings) && TotalQuantity(InitialHoldings) == 0
    ensures d.parcels == InitialHoldings && d.boostLevel == 1.0 && d.badgeBonus == 0.0
    ensures d.totalInvestment == 0 && d.dailyEarnings == 0.0 && d.monthlyEarnings == 0.0 && d.yearlyEarnings == 0.0
    ensures d.efficiency == 0.0 && d.breakEvenDays == 0.0
    ensures hints == [Suggestion(Info, AddHoldings)]
  {
    TotalsNonNegative(InitialHoldings);
    d := CalculatePortfolio(InitialHoldings, 1.0, 0.0);
    hints := GetOptimizationSuggestions(InitialHoldings, 1.0, 0.0, None);
  }

  /**
   * What the hints before the badge hint say: never the invitation; the
   * Commons warning iff Commons are under 70 % of the parcels; the swap
   * alert iff there are Legendaries, quoting 25 Commons for each; the boost
   * hint iff the boost level is 1 on a portfolio over 1,000 AB.
   */
  lemma SuggestionsSay(ps: seq<Holding>, boostLevel: real, badgeBonus: real, shown: Option<PortfolioData>)
    requires TotalQuantity(ps) != 0
    ensures var r := Suggestions(ps, boostLevel, badgeBonus, shown);
      var legendaries := FirstQuantity(ps, Legendary);
      && Suggestion(Info, AddHoldings) !in r
      && (Suggestion(Warning, MoreCommons) in r
          <==> (FirstQuantity(ps, Common) as real) / (TotalQuantity(ps) as real) < CommonShareTarget)
      && ((exists s :: s in r && s.topic.LegendarySwap?) <==> legendaries > 0)
      && (forall s :: s in r && s.topic.LegendarySwap? ==>
            s == Suggestion(Alert, LegendarySwap(legendaries, CommonsPerLegendary * legendaries)))
      && (Suggestion(Info, BoostLevels) in r
          <==> boostLevel == 1.0 && shown.Some? && shown.value.totalInvestment > LargePortfolio)
  {
    var r := Suggestions(ps, boostLevel, badgeBonus, shown);
    var legendaries := FirstQuantity(ps, Legendary);
    var badge := BadgeSuggestion(badgeBonus);
    var w := if (FirstQuantity(ps, Common) as real) / (TotalQuantity(ps) as real) < CommonShareTarget
      then [Suggestion(Warning, MoreCommons)] else [];
    var l := if legendaries > 0
      then [Suggestion(Alert, LegendarySwap(legendaries, CommonsPerLegendary * legendaries))] else [];
    var b := if boostLevel == 1.0 && shown.Some? && shown.value.totalInvestment > LargePortfolio
      then [Suggestion(Info, BoostLevels)] else [];
    var g := if badge.Some? then [badge.value] else [];
    assert PortfolioHints(ps, boostLevel, shown) == w + l + b;
    assert r == w + l + b + g;
    assert forall s :: s in r <==> s in w || s in l || s in b || s in g;
    assert forall s :: s in g ==> s.topic.BadgeAdvice?;
  }

  /**
   * The badge hint appears, once and last, iff the badge bonus is one of
   * the six tier bonuses, and it names a tier with that bonus.
   */
  lemma BadgeHintSays(ps: seq<Holding>, boostLevel: real, badgeBonus: real, shown: Option<PortfolioData>)
    requires TotalQuantity(ps) != 0
    ensures var r := Suggestions(ps, boostLevel, badgeBonus, shown);
      && ((exists s :: s in r && s.topic.BadgeAdvice?) <==> exists i :: 0 <= i < |Tiers| && Tiers[i].bonus == badgeBonus)
      && (forall i :: 0 <= i < |r| && r[i].topic.BadgeAdvice? ==> i == |r| - 1)
      && (forall s :: s in r && s.topic.BadgeAdvice? ==> Tiers[s.topic.tier].bonus == badgeBonus)
  {
    var r := Suggestions(ps, boostLevel, badgeBonus, shown);
    var before := PortfolioHints(ps, boostLevel, shown);
    var badge := BadgeSuggestion(badgeBonus);
    assert r == before + (if badge.Some? then [badge.value] else []);
    assert forall i :: 0 <= i < |before| ==> r[i] == before[i];
  }

  // ---------------------------------------------------------------------
  // Export
  // ---------------------------------------------------------------------

  /**
   * The positions of the holdings with a positive quantity, in increasing
   * order; these are all such positions and no others.
   */
  function PositivePositions(ps: seq<Holding>): (idx: seq<int>)
    ensures |idx| <= |ps|
    ensures forall k :: 0 <= k < |idx| ==> 0 <= idx[k] < |ps| && ps[idx[k]].quantity > 0
    ensures forall k, l :: 0 <= k < l < |idx| ==> idx[k] < idx[l]
    ensures forall i :: 0 <= i < |ps| && ps[i].quantity > 0 ==> i in idx
    decreases |ps|
  {
    if ps == [] then []
    else
      var n := |ps| - 1;
      var init := PositivePositions(ps[..n]);
      assert forall k :: 0 <= k < |init| ==> ps[..n][init[k]] == ps[init[k]];
      init + (if ps[n].quantity > 0 then [n] else [])
  }

  /** The holdings written to the export: those with a positive quantity, in order (see `ExportKeepsOrder`). */
  function ExportedParcels(ps: seq<Holding>): (r: seq<Holding>)
    ensures |r| <= |ps|
    ensures forall h :: h in r ==> h in ps && h.quantity > 0
    ensures forall h :: h in ps && h.quantity > 0 ==> h in r
    decreases |ps|
  {
    if ps == [] then []
    else
      var last := ps[|ps| - 1];
      assert ps == ps[..|ps| - 1] + [last];
      ExportedParcels(ps[..|ps| - 1]) + (if last.quantity > 0 then [last] else [])
  }

  /**
   * The export is exactly the holdings at the positive-quantity positions,
   * in their original order.
   */
  lemma {:induction false} ExportKeepsOrder(ps: seq<Holding>)
    ensures |ExportedParcels(ps)| == |PositivePositions(ps)|
    ensures forall k :: 0 <= k < |ExportedParcels(ps)| ==> ExportedParcels(ps)[k] == ps[PositivePositions(ps)[k]]
    decreases |ps|
  {
    if ps != [] {
      var n := |ps| - 1;
      var front := ps[..n];
      ExportKeepsOrder(front);
      var e, pos := ExportedParcels(front), PositivePositions(front);
      assert forall k :: 0 <= k < |pos| ==> 0 <= pos[k] < n && e[k] == ps[pos[k]];
      SnocIndexed(ps, e, pos, ps[n].quantity > 0);
    }
  }

  /** Appending the last element (or nothing) to a list indexed into `ps` keeps it indexed into `ps`. */
  lemma SnocIndexed(ps: seq<Holding>, e: seq<Holding>, pos: seq<int>, keep: bool)
    requires |ps| > 0 && |e| == |pos|
    requires forall k :: 0 <= k < |pos| ==> 0 <= pos[k] < |ps| - 1 && e[k] == ps[pos[k]]
    ensures var last := |ps| - 1;
      var e2, pos2 := e + (if keep then [ps[last]] else []), pos + (if keep then [last] else []);
      |e2| == |pos2| && forall k :: 0 <= k < |e2| ==> e2[k] == ps[pos2[k]]
  {
  }

  /** Appending a holding adds its terms to every total. */
  lemma TotalsSnoc(a: seq<Holding>, x: Holding)
    ensures TotalQuantity(a + [x]) == TotalQuantity(a) + x.quantity
    ensures TotalCost(a + [x]) == TotalCost(a) + HoldingCost(x)
    ensures TotalRentRate(a + [x]) == TotalRentRate(a) + HoldingRent(x)
  {
    assert (a + [x])[..|a|] == a;
  }

  /** Leaving out the empty holdings changes no total. */
  lemma {:induction false} ExportKeepsTotals(ps: seq<Holding>)
    requires NonNegative(ps)
    ensures var e := ExportedParcels(ps);
      TotalQuantity(e) == TotalQuantity(ps) && TotalCost(e) == TotalCost(ps) && TotalRentRate(e) == TotalRentRate(ps)
    decreases |ps|
  {
    if ps != [] {
      var init, last := ps[..|ps| - 1], ps[|ps| - 1];
      assert forall i :: 0 <= i < |init| ==> init[i] == ps[i];
      ExportKeepsTotals(init);
      var e := ExportedParcels(init);
      if last.quantity > 0 {
        assert ExportedParcels(ps) == e + [last];
        TotalsSnoc(e, last);
      } else {
        assert ExportedParcels(ps) == e;
      }
    }
  }
}
