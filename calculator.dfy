/**
 * The single-parcel ROI calculator: for a parcel tier, a quantity, a boost
 * multiplier and a badge bonus it gives the daily, monthly and yearly rent,
 * the days to break even and an efficiency score; a comparison panel shows
 * each tier's efficiency.
 */
module Calculator {
  import opened Optional
  import opened ParcelData

  datatype CalculationResult = CalculationResult(
    dailyRent: real,
    monthlyRent: real,
    yearlyRent: real,
    breakEvenDays: Option<real>,
    efficiency: real)

  /** A tier's efficiency: one parcel's base daily rent per Atlas Buck it costs. */
  function TierEfficiency(p: ParcelType): (e: real)
    ensures e > 0.0
    ensures e * (Cost(p) as real) == Rent(p) * SecondsPerDay
  {
    Rent(p) * SecondsPerDay / (Cost(p) as real)
  }

  /**
   * The efficiency score as the results panel computes it: the base daily
   * rent of the whole quantity divided by the price of ONE parcel.
   */
  function EfficiencyAsWritten(p: ParcelType, quantity: int): (e: real)
    ensures e == (quantity as real) * TierEfficiency(p)
  {
    Rent(p) * (quantity as real) * SecondsPerDay / (Cost(p) as real)
  }

  /**
   * The score as written disagrees with the tier's own efficiency as soon as
   * more than one parcel is entered: two Commons score twice what the
   * comparison panel shows for Common.
   */
  lemma EfficiencyAsWrittenDependsOnQuantity()
    ensures EfficiencyAsWritten(Common, 2) == 2.0 * TierEfficiency(Common)
    ensures EfficiencyAsWritten(Common, 2) != TierEfficiency(Common)
  {
  }

  /**
   * Returns for `quantity` parcels of tier `p`: the per-second rent is scaled
   * by the boost and by 1 + the badge bonus, then by a day, 30 days and 365
   * days. Break-even is the total price over the daily rent (absent when the
   * daily rent is 0, where JavaScript yields Infinity or NaN). The efficiency
   * is the tier's efficiency, which is what the score intends.
   */
  function CalculateReturns(p: ParcelType, quantity: int, boost: real, badgeBonus: real): (r: CalculationResult)
    ensures r.monthlyRent == 30.0 * r.dailyRent && r.yearlyRent == 365.0 * r.dailyRent
    ensures r.breakEvenDays.Some? <==> r.dailyRent != 0.0
    ensures r.breakEvenDays.Some? ==> r.breakEvenDays.value * r.dailyRent == (Cost(p) * quantity) as real
    ensures r.efficiency == TierEfficiency(p)
  {
    var baseRent := Rent(p) * (quantity as real);
    var totalRentPerSecond := baseRent * boost * (1.0 + badgeBonus);
    var daily := totalRentPerSecond * SecondsPerDay;
    var totalCost := (Cost(p) * quantity) as real;
    CalculationResult(
      daily,
      daily * 30.0,
      daily * 365.0,
      if daily != 0.0 then Some(totalCost / daily) else None,
      TierEfficiency(p))
  }

  /** The daily rent is the tier's rate times quantity, boost, badge multiplier and a day. */
  lemma DailyRentFormula(p: ParcelType, quantity: int, boost: real, badgeBonus: real)
    ensures CalculateReturns(p, quantity, boost, badgeBonus).dailyRent
         == Rent(p) * (quantity as real) * boost * (1.0 + badgeBonus) * SecondsPerDay
  {
  }

  /**
   * With at least one parcel, a positive boost and a non-negative bonus the
   * daily rent is positive, so a break-even time exists and repays the
   * total price exactly.
   */
  lemma BreakEvenDefined(p: ParcelType, quantity: int, boost: real, badgeBonus: real)
    requires quantity >= 1 && boost > 0.0 && badgeBonus >= 0.0
    ensures var r := CalculateReturns(p, quantity, boost, badgeBonus);
      && r.dailyRent > 0.0
      && r.breakEvenDays.Some?
      && r.breakEvenDays.value > 0.0
      && r.breakEvenDays.value * r.dailyRent == (Cost(p) * quantity) as real
  {
    var base := Rent(p) * (quantity as real);
    assert base > 0.0;
    var withBoost := base * boost;
    assert withBoost > 0.0;
    assert withBoost * (1.0 + badgeBonus) > 0.0;
  }

  /** Rent is additive in the quantity: a split holding earns what the whole earns. */
  lemma RentAdditive(p: ParcelType, q1: int, q2: int, boost: real, badgeBonus: real)
    ensures var a := CalculateReturns(p, q1, boost, badgeBonus);
            var b := CalculateReturns(p, q2, boost, badgeBonus);
            var ab := CalculateReturns(p, q1 + q2, boost, badgeBonus);
      && ab.dailyRent == a.dailyRent + b.dailyRent
      && ab.monthlyRent == a.monthlyRent + b.monthlyRent
      && ab.yearlyRent == a.yearlyRent + b.yearlyRent
  {
    DailyRentFormula(p, q1, boost, badgeBonus);
    DailyRentFormula(p, q2, boost, badgeBonus);
    DailyRentFormula(p, q1 + q2, boost, badgeBonus);
    assert Rent(p) * ((q1 + q2) as real) == Rent(p) * (q1 as real) + Rent(p) * (q2 as real);
  }

  /** Doubling the quantity doubles the daily, monthly and yearly rent. */
  lemma RentLinear(p: ParcelType, quantity: int, boost: real, badgeBonus: real)
    ensures var one := CalculateReturns(p, quantity, boost, badgeBonus);
            var two := CalculateReturns(p, 2 * quantity, boost, badgeBonus);
      && two.dailyRent == 2.0 * one.dailyRent
      && two.monthlyRent == 2.0 * one.monthlyRent
      && two.yearlyRent == 2.0 * one.yearlyRent
  {
    RentAdditive(p, quantity, quantity, boost, badgeBonus);
  }

  /** The efficiency depends on the parcel tier alone, not on quantity, boost or bonus. */
  lemma EfficiencyIndependent(p: ParcelType, q1: int, q2: int, b1: real, b2: real, c1: real, c2: real)
    ensures CalculateReturns(p, q1, b1, c1).efficiency == CalculateReturns(p, q2, b2, c2).efficiency
  {
  }

  /**
   * The tier's efficiency is the unboosted daily rent of any positive
   * quantity per Atlas Buck of its total price; the score as written equals
   * that only for a single parcel.
   */
  lemma EfficiencyIsDailyPerCost(p: ParcelType, quantity: int)
    requires quantity >= 1
    ensures TierEfficiency(p) * ((Cost(p) * quantity) as real) == CalculateReturns(p, quantity, 1.0, 0.0).dailyRent
    ensures EfficiencyAsWritten(p, quantity) == TierEfficiency(p) <==> quantity == 1
  {
    DailyRentFormula(p, quantity, 1.0, 0.0);
    var e, c, q := TierEfficiency(p), Cost(p) as real, quantity as real;
    assert e * (c * q) == (e * c) * q;
    assert EfficiencyAsWritten(p, quantity) == q * e;
  }

  /** Common is strictly the most efficient tier. */
  lemma CommonMostEfficient(p: ParcelType)
    requires p != Common
    ensures TierEfficiency(p) < TierEfficiency(Common)
  {
  }

  /**
   * 25 Commons cost what one Legendary costs (2,500 AB) and earn exactly
   * 6.25 times its rent, whatever the boost and bonus.
   */
  lemma CommonsBeatLegendary(boost: real, badgeBonus: real)
    ensures 25 * Cost(Common) == Cost(Legendary)
    ensures CalculateReturns(Common, 25, boost, badgeBonus).dailyRent
         == 6.25 * CalculateReturns(Legendary, 1, boost, badgeBonus).dailyRent
  {
    DailyRentFormula(Common, 25, boost, badgeBonus);
    DailyRentFormula(Legendary, 1, boost, badgeBonus);
    assert Rent(Common) * 25.0 == 6.25 * Rent(Legendary);
  }

  /** The quantity input's change handler: `parseInt(value) || 0`, empty keeps the previous quantity. */
  function QuantityOnChange(current: int, f: Field<int>): (r: int)
    ensures f.Empty? ==> r == current
    ensures f.NotANumber? ==> r == 0
    ensures f.Number? ==> r == f.value
  {
    match f
    case Empty => current
    case NotANumber => 0
    case Number(v) => v
  }

  /**
   * The quantity input's blur handler: an empty field or a number below 1
   * becomes 1; anything else (including text that is not a number, for which
   * `parseInt(value) < 1` is false) leaves the quantity as it is.
   */
  function QuantityOnBlur(current: int, f: Field<int>): (r: int)
    ensures f.Empty? || (f.Number? && f.value < 1) ==> r == 1
    ensures f.Number? && f.value >= 1 ==> r == current
    ensures f.NotANumber? ==> r == current
  {
    match f
    case Empty => 1
    case NotANumber => current
    case Number(v) => if v < 1 then MaxInt(1, if v != 0 then v else 1) else current
  }

  /** Typing a number and leaving the field always yields at least one parcel. */
  lemma TypedThenBlurredIsPositive(current: int, v: int)
    ensures QuantityOnBlur(QuantityOnChange(current, Number(v)), Number(v)) >= 1
    ensures v >= 1 ==> QuantityOnBlur(QuantityOnChange(current, Number(v)), Number(v)) == v
  {
  }
}
