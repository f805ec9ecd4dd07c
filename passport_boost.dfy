/**
 * The Passport Boost visualizer: from the number of badges owned (and a
 * monthly rent figure) it finds the current badge tier, the next tier, the
 * progress towards the top tier and what reaching the next tier costs and
 * earns. The two number inputs clamp what the user types.
 */
module PassportBoost {
  import opened Optional
  import opened BadgeTable

  /** Upper clamp of the "Current Badges" input. */
  const MaxBadgesInput: int := 150

  /** Badge count at which the progress bar is full (the top tier's minimum). */
  const FullProgress: int := 101

  /**
   * The backward scan of tiers `i`, `i - 1`, ..., 1 for the first tier whose
   * minimum is at most `n`; tier 1 when none is.
   */
  function ScanDown(n: int, i: nat): (r: nat)
    requires i < |Tiers|
    ensures 1 <= r < |Tiers|
    ensures r <= i || r == 1
    ensures Tiers[r].minBadges <= n || r == 1
    ensures forall j :: r < j <= i ==> n < Tiers[j].minBadges
    decreases i
  {
    if i < 1 then 1
    else if n >= Tiers[i].minBadges then i
    else ScanDown(n, i - 1)
  }

  /**
   * Index of the current tier: tier 0 for no badges, otherwise the highest
   * tier from 1 up whose minimum is at most `n` (tier 1 when there is none,
   * which only a negative count reaches).
   */
  function CurrentTier(n: int): (r: nat)
    ensures r < |Tiers|
    ensures n == 0 <==> r == 0
    ensures n != 0 ==> (Tiers[r].minBadges <= n || r == 1)
    ensures n != 0 ==> forall j :: r < j < |Tiers| ==> n < Tiers[j].minBadges
  {
    if n == 0 then 0 else ScanDown(n, TopTier)
  }

  /** For every count the input admits, and up to 999, the current tier's range holds the count. */
  lemma CurrentTierContains(n: int)
    requires 0 <= n <= Unbounded
    ensures InTier(Tiers, CurrentTier(n), n)
  {
    TiersWellFormed();
    var r := CurrentTier(n);
    if n != 0 && r < TopTier {
      assert n < Tiers[r + 1].minBadges;
    }
  }

  /** Past the table's last bound the lookup stays at the top tier. */
  lemma CurrentTierAboveTable(n: int)
    requires n > Unbounded
    ensures CurrentTier(n) == TopTier
  {
  }

  /** Index of the tier after the current one; `None` at the top tier. */
  function NextTier(n: int): (r: Option<nat>)
    ensures r.None? <==> CurrentTier(n) == TopTier
    ensures r.Some? ==> r.value == CurrentTier(n) + 1 && r.value < |Tiers|
  {
    var i := CurrentTier(n);
    if i < TopTier then Some(i + 1) else None
  }

  /**
   * Progress bar width in percent: the share of the way to 101 badges,
   * capped at 100.
   */
  function Progress(n: int): (p: real)
    ensures 0 <= n ==> 0.0 <= p <= 100.0
    ensures n >= FullProgress ==> p == 100.0
    ensures n <= FullProgress ==> p * (FullProgress as real) == (n as real) * 100.0
  {
    if n >= FullProgress then 100.0
    else MinReal(100.0, (n as real) / (FullProgress as real) * 100.0)
  }

  /** More badges never shrink the progress bar. */
  lemma ProgressMonotone(a: int, b: int)
    requires a <= b
    ensures Progress(a) <= Progress(b)
  {
    if b < FullProgress {
      assert Progress(a) * 101.0 <= Progress(b) * 101.0;
    }
  }

  /** What the "Next Tier" panel shows. */
  datatype Upgrade = Upgrade(
    badgesNeeded: int,
    nextTierBonus: real,
    extraMonthlyIncome: real,
    investmentRequired: int)

  /**
   * Badges still needed to reach the next tier's minimum, the bonus it adds,
   * the extra monthly income that bonus brings on `monthlyRent` and the
   * Atlas Bucks the badges cost; all zero at the top tier.
   */
  function UpgradeFigures(n: int, monthlyRent: real): (u: Upgrade)
    ensures NextTier(n).None? ==>
      u.badgesNeeded == 0 && u.nextTierBonus == 0.0 && u.extraMonthlyIncome == 0.0 && u.investmentRequired == 0
    ensures NextTier(n).Some? ==>
      && n + u.badgesNeeded == Tiers[NextTier(n).value].minBadges
      && u.nextTierBonus == Tiers[NextTier(n).value].bonus - Tiers[CurrentTier(n)].bonus
    ensures u.extraMonthlyIncome == monthlyRent * u.nextTierBonus
    ensures u.investmentRequired == BadgeCost * u.badgesNeeded
  {
    match NextTier(n)
    case None => Upgrade(0, 0.0, monthlyRent * 0.0, 0)
    case Some(next) =>
      var needed := Tiers[next].minBadges - n;
      var bonus := Tiers[next].bonus - Tiers[CurrentTier(n)].bonus;
      Upgrade(needed, bonus, monthlyRent * bonus, needed * BadgeCost)
  }

  /**
   * Buying `badgesNeeded` badges lands exactly in the next tier, at least one
   * badge is needed, one badge fewer stays in the current tier, and the
   * bonus (hence, on a non-negative rent, the extra income) does not drop.
   */
  lemma UpgradeReachesNextTier(n: int, monthlyRent: real)
    requires 0 <= n
    requires NextTier(n).Some?
    ensures var u := UpgradeFigures(n, monthlyRent);
      && u.badgesNeeded >= 1
      && CurrentTier(n + u.badgesNeeded) == NextTier(n).value
      && CurrentTier(n + u.badgesNeeded - 1) == CurrentTier(n)
      && u.nextTierBonus >= 0.0
      && (monthlyRent >= 0.0 ==> u.extraMonthlyIncome >= 0.0)
  {
    TiersWellFormed();
    var u := UpgradeFigures(n, monthlyRent);
    var cur, next := CurrentTier(n), NextTier(n).value;
    CurrentTierContains(n);
    assert n <= Tiers[cur].maxBadges;
    CurrentTierContains(n + u.badgesNeeded);
    ContiguousDisjoint(Tiers, CurrentTier(n + u.badgesNeeded), next, n + u.badgesNeeded);
    CurrentTierContains(n + u.badgesNeeded - 1);
    ContiguousDisjoint(Tiers, CurrentTier(n + u.badgesNeeded - 1), cur, n + u.badgesNeeded - 1);
    BonusMonotone(Tiers, cur, next);
  }

  /** The badge count after the input handlers clamp it to 0..150. */
  function ClampBadges(v: int): (r: int)
    ensures 0 <= r <= MaxBadgesInput
    ensures 0 <= v <= MaxBadgesInput ==> r == v
    ensures v < 0 ==> r == 0
    ensures v > MaxBadgesInput ==> r == MaxBadgesInput
  {
    MaxInt(0, MinInt(MaxBadgesInput, v))
  }

  /** `parseInt(value) || 0`: unparsable text reads as 0. */
  function ParsedOrZero(f: Field<int>): int
  {
    match f
    case Number(v) => v
    case _ => 0
  }

  /** The badges input's change handler: an empty field keeps the previous count. */
  function BadgesOnChange(current: int, f: Field<int>): (r: int)
    ensures f.Empty? ==> r == current
    ensures !f.Empty? ==> 0 <= r <= MaxBadgesInput
    ensures f.NotANumber? ==> r == 0
    ensures f.Number? && 0 <= f.value <= MaxBadgesInput ==> r == f.value
    ensures f.Number? && f.value < 0 ==> r == 0
    ensures f.Number? && f.value > MaxBadgesInput ==> r == MaxBadgesInput
  {
    if f.Empty? then current else ClampBadges(ParsedOrZero(f))
  }

  /** The badges input's blur handler: an empty field becomes 0. */
  function BadgesOnBlur(f: Field<int>): (r: int)
    ensures 0 <= r <= MaxBadgesInput
    ensures f.Empty? || f.NotANumber? ==> r == 0
    ensures f.Number? && 0 <= f.value <= MaxBadgesInput ==> r == f.value
    ensures f.Number? && f.value < 0 ==> r == 0
    ensures f.Number? && f.value > MaxBadgesInput ==> r == MaxBadgesInput
  {
    if f.Empty? then 0 else ClampBadges(ParsedOrZero(f))
  }

  /** The rent input's change handler: `max(0, parseFloat(value) || 0)`, empty keeps the previous rent. */
  function RentOnChange(current: real, f: Field<real>): (r: real)
    ensures f.Empty? ==> r == current
    ensures !f.Empty? ==> r >= 0.0
    ensures f.Number? && f.value >= 0.0 ==> r == f.value
    ensures f.Number? && f.value < 0.0 ==> r == 0.0
    ensures f.NotANumber? ==> r == 0.0
  {
    match f
    case Empty => current
    case NotANumber => 0.0
    case Number(v) => MaxReal(0.0, v)
  }

  /** The rent input's blur handler: an empty field becomes 0. */
  function RentOnBlur(f: Field<real>): (r: real)
    ensures r >= 0.0
    ensures f.Number? && f.value >= 0.0 ==> r == f.value
    ensures f.Number? && f.value < 0.0 ==> r == 0.0
    ensures !f.Number? ==> r == 0.0
  {
    match f
    case Number(v) => MaxReal(0.0, v)
    case _ => 0.0
  }

  /** An edit of one of the two inputs. */
  datatype InputEvent =
    | BadgesChanged(badges: Field<int>)
    | BadgesBlurred(badges: Field<int>)
    | RentChanged(rent: Field<real>)
    | RentBlurred(rent: Field<real>)

  /** The visualizer's (badges, monthly rent) state after a run of input events. */
  function Replay(badges: int, rent: real, evs: seq<InputEvent>): (int, real)
    decreases |evs|
  {
    if evs == [] then (badges, rent)
    else
      var e := evs[0];
      match e
      case BadgesChanged(f) => Replay(BadgesOnChange(badges, f), rent, evs[1..])
      case BadgesBlurred(f) => Replay(BadgesOnBlur(f), rent, evs[1..])
      case RentChanged(f) => Replay(badges, RentOnChange(rent, f), evs[1..])
      case RentBlurred(f) => Replay(badges, RentOnBlur(f), evs[1..])
  }

  /**
   * Starting from the initial state (0 badges, rent 100), or any state in
   * range, every run of edits keeps the badge count within 0..150 and the
   * rent non-negative.
   */
  lemma {:induction false} InputsStayClamped(badges: int, rent: real, evs: seq<InputEvent>)
    requires 0 <= badges <= MaxBadgesInput && rent >= 0.0
    ensures var (b, r) := Replay(badges, rent, evs); 0 <= b <= MaxBadgesInput && r >= 0.0
    decreases |evs|
  {
    if evs != [] {
      match evs[0]
      case BadgesChanged(f) => InputsStayClamped(BadgesOnChange(badges, f), rent, evs[1..]);
      case BadgesBlurred(f) => InputsStayClamped(BadgesOnBlur(f), rent, evs[1..]);
      case RentChanged(f) => InputsStayClamped(badges, RentOnChange(rent, f), evs[1..]);
      case RentBlurred(f) => InputsStayClamped(badges, RentOnBlur(f), evs[1..]);
    }
  }
}
