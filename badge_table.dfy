/**
 * The badge system (BADGE_SYSTEM): badges cost 200 Atlas Bucks each, and
 * the number of badges owned selects one of six tiers, each granting a
 * permanent rent bonus. The same table appears in the strategy page, the
 * Passport Boost visualizer and (without bonuses) the profile page; it is
 * defined once here.
 */
module BadgeTable {

  datatype BadgeTier = BadgeTier(minBadges: int, maxBadges: int, bonus: real)

  /** Price of one badge in Atlas Bucks. */
  const BadgeCost: int := 200

  /** The `maxBadges` of the open-ended top tier ("101+"). */
  const Unbounded: int := 999

  const Tiers: seq<BadgeTier> := [
    BadgeTier(0, 0, 0.0),
    BadgeTier(1, 10, 0.05),
    BadgeTier(11, 30, 0.10),
    BadgeTier(31, 60, 0.15),
    BadgeTier(61, 100, 0.20),
    BadgeTier(101, Unbounded, 0.25)
  ]

  /** Index of the top tier. */
  const TopTier: nat := |Tiers| - 1

  /** Badge count `n` lies in the range of tier `i` of table `ts`. */
  predicate InTier(ts: seq<BadgeTier>, i: int, n: int)
  {
    0 <= i < |ts| && ts[i].minBadges <= n <= ts[i].maxBadges
  }

  /** Non-empty, each range non-empty, each tier starting right after the previous one. */
  predicate Contiguous(ts: seq<BadgeTier>)
  {
    && |ts| > 0
    && (forall i :: 0 <= i < |ts| ==> ts[i].minBadges <= ts[i].maxBadges)
    && (forall i :: 1 <= i < |ts| ==> ts[i].minBadges == ts[i - 1].maxBadges + 1)
  }

  predicate BonusesNonDecreasing(ts: seq<BadgeTier>)
  {
    forall i :: 1 <= i < |ts| ==> ts[i - 1].bonus <= ts[i].bonus
  }

  /** The table is contiguous from 0 to 999, starts at a 0 % bonus and never lowers the bonus. */
  lemma TiersWellFormed()
    ensures Contiguous(Tiers) && BonusesNonDecreasing(Tiers)
    ensures Tiers[0].minBadges == 0 && Tiers[0].maxBadges == 0 && Tiers[0].bonus == 0.0
    ensures Tiers[TopTier].maxBadges == Unbounded && Tiers[TopTier].bonus == 0.25
  {
  }

  /** In a contiguous table an earlier tier ends before a later one starts. */
  lemma {:induction false} EarlierTierBelow(ts: seq<BadgeTier>, i: int, j: int)
    requires Contiguous(ts)
    requires 0 <= i < j < |ts|
    ensures ts[i].maxBadges < ts[j].minBadges
    decreases j - i
  {
    if i + 1 < j {
      EarlierTierBelow(ts, i, j - 1);
    }
  }

  /** Every count between the table's first and last bound lies in some tier. */
  lemma {:induction false} ContiguousCovers(ts: seq<BadgeTier>, n: int)
    requires Contiguous(ts)
    requires ts[0].minBadges <= n <= ts[|ts| - 1].maxBadges
    ensures exists i :: InTier(ts, i, n)
    decreases |ts|
  {
    if n <= ts[0].maxBadges {
      assert InTier(ts, 0, n);
    } else {
      var rest := ts[1..];
      assert Contiguous(rest) by {
        forall i | 1 <= i < |rest|
          ensures rest[i].minBadges == rest[i - 1].maxBadges + 1
        {
          assert rest[i] == ts[i + 1] && rest[i - 1] == ts[i];
        }
      }
      ContiguousCovers(rest, n);
      var i :| InTier(rest, i, n);
      assert InTier(ts, i + 1, n);
    }
  }

  /** No count lies in two tiers of a contiguous table. */
  lemma ContiguousDisjoint(ts: seq<BadgeTier>, i: int, j: int, n: int)
    requires Contiguous(ts)
    requires InTier(ts, i, n) && InTier(ts, j, n)
    ensures i == j
  {
    if i < j {
      EarlierTierBelow(ts, i, j);
    } else if j < i {
      EarlierTierBelow(ts, j, i);
    }
  }

  /** Every badge count 0..999 falls in exactly one tier of the badge table. */
  lemma ExactlyOneTier(n: int)
    requires 0 <= n <= Unbounded
    ensures exists i :: InTier(Tiers, i, n)
    ensures forall i, j :: InTier(Tiers, i, n) && InTier(Tiers, j, n) ==> i == j
  {
    TiersWellFormed();
    ContiguousCovers(Tiers, n);
    forall i, j | InTier(Tiers, i, n) && InTier(Tiers, j, n)
      ensures i == j
    {
      ContiguousDisjoint(Tiers, i, j, n);
    }
  }

  /** A later tier never grants a smaller bonus. */
  lemma {:induction false} BonusMonotone(ts: seq<BadgeTier>, i: int, j: int)
    requires BonusesNonDecreasing(ts)
    requires 0 <= i <= j < |ts|
    ensures ts[i].bonus <= ts[j].bonus
    decreases j - i
  {
    if i < j {
      BonusMonotone(ts, i, j - 1);
    }
  }

  /** The bonuses the table grants are exactly 0 %, 5 %, 10 %, 15 %, 20 % and 25 %. */
  lemma TierWithBonus(b: real)
    ensures (exists i :: 0 <= i < |Tiers| && Tiers[i].bonus == b)
        <==> b == 0.0 || b == 0.05 || b == 0.10 || b == 0.15 || b == 0.20 || b == 0.25
  {
    forall i | 0 <= i < |Tiers| && Tiers[i].bonus == b
      ensures b == 0.0 || b == 0.05 || b == 0.10 || b == 0.15 || b == 0.20 || b == 0.25
    {
      assert i == 0 || i == 1 || i == 2 || i == 3 || i == 4 || i == 5;
    }
    if b == 0.0 { assert Tiers[0].bonus == b; }
    else if b == 0.05 { assert Tiers[1].bonus == b; }
    else if b == 0.10 { assert Tiers[2].bonus == b; }
    else if b == 0.15 { assert Tiers[3].bonus == b; }
    else if b == 0.20 { assert Tiers[4].bonus == b; }
    else if b == 0.25 { assert Tiers[5].bonus == b; }
  }
}
