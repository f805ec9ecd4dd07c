/**
 * The parcel rate table (PARCEL_DATA), identical in the strategy,
 * portfolio and calculator pages: each parcel tier has a cost in Atlas
 * Bucks and a rent rate in dollars per second.
 */
module ParcelData {

  datatype ParcelType = Common | Rare | Epic | Legendary

  /** Seconds in a day: every per-second rate is scaled by this. */
  const SecondsPerDay: real := 86400.0

  /** Rent in dollars per second of one parcel. */
  function Rent(p: ParcelType): (r: real)
    ensures r > 0.0
  {
    match p
    case Common => 0.0000000011
    case Rare => 0.0000000016
    case Epic => 0.0000000022
    case Legendary => 0.0000000044
  }

  /** Price of one parcel in Atlas Bucks. */
  function Cost(p: ParcelType): (c: int)
    ensures c >= 100
  {
    match p
    case Common => 100
    case Rare => 500
    case Epic => 1250
    case Legendary => 2500
  }

  /** Common is the cheapest tier: the strategies spend on it. */
  lemma CommonIsCheapest(p: ParcelType)
    ensures Cost(Common) <= Cost(p)
    ensures p != Common ==> Cost(Common) < Cost(p)
  {
  }
}
