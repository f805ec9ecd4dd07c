# Atlas Earth yield and badge arithmetic

This project models the arithmetic behind the Atlas Earth hub pages, as Dafny
datatypes, functions, methods and lemmas. Players buy virtual land parcels in
four tiers (Common, Rare, Epic, Legendary). Each tier has a price in Atlas
Bucks (AB) and a rent rate in dollars per second. Players also buy badges at
200 AB each. The number of badges owned selects one of six tiers, and each
badge tier grants a permanent rent bonus of 0 % to 25 %. Four pages do the
arithmetic:

- The **Passport Boost visualizer** (`passport_boost.dfy`). From a badge count
  it finds the current and next badge tier, the progress bar and the cost and
  gain of the next tier. It also models the clamps on its two inputs.
- The **strategy planner** (`strategy.dfy`). It covers:
  - the badge purchase a budget affords (`getBadgeRecommendation` is
    defined in the page but never called, so the planner does not show it);
  - the bonus and representative badge count of the selected tier;
  - the split-day ad-boost earnings formula;
  - the "all Commons" and "upgrade then Commons" candidates, ranked by
    efficiency.
- The **portfolio tracker** (`portfolio.dfy`). It covers:
  - quantity edits;
  - total cost and rent, with boost and badge bonus applied once to the
    combined rate;
  - the distribution percentages;
  - the rule-based suggestions;
  - the export filter.
- The **ROI calculator** (`calculator.dfy`). Returns for one parcel tier and
  quantity, the per-tier efficiency comparison, and the quantity input.

Shared data lives in three small modules:

- `parcel_data.dfy`: the parcel rate table.
- `badge_table.dfy`: the badge tier table. The source copies it into several
  pages; it is defined once here.
- `optional.dfy`: `Option`, a parsed-input type and min/max helpers.

Rates and money are exact `real`s, and counts, budgets and prices are `int`s.
JavaScript's `Math.floor(a / b)` with a positive divisor is Dafny's `/`. Where
a page divides by zero and shows Infinity or NaN, the model returns `None`.
React state becomes explicit parameters. A text field as a handler reads it
is `Field<T>`: an empty field, text that parses to NaN, or a number.

Behaviour worth knowing:

- **Upgrade target.** The upgrade strategy aims at the next tier's
  `maxBadges`, or 101 for the open-ended top tier. It does not aim at the
  next tier's minimum.
- **Distribution.** It keeps every holding, including empty ones. With no
  parcels, every percentage is 0.
- **Portfolio break-even.** It is 0, not infinite, when there are no
  earnings.
- **Tier lookups.** They return an index into the table, not a tier object.
  `findIndex` by identity over distinct tier objects gives the same index.
- **Calculator efficiency.** The score at `src/app/calculator/page.tsx:42`
  grows with the quantity. The model keeps it as written in
  `EfficiencyAsWritten`. `CalculateReturns` carries the per-tier value
  instead (see "## Findings").

## Model

| member | source | states |
|---|---|---|
| ParcelData.Rent | src/app/strategy/page.tsx:9-14 | every parcel tier earns a positive rent per second (the four rates of the table) |
| ParcelData.Cost | src/app/strategy/page.tsx:9-14 | every parcel tier costs at least 100 AB (the four prices of the table) |
| ParcelData.CommonIsCheapest | src/app/calculator/page.tsx:8-13 | Common is the strictly cheapest tier |
| BadgeTable.TiersWellFormed | src/app/strategy/page.tsx:26-37 | the badge table is contiguous, every range is non-empty, bonuses never decrease, it starts at 0 badges with 0 % and ends at 999 with 25 % |
| BadgeTable.EarlierTierBelow | src/components/PassportBoostVisualizer.tsx:6-17 | in a contiguous table an earlier tier's maximum lies below any later tier's minimum |
| BadgeTable.ContiguousCovers | src/components/PassportBoostVisualizer.tsx:6-17 | in a contiguous table every count between the first and last bound lies in some tier |
| BadgeTable.ContiguousDisjoint | src/components/PassportBoostVisualizer.tsx:6-17 | no count lies in two tiers of a contiguous table |
| BadgeTable.ExactlyOneTier | src/app/strategy/page.tsx:29-34 | every badge count 0..999 lies in exactly one tier |
| BadgeTable.BonusMonotone | src/app/strategy/page.tsx:29-34 | a later tier never grants a smaller bonus |
| BadgeTable.TierWithBonus | src/app/strategy/page.tsx:29-34 | some tier grants bonus b iff b is one of 0, 0.05, 0.10, 0.15, 0.20, 0.25 |
| PassportBoost.ScanDown | src/components/PassportBoostVisualizer.tsx:29-35 | the backward scan returns a tier in 1..i whose minimum is at most n (or tier 1 when none is), and every tier it passed over starts above n |
| PassportBoost.CurrentTier | src/components/PassportBoostVisualizer.tsx:26-36 | tier 0 iff there are no badges; otherwise the highest tier whose minimum is at most n (tier 1 when none is) |
| PassportBoost.CurrentTierContains | src/components/PassportBoostVisualizer.tsx:26-36 | for 0..999 badges the current tier's range contains the count |
| PassportBoost.CurrentTierAboveTable | src/components/PassportBoostVisualizer.tsx:29-34 | counts past 999 stay at the top tier |
| PassportBoost.NextTier | src/components/PassportBoostVisualizer.tsx:39-47 | the next tier is the following index, and absent exactly at the top tier |
| PassportBoost.Progress | src/components/PassportBoostVisualizer.tsx:53-58 | the progress lies in 0..100 for n >= 0; it is 100 from 101 badges; below that it is n/101 of 100 |
| PassportBoost.ProgressMonotone | src/components/PassportBoostVisualizer.tsx:53-58 | more badges never shrink the progress bar |
| PassportBoost.UpgradeFigures | src/components/PassportBoostVisualizer.tsx:60-63 | badges needed reach the next tier's minimum exactly; the bonus gain is the next tier's bonus minus the current one; the extra income is rent times that gain; the investment is 200 per badge; at the top tier everything is 0 |
| PassportBoost.UpgradeReachesNextTier | src/components/PassportBoostVisualizer.tsx:39-63 | at least one badge is needed; buying them lands in the next tier; one fewer stays in the current tier; the bonus gain (and, on non-negative rent, the extra income) is non-negative |
| PassportBoost.ClampBadges | src/components/PassportBoostVisualizer.tsx:103 | the badge count is clamped into 0..150, unchanged inside that range |
| PassportBoost.BadgesOnChange | src/components/PassportBoostVisualizer.tsx:94-105 | an empty field keeps the previous count; text that is not a number gives 0; a typed number is clamped: below 0 gives 0, above 150 gives 150, otherwise the number itself |
| PassportBoost.BadgesOnBlur | src/components/PassportBoostVisualizer.tsx:106-117 | leaving the field gives 0 for an empty field or text that is not a number; a typed number is clamped: below 0 gives 0, above 150 gives 150, otherwise the number itself |
| PassportBoost.RentOnChange | src/components/PassportBoostVisualizer.tsx:131-142 | an empty field keeps the previous rent; text that is not a number gives 0; a negative number gives 0; a non-negative number is taken as typed |
| PassportBoost.RentOnBlur | src/components/PassportBoostVisualizer.tsx:143-154 | leaving the field gives 0 for an empty field, text that is not a number or a negative number; a non-negative number is taken as typed |
| PassportBoost.Replay | src/components/PassportBoostVisualizer.tsx:94-154 | the badge count and rent after a run of edits, each applied by its handler in turn |
| PassportBoost.InputsStayClamped | src/components/PassportBoostVisualizer.tsx:20-23 | from the initial 0 badges and rent 100 (or any state in range), every run of edits keeps badges in 0..150 and rent non-negative |
| Strategy.GetBadgeRecommendation | src/app/strategy/page.tsx:40-78 | under one badge's price: nothing bought, whole budget kept; otherwise the highest tier whose minimum is at most floor(budget/200), min(its maximum, floor(budget/200)) badges (at least one, inside that tier), cost 200 per badge, remaining budget in 0..budget-1 |
| Strategy.RecommendationForThousand | src/app/strategy/page.tsx:40-78 | a 1,000 AB budget buys 5 badges of the 1-10 tier for 1,000 AB, leaving 0, with a 5 % bonus |
| Strategy.CurrentBadgeBonus | src/app/strategy/page.tsx:133-135 | the selected tier's bonus; 0 for an index outside the table; always within 0..25 % |
| Strategy.CurrentBadgeCount | src/app/strategy/page.tsx:138-145 | 0 for tier 0 or an index outside the table, 101 for the top tier, the floored midpoint otherwise; always inside the tier's range |
| Strategy.DailyEarnings | src/app/strategy/page.tsx:151-162 | 24 × the day's earnings = rent × 86400 × (1 + bonus) × ((24 − h) + h × boost) with h = min(hours, 24) |
| Strategy.DailyEarningsUnboosted | src/app/strategy/page.tsx:151-162 | with no boosted hours or a 1x boost a day earns rent × 86400 × (1 + bonus) |
| Strategy.DailyEarningsAllDay | src/app/strategy/page.tsx:151-162 | boosting 24 hours or more earns the boost times the plain rate |
| Strategy.AllDayBoostMatchesCalculator | src/app/strategy/page.tsx:151-162 | boosting all day earns what the calculator shows as daily rent for the same parcels, boost and bonus |
| Strategy.DailyEarningsPositive | src/app/strategy/page.tsx:151-162 | positive rent, non-negative bonus, positive boost and non-negative hours earn a positive amount |
| Strategy.MakeStrategy | src/app/strategy/page.tsx:175-182 | the pushed record's efficiency × investment = daily return, and break-even × daily return = investment whenever the return is non-zero |
| Strategy.AllCommonsCandidate | src/app/strategy/page.tsx:168-183 | offered iff the budget buys a Common; then floor(budget/100) Commons, investment within the budget with less than 100 AB left, return from the split-day formula at the current bonus |
| Strategy.TargetBadgeCount | src/app/strategy/page.tsx:190 | the target lies in the next tier: its maximum, or 101 for the top tier |
| Strategy.NextTierIndex | src/app/strategy/page.tsx:188 | below the top tier the next index is the current index plus one |
| Strategy.AdditionalBadges | src/app/strategy/page.tsx:191 | never negative, and when positive the current representative count plus it is the target |
| Strategy.AdditionalBadgesFromTier | src/app/strategy/page.tsx:186-191 | from any tier below the top at least one badge is needed and the result lies in the next tier; from index -1 none is |
| Strategy.UpgradeCandidate | src/app/strategy/page.tsx:185-214 | offered iff budget >= 200, the tier is below the top, badges are needed and 100 AB remain after them; then the Commons the rest buys (at least one), investment within the budget with less than 100 AB left, return at the next tier's bonus |
| Strategy.Candidates | src/app/strategy/page.tsx:147-214 | at most two candidates, each consistent and within the budget |
| Strategy.SortedByEfficiency | src/app/strategy/page.tsx:216 | the ranking: the entries inserted first to last, each placed after every entry at least as efficient (its properties are SortedByEfficiencyCorrect and SortTwo) |
| Strategy.Insert | src/app/strategy/page.tsx:216 | inserting adds exactly the one element (multiset) |
| Strategy.InsertBounded | src/app/strategy/page.tsx:216 | inserting an element below a bound keeps every element below it |
| Strategy.InsertKeepsOrder | src/app/strategy/page.tsx:216 | inserting into a list in non-increasing efficiency keeps it non-increasing |
| Strategy.SortedByEfficiencyCorrect | src/app/strategy/page.tsx:216 | the ranking is in non-increasing efficiency and a permutation of its input |
| Strategy.SortTwo | src/app/strategy/page.tsx:216 | two entries keep pushed order unless the second is strictly more efficient (stability) |
| Strategy.SortStrategies | src/app/strategy/page.tsx:216 | the sort loop produces the ranking |
| Strategy.RankingKeeps | src/app/strategy/page.tsx:216 | ranking keeps the length, the elements and every per-element property |
| Strategy.CandidateKinds | src/app/strategy/page.tsx:147-214 | "all Commons" is listed iff the budget buys a Common, the upgrade iff it is offered |
| Strategy.GenerateStrategies | src/app/strategy/page.tsx:147-217 | the ranked candidates: at most two, non-increasing efficiency, "all Commons" iff the budget buys a Common, the upgrade iff offered, each consistent and investing within the budget |
| Calculator.TierEfficiency | src/app/calculator/page.tsx:295 | a tier's efficiency is positive and times the tier's price equals one parcel's daily base rent |
| Calculator.EfficiencyAsWritten | src/app/calculator/page.tsx:42 | the score as written is the quantity times the tier's efficiency |
| Calculator.EfficiencyAsWrittenDependsOnQuantity | src/app/calculator/page.tsx:42 | two Commons score twice Common's tier efficiency |
| Calculator.EfficiencyIsDailyPerCost | src/app/calculator/page.tsx:30-42 | the tier efficiency is the unboosted daily rent per AB of any positive quantity; the score as written equals it iff the quantity is 1 |
| Calculator.CalculateReturns | src/app/calculator/page.tsx:30-51 | monthly = 30 × daily, yearly = 365 × daily; break-even exists iff daily is non-zero and then repays cost × quantity exactly; the efficiency field is the corrected per-tier value of "## Findings", not line 42 as written |
| Calculator.DailyRentFormula | src/app/calculator/page.tsx:31-37 | daily rent = rate × quantity × boost × (1 + bonus) × 86400 |
| Calculator.BreakEvenDefined | src/app/calculator/page.tsx:40-41 | with at least one parcel, positive boost and non-negative bonus, the daily rent is positive and break-even is positive and repays the price |
| Calculator.RentAdditive | src/app/calculator/page.tsx:32-39 | daily, monthly and yearly rent are additive in the quantity |
| Calculator.RentLinear | src/app/calculator/page.tsx:32-39 | doubling the quantity doubles daily, monthly and yearly rent |
| Calculator.EfficiencyIndependent | src/app/calculator/page.tsx:295 | the efficiency depends on the tier alone, not on quantity, boost or bonus |
| Calculator.CommonMostEfficient | src/app/calculator/page.tsx:294-295 | Common has strictly the highest efficiency |
| Calculator.CommonsBeatLegendary | src/app/calculator/page.tsx:323-324 | 25 Commons cost one Legendary's 2,500 AB and earn exactly 6.25 times its rent |
| Calculator.QuantityOnChange | src/app/calculator/page.tsx:153-164 | empty keeps the quantity, text that is not a number gives 0, a number is taken as typed |
| Calculator.QuantityOnBlur | src/app/calculator/page.tsx:165-173 | empty or a number below 1 becomes 1; otherwise the quantity is left as it is |
| Calculator.TypedThenBlurredIsPositive | src/app/calculator/page.tsx:153-173 | typing a number and leaving the field yields at least one parcel, and exactly the number when it is at least 1 |
| Portfolio.UpdateParcelQuantity | src/app/portfolio/page.tsx:44-50 | the tier's holdings get max(0, q); every other holding, the length and the order are unchanged; non-negativity is kept |
| Portfolio.UpdateIdempotent | src/app/portfolio/page.tsx:44-50 | repeating the same edit changes nothing |
| Portfolio.FirstQuantity | src/app/portfolio/page.tsx:114 | the quantity of the first holding of the tier, 0 when there is none |
| Portfolio.UpdateThenRead | src/app/portfolio/page.tsx:44-50 | after an edit the tier reads back as max(0, q) |
| Portfolio.TotalQuantity | src/app/portfolio/page.tsx:94 | the parcel count: the sum of the quantities (the same sum is taken at line 103) |
| Portfolio.TotalCost | src/app/portfolio/page.tsx:56-60 | the investment: the sum of price × quantity over the holdings |
| Portfolio.TotalRentRate | src/app/portfolio/page.tsx:56-60 | the base rate: the sum of rent per second × quantity over the holdings |
| Portfolio.HoldingCost | src/app/portfolio/page.tsx:58 | a holding's cost is non-negative for a non-negative quantity and 0 for none |
| Portfolio.HoldingRent | src/app/portfolio/page.tsx:59 | a holding's rent is non-negative for a non-negative quantity and 0 for none |
| Portfolio.TotalsNonNegative | src/app/portfolio/page.tsx:53-60 | with no negative quantity the totals are non-negative; the parcel total is 0 iff every quantity is 0, and then cost and rent are 0 |
| Portfolio.QuantityAtMostTotal | src/app/portfolio/page.tsx:94 | each non-negative quantity is at most the total |
| Portfolio.PortfolioEfficiency | src/app/portfolio/page.tsx:69 | efficiency × investment = daily earnings when something is invested, 0 otherwise |
| Portfolio.PortfolioBreakEven | src/app/portfolio/page.tsx:70 | break-even × daily = investment when earnings are positive, 0 otherwise |
| Portfolio.CalculatePortfolio | src/app/portfolio/page.tsx:52-83 | the loop sums cost × quantity and rate × quantity; boost × (1 + bonus) applies once to the sum; monthly = 30 × daily, yearly = 365 × daily; efficiency and break-even as above |
| Portfolio.HoldingDailyIsCalculators | src/app/portfolio/page.tsx:56-65 | a holding's scaled daily rent is what the calculator shows for it |
| Portfolio.CombinedRateMatchesPerTier | src/app/portfolio/page.tsx:56-65 | scaling the summed rate once equals summing each holding's calculator daily rent |
| Portfolio.ScaledTotal | src/app/portfolio/page.tsx:56-65 | scaling distributes over the running rent sum |
| Portfolio.MixedPortfolioTotals | src/app/portfolio/page.tsx:53-60 | 10 Commons and 2 Legendaries cost 6,000 AB and earn 10 × 1.1e-9 + 2 × 4.4e-9 per second |
| Portfolio.ParcelDistribution | src/app/portfolio/page.tsx:93-99 | every holding, in order, with its percentage of the total count (0 when the total is not positive) |
| Portfolio.SharePercent | src/app/portfolio/page.tsx:97 | share × total = quantity × 100 for a positive total, within 0..100 for a quantity up to the total, 0 otherwise |
| Portfolio.SumOfShares | src/app/portfolio/page.tsx:93-99 | the sum of shares times the total is 100 × the parcel count |
| Portfolio.DistributionSumsTo100 | src/app/portfolio/page.tsx:93-99 | with parcels present the percentages sum to exactly 100 |
| Portfolio.SharesSumTo100 | src/app/portfolio/page.tsx:93-99 | shares proportional to the quantities sum to 100 |
| Portfolio.DistributionSharesBounded | src/app/portfolio/page.tsx:93-99 | with no negative quantity every percentage lies in 0..100 |
| Portfolio.BadgeSuggestion | src/app/portfolio/page.tsx:141-171 | a badge hint exists iff the bonus is a tier's bonus; it names a tier with that bonus, success at the top tier and information otherwise |
| Portfolio.PortfolioHints | src/app/portfolio/page.tsx:113-138 | the holding and boost hints never include badge advice |
| Portfolio.Suggestions | src/app/portfolio/page.tsx:113-171 | the suggestions for a portfolio with parcels: the holding and boost hints, then the badge hint if any (content stated by SuggestionsSay and BadgeHintSays) |
| Portfolio.StartingPage | src/app/portfolio/page.tsx:33-42 | the starting page (four empty holdings, boost 1, no bonus, no panel data): nothing invested or earned, efficiency and break-even 0, and only the invitation to add holdings |
| Portfolio.GetOptimizationSuggestions | src/app/portfolio/page.tsx:101-174 | no parcels: only the invitation to add holdings; otherwise the holding hints then the badge hint |
| Portfolio.SuggestionsSay | src/app/portfolio/page.tsx:113-138 | with parcels: no invitation; the Commons warning iff Commons are under 70 %; the swap alert iff there are Legendaries, quoting 25 Commons each; the boost hint iff boost is 1 on over 1,000 AB |
| Portfolio.BadgeHintSays | src/app/portfolio/page.tsx:141-171 | the badge hint appears iff the bonus is one of the six tier bonuses, only in last place, naming a tier with that bonus |
| Portfolio.ExportedParcels | src/app/portfolio/page.tsx:180 | exactly the holdings with a positive quantity, never more than the input |
| Portfolio.PositivePositions | src/app/portfolio/page.tsx:180 | the positions the filter keeps: exactly those with a positive quantity, increasing |
| Portfolio.ExportKeepsOrder | src/app/portfolio/page.tsx:180 | the export is the holdings at exactly the positive-quantity positions, in their original order |
| Portfolio.TotalsSnoc | src/app/portfolio/page.tsx:53-60 | appending a holding adds its terms to every total |
| Portfolio.ExportKeepsTotals | src/app/portfolio/page.tsx:180 | dropping empty holdings changes neither parcel count, cost nor rent |

## Left out

- Rendering, JSX, CSS, hooks and state setters are not modelled. Page state (budget, selected tier, ad boost and hours, holdings, boost level, badge bonus) is passed in as parameters.
- Profile fetch and save, the database route, authentication, the theme provider and the analytics page are not modelled. They are network, storage or random-data code.
- The export's file writing (Blob, URL, DOM anchor) and its timestamp are not modelled; only the quantity filter is.
- Currency formatting, `toFixed` and `toLocaleString` are not modelled. Strategy names, descriptions and recommendation text are not modelled either.
- IEEE-754 rounding is not modelled. All rates are exact reals, so the exact-equality tests on the badge bonus compare exact values.
- Infinity and NaN from a division by zero are modelled as `None`. The strategy and calculator break-even are `Option<real>`.
- Parsing of input text is abstracted into `Field<T>`. The portfolio's quantity input passes `parseInt(value) || 0` to `UpdateParcelQuantity` as an integer. The boost and bonus selects pass the selected number.
- Strategy.GenerateStrategies (and Strategy.UpgradeOffered, Strategy.UpgradeCandidate, Strategy.Candidates, Strategy.CandidateKinds): requires a tier index of at least -1 when the budget is at least 200 AB. With such a budget and an index of -2 or below, the page reads a missing tier and throws a TypeError, which is not modelled. Below 200 AB any index is modelled.
- Calculator.CalculateReturns: its efficiency field is the corrected per-tier value from "## Findings". Line 42 as written is modelled by Calculator.EfficiencyAsWritten.
- Strategy.SortStrategies: `Array.prototype.sort` is modelled as a stable insertion sort on a sequence rather than in place. Stability is stated for two entries (SortTwo), which is the most the planner ever sorts.
- Portfolio.GetOptimizationSuggestions: `shown` stands for the panel data computed by the previous effect run. The boost hint reads that data, not data computed from the current holdings.
- The profile page's copy of the badge table (without bonuses) is not part of this model.
- The visualizer's display-only expressions (percent labels, colours) are not modelled.

## Findings

| source | as written | input that shows it | evidently intended | confidence | as-written member | corrected member |
|---|---|---|---|---|---|---|
| src/app/calculator/page.tsx:42 | the efficiency score is rent × quantity × 86400 / price of one parcel, so it grows with the quantity | Common with quantity 2 scores twice the Common efficiency shown in the comparison panel (line 295) | the tier's efficiency rent × 86400 / price, i.e. daily base rent per AB of total price, independent of quantity | medium, not executed | Calculator.EfficiencyAsWritten, Calculator.EfficiencyAsWrittenDependsOnQuantity | Calculator.TierEfficiency, Calculator.CalculateReturns, Calculator.EfficiencyIsDailyPerCost |
