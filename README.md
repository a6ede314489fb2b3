# Supply-Hub marketplace core, in Dafny

A model of the business logic of the Supply-Hub street-food supply marketplace, where
vendors order from suppliers' offers, with proofs of what that logic promises. Each
source file of the core is one module:

- `Common` (common.dfy): optional values and results, and the JavaScript arithmetic the
  code relies on: `Math.round`, one- and two-decimal rounding, `Math.min`/`Math.max` over
  a list, sums and means.
- `SupplierProducts` (supplier_product.dfy) covers `models/SupplierProduct.js`:
  - the schema bounds of an offer;
  - the bulk-discount resolver, which takes the largest qualifying percentage;
  - `updatePrice` on an offer document held as a class with `price` and `priceHistory` fields;
  - the price-change percentage derived from that history.
- `Orders` (order.dfy) covers `models/Order.js`:
  - the status enumeration, order lines and pricing summary;
  - the pre-save hook, which assigns the first history entry and the order number: `ORD` followed by the count of stored orders plus one, zero-padded to six digits (`ORD000042`);
  - `updateStatus`, which appends to the history;
  - `ageInHours` and `calculateEstimatedDelivery`.
- `OrderRoutes` (orders.dfy) covers `routes/orders.js`:
  - checkout: every line is validated and priced in a loop, the order is built and stock is reserved;
  - cancellation, which restores the stock;
  - rating, which folds supplier ratings into each supplier's running average.
  
  Offers, supplier statistics and orders live in a `Marketplace` object whose methods update them in place.
- `Insights` (ai.dfy) covers the deterministic heuristics of `utils/ai.js`:
  - price analysis and per-offer labels;
  - the demand score;
  - supplier quality scores;
  - the fallback recommendations;
  - market trends;
  - the additive risk assessment;
  - the season of a month.
- `LegacyInsights` (ai_old.dfy) covers `utils/ai_old.js`:
  - the price trend read from price histories;
  - the seasonal price forecast;
  - level-based demand;
  - quality scores capped at 5;
  - at most three recommendations;
  - the three-level risk assessment and its mitigations.
- `ProductRoutes` (products.dfy) covers `routes/products.js`:
  - the vendor listing's aggregation pipeline, stage by stage, over in-memory product documents: category and availability match, offer availability, distance and price filters, the offer sort as written (it leaves offers in stored order) beside the intended one, lowest price and supplier count, product sort and pagination;
  - the matching count query;
  - the product detail view and its in-place sort of offers by price;
  - category-name capitalisation and emoji;
  - the search-suggestion guard.
- `AuthMiddleware` (auth.dfy) covers `middleware/auth.js`:
  - bearer-token extraction;
  - `protect` and `optionalAuth`;
  - the role and verification gates;
  - the sliding-window rate limiter, a class holding the closure's map from client key to accepted timestamps.
- `ProductListing` (product_listing.dfy) covers the vendor screen `src/components/vendor/ProductListing.tsx`:
  - the search and category filter;
  - the cart as a map from product id to quantity, with its update, item count and total.

Time (`Date.now()`, the month, weekday and hour) and values computed by code outside the
model (great-circle distances, `Math.log10`, JWT verification with the user lookup, the
database's text-search ranking) are parameters.

## Model

| member | source | states |
|---|---|---|
| Common.RoundHalfUp | project/backend/utils/ai.js:153 | the integer nearest to x, half-way cases rounded up |
| Common.Round1 | project/backend/utils/ai_old.js:221 | a multiple of 0.1 in (x − 0.05, x + 0.05]: the nearest tenth, half-way cases rounded up |
| Common.Round2 | project/backend/utils/ai.js:220 | a multiple of 0.01 in (x − 0.005, x + 0.005]: the nearest hundredth, half-way cases rounded up |
| Common.SeqMin | project/backend/utils/ai.js:47 | an element of the list that no element is below |
| Common.SeqMax | project/backend/utils/ai.js:48 | an element of the list that no element is above |
| Common.MeanWithinExtremes | project/backend/utils/ai.js:46-48 | the mean of a non-empty list lies between its minimum and its maximum |
| Common.MeanAtMinimum | project/backend/utils/ai.js:226 | the mean of values at least m equals m exactly when every value is m |
| SupplierProducts.Qualifies | project/backend/models/SupplierProduct.js:133-138 | a rule applies when it is active, of type bulk, its minimum quantity is given and reached, and it has no end date or ends after `now` |
| SupplierProducts.QualifyingRules | project/backend/models/SupplierProduct.js:133-138 | a rule is kept exactly when it is active, of type bulk, the quantity reaches its minimum and it is not expired at `now` |
| SupplierProducts.MaxPercentage | project/backend/models/SupplierProduct.js:143 | the result bounds every percentage in the list and is one of them |
| SupplierProducts.BulkDiscount | project/backend/models/SupplierProduct.js:132-144 | 0 when no rule qualifies; otherwise at least every qualifying percentage and equal to one of them (the maximum, never a sum) |
| SupplierProducts.BulkDiscountMonotone | project/backend/models/SupplierProduct.js:136 | with the clock fixed, a larger quantity never gives a smaller discount (once a rule qualifies, or when no percentage is negative) |
| SupplierProducts.BulkDiscountExample | project/backend/models/SupplierProduct.js:140-143 | rules of 5% from 10 and 12% from 50 units give 12 for 60 units, not 17 and not 5 |
| SupplierProducts.PriceChangePercentage | project/backend/models/SupplierProduct.js:112-119 | 0 with fewer than two history entries; otherwise the change against the entry before the last, times 100; None where that previous price is 0 |
| SupplierProducts.SupplierProductDocument.constructor | project/backend/models/SupplierProduct.js:14-18 | a loaded offer with the given price and an empty price history |
| SupplierProducts.SupplierProductDocument.UpdatePrice | project/backend/models/SupplierProduct.js:122-129 | exactly one entry holding the outgoing price is appended (reason defaults to manual_update), earlier entries unchanged, then the price becomes the new one |
| SupplierProducts.PriceChangeAfterTwoUpdates | project/backend/models/SupplierProduct.js:112-129 | after two updates from an empty history the indicator compares the newest price with the price from before the first update |
| Orders.Decimal | project/backend/models/Order.js:207 | `String(n)`: at least one character, all decimal digits (value given back by Orders.ParseDecimalOfDecimal) |
| Orders.ParseDecimalOfDecimal | project/backend/models/Order.js:207 | reading back the digits of `String(n)` gives n |
| Orders.PadStart | project/backend/models/Order.js:207 | `padStart(width, '0')`: length is the larger of width and the input's, the input is kept as the suffix and only zeros precede it |
| Orders.ParsePadStart | project/backend/models/Order.js:207 | zero padding keeps every character a digit and leaves the value unchanged |
| Orders.DecimalAtMostSixDigits | project/backend/models/Order.js:207 | numbers below one million have at most six digits |
| Orders.OrderNumber | project/backend/models/Order.js:206-207 | the order number is at least nine characters long |
| Orders.OrderNumberFormat | project/backend/models/Order.js:207 | "ORD" followed only by digits, exactly nine characters while count + 1 is below one million |
| Orders.OrderNumberRoundTrip | project/backend/models/Order.js:206-207 | the digits after "ORD" read back as count + 1 |
| Orders.OrderNumberInjective | project/backend/models/Order.js:4-8 | equal order numbers come from equal counts, so the unique index holds while orders are never deleted |
| Orders.OrderNumberExample | project/backend/models/Order.js:207 | 41 stored orders give "ORD000042" |
| Orders.AgeInHours | project/backend/models/Order.js:231-233 | whole hours elapsed, rounded down; not negative when now is not before creation |
| Orders.EstimatedDelivery | project/backend/models/Order.js:236-242 | exactly three hours after now, so three whole hours of age |
| Orders.Order.constructor | project/backend/models/Order.js:87-102 | a new order is pending, has no history, no vendor rating and is not yet saved |
| Orders.Order.PreSave | project/backend/models/Order.js:204-217 | on the first save only: the number from the count, and exactly one "Order created" entry with the current status appended; later saves change nothing |
| Orders.Order.SaveAsWritten | project/backend/models/Order.js:4-8 | the required check on the number runs before the hook: saved exactly when a number is already set; otherwise nothing changes |
| Orders.NewOrderSaveRefused | project/backend/routes/orders.js:103-124 | a freshly built order is never saved |
| Orders.Order.UpdateStatus | project/backend/models/Order.js:220-228 | any status is accepted; it becomes the status and exactly one entry (status, note, updatedBy) is appended, earlier entries unchanged |
| Orders.UpdateStatusTwice | project/backend/models/Order.js:220-228 | two updates keep the old history as a prefix, add two entries and the last entry is the current status |
| OrderRoutes.PriceLine | project/backend/routes/orders.js:38-77 | the four checks in order (not found, unavailable, quantity above stock, quantity below minimum), accepted exactly when the offer is available and minimum <= quantity <= stock; an accepted line is priced with the offer's bulk discount for that quantity |
| OrderRoutes.LineFor | project/backend/routes/orders.js:71-88 | the line carries the offer's product, supplier and price and the requested offer and quantity; final price plus discount is the total price |
| OrderRoutes.LineForAmounts | project/backend/routes/orders.js:71-76 | total price is unit price x quantity and the discount is total x bulk% / 100 |
| OrderRoutes.Charges | project/backend/routes/orders.js:94-100 | delivery is 0 exactly when the subtotal is strictly above 500, else 50; tax is 5% of the subtotal; total = subtotal + delivery + tax |
| OrderRoutes.PriceOrderLines | project/backend/routes/orders.js:33-92 | the loop fails with the first failing line's error; otherwise it returns the priced lines with subtotal = sum of final prices and discount = sum of discounts |
| OrderRoutes.PriceAllFailureSticks | project/backend/routes/orders.js:38-69 | once a prefix of the lines fails, the whole request fails with that error |
| OrderRoutes.PriceAllFirstError | project/backend/routes/orders.js:38-69 | the error reported is that of the first failing line, and every earlier line passed its checks |
| OrderRoutes.PricedLinesMatchRequests | project/backend/routes/orders.js:38-88 | a successful pricing has one line per request, in order, with the same offer and quantity, each passing all four checks and with final + discount = total |
| OrderRoutes.PricedLinesInOrder | project/backend/routes/orders.js:38-88 | the k-th priced line is what pricing the k-th request alone gives |
| OrderRoutes.PricedLinesAreValid | project/backend/models/Order.js:30-34 | with every offer within its schema, every stored line has at least one unit |
| OrderRoutes.SubtotalIsGrossMinusDiscount | project/backend/routes/orders.js:90-100 | the subtotal already equals gross minus discounts, so the total does not subtract the discount again |
| OrderRoutes.SumsNonNegative | project/backend/routes/orders.js:90-91 | with each line's discount between 0 and its gross amount, both sums are non-negative |
| OrderRoutes.PricingNonNegative | project/backend/routes/orders.js:71-100 | with schema-valid offers and percentages within 0..100, subtotal, discount, delivery, tax and total are all non-negative |
| OrderRoutes.LineAmountsBounded | project/backend/routes/orders.js:71-77 | a priced line's discount lies between 0 and its gross amount |
| OrderRoutes.PercentWithin | project/backend/routes/orders.js:76 | a percentage within 0..100 of a non-negative amount lies between 0 and the amount |
| OrderRoutes.BulkDiscountBounds | project/backend/routes/orders.js:75 | percentages within 0..100 give a bulk discount within 0..100 |
| OrderRoutes.LinePricingExample | project/backend/routes/orders.js:71-77 | 12 units at 25 with a 15% rule from 10 units: total 300, discount 45, final 255 |
| OrderRoutes.AdjustStock | project/backend/routes/orders.js:127-132 | the `$inc` loop keeps the same set of offers |
| OrderRoutes.AdjustStockAt | project/backend/routes/orders.js:127-132 | each offer's stock moves by sign x the units ordered from it and nothing else about it changes |
| OrderRoutes.ReserveThenRestore | project/backend/routes/orders.js:284-289 | restoring the lines after reserving them gives back the offers exactly |
| OrderRoutes.QuantityForDistinct | project/backend/routes/orders.js:127-132 | with distinct offers per line, the units ordered from a line's offer are that line's quantity |
| OrderRoutes.QuantityForAbsent | project/backend/routes/orders.js:127-132 | an offer named by no line has nothing ordered from it |
| OrderRoutes.ReservationKeepsStockNonNegative | project/backend/routes/orders.js:57 | when every line names a distinct offer, the stock check keeps every stock at or above 0 after the decrement |
| OrderRoutes.RepeatedOfferCanOverdraw | project/backend/routes/orders.js:57 | two lines of 6 for one offer holding 10 both pass the check and leave the stock at -2 |
| OrderRoutes.NewSupplierRating | project/backend/routes/orders.js:433-437 | the exact running mean (r x n + x) / (n + 1) rounded to one decimal: a multiple of 0.1 in (mean − 0.05, mean + 0.05] |
| OrderRoutes.NewSupplierRatingInRange | project/backend/routes/orders.js:433-437 | a rating within 0..5 updated with a new rating within 1..5 stays within 0..5 |
| OrderRoutes.RunningMeanInRange | project/backend/routes/orders.js:435 | the unrounded running mean stays within 0..5 |
| OrderRoutes.Round1InRange | project/backend/routes/orders.js:437 | rounding to one decimal keeps a value within 0..5 |
| OrderRoutes.ApplySupplierRating | project/backend/routes/orders.js:430-439 | a known supplier gets the new rounded mean and one more review, every other supplier is unchanged, an unknown supplier changes nothing |
| OrderRoutes.ApplySupplierRatings | project/backend/routes/orders.js:428-442 | the loop keeps the same set of suppliers |
| OrderRoutes.ReviewCountGrowth | project/backend/routes/orders.js:438 | a supplier's review count grows by the number of ratings that name it |
| OrderRoutes.RatingsFor | project/backend/routes/orders.js:429-431 | at most the number of ratings, and 0 exactly when none names the supplier |
| OrderRoutes.CancelNote | project/backend/routes/orders.js:280 | a missing or empty reason gives "Cancelled by vendor", any other reason is kept |
| OrderRoutes.Marketplace.OrderNumbersUnique | project/backend/models/Order.js:204-207 | distinct stored orders carry distinct order numbers |
| OrderRoutes.Marketplace.StoreOrder | project/backend/routes/orders.js:103-124 | the new order is appended at position count, pending, with the number of that count and one "Order created" entry |
| OrderRoutes.Marketplace.MoveStock | project/backend/routes/orders.js:127-132 | the offers become AdjustStock of the old offers over the lines |
| OrderRoutes.Marketplace.CreateOrder | project/backend/routes/orders.js:14-132 | no items gives NoItems; a failing line gives its error with nothing stored and no stock touched; otherwise the priced order is stored with its charges and each line's quantity is taken off its offer |
| OrderRoutes.Marketplace.CancelOrder | project/backend/routes/orders.js:255-289 | someone else's or a missing order is not found; only pending or confirmed orders are cancelled, with one history entry and every line's quantity from before the call restored; lines, rating and order number never change; otherwise nothing changes |
| OrderRoutes.Marketplace.RecordSupplierRatings | project/backend/routes/orders.js:428-442 | the supplier statistics become ApplySupplierRatings of the old ones |
| OrderRoutes.Marketplace.RateOrder | project/backend/routes/orders.js:388-442 | only an order of the vendor that was delivered and not yet rated before the call (and a rating within 1..5) is rated; then the order holds the rating and the suppliers are updated; status, history, lines and order number never change; otherwise nothing changes |
| OrderRoutes.CreateThenCancelTwice | project/backend/routes/orders.js:124-132 | a successful create followed by a cancel returns every stock to its earlier value, and a second cancel is refused |
| Insights.SeasonOf | project/backend/utils/ai.js:506-512 | summer exactly for months 3-5, monsoon 6-9, winter 10-11, spring otherwise |
| Insights.PricesOf | project/backend/utils/ai.js:45 | the offers' prices, in order |
| Insights.LabelOf | project/backend/utils/ai.js:110-111 | excellent exactly at or below 90% of the average, good above that up to 110%, expensive above 110% |
| Insights.FirstAtPrice | project/backend/utils/ai.js:103 | `find`: the first offer at the given price |
| Insights.Variability | project/backend/utils/ai.js:49-50 | defined exactly for a non-zero average, and then variability x average = (max - min) x 100 |
| Insights.PriceAnalysis | project/backend/utils/ai.js:37-113 | unavailable exactly with no offers; otherwise the average is the sum of the prices over their count, the minimum and maximum are offered prices, the best deal is an offer and there is one label per offer |
| Insights.PriceStatsBounds | project/backend/utils/ai.js:45-48 | minimum <= average <= maximum and every price lies between minimum and maximum |
| Insights.PriceTrendRules | project/backend/utils/ai.js:94-99 | volatile exactly when the variability exceeds 20; confidence 85 exactly below 10, else 65; a zero average gives neither |
| Insights.BestDealIsFirstCheapest | project/backend/utils/ai.js:103 | the best deal asks the minimum price and every earlier offer asks more |
| Insights.LabelsFollowAverage | project/backend/utils/ai.js:104-112 | each offer's label compares its price with 0.9 and 1.1 times the average |
| Insights.GoodTimeIffUniformPrice | project/backend/utils/ai.js:101 | "Good time to buy" exactly when every offer asks the same price |
| Insights.SingleSupplierAnalysis | project/backend/utils/ai.js:45-112 | a single offer is its own average, minimum, maximum and best deal, stable with confidence 85, rated good |
| Insights.SeasonalDemandFactor | project/backend/utils/ai.js:128-135 | the factor lies within 0.8..2.0 and is 1.0 for a category the table does not list |
| Insights.DayFactor | project/backend/utils/ai.js:139 | within 0.8..1.4, above 1 exactly from Thursday on |
| Insights.HourFactor | project/backend/utils/ai.js:143-147 | within 0.7..1.6, and 0.7 exactly outside the meal and snack hours |
| Insights.Clamp100 | project/backend/utils/ai.js:150 | within 0..100, the identity inside that range, 100 above it |
| Insights.DemandLevelOf | project/backend/utils/ai.js:154-157 | strict thresholds at 80, 60, 40 and 20 |
| Insights.RawDemandFloor | project/backend/utils/ai.js:125-148 | factors at least 0.8, 0.8 and 0.7 give at least 22.4 |
| Insights.DemandFloor | project/backend/utils/ai.js:125-157 | the demand score never falls below 22.4, so the level is never very low |
| Insights.DemandSaturates | project/backend/utils/ai.js:125-150 | ice cream in summer on a Saturday lunchtime clamps to 100 |
| Insights.ScaleDemand | project/backend/utils/ai.js:125-150 | the score is 50 x each factor in turn, clamped to 0..100 |
| Insights.DemandScore | project/backend/utils/ai.js:125-150 | within 0..100: 50 x seasonal x day x hour factor, clamped (and by DemandFloor never below 22.4) |
| Insights.PredictDemand | project/backend/utils/ai.js:119-162 | the rounded score lies within 22..100, the level buckets the unrounded score and is never very low, and each factor is reported as Math.round((factor − 1) x 100) of its seasonal, weekday or hour table entry, hence within its bounds |
| Insights.GradeOf | project/backend/utils/ai.js:221 | A from 80, B from 60, C from 40, else D |
| Insights.RatingPoints | project/backend/utils/ai.js:184-188 | rating / 5 x 40 points: 0 for no rating, within 0..40 for a rating within 0..5 |
| Insights.ReviewPoints | project/backend/utils/ai.js:191-195 | 0 without reviews; otherwise min(20, 10 x log10(n + 1)): at most both, and equal to one of them |
| Insights.DistancePoints | project/backend/utils/ai.js:198-202 | 20 - 2 x distance for a distance strictly between 0 and 10, else 0; never negative |
| Insights.ResponsePoints | project/backend/utils/ai.js:205-209 | within 0..10; 0 without a response time or at 600 minutes or more; otherwise exactly 10 − minutes / 60 |
| Insights.AvailabilityPoints | project/backend/utils/ai.js:212-213 | 10, 5 or 0, and 10 exactly when in stock |
| Insights.SupplierPointsBounded | project/backend/utils/ai.js:179-216 | with a rating within 0..5 and non-negative inputs, one supplier scores within 0..100 |
| Insights.ScoreSupplier | project/backend/utils/ai.js:179-223 | the reported score is the rounded sum of the five components; the grade uses the unrounded sum |
| Insights.SupplierPoints | project/backend/utils/ai.js:179-216 | rating, reviews, distance, response and availability points added up (by SupplierPointsBounded within 0..100) |
| Insights.QualityAdviceOf | project/backend/utils/ai.js:234-236 | excellent from 70, good from 50, limited below |
| Insights.ScoresOf | project/backend/utils/ai.js:226 | the entries' scores, in order |
| Insights.CalculateQualityScore | project/backend/utils/ai.js:174-238 | no suppliers give no score; otherwise one entry per supplier, the top supplier has the highest score and is the first with it, the average is the mean of the rounded scores and the advice follows it |
| Insights.ScoreAll | project/backend/utils/ai.js:179-224 | one entry per supplier, in order, with its rounded score and grade |
| Insights.BestAndTotal | project/backend/utils/ai.js:226-228 | the sum of the scores and the first entry with the highest score |
| Insights.HighCount | project/backend/utils/ai.js:319 | at most the number of recommendations |
| Insights.FallbackRecommendations | project/backend/utils/ai.js:290-313 | three items: pricing (high), timing (high exactly when the demand score exceeds 70, else medium), quality choice (medium) |
| Insights.FallbackHighCount | project/backend/utils/ai.js:316-320 | the summary counts two high-priority items when demand exceeds 70, else one |
| Insights.UrgentTimingMeansHighDemand | project/backend/utils/ai.js:302-304 | urgent timing advice only occurs at high or very high demand |
| Insights.SeasonalTrendFactor | project/backend/utils/ai.js:331-348 | spring has no seasonal trend |
| Insights.ImpactOf | project/backend/utils/ai.js:353-354 | positive exactly above 1.1, negative exactly below 0.9, else neutral |
| Insights.CountImpact | project/backend/utils/ai.js:389 | at most the number of trends |
| Insights.CountImpactAppend | project/backend/utils/ai.js:389 | appending a trend adds one to the count of its own impact only |
| Insights.CountImpactConcat | project/backend/utils/ai.js:389 | counts over a concatenation add up |
| Insights.TrendsOf | project/backend/utils/ai.js:349-383 | one trend per condition met: seasonal entry, weekend, meal time |
| Insights.TrendCounts | project/backend/utils/ai.js:349-383 | positives are the seasonal one above 1.1 plus the weekly and daily ones; the only possible negative is a seasonal one below 0.9 |
| Insights.CollectTrends | project/backend/utils/ai.js:349-391 | the trends in push order; neutral exactly with no trend; positive exactly when positives outnumber negatives, stated in terms of the three conditions |
| Insights.MarketTrends | project/backend/utils/ai.js:326-391 | the trends of the season's factor, Friday or Saturday and meal time; the overall reading as for CollectTrends |
| Insights.LoneNeutralTrendReadsNegative | project/backend/utils/ai.js:388-390 | a single neutral trend reads as negative overall |
| Insights.Weight | project/backend/utils/ai.js:409-449 | a risk adds between 0 and 30 points |
| Insights.CountLowRated | project/backend/utils/ai.js:429 | at most the number of suppliers, and 0 exactly when no supplier has a non-zero rating below 3 |
| Insights.CountLowRatedAppend | project/backend/utils/ai.js:429 | appending a supplier adds one exactly when it is low rated |
| Insights.CountDistant | project/backend/utils/ai.js:441 | at most the number of suppliers, and 0 exactly when no supplier is more than 10 km away |
| Insights.CountDistantAppend | project/backend/utils/ai.js:441 | appending a supplier adds one exactly when it is distant |
| Insights.OverallRiskOf | project/backend/utils/ai.js:453 | low below 20, medium below 50, else high |
| Insights.SupplyRiskOf | project/backend/utils/ai.js:402-410 | a supply risk exactly with fewer than three suppliers, high exactly for one |
| Insights.PriceRiskOf | project/backend/utils/ai.js:412-426 | a price risk exactly when volatility exceeds 20%, high exactly above 40% |
| Insights.VolatilityWithRoot | project/backend/utils/ai.js:413-418 | for a positive mean, the squared test agrees with standard deviation / mean x 100 > pct |
| Insights.QualityRiskOf | project/backend/utils/ai.js:428-438 | a quality risk exactly when some supplier is rated below 3, high exactly when they are more than half |
| Insights.LogisticsRiskOf | project/backend/utils/ai.js:440-450 | a medium logistics risk exactly when more than 70% of suppliers are beyond 10 km |
| Insights.Points | project/backend/utils/ai.js:409-449 | at most 30 for supply, 25 for price, 20 for quality and exactly 10 for logistics; 0 when not found |
| Insights.TotalWeightAppend | project/backend/utils/ai.js:398-450 | appending a found risk adds its points to the total weight |
| Insights.PointsAtMost85 | project/backend/utils/ai.js:398-454 | the four risks together add at most 85 points |
| Insights.AddSupplyRisk | project/backend/utils/ai.js:402-410 | the supply risk, when found, is appended and its points added |
| Insights.AddPriceRisk | project/backend/utils/ai.js:418-426 | the price risk, when found, is appended and its points added |
| Insights.AddQualityRisk | project/backend/utils/ai.js:429-438 | the quality risk, when found, is appended and its points added |
| Insights.AddLogisticsRisk | project/backend/utils/ai.js:441-450 | the logistics risk, when found, is appended and its points added |
| Insights.AssessRisk | project/backend/utils/ai.js:397-460 | the risks in source order; the score equals their total weight, lies within 0..85 (so the cap at 100 never applies) and the overall level buckets it; no suppliers give 15 and low |
| LegacyInsights.PricesOf | project/backend/utils/ai_old.js:42 | the offers' prices, in order |
| LegacyInsights.SeasonalFactors | project/backend/utils/ai_old.js:414-426 | an empty table for any category other than vegetables and grains; every entry is a month 1..12 with a factor within 0.9..1.3 |
| LegacyInsights.SeasonalDemand | project/backend/utils/ai_old.js:428-431 | the table entry, 1.0 for a category or month without one; always within 0.9..1.3 |
| LegacyInsights.SeasonalPeak | project/backend/utils/ai_old.js:170-175 | the factor exceeds 1.2 exactly for vegetables in July |
| LegacyInsights.DemandScoreOf | project/backend/utils/ai_old.js:433-442 | 1, 2, 4 and 5 exactly for very_low, low, high and very_high; 3 for medium and every other name |
| LegacyInsights.DemandScoreFollowsRank | project/backend/utils/ai_old.js:433-442 | the demand table agrees with the order of the levels |
| LegacyInsights.RiskScoreOf | project/backend/utils/ai_old.js:444-452 | 2, 3 and 4 exactly for medium, high and very_high; 1 for low and every other name |
| LegacyInsights.RiskScoreOfLevels | project/backend/utils/ai_old.js:444-452 | low, medium and high score 1, 2 and 3 |
| LegacyInsights.ForecastPrice | project/backend/utils/ai_old.js:97-137 | a strong trend (beyond 5% either way) decides the direction by its sign with high confidence; otherwise above 1.1 is an increase and below 0.9 a decrease, both high confidence; a decrease needs a trend below -5 |
| LegacyInsights.PriceChange | project/backend/utils/ai_old.js:53-54 | the change against the last history entry, undefined (NaN) exactly when both prices are 0 |
| LegacyInsights.PriceChangeSign | project/backend/utils/ai_old.js:53-54 | against a positive last price the change is positive exactly when the price rose and negative exactly when it fell; a missing last price gives 0 |
| LegacyInsights.PriceChanges | project/backend/utils/ai_old.js:50-55 | at most one change per offer |
| LegacyInsights.PriceChangesWithoutHistory | project/backend/utils/ai_old.js:51 | offers without a price history contribute no change |
| LegacyInsights.SumChanges | project/backend/utils/ai_old.js:58 | the sum is NaN exactly when some change is |
| LegacyInsights.AverageChange | project/backend/utils/ai_old.js:57-59 | 0 without changes; NaN exactly when some change is |
| LegacyInsights.AnalysePrices | project/backend/utils/ai_old.js:34-92 | unavailable exactly without suppliers; minimum and maximum are offered prices bounding all others; avgPrice is the rounded mean, within half a unit of them; variability is the rounded spread as a percentage of the mean exactly when the mean is not zero; avgPriceChange is the mean change rounded to one decimal; the trend and note follow the average change and the spread; the forecast follows the average change and the season |
| LegacyInsights.PriceRange | project/backend/utils/ai_old.js:42-45 | the mean, the lowest and the highest price; the mean lies between the two |
| LegacyInsights.ClassifyPrices | project/backend/utils/ai_old.js:61-76 | decreasing exactly below -3, increasing exactly above 3; dropped and rose notes exactly with those trends; a varied note exactly for a stable trend with a spread above 20% of the mean |
| LegacyInsights.PredictDemand | project/backend/utils/ai_old.js:142-184 | increasing exactly for vegetables in July, then high; otherwise very high exactly at a vegetable peak hour on a weekend and medium exactly at neither; the score is the level's rank, 3 to 5 |
| LegacyInsights.SupplierScore | project/backend/utils/ai_old.js:194-218 | at most 5; below the cap, within the base score plus 0..1.3; with no bonus condition, the base score capped at 5 |
| LegacyInsights.FastDeliveryBonus | project/backend/utils/ai_old.js:203-205 | a delivery estimate under two hours adds 0.5 to a supplier without one, up to the cap of 5 |
| LegacyInsights.StockBonus | project/backend/utils/ai_old.js:208-210 | more than 100 in stock adds 0.3 to a supplier without it, up to the cap of 5 |
| LegacyInsights.CertificationBonus | project/backend/utils/ai_old.js:213-215 | a certification adds 0.5 to a supplier without one, up to the cap of 5 |
| LegacyInsights.ScoresOf | project/backend/utils/ai_old.js:194 | one score per supplier, in order |
| LegacyInsights.QualityNoteOf | project/backend/utils/ai_old.js:223-230 | excellent from 4.5, good from 4.0, variable below 3.0, average otherwise |
| LegacyInsights.QualityScore | project/backend/utils/ai_old.js:189-237 | no data exactly without suppliers; otherwise the distribution is the supplier scores, the score is their mean rounded to one decimal, and the note follows that score |
| LegacyInsights.Round1AtMostFive | project/backend/utils/ai_old.js:221 | rounding to one decimal keeps a value at most 5 |
| LegacyInsights.RoundedMeanBounds | project/backend/utils/ai_old.js:220-221 | the rounded mean of scores at most 5 is at most 5 and no lower than the smallest score less 0.05 |
| LegacyInsights.QualityBounds | project/backend/utils/ai_old.js:189-237 | every supplier score is at most 5, and so is the reported score, which is no lower than the weakest supplier's less 0.05 |
| LegacyInsights.PlainSupplierScoresThree | project/backend/utils/ai_old.js:195-217 | a supplier with no rating and no bonus scores 3 |
| LegacyInsights.Nearest | project/backend/utils/ai_old.js:271-277 | the first supplier with the smallest distance (a missing one counts as 0) |
| LegacyInsights.FirstBulk | project/backend/utils/ai_old.js:293 | a bulk rule of the list |
| LegacyInsights.BestBulk | project/backend/utils/ai_old.js:292-295 | not negative, at least every supplier's first bulk percentage, and 0 or one of them |
| LegacyInsights.CountBulk | project/backend/utils/ai_old.js:290-291 | at most the number of suppliers, and 0 exactly when none has a bulk rule |
| LegacyInsights.CountPremium | project/backend/utils/ai_old.js:306-310 | at most the number of suppliers, and 0 exactly when none is rated 4.5 or more |
| LegacyInsights.PriceAdvice | project/backend/utils/ai_old.js:255-267 | one item exactly when the spread exceeds 5 |
| LegacyInsights.NearbyAdvice | project/backend/utils/ai_old.js:270-287 | one item exactly when the vendor is located, there is more than one supplier and one is nearer than 5 |
| LegacyInsights.BulkAdvice | project/backend/utils/ai_old.js:290-303 | one item exactly when some supplier has a bulk rule |
| LegacyInsights.PremiumAdvice | project/backend/utils/ai_old.js:306-317 | one item exactly when some supplier is rated 4.5 or more |
| LegacyInsights.AllAdvice | project/backend/utils/ai_old.js:254-317 | at most four items |
| LegacyInsights.Recommend | project/backend/utils/ai_old.js:242-320 | without suppliers one high-priority availability item; otherwise the first three of the applicable advice; never more than three |
| LegacyInsights.CutDropsOnlyPremium | project/backend/utils/ai_old.js:319 | the cut to three keeps the price, nearby and bulk advice and drops the premium advice only when all four apply; price advice comes first |
| LegacyInsights.Mitigations | project/backend/utils/ai_old.js:468-470 | one mitigation per risk, in the same order |
| LegacyInsights.AssessRisk | project/backend/utils/ai_old.js:360-411 | the risks in source order; high exactly below two suppliers, medium exactly for a volatile spread otherwise, else low; the score is the level's 1, 2 or 3; the mitigations follow the risks |
| LegacyInsights.NoSuppliersRisks | project/backend/utils/ai_old.js:376-396 | no suppliers count as low rated and not volatile |
| LegacyInsights.RatingSumAtLeast | project/backend/utils/ai_old.js:392-394 | ratings (3 for a missing one) at least lo sum to at least lo x n |
| LegacyInsights.RatingSumUnrated | project/backend/utils/ai_old.js:392-394 | suppliers without ratings sum to 3 each |
| LegacyInsights.LowRatedCases | project/backend/utils/ai_old.js:392-403 | suppliers all rated 3.5 or more raise no quality risk; suppliers all without rating always do |
| ProductRoutes.InsertBy | project/backend/routes/products.js:188-191 | inserting one element gives a permutation of the input plus that element |
| ProductRoutes.InsertBySorted | project/backend/routes/products.js:188-191 | under a total preorder, inserting into a sorted list keeps it sorted |
| ProductRoutes.SortBy | project/backend/routes/products.js:188-191 | `$sortArray` returns a permutation of its input |
| ProductRoutes.SortBySorted | project/backend/routes/products.js:188-191 | under a total preorder the result is sorted |
| ProductRoutes.CategoryMatches | project/backend/routes/products.js:33-35 | a product matches a missing, empty or "all" category, and otherwise exactly a category equal to its own |
| ProductRoutes.CategoryFilterOff | project/backend/routes/products.js:33-35 | every product matches exactly when the category is missing, empty or "all"; any other category excludes some product |
| ProductRoutes.NearEnough | project/backend/routes/products.js:110-139 | an offer whose supplier has no coordinates always stays; otherwise it stays when the squared offsets are within (111 x maxDistance)^2 and maxDistance is not negative |
| ProductRoutes.NearEnoughWithRoot | project/backend/routes/products.js:113-138 | the comparison without the square root agrees with sqrt(dlng^2 + dlat^2) / 111 <= maxDistance |
| ProductRoutes.MatchStage | project/backend/routes/products.js:31-43 | no longer than the catalogue, and keeps exactly the active products that match the category (all of them for a missing, empty or "all" category) |
| ProductRoutes.KeepOffers | project/backend/routes/products.js:91-94 | `$filter` on one product's offers: no longer than its input, and keeps exactly the offers that pass the test |
| ProductRoutes.OfferStage | project/backend/routes/products.js:88-97 | an `$addFields` filter keeps every product in place and replaces only its offers by those that pass the test |
| ProductRoutes.AvailabilityStage | project/backend/routes/products.js:88-97 | every product keeps exactly its available offers |
| ProductRoutes.DistanceStage | project/backend/routes/products.js:106-144 | every product keeps exactly the offers near enough to the vendor (and those whose supplier has no coordinates) |
| ProductRoutes.PriceStage | project/backend/routes/products.js:146-166 | every product keeps exactly the offers at or above the minimum and at or below the maximum, each bound only when given |
| ProductRoutes.NonEmptyStage | project/backend/routes/products.js:98-102 | no longer than its input, and keeps exactly the products with at least one offer left |
| ProductRoutes.SortModeOf | project/backend/routes/products.js:169-182 | distance and rating exactly for those names; price for "price" and every other value |
| ProductRoutes.EntryOrderIsTotal | project/backend/routes/products.js:169-182 | each sort key (price ascending, coordinates ascending, rating descending) is a total preorder |
| ProductRoutes.FieldAt | project/backend/routes/products.js:169-194 | inside an offer, every path that starts with `suppliers` is missing |
| ProductRoutes.KeyOrderTies | project/backend/routes/products.js:169-194 | each of the three keys the switch builds ties every pair of offers |
| ProductRoutes.InsertByAllTied | project/backend/routes/products.js:188-191 | when every pair ties, an inserted element goes to the end |
| ProductRoutes.SortByAllTied | project/backend/routes/products.js:188-191 | when every pair ties, `$sortArray` returns its input unchanged |
| ProductRoutes.SortOffersStage | project/backend/routes/products.js:184-194 | as written, the stage returns every product unchanged, so offers keep their stored order whatever `sortBy` asks |
| ProductRoutes.IntendedSortOffersStage | project/backend/routes/products.js:169-194 | the evidently intended stage keeps every product in place, its offers the same as a multiset |
| ProductRoutes.IntendedOffersSorted | project/backend/routes/products.js:169-194 | the intended stage leaves every product's offers sorted by the requested key |
| ProductRoutes.SortTwo | project/backend/routes/products.js:188-191 | sorting two elements swaps them exactly when the first may not precede the second |
| ProductRoutes.OfferSortExample | project/backend/routes/products.js:169-194 | offers priced 30 then 10, listed by price: the stage as written keeps 30 first, the intended sort puts 10 first |
| ProductRoutes.LowestPrice | project/backend/routes/products.js:197 | `$min`: null exactly without offers, otherwise an offered price no higher than any other |
| ProductRoutes.Summarise | project/backend/routes/products.js:195-200 | lowestPrice is the cheapest offer, supplierCount the number of offers |
| ProductRoutes.SummariseStage | project/backend/routes/products.js:195-200 | every product is summarised, in order |
| ProductRoutes.LowestFirstIsTotal | project/backend/routes/products.js:201 | ordering by lowestPrice with null first is a total preorder |
| ProductRoutes.Paginate | project/backend/routes/products.js:202-203 | refused for a page or limit below 1; otherwise the items from position (page - 1) x limit on, in order: limit of them while enough remain, every remaining one on a short last page, none past the end |
| ProductRoutes.Skip | project/backend/routes/products.js:202 | skip + limit = page x limit |
| ProductRoutes.PageCount | project/backend/routes/products.js:229 | `Math.ceil(total / limit)`: the smallest number of pages that holds the total |
| ProductRoutes.AdmittedOffers | project/backend/routes/products.js:88-166 | exactly the offers that are available, near enough when the vendor has a location, and within the given price bounds |
| ProductRoutes.ListedProducts | project/backend/routes/products.js:42-166 | one product per listable catalogue product (active, of the category, with an available offer), each offer left admitted by every filter |
| ProductRoutes.KeepOne | project/backend/routes/products.js:88-166 | one `$filter` stage keeps what passing its single test keeps |
| ProductRoutes.KeepThen | project/backend/routes/products.js:105-166 | a further `$filter` after some tests keeps what passing all of them and the new one keeps |
| ProductRoutes.KeepAllAdmitted | project/backend/routes/products.js:88-166 | the tests the handler pushes for a vendor and a query keep exactly the admitted offers |
| ProductRoutes.OfferStageAppend | project/backend/routes/products.js:88-166 | an offer filter stage works product by product, so it distributes over concatenation |
| ProductRoutes.NonEmptyStageCons | project/backend/routes/products.js:98-102 | a product in front is kept exactly when it has an offer, before the rest |
| ProductRoutes.NonEmptyStageAppend | project/backend/routes/products.js:98-102 | dropping empty products distributes over concatenation |
| ProductRoutes.FirstStages | project/backend/routes/products.js:31-102 | the match, the availability filter and the drop of empty products leave the listable products in catalogue order, each with its available offers |
| ProductRoutes.StagedThen | project/backend/routes/products.js:105-166 | each further offer filter on those products adds its test |
| ProductRoutes.StagedIsListed | project/backend/routes/products.js:42-166 | with the handler's tests, the staged catalogue is the one-pass listing |
| ProductRoutes.FilterStages | project/backend/routes/products.js:42-166 | the stages leave exactly the listable products in catalogue order, each with exactly its admitted offers in stored order; so every offer passed every filter, and the count equals the number of listable products |
| ProductRoutes.ListProducts | project/backend/routes/products.js:13-232 | refused exactly for a page or limit below 1; otherwise the items are the requested page of the listed products, summarised and ordered cheapest first (at most limit, sorted, each with admitted offers and its own lowest price and count); the total is the number of listable products, pages is ceil(total / limit) and currentPage the page asked for |
| ProductRoutes.PageOfSorted | project/backend/routes/products.js:201-203 | a page of a sorted list is sorted and drawn from it |
| ProductRoutes.DetailRowOf | project/backend/routes/products.js:268-283 | the distance is present exactly when both vendor and supplier have coordinates, and then it is their great-circle distance |
| ProductRoutes.SortByPrice | project/backend/routes/products.js:287 | the rows, in place, end sorted by price ascending and are a permutation of the rows before |
| ProductRoutes.SinkRow | project/backend/routes/products.js:287 | one insertion pass extends the sorted prefix by one row and permutes the array |
| ProductRoutes.SinkStart | project/backend/routes/products.js:287 | a pass starts with its row placed after a sorted prefix |
| ProductRoutes.SinkStep | project/backend/routes/products.js:287 | swapping the row with a dearer neighbour keeps the pass invariant and the multiset |
| ProductRoutes.SinkDone | project/backend/routes/products.js:287 | once the row is not cheaper than its left neighbour the prefix is sorted |
| ProductRoutes.ProductDetail | project/backend/routes/products.js:258-287 | the available and active offers as rows, sorted by price, as a permutation of the mapped rows |
| ProductRoutes.DetailRows | project/backend/routes/products.js:258-284 | exactly the available offers of active documents: every such offer has its row, and every row is one of theirs |
| ProductRoutes.UpperCase | project/backend/routes/products.js:319 | a lower-case ASCII letter becomes its capital; any other character is kept |
| ProductRoutes.DisplayName | project/backend/routes/products.js:319 | same length; the first character capitalised, the rest kept |
| ProductRoutes.DisplayNameIdempotent | project/backend/routes/products.js:319 | capitalising twice is capitalising once |
| ProductRoutes.CategoryEmoji | project/backend/routes/products.js:444-457 | the parcel exactly for "other" and every category outside the table |
| ProductRoutes.Suggestions | project/backend/routes/products.js:340-360 | empty for a missing query or one shorter than two characters; otherwise the first ten of the ranked matches |
| AuthMiddleware.IndexOfSpace | project/backend/middleware/auth.js:10 | the position of the first space: a space stands there and none before it |
| AuthMiddleware.Split | project/backend/middleware/auth.js:10 | at least one field, no field holds a space, and joining the fields with single spaces gives the header back |
| AuthMiddleware.SplitFirstField | project/backend/middleware/auth.js:10 | a space-free field followed by a space and the rest splits into that field and the fields of the rest |
| AuthMiddleware.SplitJoin | project/backend/middleware/auth.js:10 | splitting fields joined with single spaces gives back those fields when none holds a space |
| AuthMiddleware.BearerToken | project/backend/middleware/auth.js:9-11 | a token is found only in a header that starts with the scheme, and it is non-empty and holds no space |
| AuthMiddleware.BearerTokenRoundTrip | project/backend/middleware/auth.js:9-11 | the header "Bearer <token>" yields exactly that token |
| AuthMiddleware.BearerTokenMissing | project/backend/middleware/auth.js:9-19 | a header holding only the scheme yields no token, so the request is refused |
| AuthMiddleware.BearerTokenDoubleSpace | project/backend/middleware/auth.js:10-14 | two spaces after the scheme make the second field empty, and no token is taken whatever follows |
| AuthMiddleware.BearerTokenOtherScheme | project/backend/middleware/auth.js:9 | a header with another scheme yields no token |
| AuthMiddleware.Protect | project/backend/middleware/auth.js:5-68 | accepted exactly when a token is found, it resolves to a user and that user is active; the request then carries that user; every refusal is a 401 |
| AuthMiddleware.OptionalAuth | project/backend/middleware/auth.js:112-133 | the request carries a user exactly when the same header would pass protect, and then the same user |
| AuthMiddleware.ClientKey | project/backend/middleware/auth.js:140 | the limiter counts an authenticated request under the user's id, whatever its address, and an anonymous one under its address |
| AuthMiddleware.Authorize | project/backend/middleware/auth.js:71-89 | passes exactly when there is a user whose role is listed; 401 without a user, 403 for a role not listed |
| AuthMiddleware.AuthorizeMonotone | project/backend/middleware/auth.js:80 | allowing more roles never turns a passing request away |
| AuthMiddleware.RequireVerification | project/backend/middleware/auth.js:92-109 | passes exactly when there is a verified user; 401 without a user, 403 for an unverified one |
| AuthMiddleware.Prune | project/backend/middleware/auth.js:146 | keeps exactly the timestamps strictly after the window's start, each as often as stored, and no more entries than before |
| AuthMiddleware.PruneAppend | project/backend/middleware/auth.js:146 | pruning keeps the stored order: it distributes over concatenation |
| AuthMiddleware.PruneOldest | project/backend/middleware/auth.js:146-155 | the first kept timestamp, which the retry figure reads, is the first stored one inside the window |
| AuthMiddleware.CeilDiv | project/backend/middleware/auth.js:156 | the ceiling of x / d: the least q with x at most q x d |
| AuthMiddleware.Decide | project/backend/middleware/auth.js:150-158 | refused exactly when the window already holds max requests; the refusal carries the given message or the default, and retryAfter is the ceiling of the oldest request's remaining window in seconds, undefined for an empty window |
| AuthMiddleware.RetryAfterPositive | project/backend/middleware/auth.js:156 | with the oldest kept request inside the window, retryAfter is at least one second |
| AuthMiddleware.FullWindowRefuses | project/backend/middleware/auth.js:142-158 | once max requests lie inside the window, the next request is refused |
| AuthMiddleware.PruneKeepsRecent | project/backend/middleware/auth.js:146 | pruning keeps a list whose every timestamp is inside the window unchanged |
| AuthMiddleware.PruneDropsExpired | project/backend/middleware/auth.js:146 | pruning empties a list whose every timestamp is at or before the window's start |
| AuthMiddleware.StoredListBounded | project/backend/middleware/auth.js:152-161 | an accepted request leaves at most max timestamps stored for its key |
| AuthMiddleware.InWindow | project/backend/middleware/auth.js:145-150 | the key's stored list pruned to the window, or empty for a key with no list |
| AuthMiddleware.RateLimiter.constructor | project/backend/middleware/auth.js:136-137 | a limiter with the given window, maximum and message and an empty request map |
| AuthMiddleware.RateLimiter.Handle | project/backend/middleware/auth.js:139-163 | answers as Decide on the key's pruned list; an accepted request stores the pruned list plus now, a refused one only the pruning; other keys are untouched and no key ever holds more than max timestamps |
| AuthMiddleware.OtpLimitScenario | project/backend/middleware/auth.js:167-171 | with three OTP requests stored, a fourth at the same time is refused with the OTP message and retryAfter 900, and one a full window later passes |
| ProductListing.LowerCase | project/src/components/vendor/ProductListing.tsx:111 | same length; each capital letter becomes its small letter and every other character is kept |
| ProductListing.IncludesAt | project/src/components/vendor/ProductListing.tsx:111 | the substring test holds exactly when the term occurs at some position of the name |
| ProductListing.FilteredProducts | project/src/components/vendor/ProductListing.tsx:110-114 | a product is listed exactly when it is in the list, its lower-cased name contains the lower-cased term, and the category is "all" or the selected one |
| ProductListing.FilteredProductsCount | project/src/components/vendor/ProductListing.tsx:110-114 | a shown product appears as often as in the list, any other not at all |
| ProductListing.FilteredProductsAppend | project/src/components/vendor/ProductListing.tsx:110-114 | the filter keeps the list's order: it distributes over concatenation |
| ProductListing.InitialFilterShowsAll | project/src/components/vendor/ProductListing.tsx:22-23 | the screen's initial empty search in "all" lists every product in order |
| ProductListing.SearchIgnoresCase | project/src/components/vendor/ProductListing.tsx:111 | lower-casing the search term changes nothing in what is listed |
| ProductListing.LowerCaseIdempotent | project/src/components/vendor/ProductListing.tsx:111 | lower-casing twice is lower-casing once |
| ProductListing.UpdateCart | project/src/components/vendor/ProductListing.tsx:116-130 | the product's quantity becomes max(0, current + change) with a missing entry read as 0, the entry is deleted at zero, every other entry is kept, and a cart without zero quantities stays so |
| ProductListing.AddThenRemove | project/src/components/vendor/ProductListing.tsx:119-126 | a "+" then a "-" on one product gives the cart back, also for a product not yet in it |
| ProductListing.RemoveAbsent | project/src/components/vendor/ProductListing.tsx:119-123 | lowering a product that is not in the cart leaves the cart unchanged |
| ProductListing.ItemCount | project/src/components/vendor/ProductListing.tsx:139-141 | the sum of the quantities: 0 for an empty cart, never negative when no quantity is |
| ProductListing.ItemCountWithout | project/src/components/vendor/ProductListing.tsx:139-141 | the item count is any entry's quantity plus the count of the rest, whatever the entry order |
| ProductListing.ItemCountPositive | project/src/components/vendor/ProductListing.tsx:139-141 | on a cart without zero quantities the count is at least the number of entries, and positive exactly when the cart is not empty |
| ProductListing.ItemCountAfterUpdate | project/src/components/vendor/ProductListing.tsx:116-141 | an update moves the item count by exactly the change in the product's quantity |
| ProductListing.ItemCountOneLine | project/src/components/vendor/ProductListing.tsx:139-141 | carts that differ in one product's line differ in count by that line |
| ProductListing.ItemCountSplit | project/src/components/vendor/ProductListing.tsx:139-141 | the count is the product's quantity plus the count of the rest of the cart |
| ProductListing.ItemCountSteps | project/src/components/vendor/ProductListing.tsx:116-141 | a "+" adds one item; a "-" removes one when the product is in the cart and none otherwise |
| ProductListing.PriceOf | project/src/components/vendor/ProductListing.tsx:134-135 | the first product with the id, at whatever position, gives the price; an id in no product gives 0 |
| ProductListing.PriceOfNonNegative | project/src/components/vendor/ProductListing.tsx:134-135 | with non-negative prices, the price looked up is never negative |
| ProductListing.CartTotal | project/src/components/vendor/ProductListing.tsx:132-137 | price times quantity over the cart's entries: 0 for an empty cart |
| ProductListing.CartTotalNonNegative | project/src/components/vendor/ProductListing.tsx:132-137 | non-negative quantities at non-negative prices never total below zero |
| ProductListing.CartTotalWithout | project/src/components/vendor/ProductListing.tsx:132-137 | the total is any entry's price times quantity plus the total of the rest, whatever the entry order |
| ProductListing.CartTotalAfterUpdate | project/src/components/vendor/ProductListing.tsx:116-137 | an update moves the total by the product's price times the change in its quantity |
| ProductListing.CartTotalOneLine | project/src/components/vendor/ProductListing.tsx:132-137 | carts that differ in one product's line differ in total by that line's price times the change |
| ProductListing.UpdateKeepsOthers | project/src/components/vendor/ProductListing.tsx:118-128 | an update leaves every other entry of the cart as it was |
| ProductListing.CartTotalSplit | project/src/components/vendor/ProductListing.tsx:132-137 | the total is the product's price times its quantity plus the total of the rest |
| ProductListing.UnknownIdsCostNothing | project/src/components/vendor/ProductListing.tsx:134-135 | a cart whose ids are all missing from the product list totals 0 |
| ProductListing.CataloguePrices | project/src/components/vendor/ProductListing.tsx:35-71 | onions cost 25 and turmeric 180 in the screen's product list |
| ProductListing.CartTotalSingle | project/src/components/vendor/ProductListing.tsx:132-137 | a one-entry cart totals that entry's price times its quantity |
| ProductListing.CartTotalPair | project/src/components/vendor/ProductListing.tsx:132-137 | a two-entry cart totals the two lines |
| ProductListing.CartTotalExample | project/src/components/vendor/ProductListing.tsx:35-71 | two of the onions at 25 and one turmeric at 180 total 230 |

## Code and design disagree

The model follows the code in each of these cases:

- The design states total = subtotal − discount + delivery + tax. The code computes total = subtotal + delivery + tax, and its subtotal already has the bulk discount taken off, so the discount is subtracted once. See `OrderRoutes.SubtotalIsGrossMinusDiscount`.
- Each line of an order is checked against the stock the offer had before the order. Two lines for the same offer can therefore reserve more than the stock together, and the stock goes negative. See `OrderRoutes.RepeatedOfferCanOverdraw`.
- Checkout as written never stores an order: see "## Findings". `OrderRoutes.Marketplace.CreateOrder` and `OrderRoutes.Marketplace.StoreOrder` model the intended path, in which the hook assigns the number and the order is stored.
- `updateStatus` accepts any transition. There is no state machine in the code.
- The order number's counter is the number of orders already stored. It is unique only because orders are never deleted.
- The listing's count query (`pipeline.slice(0, -3)`, `routes/products.js` line 220) drops only the `$sort`, `$skip` and `$limit` stages and keeps every filter. But the stage that drops products without offers (line 99) runs before the distance and price filters (lines 107 and 152), which only thin out a product's offers. So the total counts products those filters left without offers.
- Such products are still listed. Their lowest price is null, which sorts first.
- The listing is meant to order each product's offers by price, distance or rating (`sortBy`). The `$sortArray` keys are written `suppliers.price`, `suppliers.supplierInfo...`, but they are looked up inside each offer, which has no `suppliers` field. So every offer ties and offers stay in stored order (`routes/products.js` lines 169-194). `ProductRoutes.SortOffersStage` models the stage as written. `ProductRoutes.IntendedSortOffersStage` is the evidently intended sort. `ProductRoutes.OfferSortExample` gives an input where the two differ.

## Findings

| source | as written | input that shows it | evidently intended | confidence | as-written member | corrected member |
|---|---|---|---|---|---|---|
| project/backend/models/Order.js:4-8 | `orderNumber` is `required`, but it is only assigned in the `pre('save')` hook (lines 204-207), and Mongoose runs the validators before that hook; `order.save()` in checkout (routes/orders.js:124) therefore fails for every new order, and the route answers 500 with nothing stored and no stock moved | any checkout request whose lines all pass | the hook assigns the number and the order is stored | not executed; rests on Mongoose's documented order of validation and hooks | Orders.NewOrderSaveRefused | OrderRoutes.Marketplace.StoreOrder |

## Left out

- Persistence and HTTP: Mongoose documents, `populate`, `countDocuments`, running an aggregation, express routing, JSON bodies and status messages. Collections are in-memory maps and sequences; routes return a result or an error kind.
- Concurrency. Each request runs to completion before the next. This covers the count-then-format order number and the separate stock check and `$inc` update in checkout.
- Mongoose validators other than the `required` order number of `Orders.Order.SaveAsWritten`: schema types, enums and bounds are stated as preconditions or invariants where the code relies on them.
- Fractional quantities. Order line quantities and offer stock are `int` in `OrderRoutes`, while the schemas use a plain `Number` and kilogram quantities can be fractional; the pricing and stock arithmetic is the same for fractions.
- The Gemini calls, the `generateAIInsights` wrappers and `generateFallbackInsights` in both insight files. These call a remote model or return static text.
- The random forecasts (`Math.random`) of the demand prediction in `utils/ai.js`, and the mock GPS location of the tracking route.
- The haversine distance in `routes/products.js` and `utils/ai_old.js`, and `Math.log10` in the quality score. Their values are inputs. The square root of the volatility is compared squared, which is exact.
- `generateMarketTrends` in `utils/ai_old.js`: a static table of advice text.
- Token verification and the user lookup of `protect` and `optionalAuth`. They are one function parameter that yields the user or nothing.
- The order list, detail and tracking routes of `routes/orders.js`. They are database queries with `populate` and no logic of their own beyond the query.
- The group-order routes of both route files and the order statistics dashboard. They are mock data or database aggregations.
- The MongoDB `$text` search and its ranking. `ProductRoutes.Suggestions` takes the ranked matches as given, and the listing's text-search stage is not modelled.
- `ProductRoutes.SortOffersStage`: tied offers keep their stored order. The database does not document the order it gives tied array elements, so the model fixes one.
- `ProductRoutes.SortBy`: the model's sort is stable. The database does not promise a stable `$sort`, so for ties the model fixes one order among those the database may return.
- `ProductRoutes.UpperCase` and `ProductListing.LowerCase` convert ASCII letters only. JavaScript's case mapping also covers other alphabets.
- `ProductListing`: prices and quantities are integers, as in the screen's product list. Rendering, the category buttons and the insight panels are not modelled.
- Floating point. JavaScript numbers are exact reals or integers, so rounding error in sums and means is not modelled. `Math.round` and the one- and two-decimal roundings are modelled exactly in the members that report a rounded figure; the display roundings below are not.
- `Insights.PriceAnalysis`: the reported average and variability are the unrounded values (`utils/ai.js` lines 91 and 94 round them to two decimals for display), and the forecast text and each offer's `savings` and `percentage` display figures (lines 98, 108 and 109) are omitted.
