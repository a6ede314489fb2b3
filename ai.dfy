/** The deterministic heuristics of the current insight generator: price statistics and
    per-offer labels, the demand score, supplier quality scores, the fallback
    recommendations, market trends, the additive risk assessment and the season of a month.
    The clock is passed in as month, weekday and hour; `Math.log10` is a parameter. */
module Insights {
  import opened Common

  datatype Season = Summer | Monsoon | Winter | Spring

  /** `getCurrentSeason`, from the month number 1..12. */
  function SeasonOf(month: Month): (s: Season)
    ensures s == Summer <==> 3 <= month <= 5
    ensures s == Monsoon <==> 6 <= month <= 9
    ensures s == Winter <==> 10 <= month <= 11
    ensures s == Spring <==> month <= 2 || month == 12
  {
    if 3 <= month <= 5 then Summer
    else if 6 <= month <= 9 then Monsoon
    else if 10 <= month <= 11 then Winter
    else Spring
  }

  datatype Availability = InStock | LowStock | OutOfStock

  /** One supplier offer as the insight code sees it. A rating, review count, distance or
      response time of 0 stands for a missing one: the code tests these fields for
      truthiness, and `undefined` and 0 take the same branches. */
  datatype SupplierView = SupplierView(
    id: nat,
    price: real,
    rating: real,
    totalReviews: real,
    distance: real,
    avgResponseTime: real,
    availability: Availability)

  function PricesOf(s: seq<SupplierView>): (r: seq<real>)
    ensures |r| == |s| && forall i :: 0 <= i < |s| ==> r[i] == s[i].price
  {
    seq(|s|, i requires 0 <= i < |s| => s[i].price)
  }

  /** The schema keeps every offer price at or above zero. */
  predicate PricesNonNegative(s: seq<SupplierView>)
  {
    forall i :: 0 <= i < |s| ==> s[i].price >= 0.0
  }

  // ---------------------------------------------------------------------------
  // Price analysis (the path taken without a language-model answer)

  datatype PriceTrend = Volatile | Stable
  datatype PriceLabel = Excellent | Good | Expensive

  datatype PriceReport =
    | Unavailable
    | PriceReport(
        average: real,
        minimum: real,
        maximum: real,
        /** `(max - min) / avg * 100`; None where the division gives NaN (average 0). */
        variability: Option<real>,
        trend: PriceTrend,
        confidence: int,
        goodTimeToBuy: bool,
        bestDeal: nat,
        labels: seq<PriceLabel>)

  /** An offer is excellent at or below 90% of the average, good up to 110%, else expensive. */
  function LabelOf(price: real, average: real): (l: PriceLabel)
    ensures l == Excellent <==> price <= average * 0.9
    ensures l == Good <==> average * 0.9 < price <= average * 1.1
    ensures l == Expensive <==> average * 0.9 < price && average * 1.1 < price
  {
    if price <= average * 0.9 then Excellent
    else if price <= average * 1.1 then Good
    else Expensive
  }

  /** `suppliers.find(s => s.price === minPrice)`: the first offer at that price. */
  function FirstAtPrice(s: seq<SupplierView>, price: real): (k: nat)
    requires exists i :: 0 <= i < |s| && s[i].price == price
    ensures k < |s| && s[k].price == price
    ensures forall j :: 0 <= j < k ==> s[j].price != price
  {
    if s[0].price == price then 0
    else
      assert exists i :: 0 <= i < |s[1..]| && s[1..][i].price == price by {
        var i :| 0 <= i < |s| && s[i].price == price;
        assert s[1..][i - 1] == s[i];
      }
      1 + FirstAtPrice(s[1..], price)
  }

  /** `(max - min) / avg * 100`: the spread as a percentage of the average; NaN (None) for
      a zero average. */
  function Variability(average: real, minimum: real, maximum: real): (v: Option<real>)
    ensures v.Some? <==> average != 0.0
    ensures v.Some? ==> v.value * average == (maximum - minimum) * 100.0
  {
    if average == 0.0 then None
    else
      var q := (maximum - minimum) / average;
      assert q * average == maximum - minimum;
      Some(q * 100.0)
  }

  /** `generatePriceAnalysis` on the path taken without a language-model answer. */
  function PriceAnalysis(s: seq<SupplierView>): (r: PriceReport)
    requires PricesNonNegative(s)
    ensures r.Unavailable? <==> s == []
    ensures r.PriceReport? ==> r.bestDeal < |s| && |r.labels| == |s|
    ensures r.PriceReport? ==> r.average == Sum(PricesOf(s)) / |s| as real
    ensures r.PriceReport? ==> r.minimum in PricesOf(s) && r.maximum in PricesOf(s)
  {
    if s == [] then Unavailable
    else
      var prices := PricesOf(s);
      var average := Sum(prices) / |s| as real;
      var minimum := SeqMin(prices);
      var maximum := SeqMax(prices);
      var variability := Variability(average, minimum, maximum);
      assert exists k :: 0 <= k < |s| && s[k].price == minimum by {
        var k :| 0 <= k < |prices| && prices[k] == minimum;
      }
      PriceReport(
        average, minimum, maximum, variability,
        if variability.Some? && variability.value > 20.0 then Volatile else Stable,
        if variability.Some? && variability.value < 10.0 then 85 else 65,
        average == minimum,
        FirstAtPrice(s, minimum),
        seq(|s|, i requires 0 <= i < |s| => LabelOf(s[i].price, average)))
  }

  /** The minimum and maximum bound every price, and the average lies between them. */
  lemma PriceStatsBounds(s: seq<SupplierView>)
    requires PricesNonNegative(s) && s != []
    ensures var r := PriceAnalysis(s);
      && r.minimum <= r.average <= r.maximum
      && (forall i :: 0 <= i < |s| ==> r.minimum <= s[i].price <= r.maximum)
  {
    var prices := PricesOf(s);
    var r := PriceAnalysis(s);
    assert r.average == Sum(prices) / |s| as real && r.minimum == SeqMin(prices) && r.maximum == SeqMax(prices);
    MeanWithinExtremes(prices);
    forall i | 0 <= i < |s|
      ensures r.minimum <= s[i].price <= r.maximum
    {
      assert prices[i] in prices;
    }
  }

  /** The trend is volatile exactly above 20% variability, confidence is 85 exactly below
      10% and 65 otherwise; a zero average makes the variability NaN, which is neither. */
  lemma PriceTrendRules(s: seq<SupplierView>)
    requires PricesNonNegative(s) && s != []
    ensures var r := PriceAnalysis(s);
      && (r.variability.Some? <==> r.average != 0.0)
      && r.variability == Variability(r.average, r.minimum, r.maximum)
      && (r.trend == Volatile <==> r.variability.Some? && r.variability.value > 20.0)
      && (r.confidence == 85 <==> r.variability.Some? && r.variability.value < 10.0)
      && (r.confidence == 85 || r.confidence == 65)
  {
    var r := PriceAnalysis(s);
    assert r.variability == Variability(r.average, r.minimum, r.maximum);
  }

  /** The best deal is the first supplier at the minimum price. */
  lemma BestDealIsFirstCheapest(s: seq<SupplierView>)
    requires PricesNonNegative(s) && s != []
    ensures var r := PriceAnalysis(s);
      && s[r.bestDeal].price == r.minimum
      && (forall j :: 0 <= j < r.bestDeal ==> s[j].price > r.minimum)
  {
    PriceStatsBounds(s);
  }

  /** Each supplier's label compares its price with the average. */
  lemma LabelsFollowAverage(s: seq<SupplierView>, i: nat)
    requires PricesNonNegative(s) && i < |s|
    ensures var r := PriceAnalysis(s);
      && (r.labels[i] == Excellent <==> s[i].price <= r.average * 0.9)
      && (r.labels[i] == Expensive <==> s[i].price > r.average * 1.1)
  {
  }

  /** "Good time to buy" is given exactly when every supplier asks the same price. */
  lemma GoodTimeIffUniformPrice(s: seq<SupplierView>)
    requires PricesNonNegative(s) && s != []
    ensures PriceAnalysis(s).goodTimeToBuy <==> forall i, j :: 0 <= i < |s| && 0 <= j < |s| ==> s[i].price == s[j].price
  {
    PriceStatsBounds(s);
    BestDealIsFirstCheapest(s);
    var r := PriceAnalysis(s);
    var prices := PricesOf(s);
    assert r.goodTimeToBuy <==> Sum(prices) / |prices| as real == r.minimum;
    assert forall x :: x in prices ==> r.minimum <= x;
    MeanAtMinimum(prices, r.minimum);
    assert (forall x :: x in prices ==> x == r.minimum) ==> forall i :: 0 <= i < |s| ==> s[i].price == r.minimum by {
      assert forall i :: 0 <= i < |s| ==> prices[i] in prices;
    }
    assert (forall i, j :: 0 <= i < |s| && 0 <= j < |s| ==> s[i].price == s[j].price)
           ==> forall x :: x in prices ==> x == r.minimum by {
      if forall i, j :: 0 <= i < |s| && 0 <= j < |s| ==> s[i].price == s[j].price {
        forall x | x in prices ensures x == r.minimum {
          var i :| 0 <= i < |prices| && prices[i] == x;
          assert s[i].price == s[r.bestDeal].price;
        }
      }
    }
  }

  /** With a single supplier the price is stable, the advice is to buy and that supplier
      is both the best deal and rated good. */
  lemma SingleSupplierAnalysis(v: SupplierView)
    requires v.price > 0.0
    ensures var r := PriceAnalysis([v]);
      && r.average == r.minimum == r.maximum == v.price
      && r.variability == Some(0.0) && r.trend == Stable && r.confidence == 85
      && r.goodTimeToBuy && r.bestDeal == 0 && r.labels == [Good]
  {
    var prices := PricesOf([v]);
    assert prices == [v.price];
    assert prices[..0] == [];
    assert Sum(prices) == v.price;
    assert SeqMin(prices) == v.price && SeqMax(prices) == v.price;
  }

  // ---------------------------------------------------------------------------
  // Demand prediction

  /** The seasonal factor table; a category it does not list counts 1.0. */
  function SeasonalDemandFactor(season: Season, category: string): (f: real)
    ensures 0.8 <= f <= 2.0
    ensures category !in {"beverages", "ice-cream", "fruits", "hot-drinks", "snacks", "vegetables", "hot-food"} ==> f == 1.0
  {
    match season
    case Summer =>
      if category == "beverages" then 1.5 else if category == "ice-cream" then 2.0
      else if category == "fruits" then 1.3 else 1.0
    case Winter =>
      if category == "hot-drinks" then 1.8 else if category == "snacks" then 1.2
      else if category == "vegetables" then 1.1 else 1.0
    case Monsoon =>
      if category == "hot-food" then 1.4 else if category == "beverages" then 0.8
      else if category == "vegetables" then 1.2 else 1.0
    case Spring =>
      if category == "fruits" then 1.4 else if category == "vegetables" then 1.3
      else if category == "snacks" then 1.1 else 1.0
  }

  /** Sunday 0.8 up to Saturday 1.4: the factor rises above 1 from Thursday on. */
  function DayFactor(day: Weekday): (f: real)
    ensures 0.8 <= f <= 1.4
    ensures f > 1.0 <==> day >= 4
  {
    [0.8, 0.9, 1.0, 1.0, 1.1, 1.3, 1.4][day]
  }

  /** Breakfast 7-10, lunch 12-14, dinner 17-20 and late snacks 21-23 raise the demand. */
  function HourFactor(hour: Hour): (f: real)
    ensures 0.7 <= f <= 1.6
    ensures f == 0.7 <==> hour < 7 || hour == 11 || hour == 15 || hour == 16
  {
    if 7 <= hour <= 10 then 1.4
    else if 12 <= hour <= 14 then 1.6
    else if 17 <= hour <= 20 then 1.5
    else if 21 <= hour <= 23 then 1.2
    else 0.7
  }

  /** `Math.min(100, Math.max(0, x))`. */
  function Clamp100(x: real): (r: real)
    ensures 0.0 <= r <= 100.0
    ensures 0.0 <= x <= 100.0 ==> r == x
    ensures x > 100.0 ==> r == 100.0
  {
    MinReal(100.0, MaxReal(0.0, x))
  }

  /** 50 x seasonal x day x hour, clamped to 0..100. */
  function DemandScore(season: Season, category: string, day: Weekday, hour: Hour): (score: real)
    ensures 0.0 <= score <= 100.0
  {
    Clamp100(RawDemand(SeasonalDemandFactor(season, category), DayFactor(day), HourFactor(hour)))
  }

  function RawDemand(categoryFactor: real, dayFactor: real, hourFactor: real): real
  {
    50.0 * categoryFactor * dayFactor * hourFactor
  }

  datatype DemandLevel = VeryHighDemand | HighDemand | MediumDemand | LowDemand | VeryLowDemand

  /** The buckets use strict thresholds at 80, 60, 40 and 20. */
  function DemandLevelOf(score: real): (l: DemandLevel)
    ensures l == VeryHighDemand <==> score > 80.0
    ensures l == HighDemand <==> 60.0 < score <= 80.0
    ensures l == MediumDemand <==> 40.0 < score <= 60.0
    ensures l == LowDemand <==> 20.0 < score <= 40.0
    ensures l == VeryLowDemand <==> score <= 20.0
  {
    if score > 80.0 then VeryHighDemand
    else if score > 60.0 then HighDemand
    else if score > 40.0 then MediumDemand
    else if score > 20.0 then LowDemand
    else VeryLowDemand
  }

  /** Each factor at its smallest gives 50 x 0.8 x 0.8 x 0.7 = 22.4. */
  lemma RawDemandFloor(a: real, b: real, c: real)
    requires a >= 0.8 && b >= 0.8 && c >= 0.7
    ensures RawDemand(a, b, c) >= 22.4
  {
    var x := 50.0 * a;
    var y := x * b;
    var z := y * c;
    assert y >= 32.0 by {
      assert y - 32.0 == (x - 40.0) * b + 40.0 * (b - 0.8);
    }
    assert z >= 22.4 by {
      assert z - 22.4 == (y - 32.0) * c + 32.0 * (c - 0.7);
    }
  }

  /** The smallest product of factors is 0.8 x 0.8 x 0.7, so the demand score never falls
      below 22.4 and the level is never very low. */
  lemma DemandFloor(season: Season, category: string, day: Weekday, hour: Hour)
    ensures DemandScore(season, category, day, hour) >= 22.4
    ensures DemandLevelOf(DemandScore(season, category, day, hour)) != VeryLowDemand
  {
    var cf, df, hf := SeasonalDemandFactor(season, category), DayFactor(day), HourFactor(hour);
    RawDemandFloor(cf, df, hf);
  }

  /** Ice cream in summer on a Saturday lunchtime saturates the score at 100. */
  lemma DemandSaturates()
    ensures DemandScore(Summer, "ice-cream", 6, 13) == 100.0
  {
    assert RawDemand(2.0, 1.4, 1.6) == 224.0;
  }

  datatype Demand = Demand(score: int, level: DemandLevel, seasonal: int, dayOfWeek: int, timeOfDay: int)

  /** The base of 50 multiplied by each factor in turn, then clamped to 0..100. */
  method ScaleDemand(categoryFactor: real, dayFactor: real, hourFactor: real) returns (score: real)
    ensures score == Clamp100(RawDemand(categoryFactor, dayFactor, hourFactor))
  {
    score := 50.0;
    score := score * categoryFactor;
    score := score * dayFactor;
    score := score * hourFactor;
    score := Clamp100(score);
  }

  /** `generateDemandPrediction` without its random forecasts. */
  method PredictDemand(season: Season, category: string, day: Weekday, hour: Hour) returns (d: Demand)
    ensures d.score == RoundHalfUp(DemandScore(season, category, day, hour))
    ensures 0 <= d.score <= 100 && 22 <= d.score
    ensures d.level == DemandLevelOf(DemandScore(season, category, day, hour))
    ensures d.level != VeryLowDemand
    ensures -20 <= d.seasonal <= 100 && -20 <= d.dayOfWeek <= 40 && -30 <= d.timeOfDay <= 60
    ensures d.seasonal == RoundHalfUp((SeasonalDemandFactor(season, category) - 1.0) * 100.0)
    ensures d.dayOfWeek == RoundHalfUp((DayFactor(day) - 1.0) * 100.0)
    ensures d.timeOfDay == RoundHalfUp((HourFactor(hour) - 1.0) * 100.0)
  {
    var categoryFactor := SeasonalDemandFactor(season, category);
    var dayFactor := DayFactor(day);
    var hourFactor := HourFactor(hour);
    var demandScore := ScaleDemand(categoryFactor, dayFactor, hourFactor);
    DemandFloor(season, category, day, hour);
    d := Demand(
      RoundHalfUp(demandScore),
      DemandLevelOf(demandScore),
      RoundHalfUp((categoryFactor - 1.0) * 100.0),
      RoundHalfUp((dayFactor - 1.0) * 100.0),
      RoundHalfUp((hourFactor - 1.0) * 100.0));
  }

  // ---------------------------------------------------------------------------
  // Quality score

  datatype Grade = GradeA | GradeB | GradeC | GradeD

  function GradeOf(score: real): (g: Grade)
    ensures g == GradeA <==> score >= 80.0
    ensures g == GradeB <==> 60.0 <= score < 80.0
    ensures g == GradeC <==> 40.0 <= score < 60.0
    ensures g == GradeD <==> score < 40.0
  {
    if score >= 80.0 then GradeA else if score >= 60.0 then GradeB else if score >= 40.0 then GradeC else GradeD
  }

  /** Rating: up to 40 points, proportional to the rating out of 5. */
  function RatingPoints(rating: real): (p: real)
    ensures rating == 0.0 ==> p == 0.0
    ensures 0.0 <= rating <= 5.0 ==> 0.0 <= p <= 40.0
    ensures p * 5.0 == rating * 40.0
  {
    if rating != 0.0 then rating / 5.0 * 40.0 else 0.0
  }

  /** Reviews: 10 points per decade of reviews, at most 20. */
  function ReviewPoints(totalReviews: real, log10: real -> real): (p: real)
    ensures p <= 20.0
    ensures totalReviews == 0.0 ==> p == 0.0
    ensures totalReviews != 0.0 ==>
              p <= log10(totalReviews + 1.0) * 10.0 && (p == 20.0 || p == log10(totalReviews + 1.0) * 10.0)
  {
    if totalReviews != 0.0 then MinReal(20.0, log10(totalReviews + 1.0) * 10.0) else 0.0
  }

  /** Distance: 20 points minus 2 per km, never negative. A distance of exactly 0 is falsy
      in the source and earns nothing. */
  function DistancePoints(distance: real): (p: real)
    ensures 0.0 <= p
    ensures distance >= 0.0 ==> p <= 20.0
    ensures distance == 0.0 || distance >= 10.0 ==> p == 0.0
    ensures 0.0 < distance < 10.0 ==> p == 20.0 - 2.0 * distance
  {
    if distance != 0.0 then MaxReal(0.0, 20.0 - distance * 2.0) else 0.0
  }

  /** Response: 10 points minus one per hour of average response time, never negative. */
  function ResponsePoints(minutes: real): (p: real)
    ensures 0.0 <= p
    ensures minutes >= 0.0 ==> p <= 10.0
    ensures minutes == 0.0 || minutes >= 600.0 ==> p == 0.0
    ensures 0.0 < minutes < 600.0 ==> p == 10.0 - minutes / 60.0
  {
    if minutes != 0.0 then MaxReal(0.0, 10.0 - minutes / 60.0) else 0.0
  }

  function AvailabilityPoints(a: Availability): (p: real)
    ensures p == 10.0 || p == 5.0 || p == 0.0
    ensures p == 10.0 <==> a == InStock
  {
    match a
    case InStock => 10.0
    case LowStock => 5.0
    case OutOfStock => 0.0
  }

  /** The unrounded quality score of one supplier: the five components added up. */
  function SupplierPoints(s: SupplierView, log10: real -> real): real
  {
    RatingPoints(s.rating) + ReviewPoints(s.totalReviews, log10) + DistancePoints(s.distance)
      + ResponsePoints(s.avgResponseTime) + AvailabilityPoints(s.availability)
  }

  /** With the rating within 0..5 and non-negative distance, response time and decimal
      logarithms of review counts, a supplier scores between 0 and 100. */
  lemma SupplierPointsBounded(s: SupplierView, log10: real -> real)
    requires 0.0 <= s.rating <= 5.0 && s.distance >= 0.0 && s.avgResponseTime >= 0.0
    requires s.totalReviews != 0.0 ==> log10(s.totalReviews + 1.0) >= 0.0
    ensures 0.0 <= SupplierPoints(s, log10) <= 100.0
  {
  }

  datatype QualityEntry = QualityEntry(supplier: nat, score: real, grade: Grade)

  /** One iteration of the score map: the components are added one at a time; the reported
      score is rounded to two decimals, the grade uses the unrounded sum. */
  method ScoreSupplier(s: SupplierView, log10: real -> real) returns (e: QualityEntry)
    ensures e.supplier == s.id
    ensures e.score == Round2(SupplierPoints(s, log10))
    ensures e.grade == GradeOf(SupplierPoints(s, log10))
  {
    var score := 0.0;
    if s.rating != 0.0 {
      score := score + s.rating / 5.0 * 40.0;
    }
    if s.totalReviews != 0.0 {
      score := score + MinReal(20.0, log10(s.totalReviews + 1.0) * 10.0);
    }
    if s.distance != 0.0 {
      score := score + MaxReal(0.0, 20.0 - s.distance * 2.0);
    }
    if s.avgResponseTime != 0.0 {
      score := score + MaxReal(0.0, 10.0 - s.avgResponseTime / 60.0);
    }
    score := score + AvailabilityPoints(s.availability);
    e := QualityEntry(s.id, Round2(score), GradeOf(score));
  }

  datatype QualityAdvice = ExcellentSuppliers | GoodSuppliers | LimitedSuppliers

  function QualityAdviceOf(average: real): (a: QualityAdvice)
    ensures a == ExcellentSuppliers <==> average >= 70.0
    ensures a == GoodSuppliers <==> 50.0 <= average < 70.0
    ensures a == LimitedSuppliers <==> average < 50.0
  {
    if average >= 70.0 then ExcellentSuppliers else if average >= 50.0 then GoodSuppliers else LimitedSuppliers
  }

  datatype QualityReport =
    | NoQuality
    | QualityReport(average: real, top: QualityEntry, all: seq<QualityEntry>, advice: QualityAdvice)

  function ScoresOf(entries: seq<QualityEntry>): (r: seq<real>)
    ensures |r| == |entries| && forall i :: 0 <= i < |entries| ==> r[i] == entries[i].score
  {
    seq(|entries|, i requires 0 <= i < |entries| => entries[i].score)
  }

  /** `calculateQualityScore`: the map over suppliers, then the average of the rounded
      scores and the first supplier with the highest rounded score. No suppliers give
      score 0. */
  method CalculateQualityScore(s: seq<SupplierView>, log10: real -> real) returns (r: QualityReport)
    ensures r.NoQuality? <==> s == []
    ensures r.QualityReport? ==>
      && |r.all| == |s|
      && (forall i :: 0 <= i < |s| ==>
            r.all[i].supplier == s[i].id
            && r.all[i].score == Round2(SupplierPoints(s[i], log10))
            && r.all[i].grade == GradeOf(SupplierPoints(s[i], log10)))
      && (forall j :: 0 <= j < |s| ==> r.all[j].score <= r.top.score)
      && (exists t :: 0 <= t < |s| && r.top == r.all[t] && forall j :: 0 <= j < t ==> r.all[j].score < r.top.score)
      && r.average == Round2(Sum(ScoresOf(r.all)) / |s| as real)
      && r.advice == QualityAdviceOf(Sum(ScoresOf(r.all)) / |s| as real)
  {
    if s == [] {
      return NoQuality;
    }
    var entries := ScoreAll(s, log10);
    var best, total := BestAndTotal(entries);
    var average := total / |entries| as real;
    r := QualityReport(Round2(average), entries[best], entries, QualityAdviceOf(average));
  }

  /** The `map` over suppliers. */
  method ScoreAll(s: seq<SupplierView>, log10: real -> real) returns (entries: seq<QualityEntry>)
    ensures |entries| == |s|
    ensures forall k :: 0 <= k < |s| ==>
      entries[k].supplier == s[k].id
      && entries[k].score == Round2(SupplierPoints(s[k], log10))
      && entries[k].grade == GradeOf(SupplierPoints(s[k], log10))
  {
    entries := [];
    for i := 0 to |s|
      invariant |entries| == i
      invariant forall k :: 0 <= k < i ==>
        entries[k].supplier == s[k].id
        && entries[k].score == Round2(SupplierPoints(s[k], log10))
        && entries[k].grade == GradeOf(SupplierPoints(s[k], log10))
    {
      var e := ScoreSupplier(s[i], log10);
      entries := entries + [e];
    }
  }

  /** The two reductions over the scores: their sum, and the first entry with the highest
      score (a later entry replaces the best only when strictly higher). */
  method BestAndTotal(entries: seq<QualityEntry>) returns (best: nat, total: real)
    requires entries != []
    ensures total == Sum(ScoresOf(entries))
    ensures best < |entries|
    ensures forall j :: 0 <= j < |entries| ==> entries[j].score <= entries[best].score
    ensures forall j :: 0 <= j < best ==> entries[j].score < entries[best].score
  {
    total := 0.0;
    best := 0;
    for i := 0 to |entries|
      invariant total == Sum(ScoresOf(entries[..i]))
      invariant best < |entries|
      invariant best <= i
      invariant forall j :: 0 <= j < i ==> entries[j].score <= entries[best].score
      invariant forall j :: 0 <= j < best ==> entries[j].score < entries[best].score
    {
      assert ScoresOf(entries[..i + 1]) == ScoresOf(entries[..i]) + [entries[i].score];
      total := total + entries[i].score;
      if entries[i].score > entries[best].score {
        best := i;
      }
    }
    assert entries[..|entries|] == entries;
  }

  // ---------------------------------------------------------------------------
  // Fallback recommendations

  datatype RecommendationKind = PricingAdvice | TimingAdvice | SupplierAdvice
  datatype Priority = HighPriority | MediumPriority | LowPriority
  datatype Recommendation = Recommendation(kind: RecommendationKind, priority: Priority)

  function HighCount(r: seq<Recommendation>): (n: nat)
    ensures n <= |r|
  {
    if r == [] then 0 else HighCount(r[..|r| - 1]) + (if r[|r| - 1].priority == HighPriority then 1 else 0)
  }

  /** The three recommendations used when no language-model answer is available: best
      price (high), timing (high only when the rounded demand score exceeds 70) and
      quality choice (medium). */
  function FallbackRecommendations(demandScore: int): (r: seq<Recommendation>)
    ensures |r| == 3
    ensures r[0] == Recommendation(PricingAdvice, HighPriority)
    ensures r[1].kind == TimingAdvice && r[2] == Recommendation(SupplierAdvice, MediumPriority)
    ensures r[1].priority == HighPriority <==> demandScore > 70
    ensures r[1].priority != LowPriority
  {
    [Recommendation(PricingAdvice, HighPriority),
     Recommendation(TimingAdvice, if demandScore > 70 then HighPriority else MediumPriority),
     Recommendation(SupplierAdvice, MediumPriority)]
  }

  /** The summary counts one or two high-priority items, two exactly when demand is urgent. */
  lemma FallbackHighCount(demandScore: int)
    ensures HighCount(FallbackRecommendations(demandScore)) == if demandScore > 70 then 2 else 1
  {
    var r := FallbackRecommendations(demandScore);
    assert r[..|r| - 1] == r[..2];
    assert r[..2][..1] == r[..1];
    assert r[..1][..0] == [];
    assert HighCount(r[..1]) == 1;
    assert HighCount(r[..2]) == if demandScore > 70 then 2 else 1;
  }

  /** Urgent timing advice only happens at high or very high demand: a rounded score above
      70 needs an unrounded score of at least 70.5. */
  lemma UrgentTimingMeansHighDemand(season: Season, category: string, day: Weekday, hour: Hour)
    requires RoundHalfUp(DemandScore(season, category, day, hour)) > 70
    ensures DemandLevelOf(DemandScore(season, category, day, hour)) in {HighDemand, VeryHighDemand}
  {
  }

  // ---------------------------------------------------------------------------
  // Market trends

  datatype Impact = Positive | Negative | Neutral
  datatype TrendKind = SeasonalTrend | WeeklyTrend | DailyTrend
  datatype MarketTrend = MarketTrend(kind: TrendKind, impact: Impact, confidence: int)
  datatype Overall = OverallPositive | OverallNegative | OverallNeutral

  /** The seasonal trend table; spring and unlisted categories have no entry. */
  function SeasonalTrendFactor(season: Season, category: string): (f: Option<real>)
    ensures season == Spring ==> f == None
  {
    match season
    case Summer =>
      if category == "beverages" then Some(1.3) else if category == "fruits" then Some(1.2)
      else if category == "vegetables" then Some(1.0) else None
    case Winter =>
      if category == "hot-drinks" then Some(1.4) else if category == "snacks" then Some(1.1)
      else if category == "fruits" then Some(0.9) else None
    case Monsoon =>
      if category == "hot-food" then Some(1.2) else if category == "beverages" then Some(0.8) else None
    case Spring => None
  }

  function ImpactOf(factor: real): (i: Impact)
    ensures i == Positive <==> factor > 1.1
    ensures i == Negative <==> factor < 0.9
    ensures i == Neutral <==> 0.9 <= factor <= 1.1
  {
    if factor > 1.1 then Positive else if factor < 0.9 then Negative else Neutral
  }

  predicate IsMealTime(hour: Hour)
  {
    (7 <= hour <= 10) || (12 <= hour <= 14) || (17 <= hour <= 20)
  }

  function CountImpact(trends: seq<MarketTrend>, impact: Impact): (n: nat)
    ensures n <= |trends|
  {
    if trends == [] then 0
    else CountImpact(trends[..|trends| - 1], impact) + (if trends[|trends| - 1].impact == impact then 1 else 0)
  }

  lemma CountImpactAppend(trends: seq<MarketTrend>, t: MarketTrend, impact: Impact)
    ensures CountImpact(trends + [t], impact) == CountImpact(trends, impact) + (if t.impact == impact then 1 else 0)
  {
    assert (trends + [t])[..|trends|] == trends;
  }

  /** `generateMarketTrends`: an optional seasonal trend, then a weekly trend on Friday and
      Saturday and a daily trend at meal times (both positive). Overall is neutral when
      there is no trend, positive when positives outnumber negatives, otherwise negative,
      so a lone neutral seasonal trend reads as negative. */
  method MarketTrends(season: Season, category: string, day: Weekday, hour: Hour)
    returns (trends: seq<MarketTrend>, overall: Overall)
    ensures trends == TrendsOf(SeasonalTrendFactor(season, category), day == 5 || day == 6, IsMealTime(hour))
    ensures overall == OverallNeutral <==> trends == []
    ensures overall == OverallPositive <==> CountImpact(trends, Positive) > CountImpact(trends, Negative)
    ensures var f := SeasonalTrendFactor(season, category);
            var boosts := (if day == 5 || day == 6 then 1 else 0) + (if IsMealTime(hour) then 1 else 0);
      overall == OverallPositive <==>
        (if f.Some? && f.value > 1.1 then true
         else if f.Some? && f.value < 0.9 then boosts == 2
         else boosts >= 1)
  {
    var f := SeasonalTrendFactor(season, category);
    trends, overall := CollectTrends(f, day == 5 || day == 6, IsMealTime(hour));
  }

  /** The body of `generateMarketTrends` once the seasonal factor is looked up. */
  method CollectTrends(f: Option<real>, weekend: bool, mealTime: bool) returns (trends: seq<MarketTrend>, overall: Overall)
    ensures trends == TrendsOf(f, weekend, mealTime)
    ensures overall == OverallNeutral <==> trends == []
    ensures overall == OverallPositive <==> CountImpact(trends, Positive) > CountImpact(trends, Negative)
    ensures var boosts := (if weekend then 1 else 0) + (if mealTime then 1 else 0);
      overall == OverallPositive <==>
        (if f.Some? && f.value > 1.1 then true
         else if f.Some? && f.value < 0.9 then boosts == 2
         else boosts >= 1)
  {
    trends := [];
    if f.Some? {
      trends := trends + [MarketTrend(SeasonalTrend, ImpactOf(f.value), 85)];
    }
    if weekend {
      trends := trends + [MarketTrend(WeeklyTrend, Positive, 75)];
    }
    if mealTime {
      trends := trends + [MarketTrend(DailyTrend, Positive, 90)];
    }
    assert trends == TrendsOf(f, weekend, mealTime);
    var positives := CountImpact(trends, Positive);
    var negatives := CountImpact(trends, Negative);
    overall := if |trends| > 0 then (if positives > negatives then OverallPositive else OverallNegative)
               else OverallNeutral;
    TrendCounts(f, weekend, mealTime);
  }

  /** The trends in the order they are pushed. */
  function TrendsOf(f: Option<real>, weekend: bool, mealTime: bool): (trends: seq<MarketTrend>)
    ensures |trends| == (if f.Some? then 1 else 0) + (if weekend then 1 else 0) + (if mealTime then 1 else 0)
  {
    (if f.Some? then [MarketTrend(SeasonalTrend, ImpactOf(f.value), 85)] else [])
    + (if weekend then [MarketTrend(WeeklyTrend, Positive, 75)] else [])
    + (if mealTime then [MarketTrend(DailyTrend, Positive, 90)] else [])
  }

  /** Only the seasonal trend can be negative; the weekly and daily ones are positive. */
  lemma TrendCounts(f: Option<real>, weekend: bool, mealTime: bool)
    ensures CountImpact(TrendsOf(f, weekend, mealTime), Positive) ==
              (if f.Some? && f.value > 1.1 then 1 else 0) + (if weekend then 1 else 0) + (if mealTime then 1 else 0)
    ensures CountImpact(TrendsOf(f, weekend, mealTime), Negative) == (if f.Some? && f.value < 0.9 then 1 else 0)
  {
    var seasonal := if f.Some? then [MarketTrend(SeasonalTrend, ImpactOf(f.value), 85)] else [];
    var weekly := if weekend then [MarketTrend(WeeklyTrend, Positive, 75)] else [];
    var daily := if mealTime then [MarketTrend(DailyTrend, Positive, 90)] else [];
    CountImpactConcat(seasonal, weekly, Positive);
    CountImpactConcat(seasonal + weekly, daily, Positive);
    CountImpactConcat(seasonal, weekly, Negative);
    CountImpactConcat(seasonal + weekly, daily, Negative);
  }

  lemma {:induction false} CountImpactConcat(a: seq<MarketTrend>, b: seq<MarketTrend>, impact: Impact)
    ensures CountImpact(a + b, impact) == CountImpact(a, impact) + CountImpact(b, impact)
    decreases |b|
  {
    if b == [] {
      assert a + b == a;
    } else {
      var init := b[..|b| - 1];
      assert a + b == (a + init) + [b[|b| - 1]];
      CountImpactAppend(a + init, b[|b| - 1], impact);
      CountImpactConcat(a, init, impact);
    }
  }

  /** A winter weekday outside meal times: the only trend, snacks at factor 1.1, is
      neutral, and the overall reading is negative. */
  method LoneNeutralTrendReadsNegative() returns (trends: seq<MarketTrend>, overall: Overall)
    ensures |trends| == 1 && trends[0].impact == Neutral
    ensures overall == OverallNegative
  {
    trends, overall := MarketTrends(Winter, "snacks", 2, 15);
  }

  // ---------------------------------------------------------------------------
  // Risk assessment

  datatype RiskKind = SupplyRisk | PriceRisk | QualityRisk | LogisticsRisk
  datatype RiskLevel = HighRisk | MediumRisk | LowRisk
  datatype Risk = Risk(kind: RiskKind, level: RiskLevel)
  datatype RiskReport = RiskReport(overall: RiskLevel, riskScore: int, risks: seq<Risk>)

  /** The points each kind and level of risk adds to the score. */
  function Weight(r: Risk): (w: int)
    ensures 0 <= w <= 30
  {
    match (r.kind, r.level)
    case (SupplyRisk, HighRisk) => 30
    case (SupplyRisk, _) => 15
    case (PriceRisk, HighRisk) => 25
    case (PriceRisk, _) => 15
    case (QualityRisk, HighRisk) => 20
    case (QualityRisk, _) => 10
    case (LogisticsRisk, _) => 10
  }

  function TotalWeight(risks: seq<Risk>): int
  {
    if risks == [] then 0 else TotalWeight(risks[..|risks| - 1]) + Weight(risks[|risks| - 1])
  }

  function Mean(xs: seq<real>): real
    requires xs != []
  {
    Sum(xs) / |xs| as real
  }

  /** The population variance: the mean of squared deviations from the mean. */
  function Variance(xs: seq<real>): real
    requires xs != []
  {
    var m := Mean(xs);
    Sum(seq(|xs|, i requires 0 <= i < |xs| => (xs[i] - m) * (xs[i] - m))) / |xs| as real
  }

  /** `Math.sqrt(variance) / mean * 100 > pct`, without the square root. For a positive
      mean both sides are non-negative and can be squared. For a zero mean the quotient is
      Infinity when the variance is not zero, which exceeds every finite threshold, and NaN
      when it is, which exceeds none; for a negative mean it is not positive. With no
      prices the mean itself is NaN. */
  predicate VolatilityAbove(prices: seq<real>, pct: real)
    requires pct >= 0.0
  {
    && prices != []
    && if Mean(prices) > 0.0 then Variance(prices) * 10000.0 > (pct * Mean(prices)) * (pct * Mean(prices))
       else Mean(prices) == 0.0 && Variance(prices) > 0.0
  }

  /** For a positive mean, the squared comparison agrees with the one on the standard
      deviation. */
  lemma VolatilityWithRoot(prices: seq<real>, pct: real, root: real)
    requires pct >= 0.0 && prices != [] && Mean(prices) > 0.0
    requires root >= 0.0 && root * root == Variance(prices)
    ensures VolatilityAbove(prices, pct) <==> root / Mean(prices) * 100.0 > pct
  {
    RootCompare(Variance(prices), Mean(prices), pct, root);
  }

  lemma RootCompare(variance: real, m: real, pct: real, root: real)
    requires m > 0.0 && pct >= 0.0 && root >= 0.0 && root * root == variance
    ensures variance * 10000.0 > (pct * m) * (pct * m) <==> root / m * 100.0 > pct
  {
    ScaleStrict(root / m * 100.0, pct, m);
    assert root / m * 100.0 * m == root * 100.0;
    ProductNonNegative(pct, m);
    SquaresCompare(root * 100.0, pct * m);
    assert (root * 100.0) * (root * 100.0) == variance * 10000.0;
  }

  /** `s.rating && s.rating < 3`: a rating of 0 counts as none. */
  predicate LowRated(v: SupplierView)
  {
    v.rating != 0.0 && v.rating < 3.0
  }

  /** `s.distance && s.distance > 10`. */
  predicate Distant(v: SupplierView)
  {
    v.distance != 0.0 && v.distance > 10.0
  }

  /** The low-rated suppliers: none exactly when no supplier is low rated. */
  function CountLowRated(s: seq<SupplierView>): (n: nat)
    ensures n <= |s|
    ensures n == 0 <==> forall i :: 0 <= i < |s| ==> !LowRated(s[i])
  {
    if s == [] then 0
    else
      var init := s[..|s| - 1];
      assert forall i :: 0 <= i < |init| ==> init[i] == s[i];
      CountLowRated(init) + (if LowRated(s[|s| - 1]) then 1 else 0)
  }

  /** The distant suppliers: none exactly when no supplier is distant. */
  function CountDistant(s: seq<SupplierView>): (n: nat)
    ensures n <= |s|
    ensures n == 0 <==> forall i :: 0 <= i < |s| ==> !Distant(s[i])
  {
    if s == [] then 0
    else
      var init := s[..|s| - 1];
      assert forall i :: 0 <= i < |init| ==> init[i] == s[i];
      CountDistant(init) + (if Distant(s[|s| - 1]) then 1 else 0)
  }

  /** Appending a supplier counts it when it is low rated. */
  lemma CountLowRatedAppend(s: seq<SupplierView>, v: SupplierView)
    ensures CountLowRated(s + [v]) == CountLowRated(s) + (if LowRated(v) then 1 else 0)
  {
    assert (s + [v])[..|s|] == s;
  }

  /** Appending a supplier counts it when it is distant. */
  lemma CountDistantAppend(s: seq<SupplierView>, v: SupplierView)
    ensures CountDistant(s + [v]) == CountDistant(s) + (if Distant(v) then 1 else 0)
  {
    assert (s + [v])[..|s|] == s;
  }

  function OverallRiskOf(score: int): (l: RiskLevel)
    ensures l == LowRisk <==> score < 20
    ensures l == MediumRisk <==> 20 <= score < 50
    ensures l == HighRisk <==> score >= 50
  {
    if score < 20 then LowRisk else if score < 50 then MediumRisk else HighRisk
  }

  /** Fewer than three suppliers are a supply risk: high for exactly one, medium for none or two. */
  function SupplyRiskOf(n: nat): (r: Option<Risk>)
    ensures r.Some? <==> n < 3
    ensures r.Some? ==> r.value.kind == SupplyRisk && (r.value.level == HighRisk <==> n == 1)
    ensures r.Some? ==> r.value.level in {HighRisk, MediumRisk}
  {
    if n < 3 then Some(Risk(SupplyRisk, if n == 1 then HighRisk else MediumRisk)) else None
  }

  /** Volatility above 20% is a price risk, high above 40%. */
  function PriceRiskOf(prices: seq<real>): (r: Option<Risk>)
    ensures r.Some? <==> VolatilityAbove(prices, 20.0)
    ensures r.Some? ==> r.value.kind == PriceRisk && (r.value.level == HighRisk <==> VolatilityAbove(prices, 40.0))
    ensures r.Some? ==> r.value.level in {HighRisk, MediumRisk}
  {
    if VolatilityAbove(prices, 20.0) then
      Some(Risk(PriceRisk, if VolatilityAbove(prices, 40.0) then HighRisk else MediumRisk))
    else None
  }

  /** Any supplier rated below 3 is a quality risk, high when they are more than half. */
  function QualityRiskOf(low: nat, n: nat): (r: Option<Risk>)
    ensures r.Some? <==> low > 0
    ensures r.Some? ==> r.value.kind == QualityRisk && (r.value.level == HighRisk <==> 2 * low > n)
    ensures r.Some? ==> r.value.level in {HighRisk, MediumRisk}
  {
    if low > 0 then Some(Risk(QualityRisk, if 2 * low > n then HighRisk else MediumRisk)) else None
  }

  /** More than 70% of suppliers beyond 10 km is a (medium) logistics risk. */
  function LogisticsRiskOf(distant: nat, n: nat): (r: Option<Risk>)
    ensures r.Some? <==> 10 * distant > 7 * n
    ensures r.Some? ==> r.value == Risk(LogisticsRisk, MediumRisk)
  {
    if 10 * distant > 7 * n then Some(Risk(LogisticsRisk, MediumRisk)) else None
  }

  function Listed(r: Option<Risk>): seq<Risk>
  {
    if r.Some? then [r.value] else []
  }

  /** The points a risk adds when it is found, none when it is not. */
  function Points(r: Option<Risk>): (p: int)
    ensures 0 <= p <= 30
    ensures r.Some? && r.value.kind == PriceRisk ==> p <= 25
    ensures r.Some? && r.value.kind == QualityRisk ==> p <= 20
    ensures r.Some? && r.value.kind == LogisticsRisk ==> p == 10
  {
    if r.Some? then Weight(r.value) else 0
  }

  lemma TotalWeightAppend(risks: seq<Risk>, extra: Option<Risk>)
    ensures TotalWeight(risks + Listed(extra)) == TotalWeight(risks) + Points(extra)
  {
    if extra.Some? {
      assert (risks + [extra.value])[..|risks|] == risks;
    } else {
      assert risks + [] == risks;
    }
  }

  /** The four risks together add at most 30 + 25 + 20 + 10 points. */
  lemma PointsAtMost85(n: nat, prices: seq<real>, low: nat, distant: nat)
    ensures 0 <= Points(SupplyRiskOf(n)) + Points(PriceRiskOf(prices)) + Points(QualityRiskOf(low, n))
                 + Points(LogisticsRiskOf(distant, n)) <= 85
  {
  }

  /** Supply: fewer than three suppliers. */
  method AddSupplyRisk(risks: seq<Risk>, score: int, n: nat) returns (risks': seq<Risk>, score': int)
    ensures risks' == risks + Listed(SupplyRiskOf(n))
    ensures score' == score + Points(SupplyRiskOf(n))
  {
    risks', score' := risks, score;
    if n < 3 {
      risks' := risks' + [Risk(SupplyRisk, if n == 1 then HighRisk else MediumRisk)];
      score' := score' + if n == 1 then 30 else 15;
    }
  }

  /** Price: volatility above 20%, high above 40%. */
  method AddPriceRisk(risks: seq<Risk>, score: int, prices: seq<real>) returns (risks': seq<Risk>, score': int)
    ensures risks' == risks + Listed(PriceRiskOf(prices))
    ensures score' == score + Points(PriceRiskOf(prices))
  {
    risks', score' := risks, score;
    if VolatilityAbove(prices, 20.0) {
      var high := VolatilityAbove(prices, 40.0);
      risks' := risks' + [Risk(PriceRisk, if high then HighRisk else MediumRisk)];
      score' := score' + if high then 25 else 15;
    }
  }

  /** Quality: suppliers rated below 3, high when more than half. */
  method AddQualityRisk(risks: seq<Risk>, score: int, low: nat, n: nat) returns (risks': seq<Risk>, score': int)
    ensures risks' == risks + Listed(QualityRiskOf(low, n))
    ensures score' == score + Points(QualityRiskOf(low, n))
  {
    risks', score' := risks, score;
    if low > 0 {
      risks' := risks' + [Risk(QualityRisk, if 2 * low > n then HighRisk else MediumRisk)];
      score' := score' + if 2 * low > n then 20 else 10;
    }
  }

  /** Logistics: more than 70% of suppliers beyond 10 km. */
  method AddLogisticsRisk(risks: seq<Risk>, score: int, distant: nat, n: nat) returns (risks': seq<Risk>, score': int)
    ensures risks' == risks + Listed(LogisticsRiskOf(distant, n))
    ensures score' == score + Points(LogisticsRiskOf(distant, n))
  {
    risks', score' := risks, score;
    if 10 * distant > 7 * n {
      risks' := risks' + [Risk(LogisticsRisk, MediumRisk)];
      score' := score' + 10;
    }
  }

  /** `generateRiskAssessment`: the risks in the source's order, the score accumulated as
      they are found. The reported score equals the weights of the listed risks, never
      exceeds 85 (so the cap at 100 never applies), and the overall level buckets it. */
  method AssessRisk(s: seq<SupplierView>) returns (r: RiskReport)
    ensures r.risks == Listed(SupplyRiskOf(|s|)) + Listed(PriceRiskOf(PricesOf(s)))
                       + Listed(QualityRiskOf(CountLowRated(s), |s|)) + Listed(LogisticsRiskOf(CountDistant(s), |s|))
    ensures r.riskScore == TotalWeight(r.risks)
    ensures 0 <= r.riskScore <= 85
    ensures r.overall == OverallRiskOf(r.riskScore)
    ensures s == [] ==> r.riskScore == 15 && r.overall == LowRisk
  {
    var n := |s|;
    var risks: seq<Risk> := [];
    var riskScore := 0;
    ghost var supply := SupplyRiskOf(n);
    ghost var price := PriceRiskOf(PricesOf(s));
    ghost var quality := QualityRiskOf(CountLowRated(s), n);
    ghost var logistics := LogisticsRiskOf(CountDistant(s), n);

    risks, riskScore := AddSupplyRisk(risks, riskScore, n);
    TotalWeightAppend([], supply);
    risks, riskScore := AddPriceRisk(risks, riskScore, PricesOf(s));
    TotalWeightAppend(Listed(supply), price);
    risks, riskScore := AddQualityRisk(risks, riskScore, CountLowRated(s), n);
    TotalWeightAppend(Listed(supply) + Listed(price), quality);
    risks, riskScore := AddLogisticsRisk(risks, riskScore, CountDistant(s), n);
    TotalWeightAppend(Listed(supply) + Listed(price) + Listed(quality), logistics);

    assert riskScore == Points(supply) + Points(price) + Points(quality) + Points(logistics);
    PointsAtMost85(n, PricesOf(s), CountLowRated(s), CountDistant(s));
    r := RiskReport(OverallRiskOf(riskScore), if riskScore < 100 then riskScore else 100, risks);
  }
}
