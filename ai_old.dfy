/** The older insight generator: price statistics with a trend read from the price
    histories, a seasonal price forecast, level-based demand, per-supplier quality scores
    capped at 5, at most three recommendations and a three-level risk assessment with its
    mitigations. The clock is passed in as month, weekday and hour; the great-circle
    distance of each supplier from the vendor is given, or missing when either side has
    no coordinates. */
module LegacyInsights {
  import opened Common
  import opened SupplierProducts

  /** A populated offer: the offer document, its supplier's rating (0 when missing), the
      lower delivery estimate in hours, the number of certifications and the distance. */
  datatype Listing = Listing(
    offer: Offer,
    rating: real,
    fastestDelivery: Option<real>,
    certifications: nat,
    distance: Option<real>)

  function PricesOf(s: seq<Listing>): (r: seq<real>)
    ensures |r| == |s| && forall i :: 0 <= i < |s| ==> r[i] == s[i].offer.price
  {
    seq(|s|, i requires 0 <= i < |s| => s[i].offer.price)
  }

  /** `(numerator / denominator) * 100 > pct` on JavaScript numbers: dividing by zero gives
      Infinity for a positive numerator, -Infinity for a negative one and NaN for zero,
      and only Infinity exceeds a finite threshold. */
  predicate PercentAbove(numerator: real, denominator: real, pct: real)
  {
    if denominator != 0.0 then numerator / denominator * 100.0 > pct else numerator > 0.0
  }

  // ---------------------------------------------------------------------------
  // Lookup tables

  /** `getSeasonalFactors`: a month-by-month price factor for vegetables and grains, an
      empty table for any other category. */
  function SeasonalFactors(category: string): (t: map<int, real>)
    ensures category != "vegetables" && category != "grains" ==> t == map[]
    ensures forall m :: m in t ==> 1 <= m <= 12 && 0.9 <= t[m] <= 1.3
  {
    if category == "vegetables" then
      map[1 := 1.1, 2 := 1.0, 3 := 0.9, 4 := 0.9, 5 := 1.0, 6 := 1.2,
          7 := 1.3, 8 := 1.2, 9 := 1.1, 10 := 1.0, 11 := 0.9, 12 := 1.1]
    else if category == "grains" then
      map[1 := 1.0, 2 := 1.0, 3 := 1.0, 4 := 1.1, 5 := 1.2, 6 := 1.1,
          7 := 1.0, 8 := 1.0, 9 := 1.0, 10 := 1.1, 11 := 1.2, 12 := 1.1]
    else map[]
  }

  /** `getSeasonalDemand(category, month)`, and the forecast's `seasonalFactors[month] || 1`:
      the table's entry, 1 for a category or month without one. No entry is below 0.9. */
  function SeasonalDemand(category: string, month: int): (f: real)
    ensures 0.9 <= f <= 1.3
    ensures month !in SeasonalFactors(category) ==> f == 1.0
  {
    var t := SeasonalFactors(category);
    if month in t && t[month] != 0.0 then t[month] else 1.0
  }

  /** Only vegetables in July pass 1.2; grains peak at exactly 1.2, which does not. */
  lemma SeasonalPeak(category: string, month: int)
    ensures SeasonalDemand(category, month) > 1.2 <==> category == "vegetables" && month == 7
  {
    var t := SeasonalFactors(category);
    if category == "vegetables" && month in t {
      assert 1 <= month <= 12;
      if month != 7 {
        assert t[month] <= 1.2;
      }
    } else if category == "grains" && month in t {
      assert 1 <= month <= 12;
      assert t[month] <= 1.2;
    }
  }

  datatype Level = VeryLow | Low | Medium | High | VeryHigh

  function LevelName(l: Level): string
  {
    match l
    case VeryLow => "very_low"
    case Low => "low"
    case Medium => "medium"
    case High => "high"
    case VeryHigh => "very_high"
  }

  /** The position of a level, 1 for very low up to 5 for very high. */
  function Rank(l: Level): int
  {
    match l
    case VeryLow => 1
    case Low => 2
    case Medium => 3
    case High => 4
    case VeryHigh => 5
  }

  /** `getDemandScore`: 1 to 5 for very_low up to very_high, 3 for any other name. */
  function DemandScoreOf(level: string): (score: int)
    ensures 1 <= score <= 5
    ensures score == 1 <==> level == "very_low"
    ensures score == 2 <==> level == "low"
    ensures score == 4 <==> level == "high"
    ensures score == 5 <==> level == "very_high"
  {
    if level == "very_low" then 1
    else if level == "low" then 2
    else if level == "medium" then 3
    else if level == "high" then 4
    else if level == "very_high" then 5
    else 3
  }

  /** The demand table agrees with the order of the levels. */
  lemma DemandScoreFollowsRank(l: Level)
    ensures DemandScoreOf(LevelName(l)) == Rank(l)
  {
    match l
    case VeryLow =>
    case Low =>
      assert LevelName(l) != "very_low";
    case Medium =>
      assert LevelName(l) != "very_low" && LevelName(l) != "low";
    case High =>
      assert LevelName(l) != "very_low" && LevelName(l) != "low" && LevelName(l) != "medium";
    case VeryHigh =>
      assert LevelName(l) != "very_low" && LevelName(l) != "low" && LevelName(l) != "medium";
      assert LevelName(l) != "high";
  }

  datatype RiskLevel = LowRisk | MediumRisk | HighRisk

  function RiskName(l: RiskLevel): string
  {
    match l
    case LowRisk => "low"
    case MediumRisk => "medium"
    case HighRisk => "high"
  }

  /** `getRiskScore`: 1 to 4 for low up to very_high, 1 for any other name. */
  function RiskScoreOf(level: string): (score: int)
    ensures 1 <= score <= 4
    ensures score == 2 <==> level == "medium"
    ensures score == 3 <==> level == "high"
    ensures score == 4 <==> level == "very_high"
  {
    if level == "low" then 1
    else if level == "medium" then 2
    else if level == "high" then 3
    else if level == "very_high" then 4
    else 1
  }

  lemma RiskScoreOfLevels(l: RiskLevel)
    ensures RiskScoreOf(RiskName(l)) == match l case LowRisk => 1 case MediumRisk => 2 case HighRisk => 3
  {
    match l
    case LowRisk =>
    case MediumRisk =>
      assert RiskName(l) != "low";
    case HighRisk =>
      assert RiskName(l) != "low" && RiskName(l) != "medium";
  }

  // ---------------------------------------------------------------------------
  // Price analysis and the price forecast

  datatype Direction = Increase | Decrease | NoChange
  datatype Confidence = HighConfidence | MediumConfidence
  datatype Forecast = Forecast(direction: Direction, confidence: Confidence, expectedChange: Option<int>)

  /** A trend of more than 5% either way. */
  predicate Strong(trend: Option<real>)
  {
    trend.Some? && (trend.value > 5.0 || trend.value < -5.0)
  }

  /** The forecast's rules: a strong trend decides the direction by its sign, with high
      confidence; otherwise the seasonal multiplier does, an increase above 1.1 and a
      decrease below 0.9, each with high confidence, and no change with medium confidence
      in between. The expected change is the trend scaled by the multiplier, rounded. */
  predicate ForecastFollows(f: Forecast, multiplier: real, trend: Option<real>)
  {
    && (Strong(trend) ==>
          f.confidence == HighConfidence && (f.direction == Increase <==> trend.value > 0.0)
          && (f.direction == Decrease <==> trend.value < 0.0))
    && (!Strong(trend) ==>
          && (f.direction == Increase <==> multiplier > 1.1)
          && (f.direction == Decrease <==> multiplier < 0.9)
          && (f.confidence == HighConfidence <==> multiplier > 1.1 || multiplier < 0.9))
    && (trend.None? ==> f.expectedChange.None?)
    && (trend.Some? ==>
          (f.expectedChange.Some?
           && f.expectedChange.value as real <= trend.value * multiplier + 0.5 < f.expectedChange.value as real + 1.0))
  }

  /** `generateFuturePricePrediction`. The trend is the average recent price change, or
      nothing when it is NaN (`Math.abs(NaN) > 5` is false and the expected change stays
      NaN). Because no seasonal factor is below 0.9, only a strong falling trend ever
      predicts a decrease. */
  method ForecastPrice(category: string, month: int, trend: Option<real>) returns (f: Forecast)
    ensures ForecastFollows(f, SeasonalDemand(category, month), trend)
    ensures f.direction == Decrease ==> trend.Some? && trend.value < -5.0
  {
    var seasonalMultiplier := SeasonalDemand(category, month);
    var prediction := NoChange;
    var confidence := MediumConfidence;
    if seasonalMultiplier > 1.1 {
      prediction := Increase;
      confidence := HighConfidence;
    } else if seasonalMultiplier < 0.9 {
      prediction := Decrease;
      confidence := HighConfidence;
    }
    if trend.Some? && (trend.value > 5.0 || trend.value < -5.0) {
      confidence := HighConfidence;
      if trend.value > 0.0 {
        prediction := Increase;
      } else {
        prediction := Decrease;
      }
    }
    var expectedChange := if trend.Some? then Some(RoundHalfUp(trend.value * seasonalMultiplier)) else None;
    f := Forecast(prediction, confidence, expectedChange);
  }

  /** The change against the last price-history entry, in percent. A missing entry price
      falls back to the current price (so the change is 0), and 0/0 is NaN, modelled as
      nothing. */
  function PriceChange(o: Offer): (c: Option<real>)
    requires o.priceHistory != []
    ensures c.None? <==> o.priceHistory[|o.priceHistory| - 1].price == 0.0 && o.price == 0.0
  {
    var last := o.priceHistory[|o.priceHistory| - 1].price;
    var lastPrice := if last != 0.0 then last else o.price;
    if lastPrice == 0.0 then None else Some((o.price - lastPrice) / lastPrice * 100.0)
  }

  /** Against a positive last price, the change is positive exactly when the price rose
      and negative exactly when it fell; without a last price it is 0. */
  lemma PriceChangeSign(o: Offer)
    requires o.priceHistory != []
    ensures var last := o.priceHistory[|o.priceHistory| - 1].price;
      && (last > 0.0 ==>
            (PriceChange(o).Some?
             && (PriceChange(o).value > 0.0 <==> o.price > last)
             && (PriceChange(o).value < 0.0 <==> o.price < last)))
      && (last == 0.0 && o.price != 0.0 ==> PriceChange(o) == Some(0.0))
  {
    var last := o.priceHistory[|o.priceHistory| - 1].price;
    if last > 0.0 {
      var q := (o.price - last) / last;
      assert q * last == o.price - last;
      assert q > 0.0 <==> o.price > last;
      assert q < 0.0 <==> o.price < last;
    }
  }

  /** The changes of the offers that have a price history, in order. */
  function PriceChanges(s: seq<Listing>): (cs: seq<Option<real>>)
    ensures |cs| <= |s|
  {
    if s == [] then []
    else
      var o := s[|s| - 1].offer;
      PriceChanges(s[..|s| - 1]) + (if o.priceHistory != [] then [PriceChange(o)] else [])
  }

  /** Offers without a history contribute nothing. */
  lemma {:induction false} PriceChangesWithoutHistory(s: seq<Listing>)
    requires forall i :: 0 <= i < |s| ==> s[i].offer.priceHistory == []
    ensures PriceChanges(s) == []
  {
    if s != [] {
      PriceChangesWithoutHistory(s[..|s| - 1]);
    }
  }

  /** The sum of the changes; NaN once any of them is NaN. */
  function SumChanges(cs: seq<Option<real>>): (r: Option<real>)
    ensures r.None? <==> None in cs
  {
    if cs == [] then Some(0.0)
    else
      var rest := SumChanges(cs[..|cs| - 1]);
      assert cs == cs[..|cs| - 1] + [cs[|cs| - 1]];
      var last := cs[|cs| - 1];
      if rest.Some? && last.Some? then Some(rest.value + last.value) else None
  }

  /** `avgPriceChange`: 0 when no offer has a history, otherwise the mean of the changes. */
  function AverageChange(cs: seq<Option<real>>): (r: Option<real>)
    ensures cs == [] ==> r == Some(0.0)
    ensures r.None? <==> None in cs
  {
    if cs == [] then Some(0.0)
    else
      var total := SumChanges(cs);
      if total.Some? then Some(total.value / |cs| as real) else None
  }

  datatype Trend = Decreasing | Increasing | Steady
  datatype PriceNote = PricesDropped | PricesRose | PricesVary | PricesStable

  datatype PriceAnalysis =
    | Unavailable
    | PriceAnalysis(
        trend: Trend,
        note: PriceNote,
        avgPrice: int,
        minPrice: real,
        maxPrice: real,
        variability: Option<int>,
        avgPriceChange: Option<real>,
        forecast: Forecast)

  /** `generatePriceAnalysis`. No suppliers: unavailable. Otherwise the trend follows the
      average change (below -3 decreasing, above 3 increasing, else stable; NaN is stable),
      a stable trend with a spread above 20% of the mean price is reported as varied, the
      mean is rounded and lies within half a unit of the price range, the variability is
      the spread as a rounded percentage of the mean (not a number for a zero mean), the
      average change is rounded to one decimal, and the forecast follows the average
      change and the seasonal table. */
  method AnalysePrices(s: seq<Listing>, category: string, month: int) returns (r: PriceAnalysis)
    ensures r.Unavailable? <==> s == []
    ensures r.PriceAnalysis? ==>
              && r.minPrice in PricesOf(s) && r.maxPrice in PricesOf(s)
              && (forall p :: p in PricesOf(s) ==> r.minPrice <= p <= r.maxPrice)
              && r.minPrice - 0.5 <= r.avgPrice as real <= r.maxPrice + 0.5
    ensures r.PriceAnalysis? ==>
              var mean := Sum(PricesOf(s)) / |s| as real;
              && r.avgPrice == RoundHalfUp(mean)
              && (r.variability.Some? <==> mean != 0.0)
              && (r.variability.Some? ==> r.variability.value == RoundHalfUp((r.maxPrice - r.minPrice) / mean * 100.0))
    ensures r.PriceAnalysis? ==>
              var change := AverageChange(PriceChanges(s));
              && (r.trend == Decreasing <==> change.Some? && change.value < -3.0)
              && (r.trend == Increasing <==> change.Some? && change.value > 3.0)
              && (r.note == PricesDropped <==> r.trend == Decreasing)
              && (r.note == PricesRose <==> r.trend == Increasing)
              && (r.note == PricesVary <==>
                    r.trend == Steady && PercentAbove(r.maxPrice - r.minPrice, Sum(PricesOf(s)) / |s| as real, 20.0))
              && (r.avgPriceChange.Some? <==> change.Some?)
              && (r.avgPriceChange.Some? ==> r.avgPriceChange.value == Round1(change.value))
              && ForecastFollows(r.forecast, SeasonalDemand(category, month), change)
  {
    if s == [] {
      return Unavailable;
    }
    var avgPrice, minPrice, maxPrice := PriceRange(s);
    var priceRange := maxPrice - minPrice;
    var avgPriceChange := AverageChange(PriceChanges(s));
    var trend, note := ClassifyPrices(avgPriceChange, priceRange, avgPrice);
    var futurePrediction := ForecastPrice(category, month, avgPriceChange);
    var variability := if avgPrice != 0.0 then Some(RoundHalfUp(priceRange / avgPrice * 100.0)) else None;
    var roundedChange := if avgPriceChange.Some? then Some(Round1(avgPriceChange.value)) else None;
    r := PriceAnalysis(trend, note, RoundHalfUp(avgPrice), minPrice, maxPrice, variability, roundedChange, futurePrediction);
  }

  /** The mean, the lowest and the highest offered price; the mean lies between the two. */
  method PriceRange(s: seq<Listing>) returns (avgPrice: real, minPrice: real, maxPrice: real)
    requires s != []
    ensures avgPrice == Sum(PricesOf(s)) / |s| as real
    ensures minPrice in PricesOf(s) && maxPrice in PricesOf(s)
    ensures forall p :: p in PricesOf(s) ==> minPrice <= p <= maxPrice
    ensures minPrice <= avgPrice <= maxPrice
  {
    var prices := PricesOf(s);
    avgPrice := Sum(prices) / |prices| as real;
    minPrice := SeqMin(prices);
    maxPrice := SeqMax(prices);
    MeanWithinExtremes(prices);
  }

  /** The trend and its note: the average change decides first, a stable trend with a
      wide spread is reported as varied. */
  method ClassifyPrices(change: Option<real>, priceRange: real, avgPrice: real) returns (trend: Trend, note: PriceNote)
    ensures trend == Decreasing <==> change.Some? && change.value < -3.0
    ensures trend == Increasing <==> change.Some? && change.value > 3.0
    ensures note == PricesDropped <==> trend == Decreasing
    ensures note == PricesRose <==> trend == Increasing
    ensures note == PricesVary <==> trend == Steady && PercentAbove(priceRange, avgPrice, 20.0)
  {
    trend := Steady;
    note := PricesStable;
    if change.Some? && change.value < -3.0 {
      trend := Decreasing;
      note := PricesDropped;
    } else if change.Some? && change.value > 3.0 {
      trend := Increasing;
      note := PricesRose;
    } else if PercentAbove(priceRange, avgPrice, 20.0) {
      note := PricesVary;
    }
  }

  // ---------------------------------------------------------------------------
  // Demand

  /** Vegetables between 6 and 10 in the morning or 4 and 7 in the evening. */
  predicate VegetablePeak(category: string, hour: Hour)
  {
    category == "vegetables" && (6 <= hour <= 10 || 16 <= hour <= 19)
  }

  predicate Weekend(day: Weekday)
  {
    day == 0 || day == 6
  }

  datatype DemandForecast = DemandForecast(level: Level, increasing: bool, score: int)

  /** `generateDemandPrediction`. Medium by default, high at a vegetable peak hour; a
      weekend raises high to very high and anything else to high; a seasonal peak
      (vegetables in July) then sets high and an increasing trend, even over very high.
      The score is the level's rank, so it is always 3, 4 or 5. */
  method PredictDemand(category: string, hour: Hour, day: Weekday, month: int) returns (d: DemandForecast)
    ensures d.increasing <==> category == "vegetables" && month == 7
    ensures d.increasing ==> d.level == High
    ensures !d.increasing ==> (d.level == VeryHigh <==> VegetablePeak(category, hour) && Weekend(day))
    ensures !d.increasing ==> (d.level == Medium <==> !VegetablePeak(category, hour) && !Weekend(day))
    ensures d.level == Medium || d.level == High || d.level == VeryHigh
    ensures d.score == Rank(d.level) && 3 <= d.score <= 5
  {
    var demandLevel := Medium;
    var increasing := false;
    if category == "vegetables" {
      if 6 <= hour <= 10 {
        demandLevel := High;
      } else if 16 <= hour <= 19 {
        demandLevel := High;
      }
    }
    if day == 0 || day == 6 {
      demandLevel := if demandLevel == High then VeryHigh else High;
    }
    SeasonalPeak(category, month);
    if SeasonalDemand(category, month) > 1.2 {
      demandLevel := High;
      increasing := true;
    }
    DemandScoreFollowsRank(demandLevel);
    d := DemandForecast(demandLevel, increasing, DemandScoreOf(LevelName(demandLevel)));
  }

  // ---------------------------------------------------------------------------
  // Quality score

  /** The score a supplier starts from: its rating, or 3 without one. */
  function BaseScore(l: Listing): real
  {
    if l.rating != 0.0 then l.rating else 3.0
  }

  /** The three bonus conditions: delivery estimated under two hours, more than 100 in
      stock, and at least one certification. */
  predicate FastDelivery(l: Listing)
  {
    l.fastestDelivery.Some? && l.fastestDelivery.value < 2.0
  }

  predicate WellStocked(l: Listing)
  {
    l.offer.stock > 100
  }

  predicate Certified(l: Listing)
  {
    l.certifications > 0
  }

  /** One supplier's score: the base plus 0.5 for delivery within two hours, 0.3 for more
      than 100 in stock and 0.5 for any certification, capped at 5. */
  function SupplierScore(l: Listing): (score: real)
    ensures score <= 5.0
    ensures score == 5.0 || (BaseScore(l) <= score <= BaseScore(l) + 1.3)
    ensures !FastDelivery(l) && !WellStocked(l) && !Certified(l) ==> score == MinReal(5.0, BaseScore(l))
  {
    var bonus := (if FastDelivery(l) then 0.5 else 0.0)
               + (if WellStocked(l) then 0.3 else 0.0)
               + (if Certified(l) then 0.5 else 0.0);
    MinReal(5.0, BaseScore(l) + bonus)
  }

  /** Fast delivery adds 0.5 to a supplier without it, up to the cap. */
  lemma FastDeliveryBonus(l: Listing, hours: real)
    requires !FastDelivery(l) && hours < 2.0
    ensures SupplierScore(l.(fastestDelivery := Some(hours))) == MinReal(5.0, SupplierScore(l) + 0.5)
  {
  }

  /** More than 100 in stock adds 0.3 to a supplier without it, up to the cap. */
  lemma StockBonus(l: Listing, stock: int)
    requires !WellStocked(l) && stock > 100
    ensures SupplierScore(l.(offer := l.offer.(stock := stock))) == MinReal(5.0, SupplierScore(l) + 0.3)
  {
  }

  /** A certification adds 0.5 to a supplier without one, up to the cap. */
  lemma CertificationBonus(l: Listing, certifications: nat)
    requires !Certified(l) && certifications > 0
    ensures SupplierScore(l.(certifications := certifications)) == MinReal(5.0, SupplierScore(l) + 0.5)
  {
  }

  function ScoresOf(s: seq<Listing>): (r: seq<real>)
    ensures |r| == |s| && forall i :: 0 <= i < |s| ==> r[i] == SupplierScore(s[i])
  {
    seq(|s|, i requires 0 <= i < |s| => SupplierScore(s[i]))
  }

  datatype QualityNote = ExcellentQuality | GoodQuality | AverageQuality | VariableQuality

  function QualityNoteOf(score: real): (n: QualityNote)
    ensures n == ExcellentQuality <==> score >= 4.5
    ensures n == GoodQuality <==> 4.0 <= score < 4.5
    ensures n == VariableQuality <==> score < 3.0
    ensures n == AverageQuality <==> 3.0 <= score < 4.0
  {
    if score >= 4.5 then ExcellentQuality
    else if score >= 4.0 then GoodQuality
    else if score < 3.0 then VariableQuality
    else AverageQuality
  }

  datatype Quality = NoQualityData | Quality(score: real, note: QualityNote, distribution: seq<real>)

  /** `calculateQualityScore`: nothing without suppliers (score 0), otherwise the mean of
      the supplier scores rounded to one decimal place. */
  function QualityScore(s: seq<Listing>): (q: Quality)
    ensures q.NoQualityData? <==> s == []
    ensures q.Quality? ==> q.distribution == ScoresOf(s) && q.note == QualityNoteOf(q.score)
    ensures q.Quality? ==> q.score == Round1(Sum(ScoresOf(s)) / |s| as real)
  {
    if s == [] then NoQualityData
    else
      var scores := ScoresOf(s);
      var rounded := Round1(Sum(scores) / |scores| as real);
      Quality(rounded, QualityNoteOf(rounded), scores)
  }

  /** One decimal place never carries a value at most 5 above 5. */
  lemma Round1AtMostFive(x: real)
    requires x <= 5.0
    ensures Round1(x) <= 5.0
  {
    var k := RoundHalfUp(x * 10.0);
    assert k as real <= 50.5;
    assert k <= 50;
  }

  /** Every supplier score is at most 5, and so is the rounded average; the average is no
      lower than the weakest supplier's score less the rounding. */
  lemma RoundedMeanBounds(xs: seq<real>)
    requires xs != [] && forall x :: x in xs ==> x <= 5.0
    ensures SeqMin(xs) - 0.05 < Round1(Sum(xs) / |xs| as real) <= 5.0
  {
    var lo, n := SeqMin(xs), |xs| as real;
    var mean := Sum(xs) / n;
    assert lo <= mean <= 5.0 by {
      SumBetween(xs, lo, 5.0);
      MeanBetween(Sum(xs), n, lo, 5.0);
    }
    Round1AtMostFive(mean);
    assert mean - 0.05 < Round1(mean);
  }

  lemma QualityBounds(s: seq<Listing>)
    requires s != []
    ensures forall x :: x in QualityScore(s).distribution ==> x <= 5.0
    ensures SeqMin(ScoresOf(s)) - 0.05 < QualityScore(s).score <= 5.0
  {
    var scores := ScoresOf(s);
    assert forall x :: x in scores ==> x <= 5.0;
    RoundedMeanBounds(scores);
  }

  /** A supplier without a rating, stock bonus, fast delivery or certification scores 3. */
  lemma PlainSupplierScoresThree(l: Listing)
    requires l.rating == 0.0 && l.offer.stock <= 100 && l.certifications == 0 && l.fastestDelivery.None?
    ensures SupplierScore(l) == 3.0
  {
  }

  // ---------------------------------------------------------------------------
  // Recommendations

  datatype Priority = HighPriority | MediumPriority

  datatype Advice =
    | Availability
    | PriceSpread(savings: real)
    | Nearby(distance: Option<real>)
    | BulkSaving(percentage: real)
    | Premium(count: nat)

  datatype Recommendation = Recommendation(advice: Advice, priority: Priority)

  /** A missing distance is `null`, which compares as 0. */
  function Coerced(d: Option<real>): real
  {
    if d.Some? then d.value else 0.0
  }

  /** The reduce that finds the nearest supplier: the first with the smallest distance. */
  function Nearest(s: seq<Listing>): (i: nat)
    requires s != []
    ensures i < |s|
    ensures forall j :: 0 <= j < |s| ==> Coerced(s[i].distance) <= Coerced(s[j].distance)
    ensures forall j :: 0 <= j < i ==> Coerced(s[j].distance) > Coerced(s[i].distance)
  {
    if |s| == 1 then 0
    else
      var k := Nearest(s[..|s| - 1]);
      if Coerced(s[|s| - 1].distance) < Coerced(s[k].distance) then |s| - 1 else k
  }

  predicate HasBulk(rules: seq<DiscountRule>)
  {
    exists d :: d in rules && d.kind == Bulk
  }

  /** `discounts.find(d => d.type === 'bulk')`. */
  function FirstBulk(rules: seq<DiscountRule>): (d: DiscountRule)
    requires HasBulk(rules)
    ensures d in rules && d.kind == Bulk
  {
    if rules[0].kind == Bulk then rules[0]
    else
      assert forall x :: x in rules && x.kind == Bulk ==> x in rules[1..];
      FirstBulk(rules[1..])
  }

  /** The reduce over suppliers with a bulk discount, starting from 0 and keeping the first
      bulk percentage of each supplier when it is strictly larger. */
  function BestBulk(s: seq<Listing>): (best: real)
    ensures best >= 0.0
    ensures forall i :: 0 <= i < |s| && HasBulk(s[i].offer.discounts) ==> FirstBulk(s[i].offer.discounts).percentage <= best
    ensures best == 0.0 || exists i :: 0 <= i < |s| && HasBulk(s[i].offer.discounts) && FirstBulk(s[i].offer.discounts).percentage == best
  {
    if s == [] then 0.0
    else
      var rest := BestBulk(s[..|s| - 1]);
      var last := s[|s| - 1].offer.discounts;
      if HasBulk(last) && FirstBulk(last).percentage > rest then FirstBulk(last).percentage else rest
  }

  function CountBulk(s: seq<Listing>): (n: nat)
    ensures n <= |s|
    ensures n == 0 <==> forall i :: 0 <= i < |s| ==> !HasBulk(s[i].offer.discounts)
  {
    if s == [] then 0
    else CountBulk(s[..|s| - 1]) + if HasBulk(s[|s| - 1].offer.discounts) then 1 else 0
  }

  /** Suppliers rated 4.5 or better. */
  function CountPremium(s: seq<Listing>): (n: nat)
    ensures n <= |s|
    ensures n == 0 <==> forall i :: 0 <= i < |s| ==> s[i].rating < 4.5
  {
    if s == [] then 0
    else CountPremium(s[..|s| - 1]) + if s[|s| - 1].rating >= 4.5 then 1 else 0
  }

  /** Each kind of advice and when it applies, in the order the code considers them. */
  function PriceAdvice(s: seq<Listing>): (r: seq<Recommendation>)
    requires s != []
    ensures |r| <= 1
    ensures r != [] <==> SeqMax(PricesOf(s)) - SeqMin(PricesOf(s)) > 5.0
  {
    var savings := SeqMax(PricesOf(s)) - SeqMin(PricesOf(s));
    if savings > 5.0 then [Recommendation(PriceSpread(savings), HighPriority)] else []
  }

  function NearbyAdvice(s: seq<Listing>, vendorKnown: bool): (r: seq<Recommendation>)
    ensures |r| <= 1
    ensures r != [] <==> vendorKnown && |s| > 1 && exists j :: 0 <= j < |s| && Coerced(s[j].distance) < 5.0
  {
    if vendorKnown && |s| > 1 && Coerced(s[Nearest(s)].distance) < 5.0 then
      [Recommendation(Nearby(s[Nearest(s)].distance), MediumPriority)]
    else []
  }

  function BulkAdvice(s: seq<Listing>): (r: seq<Recommendation>)
    ensures |r| <= 1
    ensures r != [] <==> exists i :: 0 <= i < |s| && HasBulk(s[i].offer.discounts)
  {
    if CountBulk(s) > 0 then [Recommendation(BulkSaving(BestBulk(s)), MediumPriority)] else []
  }

  function PremiumAdvice(s: seq<Listing>): (r: seq<Recommendation>)
    ensures |r| <= 1
    ensures r != [] <==> exists i :: 0 <= i < |s| && s[i].rating >= 4.5
  {
    var premium := CountPremium(s);
    if premium > 0 then [Recommendation(Premium(premium), MediumPriority)] else []
  }

  /** Everything the code pushes before cutting the list to three. */
  function AllAdvice(s: seq<Listing>, vendorKnown: bool): (r: seq<Recommendation>)
    requires s != []
    ensures |r| <= 4
  {
    PriceAdvice(s) + NearbyAdvice(s, vendorKnown) + BulkAdvice(s) + PremiumAdvice(s)
  }

  /** `generateRecommendations`: a single high-priority availability notice without
      suppliers; otherwise the first three of the price, nearby, bulk and premium advice
      that apply. */
  method Recommend(s: seq<Listing>, vendorKnown: bool) returns (recs: seq<Recommendation>)
    ensures s == [] ==> recs == [Recommendation(Availability, HighPriority)]
    ensures s != [] ==> recs == AllAdvice(s, vendorKnown)[..if |AllAdvice(s, vendorKnown)| < 3 then |AllAdvice(s, vendorKnown)| else 3]
    ensures |recs| <= 3
  {
    if s == [] {
      return [Recommendation(Availability, HighPriority)];
    }
    recs := [];
    var prices := PricesOf(s);
    var savings := SeqMax(prices) - SeqMin(prices);
    if savings > 5.0 {
      recs := recs + [Recommendation(PriceSpread(savings), HighPriority)];
    }
    assert recs == PriceAdvice(s);
    if vendorKnown && |s| > 1 {
      var nearest := Nearest(s);
      if Coerced(s[nearest].distance) < 5.0 {
        recs := recs + [Recommendation(Nearby(s[nearest].distance), MediumPriority)];
      }
    }
    assert recs == PriceAdvice(s) + NearbyAdvice(s, vendorKnown);
    if CountBulk(s) > 0 {
      recs := recs + [Recommendation(BulkSaving(BestBulk(s)), MediumPriority)];
    }
    assert recs == PriceAdvice(s) + NearbyAdvice(s, vendorKnown) + BulkAdvice(s);
    var premium := CountPremium(s);
    if premium > 0 {
      recs := recs + [Recommendation(Premium(premium), MediumPriority)];
    }
    assert recs == AllAdvice(s, vendorKnown);
    recs := recs[..if |recs| < 3 then |recs| else 3];
  }

  /** The cut to three only ever drops the premium-supplier advice, and only when all
      four kinds apply; the price advice, when it applies, comes first. */
  lemma CutDropsOnlyPremium(s: seq<Listing>, vendorKnown: bool)
    requires s != []
    ensures var all := AllAdvice(s, vendorKnown);
      var kept := all[..if |all| < 3 then |all| else 3];
      && PriceAdvice(s) + NearbyAdvice(s, vendorKnown) + BulkAdvice(s) <= kept
      && (PremiumAdvice(s) != [] ==> (kept == all <==> |all| <= 3))
      && (PriceAdvice(s) != [] ==> kept[0].advice.PriceSpread?)
  {
    var all := AllAdvice(s, vendorKnown);
    var first := PriceAdvice(s) + NearbyAdvice(s, vendorKnown) + BulkAdvice(s);
    assert all == first + PremiumAdvice(s);
    assert |first| <= 3;
    if PriceAdvice(s) != [] {
      assert all[0] == PriceAdvice(s)[0];
    }
  }

  // ---------------------------------------------------------------------------
  // Risk assessment

  datatype RiskKind = SupplyRisk | VolatilityRisk | QualityRisk
  datatype Risk = Risk(kind: RiskKind, level: RiskLevel, mitigation: string)

  const SupplyMitigation: string := "Monitor alternative products or expand supplier network"
  const VolatilityMitigation: string := "Lock in prices with preferred suppliers or diversify orders"
  const QualityMitigation: string := "Verify quality before large orders and maintain backup suppliers"

  /** More than one supplier and a spread above 30% of the lowest price (an infinite
      ratio when the lowest price is 0 and the highest is not). */
  predicate Volatile(s: seq<Listing>)
  {
    |s| > 1 && PercentAbove(SeqMax(PricesOf(s)) - SeqMin(PricesOf(s)), SeqMin(PricesOf(s)), 30.0)
  }

  /** The ratings summed with 3 standing in for a missing one. */
  function RatingSum(s: seq<Listing>): real
  {
    if s == [] then 0.0
    else RatingSum(s[..|s| - 1]) + (if s[|s| - 1].rating != 0.0 then s[|s| - 1].rating else 3.0)
  }

  /** The average rating below 3.5; the divisor `suppliers.length || 1` makes it 0 for no
      suppliers, which counts as low. */
  predicate LowRated(s: seq<Listing>)
  {
    RatingSum(s) / (if s == [] then 1.0 else |s| as real) < 3.5
  }

  /** `risks.map(risk => risk.mitigation)`. */
  function Mitigations(risks: seq<Risk>): (m: seq<string>)
    ensures |m| == |risks|
    ensures forall i :: 0 <= i < |risks| ==> m[i] == risks[i].mitigation
  {
    if risks == [] then [] else Mitigations(risks[..|risks| - 1]) + [risks[|risks| - 1].mitigation]
  }

  datatype RiskAssessment = RiskAssessment(overall: RiskLevel, risks: seq<Risk>, score: int, mitigations: seq<string>)

  /** `generateRiskAssessment`. Fewer than two suppliers is a high supply risk and makes
      the overall level high; a volatile price spread adds a medium risk and raises a low
      overall level to medium but never lowers high; a low average rating adds a medium
      risk without changing the level. The score is the level's 1, 2 or 3, and the
      mitigations follow the risks one for one. */
  method AssessRisk(s: seq<Listing>) returns (a: RiskAssessment)
    ensures a.risks == (if |s| < 2 then [Risk(SupplyRisk, HighRisk, SupplyMitigation)] else [])
                       + (if Volatile(s) then [Risk(VolatilityRisk, MediumRisk, VolatilityMitigation)] else [])
                       + (if LowRated(s) then [Risk(QualityRisk, MediumRisk, QualityMitigation)] else [])
    ensures a.overall == HighRisk <==> |s| < 2
    ensures a.overall == MediumRisk <==> Volatile(s) && |s| >= 2
    ensures a.overall == LowRisk <==> !Volatile(s) && |s| >= 2
    ensures a.score == RiskScoreOf(RiskName(a.overall))
    ensures a.score == (match a.overall case LowRisk => 1 case MediumRisk => 2 case HighRisk => 3)
    ensures a.mitigations == Mitigations(a.risks)
  {
    var risks: seq<Risk> := [];
    var overallRisk := LowRisk;
    if |s| < 2 {
      risks := risks + [Risk(SupplyRisk, HighRisk, SupplyMitigation)];
      overallRisk := HighRisk;
    }
    var prices := PricesOf(s);
    if |prices| > 1 && PercentAbove(SeqMax(prices) - SeqMin(prices), SeqMin(prices), 30.0) {
      risks := risks + [Risk(VolatilityRisk, MediumRisk, VolatilityMitigation)];
      overallRisk := if overallRisk == LowRisk then MediumRisk else overallRisk;
    }
    var avgRating := RatingSum(s) / (if |s| == 0 then 1.0 else |s| as real);
    if avgRating < 3.5 {
      risks := risks + [Risk(QualityRisk, MediumRisk, QualityMitigation)];
    }
    RiskScoreOfLevels(overallRisk);
    a := RiskAssessment(overallRisk, risks, RiskScoreOf(RiskName(overallRisk)), Mitigations(risks));
  }

  /** With no suppliers at all the assessment lists a supply risk and a quality risk. */
  lemma NoSuppliersRisks()
    ensures LowRated([]) && !Volatile([])
  {
  }

  lemma {:induction false} RatingSumAtLeast(s: seq<Listing>, lo: real)
    requires forall i :: 0 <= i < |s| ==> lo <= (if s[i].rating != 0.0 then s[i].rating else 3.0)
    ensures lo * |s| as real <= RatingSum(s)
  {
    if s != [] {
      RatingSumAtLeast(s[..|s| - 1], lo);
      assert lo * |s| as real == lo * (|s| - 1) as real + lo;
    }
  }

  lemma {:induction false} RatingSumUnrated(s: seq<Listing>)
    requires forall i :: 0 <= i < |s| ==> s[i].rating == 0.0
    ensures RatingSum(s) == 3.0 * |s| as real
  {
    if s != [] {
      RatingSumUnrated(s[..|s| - 1]);
      assert 3.0 * |s| as real == 3.0 * (|s| - 1) as real + 3.0;
    }
  }

  /** Suppliers all rated 3.5 or better raise no quality risk, while suppliers with no
      rating at all count as 3 each and always do. */
  lemma LowRatedCases(s: seq<Listing>)
    requires s != []
    ensures (forall i :: 0 <= i < |s| ==> s[i].rating >= 3.5) ==> !LowRated(s)
    ensures (forall i :: 0 <= i < |s| ==> s[i].rating == 0.0) ==> LowRated(s)
  {
    var n := |s| as real;
    if forall i :: 0 <= i < |s| ==> s[i].rating >= 3.5 {
      RatingSumAtLeast(s, 3.5);
      MeanAtLeast(RatingSum(s), n, 3.5);
    }
    if forall i :: 0 <= i < |s| ==> s[i].rating == 0.0 {
      RatingSumUnrated(s);
      MeanEquals(RatingSum(s), n, 3.0);
    }
  }
}
