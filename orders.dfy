/** The order routes: checkout (validate every line, price it, build the order, reserve
    stock), cancellation with stock restore, and rating with the supplier's running
    average. The offer and supplier collections are in-memory maps; an order's id is its
    position among the stored orders. */
module OrderRoutes {
  import opened Common
  import opened SupplierProducts
  import opened Orders

  datatype LineRequest = LineRequest(offer: OfferId, quantity: int)

  datatype OrderError =
    | NoItems
    | OfferNotFound(id: OfferId)
    | OfferUnavailable(id: OfferId)
    | InsufficientStock(id: OfferId)
    | BelowMinimumOrder(id: OfferId)
    | OrderNotFound
    | NotCancellable
    | NotDelivered
    | AlreadyRated
    | InvalidRating

  datatype Priced = Priced(lines: seq<OrderLine>, subtotal: real, discount: real)

  /** A supplier's `stats.rating` and `stats.reviewCount` (both default to 0). */
  datatype SupplierStats = SupplierStats(rating: real, reviewCount: nat)

  datatype SupplierRating = SupplierRating(supplier: UserId, rating: real)

  const FreeDeliveryAbove: real := 500.0
  const DeliveryCharge: real := 50.0
  const TaxRate: real := 0.05
  const DefaultCancelNote: string := "Cancelled by vendor"

  // ---------------------------------------------------------------------------
  // Pricing

  /** One line of the checkout loop: the four checks in the source's order, then
      total = unit price x quantity, discount = total x bulk% / 100, final = total - discount. */
  function PriceLine(req: LineRequest, offers: map<OfferId, Offer>, now: int): (r: Result<OrderLine, OrderError>)
    ensures req.offer !in offers ==> r == Err(OfferNotFound(req.offer))
    ensures req.offer in offers ==>
      var o := offers[req.offer];
      && (!o.isAvailable ==> r == Err(OfferUnavailable(req.offer)))
      && (o.isAvailable && req.quantity > o.stock ==> r == Err(InsufficientStock(req.offer)))
      && (o.isAvailable && req.quantity <= o.stock && req.quantity < o.minOrderQuantity ==>
            r == Err(BelowMinimumOrder(req.offer)))
      && (r.Ok? <==> o.isAvailable && o.minOrderQuantity <= req.quantity <= o.stock)
    ensures r.Ok? ==> var o := offers[req.offer];
      r.value == LineFor(o, req, BulkDiscount(o.discounts, req.quantity as real, now))
  {
    if req.offer !in offers then Err(OfferNotFound(req.offer))
    else
      var o := offers[req.offer];
      if !o.isAvailable then Err(OfferUnavailable(req.offer))
      else if req.quantity > o.stock then Err(InsufficientStock(req.offer))
      else if req.quantity < o.minOrderQuantity then Err(BelowMinimumOrder(req.offer))
      else Ok(LineFor(o, req, BulkDiscount(o.discounts, req.quantity as real, now)))
  }

  /** `total * percent / 100`. */
  function PercentOf(total: real, percent: real): real
  {
    total * percent / 100.0
  }

  /** The line of an accepted request: the offer's price times the quantity, less the bulk
      discount's percentage `bulk` of that. */
  function LineFor(o: Offer, req: LineRequest, bulk: real): (l: OrderLine)
    ensures l.offer == req.offer && l.quantity == req.quantity
    ensures l.product == o.product && l.supplier == o.supplier && l.unitPrice == o.price
    ensures l.finalPrice + l.discount == l.totalPrice
  {
    var unitPrice := o.price;
    var totalPrice := unitPrice * req.quantity as real;
    var discountAmount := PercentOf(totalPrice, bulk);
    OrderLine(o.product, o.supplier, req.offer, req.quantity, unitPrice, totalPrice,
              discountAmount, totalPrice - discountAmount)
  }

  /** The gross amount is price x quantity and the discount the bulk percentage of it. */
  lemma LineForAmounts(o: Offer, req: LineRequest, bulk: real)
    ensures var l := LineFor(o, req, bulk);
      && l.totalPrice == o.price * req.quantity as real
      && l.discount == PercentOf(l.totalPrice, bulk)
  {
  }

  /** The whole loop as a function: the first failing line decides the error. */
  function PriceAll(reqs: seq<LineRequest>, offers: map<OfferId, Offer>, now: int): Result<seq<OrderLine>, OrderError>
  {
    if reqs == [] then Ok([])
    else
      match PriceAll(reqs[..|reqs| - 1], offers, now)
      case Err(e) => Err(e)
      case Ok(lines) =>
        match PriceLine(reqs[|reqs| - 1], offers, now)
        case Err(e) => Err(e)
        case Ok(line) => Ok(lines + [line])
  }

  function SumFinal(lines: seq<OrderLine>): real
  {
    if lines == [] then 0.0 else SumFinal(lines[..|lines| - 1]) + lines[|lines| - 1].finalPrice
  }

  function SumDiscount(lines: seq<OrderLine>): real
  {
    if lines == [] then 0.0 else SumDiscount(lines[..|lines| - 1]) + lines[|lines| - 1].discount
  }

  function SumTotal(lines: seq<OrderLine>): real
  {
    if lines == [] then 0.0 else SumTotal(lines[..|lines| - 1]) + lines[|lines| - 1].totalPrice
  }

  /** Units of `id` ordered over all lines. */
  function QuantityFor(lines: seq<OrderLine>, id: OfferId): int
  {
    if lines == [] then 0
    else QuantityFor(lines[..|lines| - 1], id) + (if lines[|lines| - 1].offer == id then lines[|lines| - 1].quantity else 0)
  }

  /** Delivery is free strictly above 500, otherwise 50; tax is 5% of the subtotal;
      the total adds both to the (already discounted) subtotal. */
  function Charges(subtotal: real, discount: real): (p: Pricing)
    ensures p.subtotal == subtotal && p.discount == discount
    ensures p.deliveryCharge == 0.0 <==> subtotal > FreeDeliveryAbove
    ensures p.deliveryCharge == 0.0 || p.deliveryCharge == DeliveryCharge
    ensures p.tax * 20.0 == subtotal
    ensures p.total == p.subtotal + p.deliveryCharge + p.tax
  {
    var deliveryCharge := if subtotal > FreeDeliveryAbove then 0.0 else DeliveryCharge;
    var tax := subtotal * TaxRate;
    Pricing(subtotal, discount, deliveryCharge, tax, subtotal + deliveryCharge + tax)
  }

  /** The pricing loop of the checkout route, as the source runs it: one pass that fails on
      the first bad line and otherwise accumulates the subtotal and the total discount. */
  method PriceOrderLines(items: seq<LineRequest>, offers: map<OfferId, Offer>, now: int)
    returns (r: Result<Priced, OrderError>)
    ensures PriceAll(items, offers, now).Err? ==> r == Err(PriceAll(items, offers, now).error)
    ensures PriceAll(items, offers, now).Ok? ==>
      var lines := PriceAll(items, offers, now).value;
      r == Ok(Priced(lines, SumFinal(lines), SumDiscount(lines)))
  {
    var subtotal := 0.0;
    var totalDiscount := 0.0;
    var processed: seq<OrderLine> := [];
    for k := 0 to |items|
      invariant PriceAll(items[..k], offers, now) == Ok(processed)
      invariant subtotal == SumFinal(processed)
      invariant totalDiscount == SumDiscount(processed)
    {
      assert items[..k + 1][..k] == items[..k];
      var line := PriceLine(items[k], offers, now);
      if line.Err? {
        PriceAllFailureSticks(items, k + 1, offers, now);
        return Err(line.error);
      }
      processed := processed + [line.value];
      assert processed[..|processed| - 1] == processed[..|processed| - 1];
      subtotal := subtotal + line.value.finalPrice;
      totalDiscount := totalDiscount + line.value.discount;
    }
    assert items[..|items|] == items;
    r := Ok(Priced(processed, subtotal, totalDiscount));
  }

  /** Once a prefix of the lines fails, the whole request fails with the same error. */
  lemma {:induction false} PriceAllFailureSticks(reqs: seq<LineRequest>, k: nat, offers: map<OfferId, Offer>, now: int)
    requires k <= |reqs| && PriceAll(reqs[..k], offers, now).Err?
    ensures PriceAll(reqs, offers, now) == PriceAll(reqs[..k], offers, now)
    decreases |reqs| - k
  {
    if k < |reqs| {
      var next := reqs[..k + 1];
      assert next[..|next| - 1] == reqs[..k];
      PriceAllFailureSticks(reqs, k + 1, offers, now);
    } else {
      assert reqs[..k] == reqs;
    }
  }

  /** A successful pricing keeps the requested lines in order: same offers, same
      quantities, and each line passed all four checks against its offer. */
  lemma PricedLinesMatchRequests(reqs: seq<LineRequest>, offers: map<OfferId, Offer>, now: int)
    requires PriceAll(reqs, offers, now).Ok?
    ensures var lines := PriceAll(reqs, offers, now).value;
      && |lines| == |reqs|
      && forall k :: 0 <= k < |lines| ==>
           && PriceLine(reqs[k], offers, now) == Ok(lines[k])
           && lines[k].offer == reqs[k].offer && lines[k].quantity == reqs[k].quantity
           && lines[k].offer in offers && offers[lines[k].offer].isAvailable
           && offers[lines[k].offer].minOrderQuantity <= lines[k].quantity <= offers[lines[k].offer].stock
           && lines[k].finalPrice + lines[k].discount == lines[k].totalPrice
  {
    PricedLinesInOrder(reqs, offers, now);
  }

  /** The k-th priced line is what pricing the k-th request alone gives. */
  lemma {:induction false} PricedLinesInOrder(reqs: seq<LineRequest>, offers: map<OfferId, Offer>, now: int)
    requires PriceAll(reqs, offers, now).Ok?
    ensures var lines := PriceAll(reqs, offers, now).value;
      && |lines| == |reqs|
      && forall k :: 0 <= k < |lines| ==> PriceLine(reqs[k], offers, now) == Ok(lines[k])
  {
    if reqs != [] {
      var init := reqs[..|reqs| - 1];
      PricedLinesInOrder(init, offers, now);
      var before := PriceAll(init, offers, now).value;
      var lines := PriceAll(reqs, offers, now).value;
      assert lines == before + [PriceLine(reqs[|reqs| - 1], offers, now).value];
      forall k | 0 <= k < |before|
        ensures PriceLine(reqs[k], offers, now) == Ok(lines[k])
      {
        assert reqs[k] == init[k] && lines[k] == before[k];
      }
    }
  }

  /** Every stored line has at least one unit when every offer respects its schema
      (minimum order quantity at least 1). */
  lemma PricedLinesAreValid(reqs: seq<LineRequest>, offers: map<OfferId, Offer>, now: int)
    requires PriceAll(reqs, offers, now).Ok?
    requires forall id :: id in offers ==> SchemaValid(offers[id])
    ensures forall l :: l in PriceAll(reqs, offers, now).value ==> LineValid(l)
  {
    PricedLinesMatchRequests(reqs, offers, now);
  }

  /** The error returned is the one of the first line that fails; every earlier line passed. */
  lemma {:induction false} PriceAllFirstError(reqs: seq<LineRequest>, offers: map<OfferId, Offer>, now: int)
    requires PriceAll(reqs, offers, now).Err?
    ensures exists k :: 0 <= k < |reqs|
              && PriceLine(reqs[k], offers, now) == Err(PriceAll(reqs, offers, now).error)
              && forall j :: 0 <= j < k ==> PriceLine(reqs[j], offers, now).Ok?
  {
    var init := reqs[..|reqs| - 1];
    if PriceAll(init, offers, now).Err? {
      PriceAllFirstError(init, offers, now);
      var k :| 0 <= k < |init| && PriceLine(init[k], offers, now) == Err(PriceAll(init, offers, now).error)
               && forall j :: 0 <= j < k ==> PriceLine(init[j], offers, now).Ok?;
      assert reqs[k] == init[k];
      assert forall j :: 0 <= j < k ==> reqs[j] == init[j];
    } else {
      PricedLinesMatchRequests(init, offers, now);
      var k := |reqs| - 1;
      forall j | 0 <= j < k ensures PriceLine(reqs[j], offers, now).Ok? {
        assert reqs[j] == init[j];
      }
    }
  }

  /** The subtotal is the gross amount minus the discounts, so the source's
      total = subtotal + delivery + tax equals gross - discount + delivery + tax. */
  lemma {:induction false} SubtotalIsGrossMinusDiscount(lines: seq<OrderLine>)
    requires forall l :: l in lines ==> l.finalPrice + l.discount == l.totalPrice
    ensures SumFinal(lines) == SumTotal(lines) - SumDiscount(lines)
  {
    if lines != [] {
      SubtotalIsGrossMinusDiscount(lines[..|lines| - 1]);
    }
  }

  lemma {:induction false} SumsNonNegative(lines: seq<OrderLine>)
    requires forall l :: l in lines ==> 0.0 <= l.discount <= l.totalPrice && l.finalPrice + l.discount == l.totalPrice
    ensures 0.0 <= SumDiscount(lines) && 0.0 <= SumFinal(lines)
  {
    if lines != [] {
      SumsNonNegative(lines[..|lines| - 1]);
    }
  }

  /** With prices not negative and every discount percentage between 0 and 100, every amount
      of the pricing summary is non-negative. */
  lemma PricingNonNegative(reqs: seq<LineRequest>, offers: map<OfferId, Offer>, now: int)
    requires PriceAll(reqs, offers, now).Ok?
    requires forall id :: id in offers ==> SchemaValid(offers[id])
    requires forall id, d :: id in offers && d in offers[id].discounts ==> 0.0 <= d.percentage <= 100.0
    ensures var lines := PriceAll(reqs, offers, now).value;
            var p := Charges(SumFinal(lines), SumDiscount(lines));
            p.subtotal >= 0.0 && p.discount >= 0.0 && p.deliveryCharge >= 0.0 && p.tax >= 0.0 && p.total >= 0.0
  {
    var lines := PriceAll(reqs, offers, now).value;
    PricedLinesMatchRequests(reqs, offers, now);
    forall l | l in lines ensures 0.0 <= l.discount <= l.totalPrice && l.finalPrice + l.discount == l.totalPrice {
      var k :| 0 <= k < |lines| && lines[k] == l;
      LineAmountsBounded(reqs[k], offers, now);
    }
    SumsNonNegative(lines);
  }

  /** A priced line's discount lies between zero and its gross amount. */
  lemma LineAmountsBounded(req: LineRequest, offers: map<OfferId, Offer>, now: int)
    requires PriceLine(req, offers, now).Ok?
    requires SchemaValid(offers[req.offer])
    requires forall d :: d in offers[req.offer].discounts ==> 0.0 <= d.percentage <= 100.0
    ensures var l := PriceLine(req, offers, now).value; 0.0 <= l.discount <= l.totalPrice
  {
    var o := offers[req.offer];
    var quantity := req.quantity as real;
    var bulk := BulkDiscount(o.discounts, quantity, now);
    var l := LineFor(o, req, bulk);
    LineForAmounts(o, req, bulk);
    BulkDiscountBounds(o.discounts, quantity, now);
    ProductNonNegative(o.price, quantity);
    PercentWithin(l.totalPrice, bulk);
  }

  /** A percentage within 0..100 of a non-negative amount lies between zero and the amount. */
  lemma PercentWithin(total: real, percent: real)
    requires 0.0 <= total && 0.0 <= percent <= 100.0
    ensures 0.0 <= PercentOf(total, percent) <= total
  {
    var p := total * percent;
    assert 0.0 <= p <= total * 100.0 by {
      ProductNonNegative(total, percent);
      ProductNonNegative(total, 100.0 - percent);
      assert total * 100.0 - p == total * (100.0 - percent);
    }
  }

  lemma BulkDiscountBounds(rules: seq<DiscountRule>, quantity: real, now: int)
    requires forall d :: d in rules ==> 0.0 <= d.percentage <= 100.0
    ensures 0.0 <= BulkDiscount(rules, quantity, now) <= 100.0
  {
    if exists d :: d in rules && Qualifies(d, quantity, now) {
      var d :| d in rules && Qualifies(d, quantity, now) && d.percentage == BulkDiscount(rules, quantity, now);
    }
  }

  /** The worked example: 12 units at 25 with a 15% rule from 10 units. */
  lemma LinePricingExample(now: int)
    ensures var offers := map[7 := Offer(1, 2, 25.0, 100, 1, true,
                                         [DiscountRule(Bulk, Some(10.0), 15.0, None, true)], [])];
            var r := PriceLine(LineRequest(7, 12), offers, now);
            r.Ok? && r.value.totalPrice == 300.0 && r.value.discount == 45.0 && r.value.finalPrice == 255.0
  {
    var rules := [DiscountRule(Bulk, Some(10.0), 15.0, None, true)];
    assert QualifyingRules(rules[1..], 12.0, now) == [];
    assert QualifyingRules(rules, 12.0, now) == rules;
  }

  // ---------------------------------------------------------------------------
  // Stock

  /** The `$inc` loop: each line moves its offer's stock by `sign` x quantity; a line whose
      offer no longer exists changes nothing. */
  function AdjustStock(offers: map<OfferId, Offer>, lines: seq<OrderLine>, sign: int): (r: map<OfferId, Offer>)
    ensures r.Keys == offers.Keys
  {
    if lines == [] then offers
    else
      var before := AdjustStock(offers, lines[..|lines| - 1], sign);
      var l := lines[|lines| - 1];
      if l.offer in before then before[l.offer := before[l.offer].(stock := before[l.offer].stock + sign * l.quantity)]
      else before
  }

  /** After the loop an offer's stock has moved by `sign` times the units ordered from it,
      and nothing else about the offer has changed. */
  lemma {:induction false} AdjustStockAt(offers: map<OfferId, Offer>, lines: seq<OrderLine>, sign: int, id: OfferId)
    requires id in offers
    ensures AdjustStock(offers, lines, sign)[id] == offers[id].(stock := offers[id].stock + sign * QuantityFor(lines, id))
  {
    if lines != [] {
      AdjustStockAt(offers, lines[..|lines| - 1], sign, id);
    }
  }

  /** Restoring the same lines after reserving them gives back the offers as they were. */
  lemma ReserveThenRestore(offers: map<OfferId, Offer>, lines: seq<OrderLine>)
    ensures AdjustStock(AdjustStock(offers, lines, -1), lines, 1) == offers
  {
    var back := AdjustStock(AdjustStock(offers, lines, -1), lines, 1);
    forall id | id in offers ensures back[id] == offers[id] {
      AdjustStockAt(offers, lines, -1, id);
      AdjustStockAt(AdjustStock(offers, lines, -1), lines, 1, id);
    }
  }

  lemma {:induction false} QuantityForDistinct(lines: seq<OrderLine>, k: nat)
    requires k < |lines|
    requires forall i, j :: 0 <= i < j < |lines| ==> lines[i].offer != lines[j].offer
    ensures QuantityFor(lines, lines[k].offer) == lines[k].quantity
  {
    var init := lines[..|lines| - 1];
    if k < |lines| - 1 {
      QuantityForDistinct(init, k);
    } else {
      QuantityForAbsent(init, lines[k].offer);
    }
  }

  lemma {:induction false} QuantityForAbsent(lines: seq<OrderLine>, id: OfferId)
    requires forall l :: l in lines ==> l.offer != id
    ensures QuantityFor(lines, id) == 0
  {
    if lines != [] {
      QuantityForAbsent(lines[..|lines| - 1], id);
    }
  }

  /** When every line names a distinct offer, the stock check keeps every stock at or
      above zero after the reservation. */
  lemma ReservationKeepsStockNonNegative(reqs: seq<LineRequest>, offers: map<OfferId, Offer>, now: int)
    requires PriceAll(reqs, offers, now).Ok?
    requires forall id :: id in offers ==> offers[id].stock >= 0
    requires forall i, j :: 0 <= i < j < |reqs| ==> reqs[i].offer != reqs[j].offer
    ensures var after := AdjustStock(offers, PriceAll(reqs, offers, now).value, -1);
            forall id :: id in after ==> after[id].stock >= 0
  {
    var lines := PriceAll(reqs, offers, now).value;
    PricedLinesMatchRequests(reqs, offers, now);
    forall id | id in offers ensures AdjustStock(offers, lines, -1)[id].stock >= 0 {
      AdjustStockAt(offers, lines, -1, id);
      if k :| 0 <= k < |lines| && lines[k].offer == id {
        QuantityForDistinct(lines, k);
      } else {
        QuantityForAbsent(lines, id);
      }
    }
  }

  /** Two lines for the same offer are each checked against the unreserved stock, so
      together they can reserve more than the offer holds. */
  lemma RepeatedOfferCanOverdraw(now: int)
    ensures var offers := map[1 := Offer(1, 1, 10.0, 10, 1, true, [], [])];
            var reqs := [LineRequest(1, 6), LineRequest(1, 6)];
            PriceAll(reqs, offers, now).Ok? &&
            AdjustStock(offers, PriceAll(reqs, offers, now).value, -1)[1].stock == -2
  {
    var offers := map[1 := Offer(1, 1, 10.0, 10, 1, true, [], [])];
    var req := LineRequest(1, 6);
    var reqs := [req, req];
    var line := PriceLine(req, offers, now);
    assert line.Ok? && line.value.offer == 1 && line.value.quantity == 6;
    assert [req][..0] == [];
    assert PriceAll([], offers, now) == Ok([]);
    assert [] + [line.value] == [line.value];
    assert PriceAll([req], offers, now) == Ok([line.value]);
    var lines := [line.value, line.value];
    assert reqs[..1] == [req];
    assert [line.value] + [line.value] == lines;
    assert PriceAll(reqs, offers, now) == Ok(lines);
    assert lines[..1] == [line.value] && [line.value][..0] == [];
    assert QuantityFor([line.value], 1) == 6;
    assert QuantityFor(lines, 1) == 12;
    AdjustStockAt(offers, lines, -1, 1);
  }

  // ---------------------------------------------------------------------------
  // Rating

  /** The supplier's new running average, rounded to one decimal. */
  function NewSupplierRating(current: real, reviews: nat, rating: real): (r: real)
    ensures var exact := (current * reviews as real + rating) / (reviews as real + 1.0);
            exact - 0.05 < r <= exact + 0.05
    ensures (r * 10.0).Floor as real == r * 10.0
  {
    Round1((current * reviews as real + rating) / (reviews as real + 1.0))
  }

  /** A supplier rated within 0..5 and a new rating within 1..5 keep the average within 0..5. */
  lemma NewSupplierRatingInRange(current: real, reviews: nat, rating: real)
    requires 0.0 <= current <= 5.0 && 1.0 <= rating <= 5.0
    ensures 0.0 <= NewSupplierRating(current, reviews, rating) <= 5.0
  {
    var exact := (current * reviews as real + rating) / (reviews as real + 1.0);
    assert NewSupplierRating(current, reviews, rating) == Round1(exact);
    RunningMeanInRange(current, reviews, rating);
    Round1InRange(exact);
  }

  /** Folding a rating within 1..5 into n ratings averaging within 0..5 stays within 0..5. */
  lemma RunningMeanInRange(current: real, reviews: nat, rating: real)
    requires 0.0 <= current <= 5.0 && 1.0 <= rating <= 5.0
    ensures 0.0 <= (current * reviews as real + rating) / (reviews as real + 1.0) <= 5.0
  {
    var n := reviews as real;
    var weighted := current * n;
    assert 0.0 <= weighted <= 5.0 * n by {
      ProductNonNegative(current, n);
      ProductNonNegative(5.0 - current, n);
      assert 5.0 * n - weighted == (5.0 - current) * n;
    }
    MeanBetween(weighted + rating, n + 1.0, 0.0, 5.0);
  }

  /** Rounding to one decimal keeps a value within 0..5. */
  lemma Round1InRange(x: real)
    requires 0.0 <= x <= 5.0
    ensures 0.0 <= Round1(x) <= 5.0
  {
    var t := RoundHalfUp(x * 10.0);
    assert 0 <= t <= 50;
  }

  function ApplySupplierRating(stats: map<UserId, SupplierStats>, sr: SupplierRating): (r: map<UserId, SupplierStats>)
    ensures r.Keys == stats.Keys
    ensures sr.supplier in stats ==>
              var s := stats[sr.supplier];
              r[sr.supplier] == SupplierStats(NewSupplierRating(s.rating, s.reviewCount, sr.rating), s.reviewCount + 1)
    ensures forall u :: u in stats && u != sr.supplier ==> r[u] == stats[u]
  {
    if sr.supplier in stats then
      var s := stats[sr.supplier];
      stats[sr.supplier := SupplierStats(NewSupplierRating(s.rating, s.reviewCount, sr.rating), s.reviewCount + 1)]
    else stats
  }

  function ApplySupplierRatings(stats: map<UserId, SupplierStats>, ratings: seq<SupplierRating>): (r: map<UserId, SupplierStats>)
    ensures r.Keys == stats.Keys
  {
    if ratings == [] then stats
    else ApplySupplierRating(ApplySupplierRatings(stats, ratings[..|ratings| - 1]), ratings[|ratings| - 1])
  }

  /** Each rating of a supplier counts one review: after the loop a supplier's review count
      has grown by the number of ratings naming it. */
  lemma {:induction false} ReviewCountGrowth(stats: map<UserId, SupplierStats>, ratings: seq<SupplierRating>, u: UserId)
    requires u in stats
    ensures ApplySupplierRatings(stats, ratings)[u].reviewCount == stats[u].reviewCount + RatingsFor(ratings, u)
  {
    if ratings != [] {
      ReviewCountGrowth(stats, ratings[..|ratings| - 1], u);
    }
  }

  /** How many of the ratings name supplier `u`. */
  function RatingsFor(ratings: seq<SupplierRating>, u: UserId): (n: nat)
    ensures n <= |ratings|
    ensures n == 0 <==> forall k :: 0 <= k < |ratings| ==> ratings[k].supplier != u
  {
    if ratings == [] then 0
    else
      var init := ratings[..|ratings| - 1];
      assert forall k :: 0 <= k < |init| ==> init[k] == ratings[k];
      RatingsFor(init, u) + (if ratings[|ratings| - 1].supplier == u then 1 else 0)
  }

  /** `reason || 'Cancelled by vendor'`: a missing or empty reason gives the default note. */
  function CancelNote(reason: Option<string>): (note: string)
    ensures note == DefaultCancelNote <==> reason.None? || reason.value == "" || reason.value == DefaultCancelNote
    ensures note != "" && (reason.Some? && reason.value != "" ==> note == reason.value)
  {
    if reason.Some? && reason.value != "" then reason.value else DefaultCancelNote
  }

  // ---------------------------------------------------------------------------
  // The store

  class Marketplace {
    var offers: map<OfferId, Offer>
    var orders: seq<Order>
    var supplierStats: map<UserId, SupplierStats>

    /** Every stored order has been saved once and carries the number derived from its
        position, which is how many orders existed when it was created. */
    ghost predicate Valid()
      reads this`orders, orders
    {
      forall i :: 0 <= i < |orders| ==> orders[i].orderNumber == OrderNumber(i) && !orders[i].isNew
    }

    constructor (offers: map<OfferId, Offer>, supplierStats: map<UserId, SupplierStats>)
      ensures Valid() && this.offers == offers && orders == [] && this.supplierStats == supplierStats
    {
      this.offers := offers;
      this.supplierStats := supplierStats;
      orders := [];
    }

    /** Distinct stored orders carry distinct order numbers. */
    lemma OrderNumbersUnique(i: nat, j: nat)
      requires Valid() && i < |orders| && j < |orders| && i != j
      ensures orders[i].orderNumber != orders[j].orderNumber
    {
      if orders[i].orderNumber == orders[j].orderNumber {
        OrderNumberInjective(i, j);
      }
    }

    /** The state of an order just stored: the `id`-th order, pending, not yet rated,
        with the single history entry written by the pre-save hook. */
    ghost predicate Created(o: Order, id: nat, vendor: UserId, lines: seq<OrderLine>, pricing: Pricing, now: int)
      reads o
    {
      && o.vendor == vendor && o.items == lines && o.pricing == pricing && o.createdAt == now
      && o.status == Pending && o.vendorRating == None
      && o.statusHistory == [StatusEntry(Pending, now, "Order created", None)]
      && o.orderNumber == OrderNumber(id)
    }

    /** `new Order(...)` followed by `save()`: the pre-save hook numbers the order from the
        count of stored orders and the order is appended. */
    method StoreOrder(vendor: UserId, lines: seq<OrderLine>, pricing: Pricing, now: int) returns (id: nat)
      requires Valid()
      modifies this`orders
      ensures Valid()
      ensures id == |old(orders)| && |orders| == id + 1
      ensures orders == old(orders) + [orders[id]] && fresh(orders[id])
      ensures Created(orders[id], id, vendor, lines, pricing, now)
    {
      var order := new Order(vendor, lines, pricing, now);
      order.PreSave(|orders|, now);
      id := |orders|;
      orders := orders + [order];
      assert Valid() by {
        forall i | 0 <= i < |orders| ensures orders[i].orderNumber == OrderNumber(i) && !orders[i].isNew {
          if i < id {
            assert orders[i] == old(orders)[i];
          }
        }
      }
    }

    /** The `$inc` loop over an order's lines: decrement on checkout (`sign` = -1),
        increment on cancel (`sign` = 1). */
    method MoveStock(lines: seq<OrderLine>, sign: int)
      modifies this`offers
      ensures offers == AdjustStock(old(offers), lines, sign)
    {
      for k := 0 to |lines|
        invariant offers == AdjustStock(old(offers), lines[..k], sign)
      {
        assert lines[..k + 1][..k] == lines[..k];
        var l := lines[k];
        if l.offer in offers {
          offers := offers[l.offer := offers[l.offer].(stock := offers[l.offer].stock + sign * l.quantity)];
        }
      }
      assert lines[..|lines|] == lines;
    }

    /** POST /api/orders. An empty request is refused before any lookup; a failing line
        refuses the whole order with nothing stored and no stock touched; otherwise the
        order is stored (number and first history entry from the pre-save hook) and each
        line's quantity is taken off its offer's stock. */
    method CreateOrder(vendor: UserId, items: seq<LineRequest>, now: int) returns (r: Result<nat, OrderError>)
      requires Valid()
      modifies this
      ensures Valid()
      ensures supplierStats == old(supplierStats)
      ensures |items| == 0 ==> r == Err(NoItems)
      ensures |items| > 0 && PriceAll(items, old(offers), now).Err? ==>
                r == Err(PriceAll(items, old(offers), now).error)
      ensures r.Err? ==> offers == old(offers) && orders == old(orders)
      ensures r.Ok? <==> |items| > 0 && PriceAll(items, old(offers), now).Ok?
      ensures r.Ok? ==> r.value == |old(orders)| && |orders| == r.value + 1
      ensures r.Ok? ==> orders == old(orders) + [orders[r.value]] && fresh(orders[r.value])
      ensures r.Ok? ==>
        var lines := PriceAll(items, old(offers), now).value;
        && Created(orders[r.value], r.value, vendor, lines, Charges(SumFinal(lines), SumDiscount(lines)), now)
        && offers == AdjustStock(old(offers), lines, -1)
    {
      if |items| == 0 {
        return Err(NoItems);
      }
      var priced := PriceOrderLines(items, offers, now);
      if priced.Err? {
        return Err(priced.error);
      }
      var lines := priced.value.lines;
      var id := StoreOrder(vendor, lines, Charges(priced.value.subtotal, priced.value.discount), now);
      MoveStock(lines, -1);
      r := Ok(id);
    }

    /** PUT /api/orders/:id/cancel. Only the owning vendor's order, and only while pending or
        confirmed; the order becomes cancelled with one more history entry and every line's
        quantity goes back to its offer. */
    method CancelOrder(vendor: UserId, id: nat, reason: Option<string>, now: int) returns (r: Result<(), OrderError>)
      requires Valid()
      modifies this, if id < |orders| then {orders[id]} else {}
      ensures Valid() && orders == old(orders) && supplierStats == old(supplierStats)
      ensures (id >= |orders| || orders[id].vendor != vendor) ==> r == Err(OrderNotFound)
      ensures id < |orders| && orders[id].vendor == vendor && old(orders[id].status) !in {Pending, Confirmed} ==>
                r == Err(NotCancellable)
      ensures r.Ok? <==> id < |orders| && orders[id].vendor == vendor && old(orders[id].status) in {Pending, Confirmed}
      ensures r.Err? ==> (offers == old(offers) &&
                          (id < |orders| ==> (orders[id].status == old(orders[id].status) &&
                                              orders[id].statusHistory == old(orders[id].statusHistory))))
      ensures r.Ok? ==>
        && orders[id].status == Cancelled
        && orders[id].statusHistory == old(orders[id].statusHistory) +
             [StatusEntry(Cancelled, now, CancelNote(reason), Some(vendor))]
        && offers == AdjustStock(old(offers), old(orders[id].items), 1)
      ensures id < |orders| ==>
        && orders[id].items == old(orders[id].items)
        && orders[id].vendorRating == old(orders[id].vendorRating)
        && orders[id].orderNumber == old(orders[id].orderNumber)
        && orders[id].isNew == old(orders[id].isNew)
    {
      if id >= |orders| || orders[id].vendor != vendor {
        return Err(OrderNotFound);
      }
      var order := orders[id];
      if order.status !in {Pending, Confirmed} {
        return Err(NotCancellable);
      }
      var note := CancelNote(reason);
      order.UpdateStatus(Cancelled, note, Some(vendor), now);
      MoveStock(order.items, 1);
      r := Ok(());
    }

    /** The supplier loop of the rating route. */
    method RecordSupplierRatings(ratings: seq<SupplierRating>)
      modifies this`supplierStats
      ensures supplierStats == ApplySupplierRatings(old(supplierStats), ratings)
    {
      for k := 0 to |ratings|
        invariant supplierStats == ApplySupplierRatings(old(supplierStats), ratings[..k])
      {
        assert ratings[..k + 1][..k] == ratings[..k];
        supplierStats := ApplySupplierRating(supplierStats, ratings[k]);
      }
      assert ratings[..|ratings|] == ratings;
    }

    /** POST /api/orders/:id/rate. Only a delivered order not yet rated; a rating outside
        1..5 fails the save, so nothing is stored. Each named supplier that exists gets
        the running average and one more review; unknown suppliers are skipped. */
    method RateOrder(vendor: UserId, id: nat, rating: Option<int>, supplierRatings: seq<SupplierRating>)
      returns (r: Result<(), OrderError>)
      requires Valid()
      modifies this`supplierStats, if id < |orders| then {orders[id]} else {}
      ensures Valid() && offers == old(offers) && orders == old(orders)
      ensures (id >= |orders| || orders[id].vendor != vendor) ==> r == Err(OrderNotFound)
      ensures r.Ok? <==>
        && id < |orders| && orders[id].vendor == vendor
        && old(orders[id].status) == Delivered
        && !(old(orders[id].vendorRating).Some? && old(orders[id].vendorRating).value != 0)
        && (rating.Some? ==> RatingValid(rating.value))
      ensures r.Err? ==> (supplierStats == old(supplierStats) &&
                          (id < |orders| ==> orders[id].vendorRating == old(orders[id].vendorRating)))
      ensures r.Ok? ==> (orders[id].vendorRating == rating &&
                         supplierStats == ApplySupplierRatings(old(supplierStats), supplierRatings))
      ensures id < |orders| ==>
        && orders[id].status == old(orders[id].status)
        && orders[id].statusHistory == old(orders[id].statusHistory)
        && orders[id].items == old(orders[id].items)
        && orders[id].orderNumber == old(orders[id].orderNumber)
        && orders[id].isNew == old(orders[id].isNew)
    {
      if id >= |orders| || orders[id].vendor != vendor {
        return Err(OrderNotFound);
      }
      var order := orders[id];
      if order.status != Delivered {
        return Err(NotDelivered);
      }
      if order.vendorRating.Some? && order.vendorRating.value != 0 {
        return Err(AlreadyRated);
      }
      if rating.Some? && !RatingValid(rating.value) {
        return Err(InvalidRating);
      }
      order.vendorRating := rating;
      RecordSupplierRatings(supplierRatings);
      r := Ok(());
    }
  }

  /** Create-then-cancel returns every offer's stock to its value before the order, and
      a second cancel of the same order is refused without touching stock again. */
  method CreateThenCancelTwice(m: Marketplace, vendor: UserId, items: seq<LineRequest>, now: int)
    returns (created: Result<nat, OrderError>, first: Result<(), OrderError>, second: Result<(), OrderError>)
    requires m.Valid()
    modifies m
    ensures m.Valid()
    ensures created.Ok? ==> first.Ok? && second == Err(NotCancellable) && m.offers == old(m.offers)
  {
    created := m.CreateOrder(vendor, items, now);
    if created.Err? {
      first, second := Err(OrderNotFound), Err(OrderNotFound);
      return;
    }
    ghost var lines := PriceAll(items, old(m.offers), now).value;
    first := m.CancelOrder(vendor, created.value, None, now);
    ReserveThenRestore(old(m.offers), lines);
    second := m.CancelOrder(vendor, created.value, None, now);
  }
}
