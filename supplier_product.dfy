/** A supplier's offer of a catalogue product (a SupplierProduct document):
    schema bounds, the bulk-discount resolver, the price-history log and the
    price-change indicator derived from it. */
module SupplierProducts {
  import opened Common

  datatype DiscountKind = Bulk | Seasonal | Clearance | Loyalty

  /** One entry of `discounts`. `minQuantity` and `validTo` are optional in the schema;
      `isActive` defaults to true. Dates are milliseconds since the epoch. */
  datatype DiscountRule = DiscountRule(
    kind: DiscountKind,
    minQuantity: Option<real>,
    percentage: real,
    validTo: Option<int>,
    isActive: bool)

  datatype PriceEntry = PriceEntry(price: real, date: int, reason: string)

  /** The stored document, as far as pricing and ordering read it. */
  datatype Offer = Offer(
    supplier: UserId,
    product: ProductId,
    price: real,
    stock: int,
    minOrderQuantity: int,
    isAvailable: bool,
    discounts: seq<DiscountRule>,
    priceHistory: seq<PriceEntry>)

  const DefaultMinOrderQuantity: int := 1
  const DefaultPriceReason: string := "manual_update"

  /** The schema's bounds: price and stock not negative, minimum order quantity at least 1. */
  predicate SchemaValid(o: Offer) {
    o.price >= 0.0 && o.stock >= 0 && o.minOrderQuantity >= 1
  }

  /** The filter of `getBulkDiscount`: active, of type bulk, the quantity reaches the
      threshold (a missing threshold compares false), and not expired at `now`. */
  predicate Qualifies(d: DiscountRule, quantity: real, now: int) {
    && d.isActive
    && d.kind == Bulk
    && d.minQuantity.Some? && quantity >= d.minQuantity.value
    && (d.validTo.None? || d.validTo.value > now)
  }

  function QualifyingRules(rules: seq<DiscountRule>, quantity: real, now: int): (r: seq<DiscountRule>)
    ensures forall d :: d in r <==> d in rules && Qualifies(d, quantity, now)
  {
    if rules == [] then []
    else
      var rest := QualifyingRules(rules[1..], quantity, now);
      if Qualifies(rules[0], quantity, now) then [rules[0]] + rest else rest
  }

  /** `Math.max(...rules.map(d => d.discount))` on a non-empty list. */
  function MaxPercentage(rules: seq<DiscountRule>): (m: real)
    requires |rules| > 0
    ensures forall d :: d in rules ==> d.percentage <= m
    ensures exists d :: d in rules && d.percentage == m
  {
    if |rules| == 1 then rules[0].percentage
    else
      var rest := MaxPercentage(rules[1..]);
      assert forall d :: d in rules[1..] ==> d in rules;
      if rules[0].percentage >= rest then rules[0].percentage else rest
  }

  /** `getBulkDiscount(quantity)`: 0 when no rule qualifies, otherwise the highest
      qualifying percentage (never a sum of several). */
  function BulkDiscount(rules: seq<DiscountRule>, quantity: real, now: int): (r: real)
    ensures (forall d :: d in rules ==> !Qualifies(d, quantity, now)) ==> r == 0.0
    ensures forall d :: d in rules && Qualifies(d, quantity, now) ==> d.percentage <= r
    ensures (exists d :: d in rules && Qualifies(d, quantity, now)) ==>
              exists d :: d in rules && Qualifies(d, quantity, now) && d.percentage == r
  {
    var q := QualifyingRules(rules, quantity, now);
    if |q| == 0 then 0.0 else MaxPercentage(q)
  }

  /** With the clock fixed, a larger quantity admits at least the same rules, so the
      discount never drops once some rule qualifies (or when no percentage is negative). */
  lemma BulkDiscountMonotone(rules: seq<DiscountRule>, q1: real, q2: real, now: int)
    requires q1 <= q2
    requires (exists d :: d in rules && Qualifies(d, q1, now)) || (forall d :: d in rules ==> d.percentage >= 0.0)
    ensures BulkDiscount(rules, q1, now) <= BulkDiscount(rules, q2, now)
  {
    var r1 := BulkDiscount(rules, q1, now);
    if exists d :: d in rules && Qualifies(d, q1, now) {
      var d :| d in rules && Qualifies(d, q1, now) && d.percentage == r1;
      assert Qualifies(d, q2, now);
    } else {
      if exists d :: d in rules && Qualifies(d, q2, now) {
        var d :| d in rules && Qualifies(d, q2, now) && d.percentage == BulkDiscount(rules, q2, now);
      }
    }
  }

  /** The worked example: rules 5% from 10 units and 12% from 50 units, 60 units ordered:
      the result is 12, neither the sum 17 nor the first match 5. */
  lemma BulkDiscountExample(now: int)
    ensures BulkDiscount([DiscountRule(Bulk, Some(10.0), 5.0, None, true),
                          DiscountRule(Bulk, Some(50.0), 12.0, None, true)], 60.0, now) == 12.0
  {
    var rules := [DiscountRule(Bulk, Some(10.0), 5.0, None, true),
                  DiscountRule(Bulk, Some(50.0), 12.0, None, true)];
    assert QualifyingRules(rules[2..], 60.0, now) == [];
    assert QualifyingRules(rules[1..], 60.0, now) == [rules[1]];
    assert QualifyingRules(rules, 60.0, now) == rules;
  }

  /** The `priceChangePercentage` virtual: 0 with fewer than two history entries, else the
      change of the current price against the entry before the last. A previous price of 0
      makes the JavaScript division non-finite, modelled as None. */
  function PriceChangePercentage(price: real, history: seq<PriceEntry>): (r: Option<real>)
    ensures |history| < 2 ==> r == Some(0.0)
    ensures |history| >= 2 && history[|history| - 2].price != 0.0 ==>
              r.Some? && r.value * history[|history| - 2].price == (price - history[|history| - 2].price) * 100.0
    ensures |history| >= 2 && history[|history| - 2].price == 0.0 ==> r.None?
  {
    if |history| < 2 then Some(0.0)
    else
      var previous := history[|history| - 2].price;
      if previous == 0.0 then None else Some((price - previous) / previous * 100.0)
  }

  /** The loaded document on which `updatePrice` is called. */
  class SupplierProductDocument {
    var price: real
    var priceHistory: seq<PriceEntry>

    constructor (price: real)
      ensures this.price == price && priceHistory == []
    {
      this.price := price;
      priceHistory := [];
    }

    /** `updatePrice(newPrice, reason = 'manual_update')`: logs the outgoing price, then
        sets the new one. Earlier entries are kept as they were. */
    method UpdatePrice(newPrice: real, reason: Option<string>, now: int)
      modifies this
      ensures priceHistory == old(priceHistory) +
                [PriceEntry(old(price), now, if reason.Some? then reason.value else DefaultPriceReason)]
      ensures price == newPrice
    {
      var why := if reason.Some? then reason.value else DefaultPriceReason;
      priceHistory := priceHistory + [PriceEntry(price, now, why)];
      price := newPrice;
    }

    function ChangePercentage(): Option<real>
      reads this
    {
      PriceChangePercentage(price, priceHistory)
    }
  }

  /** The indicator compares with the entry before the last one, which after two
      updates from an empty log is the price from before the FIRST update. */
  method PriceChangeAfterTwoUpdates(p0: real, p1: real, p2: real, now: int) returns (r: Option<real>)
    requires p0 != 0.0
    ensures r == Some((p2 - p0) / p0 * 100.0)
  {
    var doc := new SupplierProductDocument(p0);
    doc.UpdatePrice(p1, None, now);
    doc.UpdatePrice(p2, None, now);
    r := doc.ChangePercentage();
  }
}
