/** The Order document: status enumeration, line items, pricing summary, the
    append-only status history, order-number generation and the clock helpers. */
module Orders {
  import opened Common

  datatype Status =
    | Pending | Confirmed | Processing | Ready | Dispatched
    | InTransit | Delivered | Cancelled | Rejected | Refunded

  datatype StatusEntry = StatusEntry(status: Status, timestamp: int, note: string, updatedBy: Option<UserId>)

  datatype OrderLine = OrderLine(
    product: ProductId,
    supplier: UserId,
    offer: OfferId,
    quantity: int,
    unitPrice: real,
    totalPrice: real,
    discount: real,
    finalPrice: real)

  datatype Pricing = Pricing(subtotal: real, discount: real, deliveryCharge: real, tax: real, total: real)

  const HourMs: int := 1000 * 60 * 60
  const OrderNumberPrefix: string := "ORD"
  const OrderNumberWidth: nat := 6

  /** The schema's bounds on what an order stores: every line at least one unit,
      a vendor rating (when present) between 1 and 5. */
  predicate LineValid(l: OrderLine) { l.quantity >= 1 }
  predicate RatingValid(r: int) { 1 <= r <= 5 }

  // ---------------------------------------------------------------------------
  // Order numbers: "ORD" followed by count + 1, zero-padded to six digits

  predicate IsDigit(c: char) { '0' <= c <= '9' }

  function DigitChar(d: nat): (c: char)
    requires d < 10
    ensures IsDigit(c) && (c as int) - ('0' as int) == d
  {
    (d + '0' as int) as char
  }

  /** The decimal digits of `n`, most significant first (JavaScript's `String(n)`). */
  function Decimal(n: nat): (s: string)
    ensures |s| >= 1 && forall i :: 0 <= i < |s| ==> IsDigit(s[i])
    decreases n
  {
    if n < 10 then [DigitChar(n)] else Decimal(n / 10) + [DigitChar(n % 10)]
  }

  /** `s.padStart(width, '0')`: leading zeros up to `width`; a longer string is kept whole. */
  function PadStart(s: string, width: nat): (r: string)
    ensures |r| == if |s| >= width then |s| else width
    ensures r[|r| - |s|..] == s
    ensures forall i :: 0 <= i < |r| - |s| ==> r[i] == '0'
  {
    if |s| >= width then s else Zeros(width - |s|) + s
  }

  function Zeros(k: nat): (r: string)
    ensures |r| == k && forall i :: 0 <= i < k ==> r[i] == '0'
  {
    seq(k, _ => '0')
  }

  function DigitValue(c: char): nat
    requires IsDigit(c)
  {
    (c as int) - ('0' as int)
  }

  /** The value of a string of decimal digits. */
  function ParseDecimal(s: string): nat
    requires forall i :: 0 <= i < |s| ==> IsDigit(s[i])
  {
    if s == [] then 0
    else ParseDecimal(s[..|s| - 1]) * 10 + DigitValue(s[|s| - 1])
  }

  function Pow10(k: nat): (p: nat)
    ensures p >= 1
  {
    if k == 0 then 1 else 10 * Pow10(k - 1)
  }

  lemma {:induction false} DecimalLength(n: nat, k: nat)
    requires 1 <= k && n < Pow10(k)
    ensures |Decimal(n)| <= k
    decreases k
  {
    if n >= 10 {
      assert Pow10(1) == 10;
      assert n / 10 < Pow10(k - 1);
      DecimalLength(n / 10, k - 1);
    }
  }

  lemma DecimalAtMostSixDigits(n: nat)
    ensures n < 1000000 ==> |Decimal(n)| <= 6
  {
    if n < 1000000 {
      assert Pow10(6) == 1000000;
      DecimalLength(n, 6);
    }
  }

  /** The pre-save hook's `ORD${String(count + 1).padStart(6, '0')}`. */
  function OrderNumber(count: nat): (r: string)
    ensures |r| >= 9
  {
    OrderNumberPrefix + PadStart(Decimal(count + 1), OrderNumberWidth)
  }

  /** The number is "ORD" followed only by digits, exactly nine characters while fewer
      than a million orders precede it. */
  lemma OrderNumberFormat(count: nat)
    ensures var r := OrderNumber(count);
      && r[..3] == OrderNumberPrefix
      && (count + 1 < 1000000 ==> |r| == 9)
      && forall i :: 3 <= i < |r| ==> IsDigit(r[i])
  {
    DecimalAtMostSixDigits(count + 1);
  }

  lemma {:induction false} ParseDecimalOfDecimal(n: nat)
    ensures ParseDecimal(Decimal(n)) == n
    decreases n
  {
    if n >= 10 {
      var s := Decimal(n);
      assert s[..|s| - 1] == Decimal(n / 10);
      ParseDecimalOfDecimal(n / 10);
    }
  }

  lemma {:induction false} ParseDecimalIgnoresLeadingZero(s: string)
    requires forall i :: 0 <= i < |s| ==> IsDigit(s[i])
    ensures ParseDecimal(['0'] + s) == ParseDecimal(s)
    decreases |s|
  {
    if s != [] {
      var t := ['0'] + s;
      assert t[..|t| - 1] == ['0'] + s[..|s| - 1];
      ParseDecimalIgnoresLeadingZero(s[..|s| - 1]);
    }
  }

  /** Any number of leading zeros leaves the parsed value unchanged. */
  lemma {:induction false} ParseLeadingZeros(k: nat, s: string)
    requires forall i :: 0 <= i < |s| ==> IsDigit(s[i])
    ensures ParseDecimal(Zeros(k) + s) == ParseDecimal(s)
    decreases k
  {
    if k > 0 {
      var rest := Zeros(k - 1) + s;
      assert Zeros(k) + s == ['0'] + rest;
      forall i | 0 <= i < |rest|
        ensures IsDigit(rest[i])
      {
        if i >= k - 1 {
          assert rest[i] == s[i - (k - 1)];
        }
      }
      ParseDecimalIgnoresLeadingZero(rest);
      ParseLeadingZeros(k - 1, s);
    } else {
      assert Zeros(k) + s == s;
    }
  }

  lemma ParsePadStart(s: string, width: nat)
    requires forall i :: 0 <= i < |s| ==> IsDigit(s[i])
    ensures forall i :: 0 <= i < |PadStart(s, width)| ==> IsDigit(PadStart(s, width)[i])
    ensures ParseDecimal(PadStart(s, width)) == ParseDecimal(s)
  {
    if |s| < width {
      ParseLeadingZeros(width - |s|, s);
    }
  }

  /** The digits after the prefix give back count + 1, so distinct counts give distinct
      order numbers (the number is unique as long as orders are never deleted). */
  lemma OrderNumberRoundTrip(count: nat)
    ensures ParseDecimal(OrderNumber(count)[3..]) == count + 1
  {
    var padded := PadStart(Decimal(count + 1), OrderNumberWidth);
    assert OrderNumber(count)[3..] == padded;
    ParsePadStart(Decimal(count + 1), OrderNumberWidth);
    ParseDecimalOfDecimal(count + 1);
  }

  lemma OrderNumberInjective(a: nat, b: nat)
    requires OrderNumber(a) == OrderNumber(b)
    ensures a == b
  {
    OrderNumberRoundTrip(a);
    OrderNumberRoundTrip(b);
  }

  lemma OrderNumberExample()
    ensures OrderNumber(41) == "ORD000042"
  {
    assert Decimal(42) == "42";
    assert PadStart("42", 6) == "000042";
  }

  // ---------------------------------------------------------------------------
  // Clock helpers

  /** The `ageInHours` virtual: whole hours elapsed since creation, rounded down. */
  function AgeInHours(createdAt: int, now: int): (h: int)
    ensures h * HourMs <= now - createdAt < (h + 1) * HourMs
    ensures now >= createdAt ==> h >= 0
  {
    (now - createdAt) / HourMs
  }

  /** `calculateEstimatedDelivery`: two hours of travel plus one of processing from now. */
  function EstimatedDelivery(now: int): (eta: int)
    ensures AgeInHours(now, eta) == 3
    ensures eta > now
    ensures eta - now == 3 * HourMs
  {
    now + (2 + 1) * HourMs
  }

  // ---------------------------------------------------------------------------
  // The document

  class Order {
    var orderNumber: string
    const vendor: UserId
    const items: seq<OrderLine>
    const pricing: Pricing
    const createdAt: int
    var status: Status
    var statusHistory: seq<StatusEntry>
    /** `feedback.vendor.rating`: absent until the vendor rates the order. */
    var vendorRating: Option<int>
    /** Mongoose's `isNew`: true until the first save. */
    var isNew: bool

    /** A new document: status defaults to pending, the history is still empty. */
    constructor (vendor: UserId, items: seq<OrderLine>, pricing: Pricing, createdAt: int)
      ensures this.vendor == vendor && this.items == items && this.pricing == pricing
      ensures this.createdAt == createdAt
      ensures status == Pending && statusHistory == [] && vendorRating == None && isNew
      ensures orderNumber == ""
    {
      this.vendor := vendor;
      this.items := items;
      this.pricing := pricing;
      this.createdAt := createdAt;
      status := Pending;
      statusHistory := [];
      vendorRating := None;
      isNew := true;
      orderNumber := "";
    }

    /** The pre-save hook. On the first save only: the order number from the number of
        orders already stored, and exactly one history entry "Order created" carrying
        the current status. Later saves change nothing. */
    method PreSave(count: nat, now: int)
      modifies this`orderNumber, this`statusHistory, this`isNew
      ensures old(isNew) ==>
                && orderNumber == OrderNumber(count)
                && statusHistory == old(statusHistory) + [StatusEntry(status, now, "Order created", None)]
      ensures !old(isNew) ==> orderNumber == old(orderNumber) && statusHistory == old(statusHistory)
      ensures !isNew
    {
      if isNew {
        orderNumber := OrderNumber(count);
        statusHistory := statusHistory + [StatusEntry(status, now, "Order created", None)];
      }
      isNew := false;
    }

    /** `save()` as Mongoose runs it: the schema validators first, then the pre-save hook.
        `orderNumber` is `required`, and an empty string fails that check, so the hook
        runs only for a document that already has a number. */
    method SaveAsWritten(count: nat, now: int) returns (saved: bool)
      modifies this`orderNumber, this`statusHistory, this`isNew
      ensures saved <==> old(orderNumber) != ""
      ensures !saved ==> orderNumber == old(orderNumber) && statusHistory == old(statusHistory) && isNew == old(isNew)
      ensures saved && old(isNew) ==>
                && orderNumber == OrderNumber(count)
                && statusHistory == old(statusHistory) + [StatusEntry(status, now, "Order created", None)]
      ensures saved && !old(isNew) ==> orderNumber == old(orderNumber) && statusHistory == old(statusHistory)
    {
      if orderNumber == "" {
        return false;
      }
      PreSave(count, now);
      saved := true;
    }

    /** `updateStatus(newStatus, note, updatedBy)`: any status is accepted (there is no
        transition check); the history grows by exactly one entry at the end. */
    method UpdateStatus(newStatus: Status, note: string, updatedBy: Option<UserId>, now: int)
      modifies this`status, this`statusHistory
      ensures status == newStatus
      ensures statusHistory == old(statusHistory) + [StatusEntry(newStatus, now, note, updatedBy)]
    {
      status := newStatus;
      statusHistory := statusHistory + [StatusEntry(newStatus, now, note, updatedBy)];
    }

    function Age(now: int): int
      reads this
    {
      AgeInHours(createdAt, now)
    }
  }

  /** Checkout as written builds a new order and saves it: the validators see the empty
      number before the hook could assign one, so every new order is refused. */
  method NewOrderSaveRefused(vendor: UserId, items: seq<OrderLine>, pricing: Pricing, createdAt: int, count: nat, now: int)
    returns (saved: bool)
    ensures !saved
  {
    var o := new Order(vendor, items, pricing, createdAt);
    saved := o.SaveAsWritten(count, now);
  }

  /** Status history is append-only: after any number of updates the history before
      them is a prefix of the history after them, and the last entry is the current status. */
  method UpdateStatusTwice(o: Order, s1: Status, s2: Status, now: int)
    modifies o`status, o`statusHistory
    ensures old(o.statusHistory) <= o.statusHistory
    ensures |o.statusHistory| == |old(o.statusHistory)| + 2
    ensures o.statusHistory[|o.statusHistory| - 1].status == o.status == s2
  {
    o.UpdateStatus(s1, "", None, now);
    o.UpdateStatus(s2, "", None, now);
  }
}
