/** The product routes: the vendor catalogue listing (an aggregation pipeline, re-expressed
    as in-memory stages over the joined product documents), the product detail view with
    its in-place price sort, the category list and the search-suggestion guard. */
module ProductRoutes {
  import opened Common
  import opened SupplierProducts

  datatype Coordinates = Coordinates(lat: real, lng: real)

  /** One offer of a product after the joins: the offer and its supplier's profile. A
      supplier without a profile has neither coordinates nor a rating. */
  datatype Entry = Entry(
    offer: OfferId,
    price: real,
    isAvailable: bool,
    coordinates: Option<Coordinates>,
    rating: Option<real>)

  /** A catalogue product with the offers joined to it (`suppliers`). */
  datatype CatalogueProduct = CatalogueProduct(id: ProductId, category: string, isActive: bool, suppliers: seq<Entry>)

  /** A product as the listing returns it: its offers, the cheapest price (null when no
      offer is left) and the number of offers. */
  datatype Listing = Listing(id: ProductId, suppliers: seq<Entry>, lowestPrice: Option<real>, supplierCount: nat)

  // ---------------------------------------------------------------------------
  // Sorting sequences

  ghost predicate TotalPreorder<T(!new)>(le: (T, T) -> bool)
  {
    && (forall a, b :: le(a, b) || le(b, a))
    && (forall a, b, c :: le(a, b) && le(b, c) ==> le(a, c))
  }

  predicate SortedBy<T>(s: seq<T>, le: (T, T) -> bool)
  {
    forall i, j :: 0 <= i < j < |s| ==> le(s[i], s[j])
  }

  /** Places `x` after every element that may precede it, so equal elements keep their
      relative order. */
  function InsertBy<T>(x: T, s: seq<T>, le: (T, T) -> bool): (r: seq<T>)
    ensures multiset(r) == multiset(s) + multiset{x}
    ensures |r| == |s| + 1
  {
    if s == [] then [x]
    else if !le(s[0], x) then [x] + s
    else
      assert s == [s[0]] + s[1..];
      [s[0]] + InsertBy(x, s[1..], le)
  }

  lemma {:induction false} InsertBySorted<T(!new)>(x: T, s: seq<T>, le: (T, T) -> bool)
    requires TotalPreorder(le) && SortedBy(s, le)
    ensures SortedBy(InsertBy(x, s, le), le)
  {
    if s == [] {
    } else if !le(s[0], x) {
      var r := [x] + s;
      assert le(x, s[0]);
      forall i, j | 0 <= i < j < |r|
        ensures le(r[i], r[j])
      {
        if i == 0 && j > 1 {
          assert le(s[0], s[j - 1]);
        }
      }
    } else {
      var rest := InsertBy(x, s[1..], le);
      InsertBySorted(x, s[1..], le);
      forall k | 0 <= k < |rest|
        ensures le(s[0], rest[k])
      {
        assert rest[k] in multiset(rest);
        assert rest[k] in s[1..] || rest[k] == x;
      }
      var r := [s[0]] + rest;
      forall i, j | 0 <= i < j < |r|
        ensures le(r[i], r[j])
      {
        if i > 0 {
          assert r[i] == rest[i - 1] && r[j] == rest[j - 1];
        }
      }
    }
  }

  /** An insertion sort; `$sortArray` and the `$sort` stage promise sortedness of a
      permutation, which is what the lemmas below state. */
  function SortBy<T>(s: seq<T>, le: (T, T) -> bool): (r: seq<T>)
    ensures multiset(r) == multiset(s) && |r| == |s|
  {
    if s == [] then []
    else
      assert s == s[..|s| - 1] + [s[|s| - 1]];
      InsertBy(s[|s| - 1], SortBy(s[..|s| - 1], le), le)
  }

  lemma {:induction false} SortBySorted<T(!new)>(s: seq<T>, le: (T, T) -> bool)
    requires TotalPreorder(le)
    ensures SortedBy(SortBy(s, le), le)
  {
    if s != [] {
      SortBySorted(s[..|s| - 1], le);
      InsertBySorted(s[|s| - 1], SortBy(s[..|s| - 1], le), le);
    }
  }

  // ---------------------------------------------------------------------------
  // The listing's stages

  /** `category && category !== 'all'`: a missing or empty category (both falsy) and "all"
      match everything; any other value matches the products of exactly that category. */
  predicate CategoryMatches(p: CatalogueProduct, category: Option<string>)
  {
    category.None? || category.value == "" || category.value == "all" || p.category == category.value
  }

  /** The category filter is off, every product matching, exactly for a missing, empty
      or "all" category. */
  lemma CategoryFilterOff(category: Option<string>)
    ensures (forall p :: CategoryMatches(p, category)) <==>
              category.None? || category.value == "" || category.value == "all"
  {
    if category.Some? && category.value != "" && category.value != "all" {
      var other := CatalogueProduct(0, category.value + "x", true, []);
      assert |other.category| != |category.value|;
      assert !CategoryMatches(other, category);
    }
  }

  /** `sqrt(dlng^2 + dlat^2) / 111 <= maxDistance`, without the root: the left side is never
      negative, so the comparison holds exactly when the limit is not negative and the
      squares stay within (111 x limit)^2. A supplier without coordinates makes the left
      side null, which compares below every number, so that offer stays. */
  predicate NearEnough(e: Entry, vendor: Coordinates, maxDistance: int)
  {
    e.coordinates.None? ||
      (var dx := e.coordinates.value.lng - vendor.lng;
       var dy := e.coordinates.value.lat - vendor.lat;
       var reach := (111 * maxDistance) as real;
       maxDistance >= 0 && dx * dx + dy * dy <= reach * reach)
  }

  /** The squared comparison agrees with the one on the square root. */
  lemma NearEnoughWithRoot(e: Entry, vendor: Coordinates, maxDistance: int, root: real)
    requires e.coordinates.Some?
    requires var dx := e.coordinates.value.lng - vendor.lng;
             var dy := e.coordinates.value.lat - vendor.lat;
             root >= 0.0 && root * root == dx * dx + dy * dy
    ensures NearEnough(e, vendor, maxDistance) <==> root / 111.0 <= maxDistance as real
  {
    var reach := (111 * maxDistance) as real;
    assert NearEnough(e, vendor, maxDistance) <==> maxDistance >= 0 && root * root <= reach * reach;
    assert root / 111.0 <= maxDistance as real <==> root <= reach;
    if maxDistance >= 0 {
      SquaresCompare(root, reach);
    }
  }

  /** `$gte` on the minimum and `$lte` on the maximum, each only when given. */
  predicate PriceInRange(e: Entry, minPrice: Option<real>, maxPrice: Option<real>)
  {
    (minPrice.None? || e.price >= minPrice.value) && (maxPrice.None? || e.price <= maxPrice.value)
  }

  /** The first `$match`: the active products of the requested category, in order. */
  function MatchStage(ps: seq<CatalogueProduct>, category: Option<string>): (r: seq<CatalogueProduct>)
    ensures |r| <= |ps|
    ensures forall p :: p in r <==> p in ps && p.isActive && CategoryMatches(p, category)
  {
    if ps == [] then []
    else (if ps[0].isActive && CategoryMatches(ps[0], category) then [ps[0]] else []) + MatchStage(ps[1..], category)
  }

  /** The condition of each of the listing's `$filter` stages over a product's offers. */
  datatype OfferTest =
    | Available
    | Near(vendor: Coordinates, maxDistance: int)
    | PriceWithin(minPrice: Option<real>, maxPrice: Option<real>)

  predicate Passes(e: Entry, t: OfferTest)
  {
    match t
    case Available => e.isAvailable
    case Near(vendor, maxDistance) => NearEnough(e, vendor, maxDistance)
    case PriceWithin(minPrice, maxPrice) => PriceInRange(e, minPrice, maxPrice)
  }

  /** `$filter` over one product's offers: those that pass the test, in order. */
  function KeepOffers(es: seq<Entry>, t: OfferTest): (r: seq<Entry>)
    ensures |r| <= |es|
    ensures forall e :: e in r <==> e in es && Passes(e, t)
  {
    if es == [] then [] else (if Passes(es[0], t) then [es[0]] else []) + KeepOffers(es[1..], t)
  }

  /** An `$addFields` stage that filters the offers of every product and keeps every product. */
  function OfferStage(ps: seq<CatalogueProduct>, t: OfferTest): (r: seq<CatalogueProduct>)
    ensures |r| == |ps|
    ensures forall i :: 0 <= i < |ps| ==> r[i] == ps[i].(suppliers := KeepOffers(ps[i].suppliers, t))
  {
    seq(|ps|, i requires 0 <= i < |ps| => ps[i].(suppliers := KeepOffers(ps[i].suppliers, t)))
  }

  /** The `$filter` on `isAvailable`. */
  function AvailabilityStage(ps: seq<CatalogueProduct>): (r: seq<CatalogueProduct>)
    ensures |r| == |ps|
    ensures forall i :: 0 <= i < |ps| ==>
              (r[i].id == ps[i].id && forall e :: e in r[i].suppliers <==> e in ps[i].suppliers && e.isAvailable)
  {
    OfferStage(ps, Available)
  }

  /** The `$filter` on the distance to the vendor. */
  function DistanceStage(ps: seq<CatalogueProduct>, vendor: Coordinates, maxDistance: int): (r: seq<CatalogueProduct>)
    ensures |r| == |ps|
    ensures forall i :: 0 <= i < |ps| ==>
              (r[i].id == ps[i].id && forall e :: e in r[i].suppliers <==> e in ps[i].suppliers && NearEnough(e, vendor, maxDistance))
  {
    OfferStage(ps, Near(vendor, maxDistance))
  }

  /** The `$filter` on the requested price bounds. */
  function PriceStage(ps: seq<CatalogueProduct>, minPrice: Option<real>, maxPrice: Option<real>): (r: seq<CatalogueProduct>)
    ensures |r| == |ps|
    ensures forall i :: 0 <= i < |ps| ==>
              (r[i].id == ps[i].id && forall e :: e in r[i].suppliers <==> e in ps[i].suppliers && PriceInRange(e, minPrice, maxPrice))
  {
    OfferStage(ps, PriceWithin(minPrice, maxPrice))
  }

  /** The `$match` on `suppliers.0`: the products with at least one offer left, in order. */
  function NonEmptyStage(ps: seq<CatalogueProduct>): (r: seq<CatalogueProduct>)
    ensures |r| <= |ps|
    ensures forall p :: p in r <==> p in ps && p.suppliers != []
  {
    if ps == [] then [] else (if ps[0].suppliers != [] then [ps[0]] else []) + NonEmptyStage(ps[1..])
  }

  // ---------------------------------------------------------------------------
  // The per-product sort of offers

  datatype SortMode = ByPrice | ByDistance | ByRating

  /** The `sortBy` switch: price is also the default. */
  function SortModeOf(sortBy: string): (m: SortMode)
    ensures m == ByDistance <==> sortBy == "distance"
    ensures m == ByRating <==> sortBy == "rating"
  {
    if sortBy == "distance" then ByDistance else if sortBy == "rating" then ByRating else ByPrice
  }

  /** The key the switch builds: a dotted path and its direction (1 or -1). */
  datatype SortKey = SortKey(path: seq<string>, ascending: bool)

  function SortKeyOf(mode: SortMode): SortKey
  {
    match mode
    case ByPrice => SortKey(["suppliers", "price"], true)
    case ByDistance => SortKey(["suppliers", "supplierInfo", "profile", "address", "coordinates"], true)
    case ByRating => SortKey(["suppliers", "supplierInfo", "stats", "rating"], false)
  }

  /** A value as `$sortArray` compares it: a missing field, a number or a coordinates document. */
  datatype SortValue = Missing | Number(x: real) | Point(at: Coordinates)

  /** The value at a dotted path inside one offer after the joins: its own `price`, and its
      supplier's coordinates and rating under `supplierInfo`. An offer has no `suppliers`
      field, so every path that starts there is missing. */
  function FieldAt(e: Entry, path: seq<string>): (v: SortValue)
    ensures |path| > 0 && path[0] == "suppliers" ==> v == Missing
  {
    if path == ["price"] then Number(e.price)
    else if path == ["supplierInfo", "profile", "address", "coordinates"] then
      (if e.coordinates.Some? then Point(e.coordinates.value) else Missing)
    else if path == ["supplierInfo", "stats", "rating"] then
      (if e.rating.Some? then Number(e.rating.value) else Missing)
    else Missing
  }

  /** BSON order: a missing value first, then numbers, then documents field by field. */
  predicate ValueLe(a: SortValue, b: SortValue)
  {
    match (a, b)
    case (Missing, _) => true
    case (_, Missing) => false
    case (Number(x), Number(y)) => x <= y
    case (Number(_), Point(_)) => true
    case (Point(_), Number(_)) => false
    case (Point(p), Point(o)) => p.lat < o.lat || (p.lat == o.lat && p.lng <= o.lng)
  }

  /** The order `$sortArray` puts two offers in: by the values at the key's path, in the
      key's direction. */
  predicate KeyOrder(key: SortKey, a: Entry, b: Entry)
  {
    if key.ascending then ValueLe(FieldAt(a, key.path), FieldAt(b, key.path))
    else ValueLe(FieldAt(b, key.path), FieldAt(a, key.path))
  }

  /** Every key the switch builds ties every pair of offers. */
  lemma KeyOrderTies(mode: SortMode)
    ensures forall a, b :: KeyOrder(SortKeyOf(mode), a, b)
  {
    var key := SortKeyOf(mode);
    assert key.path[0] == "suppliers";
    forall a, b
      ensures KeyOrder(key, a, b)
    {
      assert FieldAt(a, key.path) == Missing && FieldAt(b, key.path) == Missing;
    }
  }

  lemma {:induction false} InsertByAllTied<T>(x: T, s: seq<T>, le: (T, T) -> bool)
    requires forall a, b :: le(a, b)
    ensures InsertBy(x, s, le) == s + [x]
  {
    if s != [] {
      InsertByAllTied(x, s[1..], le);
      assert [s[0]] + (s[1..] + [x]) == s + [x];
    }
  }

  /** With every pair tied, the sort leaves the sequence as it is. */
  lemma {:induction false} SortByAllTied<T>(s: seq<T>, le: (T, T) -> bool)
    requires forall a, b :: le(a, b)
    ensures SortBy(s, le) == s
  {
    if s != [] {
      SortByAllTied(s[..|s| - 1], le);
      InsertByAllTied(s[|s| - 1], s[..|s| - 1], le);
      assert s[..|s| - 1] + [s[|s| - 1]] == s;
    }
  }

  /** The `$sortArray` stage as written. Every path of the switch starts with `suppliers`,
      which is looked up inside each offer and is missing there, so all offers tie and each
      product keeps its offers in their stored order, whatever `sortBy` asks for. */
  function SortOffersStage(ps: seq<CatalogueProduct>, mode: SortMode): (r: seq<CatalogueProduct>)
    ensures r == ps
  {
    var key := SortKeyOf(mode);
    var le := (a: Entry, b: Entry) => KeyOrder(key, a, b);
    assert forall a, b :: le(a, b) by {
      KeyOrderTies(mode);
    }
    var r := seq(|ps|, i requires 0 <= i < |ps| => ps[i].(suppliers := SortBy(ps[i].suppliers, le)));
    assert forall i :: 0 <= i < |ps| ==> r[i] == ps[i] by {
      forall i | 0 <= i < |ps|
        ensures r[i] == ps[i]
      {
        SortByAllTied(ps[i].suppliers, le);
      }
    }
    r
  }

  predicate PriceOrder(a: Entry, b: Entry)
  {
    a.price <= b.price
  }

  /** Ascending by the coordinates document: missing ones first, then by latitude and then
      longitude, the order of its fields. */
  predicate CoordinateOrder(a: Entry, b: Entry)
  {
    a.coordinates.None? ||
      (b.coordinates.Some? &&
        (a.coordinates.value.lat < b.coordinates.value.lat ||
          (a.coordinates.value.lat == b.coordinates.value.lat && a.coordinates.value.lng <= b.coordinates.value.lng)))
  }

  /** Descending by rating: missing ratings last. */
  predicate RatingOrder(a: Entry, b: Entry)
  {
    b.rating.None? || (a.rating.Some? && a.rating.value >= b.rating.value)
  }

  /** The order the switch evidently means, each path read from the offer itself. */
  function EntryOrder(mode: SortMode): (Entry, Entry) -> bool
  {
    match mode
    case ByPrice => PriceOrder
    case ByDistance => CoordinateOrder
    case ByRating => RatingOrder
  }

  lemma EntryOrderIsTotal(mode: SortMode)
    ensures TotalPreorder(EntryOrder(mode))
  {
  }

  /** The evidently intended stage: every product's offers ordered by the requested key. */
  function IntendedSortOffersStage(ps: seq<CatalogueProduct>, mode: SortMode): (r: seq<CatalogueProduct>)
    ensures |r| == |ps|
    ensures forall i :: 0 <= i < |ps| ==>
              r[i].id == ps[i].id && multiset(r[i].suppliers) == multiset(ps[i].suppliers)
  {
    seq(|ps|, i requires 0 <= i < |ps| => ps[i].(suppliers := SortBy(ps[i].suppliers, EntryOrder(mode))))
  }

  lemma IntendedOffersSorted(ps: seq<CatalogueProduct>, mode: SortMode)
    ensures forall i :: 0 <= i < |ps| ==> SortedBy(IntendedSortOffersStage(ps, mode)[i].suppliers, EntryOrder(mode))
  {
    EntryOrderIsTotal(mode);
    forall i | 0 <= i < |ps|
      ensures SortedBy(IntendedSortOffersStage(ps, mode)[i].suppliers, EntryOrder(mode))
    {
      SortBySorted(ps[i].suppliers, EntryOrder(mode));
    }
  }

  /** Sorting two elements swaps them exactly when the second must come first. */
  lemma SortTwo<T>(x: T, y: T, le: (T, T) -> bool)
    ensures SortBy([x, y], le) == if le(x, y) then [x, y] else [y, x]
  {
    assert [x, y][..1] == [x];
    assert SortBy([x], le) == [x] by {
      assert [x][..0] == [];
    }
    assert SortBy([x, y], le) == InsertBy(y, [x], le);
  }

  /** Two offers priced 30 and then 10, listed by price: the stage as written keeps them in
      that order, the intended one puts the cheaper first. */
  lemma OfferSortExample()
    ensures var dear := Entry(1, 30.0, true, None, None);
            var cheap := Entry(2, 10.0, true, None, None);
            var ps := [CatalogueProduct(1, "vegetables", true, [dear, cheap])];
            && SortOffersStage(ps, ByPrice)[0].suppliers == [dear, cheap]
            && IntendedSortOffersStage(ps, ByPrice)[0].suppliers == [cheap, dear]
  {
    var dear := Entry(1, 30.0, true, None, None);
    var cheap := Entry(2, 10.0, true, None, None);
    SortTwo(dear, cheap, PriceOrder);
  }

  // ---------------------------------------------------------------------------
  // Summary, product order and pagination

  /** `$min` over the offer prices; null for no offers. */
  function LowestPrice(es: seq<Entry>): (r: Option<real>)
    ensures r.None? <==> es == []
    ensures r.Some? ==> (exists e :: e in es && e.price == r.value) && forall e :: e in es ==> r.value <= e.price
  {
    if es == [] then None
    else
      var rest := LowestPrice(es[1..]);
      assert forall e :: e in es ==> e == es[0] || e in es[1..];
      if rest.None? || es[0].price <= rest.value then Some(es[0].price) else rest
  }

  function Summarise(p: CatalogueProduct): (l: Listing)
    ensures l.id == p.id && l.suppliers == p.suppliers
    ensures l.lowestPrice == LowestPrice(p.suppliers) && l.supplierCount == |p.suppliers|
  {
    Listing(p.id, p.suppliers, LowestPrice(p.suppliers), |p.suppliers|)
  }

  function SummariseStage(ps: seq<CatalogueProduct>): (r: seq<Listing>)
    ensures |r| == |ps| && forall i :: 0 <= i < |ps| ==> r[i] == Summarise(ps[i])
  {
    seq(|ps|, i requires 0 <= i < |ps| => Summarise(ps[i]))
  }

  /** `$sort: { lowestPrice: 1 }`: a product without offers (null) first. */
  predicate LowestFirst(a: Listing, b: Listing)
  {
    a.lowestPrice.None? || (b.lowestPrice.Some? && a.lowestPrice.value <= b.lowestPrice.value)
  }

  lemma LowestFirstIsTotal()
    ensures TotalPreorder(LowestFirst)
  {
  }

  /** `$skip: (page - 1) * limit` and `$limit: limit`. The database rejects a negative skip
      and a limit below 1, which the route answers with an error. */
  function Paginate<T>(s: seq<T>, page: int, limit: int): (r: Option<seq<T>>)
    ensures r.None? <==> page < 1 || limit < 1
    ensures r.Some? ==> |r.value| <= limit
    ensures r.Some? ==> forall i :: 0 <= i < |r.value| ==> Skip(page, limit) + i < |s| && r.value[i] == s[Skip(page, limit) + i]
    ensures r.Some? && Skip(page, limit) + limit <= |s| ==> |r.value| == limit
    ensures r.Some? ==> |r.value| == if Skip(page, limit) >= |s| then 0
                                     else if Skip(page, limit) + limit <= |s| then limit
                                     else |s| - Skip(page, limit)
  {
    if page < 1 || limit < 1 then None
    else
      var skip := Skip(page, limit);
      var from := if skip < |s| then skip else |s|;
      var to := if skip + limit < |s| then skip + limit else |s|;
      Some(s[from..to])
  }

  /** The number of items before the page: (page - 1) x limit. */
  function Skip(page: int, limit: int): (n: nat)
    requires page >= 1 && limit >= 1
    ensures n + limit == page * limit
  {
    var k := page - 1;
    assert k * limit >= 0;
    k * limit
  }

  /** `Math.ceil(total / limit)`. */
  function PageCount(total: nat, limit: int): (pages: nat)
    requires limit >= 1
    ensures (pages - 1) * limit < total <= pages * limit || (total == 0 && pages == 0)
  {
    (total + limit - 1) / limit
  }

  // ---------------------------------------------------------------------------
  // What the filters leave, in one pass

  datatype Query = Query(
    category: Option<string>,
    sortBy: string,
    minPrice: Option<real>,
    maxPrice: Option<real>,
    maxDistance: int,
    page: int,
    limit: int)

  datatype ProductPage = ProductPage(items: seq<Listing>, total: nat, pages: nat, currentPage: int)

  /** A product the listing keeps: active, of the category, with an available offer. The
      distance and price filters only thin its offers, so they do not decide this. */
  predicate Listable(p: CatalogueProduct, category: Option<string>)
  {
    p.isActive && CategoryMatches(p, category) && HasAvailable(p)
  }

  predicate HasAvailable(p: CatalogueProduct)
  {
    exists e :: e in p.suppliers && e.isAvailable
  }

  function CountListable(ps: seq<CatalogueProduct>, category: Option<string>): nat
  {
    if ps == [] then 0 else (if Listable(ps[0], category) then 1 else 0) + CountListable(ps[1..], category)
  }

  /** Everything an offer in the listing has passed: available, near enough when the
      vendor's location is known, and within the requested prices. */
  predicate Admitted(e: Entry, vendor: Option<Coordinates>, q: Query)
  {
    && e.isAvailable
    && (vendor.Some? ==> NearEnough(e, vendor.value, q.maxDistance))
    && PriceInRange(e, q.minPrice, q.maxPrice)
  }

  predicate AllAdmitted(ps: seq<CatalogueProduct>, vendor: Option<Coordinates>, q: Query)
  {
    forall i, e :: 0 <= i < |ps| && e in ps[i].suppliers ==> Admitted(e, vendor, q)
  }

  /** The admitted offers of one product, in their stored order. */
  function AdmittedOffers(es: seq<Entry>, vendor: Option<Coordinates>, q: Query): (r: seq<Entry>)
    ensures forall e :: e in r <==> e in es && Admitted(e, vendor, q)
  {
    if es == [] then [] else (if Admitted(es[0], vendor, q) then [es[0]] else []) + AdmittedOffers(es[1..], vendor, q)
  }

  /** The listing's products in one pass over the catalogue: the listable ones in catalogue
      order, each with its admitted offers. A product whose offers the distance or price
      filter removes is still there, with no offers. */
  function ListedProducts(ps: seq<CatalogueProduct>, vendor: Option<Coordinates>, q: Query): (r: seq<CatalogueProduct>)
    ensures |r| == CountListable(ps, q.category)
    ensures AllAdmitted(r, vendor, q)
  {
    if ps == [] then []
    else
      var rest := ListedProducts(ps[1..], vendor, q);
      var head := if Listable(ps[0], q.category) then [ps[0].(suppliers := AdmittedOffers(ps[0].suppliers, vendor, q))] else [];
      assert forall i :: 0 <= i < |head + rest| ==> (head + rest)[i] == if i < |head| then head[i] else rest[i - |head|];
      head + rest
  }

  /** The offer tests the handler pushes for this vendor and query, in order: availability,
      then the distance when the vendor has a location, then the prices when a bound is given. */
  function TestsOf(vendor: Option<Coordinates>, q: Query): seq<OfferTest>
  {
    [Available]
      + (if vendor.Some? then [Near(vendor.value, q.maxDistance)] else [])
      + (if q.minPrice.Some? || q.maxPrice.Some? then [PriceWithin(q.minPrice, q.maxPrice)] else [])
  }

  predicate PassesAll(e: Entry, ts: seq<OfferTest>)
  {
    forall t :: t in ts ==> Passes(e, t)
  }

  /** The offers passing every test of `ts`, in order. */
  function KeepAll(es: seq<Entry>, ts: seq<OfferTest>): seq<Entry>
  {
    if es == [] then [] else (if PassesAll(es[0], ts) then [es[0]] else []) + KeepAll(es[1..], ts)
  }

  /** The catalogue after the match and the drop of products without an available offer,
      each product left with the offers passing `ts`. */
  function Staged(ps: seq<CatalogueProduct>, category: Option<string>, ts: seq<OfferTest>): seq<CatalogueProduct>
  {
    if ps == [] then []
    else
      (if Listable(ps[0], category) then [ps[0].(suppliers := KeepAll(ps[0].suppliers, ts))] else [])
        + Staged(ps[1..], category, ts)
  }

  lemma {:induction false} KeepOne(es: seq<Entry>, t: OfferTest)
    ensures KeepOffers(es, t) == KeepAll(es, [t])
  {
    if es != [] {
      KeepOne(es[1..], t);
    }
  }

  lemma {:induction false} KeepThen(es: seq<Entry>, ts: seq<OfferTest>, t: OfferTest)
    ensures KeepOffers(KeepAll(es, ts), t) == KeepAll(es, ts + [t])
  {
    if es != [] {
      KeepThen(es[1..], ts, t);
      var x, rest := es[0], KeepAll(es[1..], ts);
      assert PassesAll(x, ts + [t]) <==> PassesAll(x, ts) && Passes(x, t) by {
        assert forall u :: u in ts + [t] <==> u in ts || u == t;
      }
      if PassesAll(x, ts) {
        assert KeepAll(es, ts) == [x] + rest;
        assert ([x] + rest)[0] == x && ([x] + rest)[1..] == rest;
        assert KeepOffers([x] + rest, t) == (if Passes(x, t) then [x] else []) + KeepOffers(rest, t);
      } else {
        assert KeepAll(es, ts) == rest;
      }
    }
  }

  lemma {:induction false} KeepAllAdmitted(es: seq<Entry>, vendor: Option<Coordinates>, q: Query)
    ensures KeepAll(es, TestsOf(vendor, q)) == AdmittedOffers(es, vendor, q)
  {
    if es != [] {
      KeepAllAdmitted(es[1..], vendor, q);
      var x := es[0];
      var ts := TestsOf(vendor, q);
      assert Available in ts;
      if vendor.Some? {
        assert Near(vendor.value, q.maxDistance) in ts;
      }
      if q.minPrice.Some? || q.maxPrice.Some? {
        assert PriceWithin(q.minPrice, q.maxPrice) in ts;
      }
      assert PassesAll(x, ts) <==> Admitted(x, vendor, q);
    }
  }

  lemma OfferStageAppend(a: seq<CatalogueProduct>, b: seq<CatalogueProduct>, t: OfferTest)
    ensures OfferStage(a + b, t) == OfferStage(a, t) + OfferStage(b, t)
  {
    var l, r := OfferStage(a + b, t), OfferStage(a, t) + OfferStage(b, t);
    assert forall i :: 0 <= i < |l| ==> l[i] == r[i];
  }

  lemma NonEmptyStageCons(p: CatalogueProduct, ps: seq<CatalogueProduct>)
    ensures NonEmptyStage([p] + ps) == (if p.suppliers != [] then [p] else []) + NonEmptyStage(ps)
  {
    assert ([p] + ps)[0] == p && ([p] + ps)[1..] == ps;
  }

  lemma {:induction false} NonEmptyStageAppend(a: seq<CatalogueProduct>, b: seq<CatalogueProduct>)
    ensures NonEmptyStage(a + b) == NonEmptyStage(a) + NonEmptyStage(b)
  {
    if a == [] {
      assert a + b == b;
    } else {
      var p, rest := a[0], a[1..];
      var head := if p.suppliers != [] then [p] else [];
      assert a == [p] + rest;
      assert a + b == [p] + (rest + b);
      calc {
        NonEmptyStage(a + b);
        { NonEmptyStageCons(p, rest + b); }
        head + NonEmptyStage(rest + b);
        { NonEmptyStageAppend(rest, b); }
        head + (NonEmptyStage(rest) + NonEmptyStage(b));
        (head + NonEmptyStage(rest)) + NonEmptyStage(b);
        { NonEmptyStageCons(p, rest); }
        NonEmptyStage(a) + NonEmptyStage(b);
      }
    }
  }

  /** The match, the availability filter and the drop of empty products leave the listable
      products, each with its available offers. */
  lemma {:induction false} FirstStages(ps: seq<CatalogueProduct>, category: Option<string>)
    ensures NonEmptyStage(AvailabilityStage(MatchStage(ps, category))) == Staged(ps, category, [Available])
  {
    if ps != [] {
      FirstStages(ps[1..], category);
      var p := ps[0];
      var matched := MatchStage(ps[1..], category);
      var head := if p.isActive && CategoryMatches(p, category) then [p] else [];
      assert MatchStage(ps, category) == head + matched;
      OfferStageAppend(head, matched, Available);
      NonEmptyStageAppend(OfferStage(head, Available), OfferStage(matched, Available));
      if head != [] {
        var kept := KeepOffers(p.suppliers, Available);
        KeepOne(p.suppliers, Available);
        assert OfferStage(head, Available) == [p.(suppliers := kept)];
        assert kept != [] <==> HasAvailable(p) by {
          if kept != [] {
            assert kept[0] in kept;
          }
        }
        assert NonEmptyStage([p.(suppliers := kept)]) == (if kept != [] then [p.(suppliers := kept)] else []);
      }
    }
  }

  /** A further offer filter on the staged catalogue adds its test. */
  lemma {:induction false} StagedThen(ps: seq<CatalogueProduct>, category: Option<string>, ts: seq<OfferTest>, t: OfferTest)
    ensures OfferStage(Staged(ps, category, ts), t) == Staged(ps, category, ts + [t])
  {
    if ps != [] {
      StagedThen(ps[1..], category, ts, t);
      var p, rest := ps[0], Staged(ps[1..], category, ts);
      var head := if Listable(p, category) then [p.(suppliers := KeepAll(p.suppliers, ts))] else [];
      assert Staged(ps, category, ts) == head + rest;
      OfferStageAppend(head, rest, t);
      if Listable(p, category) {
        KeepThen(p.suppliers, ts, t);
        assert OfferStage(head, t) == [p.(suppliers := KeepAll(p.suppliers, ts + [t]))];
      } else {
        assert OfferStage(head, t) == [];
      }
    }
  }

  lemma {:induction false} StagedIsListed(ps: seq<CatalogueProduct>, vendor: Option<Coordinates>, q: Query)
    ensures Staged(ps, q.category, TestsOf(vendor, q)) == ListedProducts(ps, vendor, q)
  {
    if ps != [] {
      StagedIsListed(ps[1..], vendor, q);
      KeepAllAdmitted(ps[0].suppliers, vendor, q);
    }
  }

  /** The filtering half of the GET / handler, stage by stage as it pushes them: the
      distance filter only for a vendor with a location, the price filter only when a
      bound is given. Together they leave exactly the listable products in catalogue
      order, each with exactly its admitted offers; the count query stops after these
      stages, so the total is the number of listable products. */
  method FilterStages(catalogue: seq<CatalogueProduct>, vendor: Option<Coordinates>, q: Query)
    returns (products: seq<CatalogueProduct>)
    ensures products == ListedProducts(catalogue, vendor, q)
    ensures AllAdmitted(products, vendor, q)
    ensures |products| == CountListable(catalogue, q.category)
  {
    products := MatchStage(catalogue, q.category);
    products := AvailabilityStage(products);
    products := NonEmptyStage(products);
    FirstStages(catalogue, q.category);
    ghost var tests := [Available];
    if vendor.Some? {
      StagedThen(catalogue, q.category, tests, Near(vendor.value, q.maxDistance));
      products := DistanceStage(products, vendor.value, q.maxDistance);
      tests := tests + [Near(vendor.value, q.maxDistance)];
    }
    if q.minPrice.Some? || q.maxPrice.Some? {
      StagedThen(catalogue, q.category, tests, PriceWithin(q.minPrice, q.maxPrice));
      products := PriceStage(products, q.minPrice, q.maxPrice);
      tests := tests + [PriceWithin(q.minPrice, q.maxPrice)];
    }
    assert tests == TestsOf(vendor, q);
    StagedIsListed(catalogue, vendor, q);
  }

  /** The GET / handler. The filtered products keep their offers in stored order (the sort
      stage ties every offer), each carries its cheapest price and offer count, they come
      cheapest first (those left without offers before all others), and the page is the
      requested slice of that order; the total is taken before sorting and pagination. */
  method ListProducts(catalogue: seq<CatalogueProduct>, vendor: Option<Coordinates>, q: Query) returns (r: Option<ProductPage>)
    ensures r.None? <==> q.page < 1 || q.limit < 1
    ensures r.Some? ==>
              r.value.items == Paginate(SortBy(SummariseStage(ListedProducts(catalogue, vendor, q)), LowestFirst), q.page, q.limit).value
    ensures r.Some? ==> r.value.total == CountListable(catalogue, q.category)
    ensures r.Some? ==> r.value.pages == PageCount(r.value.total, q.limit) && r.value.currentPage == q.page
    ensures r.Some? ==> |r.value.items| <= q.limit && SortedBy(r.value.items, LowestFirst)
    ensures r.Some? ==> forall l :: l in r.value.items ==>
              && l.lowestPrice == LowestPrice(l.suppliers) && l.supplierCount == |l.suppliers|
              && forall e :: e in l.suppliers ==> Admitted(e, vendor, q)
  {
    var products := FilterStages(catalogue, vendor, q);
    var total := |products|;
    var listed := SummariseStage(SortOffersStage(products, SortModeOf(q.sortBy)));
    var ordered := SortBy(listed, LowestFirst);
    LowestFirstIsTotal();
    SortBySorted(listed, LowestFirst);
    var page := Paginate(ordered, q.page, q.limit);
    if page.None? {
      return None;
    }
    PageOfSorted(ordered, q.page, q.limit);
    forall l | l in page.value
      ensures l.lowestPrice == LowestPrice(l.suppliers) && l.supplierCount == |l.suppliers|
      ensures forall e :: e in l.suppliers ==> Admitted(e, vendor, q)
    {
      assert l in multiset(ordered);
      var i :| 0 <= i < |listed| && listed[i] == l;
    }
    r := Some(ProductPage(page.value, total, PageCount(total, q.limit), q.page));
  }

  /** A page of a sorted list is sorted and drawn from the list. */
  lemma PageOfSorted(s: seq<Listing>, page: int, limit: int)
    requires SortedBy(s, LowestFirst)
    requires page >= 1 && limit >= 1
    ensures SortedBy(Paginate(s, page, limit).value, LowestFirst)
    ensures forall x :: x in Paginate(s, page, limit).value ==> x in s
  {
    var p := Paginate(s, page, limit).value;
    var skip := Skip(page, limit);
    assert forall i :: 0 <= i < |p| ==> skip + i < |s| && p[i] == s[skip + i];
    forall i, j | 0 <= i < j < |p|
      ensures LowestFirst(p[i], p[j])
    {
      assert LowestFirst(s[skip + i], s[skip + j]);
    }
    forall x | x in p
      ensures x in s
    {
      var i :| 0 <= i < |p| && p[i] == x;
      assert x == s[skip + i];
    }
  }

  // ---------------------------------------------------------------------------
  // Product detail

  /** An offer as the detail query finds it, with its supplier's coordinates. */
  datatype DetailSource = DetailSource(offer: Offer, isActive: bool, supplierAt: Option<Coordinates>)

  datatype DetailRow = DetailRow(offer: Offer, distance: Option<real>, priceChangePercentage: Option<real>)

  /** The distance is null unless both the vendor and the supplier have coordinates; then it
      is the great-circle distance, which is given. */
  function DetailRowOf(s: DetailSource, vendor: Option<Coordinates>, distanceOf: (Coordinates, Coordinates) -> real): (r: DetailRow)
    ensures r.offer == s.offer
    ensures r.distance.Some? <==> vendor.Some? && s.supplierAt.Some?
    ensures r.distance.Some? ==> r.distance.value == distanceOf(vendor.value, s.supplierAt.value)
  {
    var distance := if vendor.Some? && s.supplierAt.Some? then Some(distanceOf(vendor.value, s.supplierAt.value)) else None;
    DetailRow(s.offer, distance, PriceChangePercentage(s.offer.price, s.offer.priceHistory))
  }

  predicate PriceSorted(s: seq<DetailRow>)
  {
    forall i, j :: 0 <= i < j < |s| ==> s[i].offer.price <= s[j].offer.price
  }

  /** `suppliersWithDistance.sort((a, b) => a.price - b.price)`, in place: an insertion
      sort that moves each row down past the dearer rows before it. */
  method SortByPrice(a: array<DetailRow>)
    modifies a
    ensures PriceSorted(a[..])
    ensures multiset(a[..]) == multiset(old(a[..]))
  {
    var i := 0;
    while i < a.Length
      invariant 0 <= i <= a.Length
      invariant PriceSorted(a[..i])
      invariant multiset(a[..]) == multiset(old(a[..]))
    {
      SinkRow(a, i);
      i := i + 1;
    }
  }

  /** One pass of the insertion sort: the row at `i` moves down past the dearer rows of
      the sorted prefix before it. */
  method SinkRow(a: array<DetailRow>, i: int)
    requires 0 <= i < a.Length && PriceSorted(a[..i])
    modifies a
    ensures PriceSorted(a[..i + 1])
    ensures multiset(a[..]) == multiset(old(a[..]))
  {
    var j := i;
    SinkStart(a[..], i);
    while j > 0 && a[j - 1].offer.price > a[j].offer.price
      invariant 0 <= j <= i
      invariant Sinking(a[..], j, i)
      invariant multiset(a[..]) == multiset(old(a[..]))
    {
      ghost var before := a[..];
      a[j - 1], a[j] := a[j], a[j - 1];
      assert a[..] == before[j - 1 := before[j]][j := before[j - 1]];
      SinkStep(before, j, i);
      j := j - 1;
    }
    SinkDone(a[..], j, i);
  }

  /** Part-way through a pass: the rows up to `i`, leaving out the one at `j`, are sorted,
      and that one is no dearer than any row after it. */
  predicate Sinking(s: seq<DetailRow>, j: int, i: int)
    requires 0 <= j <= i < |s|
  {
    && (forall k, l :: 0 <= k < l <= i && k != j && l != j ==> s[k].offer.price <= s[l].offer.price)
    && (forall l :: j < l <= i ==> s[j].offer.price <= s[l].offer.price)
  }

  lemma SinkStart(s: seq<DetailRow>, i: int)
    requires 0 <= i < |s| && PriceSorted(s[..i])
    ensures Sinking(s, i, i)
  {
    assert forall k :: 0 <= k < i ==> s[..i][k] == s[k];
  }

  lemma SinkStep(s: seq<DetailRow>, j: int, i: int)
    requires 0 < j <= i < |s| && Sinking(s, j, i)
    requires s[j - 1].offer.price > s[j].offer.price
    ensures Sinking(s[j - 1 := s[j]][j := s[j - 1]], j - 1, i)
    ensures multiset(s[j - 1 := s[j]][j := s[j - 1]]) == multiset(s)
  {
    var t := s[j - 1 := s[j]][j := s[j - 1]];
    assert t[j - 1] == s[j] && t[j] == s[j - 1];
    assert forall k :: 0 <= k < |s| && k != j - 1 && k != j ==> t[k] == s[k];
  }

  lemma SinkDone(s: seq<DetailRow>, j: int, i: int)
    requires 0 <= j <= i < |s| && Sinking(s, j, i)
    requires j == 0 || s[j - 1].offer.price <= s[j].offer.price
    ensures PriceSorted(s[..i + 1])
  {
  }

  /** The GET /:id handler after the lookups: available and active offers only, each with
      its distance and price-change figure, cheapest first. */
  method ProductDetail(sources: seq<DetailSource>, vendor: Option<Coordinates>, distanceOf: (Coordinates, Coordinates) -> real)
    returns (rows: seq<DetailRow>)
    ensures PriceSorted(rows)
    ensures multiset(rows) == multiset(DetailRows(sources, vendor, distanceOf))
    ensures forall r :: r in rows ==> r.offer.isAvailable
  {
    var found := DetailRows(sources, vendor, distanceOf);
    var a := new DetailRow[|found|](i requires 0 <= i < |found| => found[i]);
    assert a[..] == found;
    SortByPrice(a);
    rows := a[..];
    forall r | r in rows
      ensures r.offer.isAvailable
    {
      assert r in multiset(rows);
    }
  }

  /** The `find` on availability and activity, then the mapping to rows. */
  function DetailRows(sources: seq<DetailSource>, vendor: Option<Coordinates>, distanceOf: (Coordinates, Coordinates) -> real): (r: seq<DetailRow>)
    ensures forall row :: row in r ==> row.offer.isAvailable
    ensures forall row :: row in r ==> exists s :: s in sources && s.isActive && row == DetailRowOf(s, vendor, distanceOf)
    ensures forall s :: s in sources && s.isActive && s.offer.isAvailable ==> DetailRowOf(s, vendor, distanceOf) in r
  {
    if sources == [] then []
    else
      var s := sources[0];
      var rest := DetailRows(sources[1..], vendor, distanceOf);
      assert forall x :: x in sources[1..] ==> x in sources;
      (if s.offer.isAvailable && s.isActive then [DetailRowOf(s, vendor, distanceOf)] else []) + rest
  }

  // ---------------------------------------------------------------------------
  // Categories and suggestions

  /** `toUpperCase` on an ASCII letter; any other character is kept. */
  function UpperCase(c: char): (u: char)
    ensures 'a' <= c <= 'z' ==> 'A' <= u <= 'Z' && (u as int) - ('A' as int) == (c as int) - ('a' as int)
    ensures !('a' <= c <= 'z') ==> u == c
  {
    if 'a' <= c <= 'z' then (c as int - 'a' as int + 'A' as int) as char else c
  }

  /** `category.charAt(0).toUpperCase() + category.slice(1)`. */
  function DisplayName(category: string): (name: string)
    ensures |name| == |category|
    ensures category != [] ==> name[0] == UpperCase(category[0]) && name[1..] == category[1..]
  {
    if category == [] then [] else [UpperCase(category[0])] + category[1..]
  }

  /** Capitalising twice changes nothing more, and the name still reads as the category
      apart from the case of its first letter. */
  lemma DisplayNameIdempotent(category: string)
    ensures DisplayName(DisplayName(category)) == DisplayName(category)
  {
    if category != [] {
      var u := UpperCase(category[0]);
      assert UpperCase(u) == u;
      assert DisplayName(category)[1..] == category[1..];
    }
  }

  datatype CategoryIcon = Carrot | Apple | Wheat | OilDrum | ChiliPepper | Milk | MeatCut | Fish | Package

  /** `getCategoryEmoji`: one icon per known category, the parcel for "other" and for any
      category not in the table. */
  function CategoryEmoji(category: string): (icon: CategoryIcon)
    ensures icon == Package <==>
              category !in {"vegetables", "fruits", "grains", "oils", "spices", "dairy", "meat", "seafood"}
  {
    if category == "vegetables" then Carrot
    else if category == "fruits" then Apple
    else if category == "grains" then Wheat
    else if category == "oils" then OilDrum
    else if category == "spices" then ChiliPepper
    else if category == "dairy" then Milk
    else if category == "meat" then MeatCut
    else if category == "seafood" then Fish
    else Package
  }

  const SuggestionLimit: nat := 10

  /** The suggestions route: an empty list for a missing query or one shorter than two
      characters; otherwise the best text matches (ranked by the database), at most ten. */
  function Suggestions<T>(q: Option<string>, ranked: seq<T>): (r: seq<T>)
    ensures q.None? || |q.value| < 2 ==> r == []
    ensures |r| <= SuggestionLimit
    ensures q.Some? && |q.value| >= 2 ==> r == ranked[..if |ranked| < SuggestionLimit then |ranked| else SuggestionLimit]
  {
    if q.None? || |q.value| < 2 then []
    else ranked[..if |ranked| < SuggestionLimit then |ranked| else SuggestionLimit]
  }
}
