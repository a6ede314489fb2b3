/** The vendor's product-listing screen: the search and category filter over its product
    list, and the cart, a map from product id to quantity that every button press
    replaces with an updated copy. */
module ProductListing {

  datatype Product = Product(id: string, name: string, price: int, category: string, inStock: bool)

  /** The screen's own product list. */
  const Catalogue: seq<Product> := [
    Product("1", "Fresh Onions", 25, "vegetables", true),
    Product("2", "Tomatoes", 35, "vegetables", true),
    Product("3", "Turmeric Powder", 180, "spices", true),
    Product("4", "Cooking Oil", 145, "oil", true),
    Product("5", "Basmati Rice", 85, "grains", true),
    Product("6", "Green Chilies", 45, "vegetables", false)
  ]

  // ---------------------------------------------------------------------------
  // Search and category filter

  /** `toLowerCase` on ASCII letters; other characters are kept. */
  function LowerCase(s: string): (r: string)
    ensures |r| == |s|
    ensures forall i :: 0 <= i < |s| ==> if 'A' <= s[i] <= 'Z' then r[i] == (s[i] as int + 32) as char else r[i] == s[i]
  {
    if s == [] then [] else [if 'A' <= s[0] <= 'Z' then (s[0] as int + 32) as char else s[0]] + LowerCase(s[1..])
  }

  /** `s.includes(sub)`: `sub` is a prefix of `s` or of one of its suffixes. */
  function Includes(s: string, sub: string): bool
  {
    sub <= s || (s != [] && Includes(s[1..], sub))
  }

  predicate OccursAt(s: string, sub: string, i: int)
  {
    0 <= i <= |s| - |sub| && s[i..i + |sub|] == sub
  }

  /** An occurrence past the first character is an occurrence in the tail, one place
      earlier. */
  lemma OccursShift(s: string, sub: string, i: int)
    requires s != [] && 0 < i
    ensures OccursAt(s, sub, i) <==> OccursAt(s[1..], sub, i - 1)
  {
    if 0 <= i - 1 <= |s| - 1 - |sub| {
      var t := s[1..];
      assert |s[i..i + |sub|]| == |t[i - 1..i - 1 + |sub|]| == |sub|;
      assert forall k :: 1 <= k < |s| ==> t[k - 1] == s[k];
      assert s[i..i + |sub|] == t[i - 1..i - 1 + |sub|];
    }
  }

  /** `sub` occurs in `s` exactly when it is found at some position. */
  lemma {:induction false} IncludesAt(s: string, sub: string)
    ensures Includes(s, sub) <==> exists i :: OccursAt(s, sub, i)
  {
    if sub <= s {
      assert OccursAt(s, sub, 0);
    } else if s != [] {
      IncludesAt(s[1..], sub);
      if Includes(s[1..], sub) {
        var i :| OccursAt(s[1..], sub, i);
        OccursShift(s, sub, i + 1);
        assert OccursAt(s, sub, i + 1);
      } else {
        forall i | OccursAt(s, sub, i)
          ensures false
        {
          if i > 0 {
            OccursShift(s, sub, i);
          }
        }
      }
    }
  }

  /** The `filteredProducts` test: the lower-cased name contains the lower-cased search
      term, and the category is the selected one unless "all" is selected. */
  predicate Shown(p: Product, searchTerm: string, selectedCategory: string)
  {
    Includes(LowerCase(p.name), LowerCase(searchTerm)) && (selectedCategory == "all" || p.category == selectedCategory)
  }

  function FilteredProducts(products: seq<Product>, searchTerm: string, selectedCategory: string): (r: seq<Product>)
    ensures |r| <= |products|
    ensures forall p :: p in r <==> p in products && Shown(p, searchTerm, selectedCategory)
  {
    if products == [] then []
    else
      (if Shown(products[0], searchTerm, selectedCategory) then [products[0]] else [])
        + FilteredProducts(products[1..], searchTerm, selectedCategory)
  }

  /** A shown product appears as often as in the list, any other not at all. */
  lemma {:induction false} FilteredProductsCount(products: seq<Product>, searchTerm: string, selectedCategory: string, p: Product)
    ensures multiset(FilteredProducts(products, searchTerm, selectedCategory))[p]
         == if Shown(p, searchTerm, selectedCategory) then multiset(products)[p] else 0
  {
    if products != [] {
      var q, rest := products[0], products[1..];
      var head := if Shown(q, searchTerm, selectedCategory) then [q] else [];
      assert products == [q] + rest;
      FilteredProductsCons(q, rest, searchTerm, selectedCategory);
      FilteredProductsCount(rest, searchTerm, selectedCategory, p);
      assert multiset(FilteredProducts(products, searchTerm, selectedCategory))
          == multiset(head) + multiset(FilteredProducts(rest, searchTerm, selectedCategory));
      assert multiset(products) == multiset([q]) + multiset(rest);
    }
  }

  lemma FilteredProductsCons(p: Product, ps: seq<Product>, searchTerm: string, selectedCategory: string)
    ensures FilteredProducts([p] + ps, searchTerm, selectedCategory)
         == (if Shown(p, searchTerm, selectedCategory) then [p] else []) + FilteredProducts(ps, searchTerm, selectedCategory)
  {
    assert ([p] + ps)[0] == p && ([p] + ps)[1..] == ps;
  }

  /** The filter keeps the list's order: it distributes over concatenation. */
  lemma {:induction false} FilteredProductsAppend(a: seq<Product>, b: seq<Product>, searchTerm: string, selectedCategory: string)
    ensures FilteredProducts(a + b, searchTerm, selectedCategory)
         == FilteredProducts(a, searchTerm, selectedCategory) + FilteredProducts(b, searchTerm, selectedCategory)
  {
    if a == [] {
      assert a + b == b;
    } else {
      var p, rest := a[0], a[1..];
      var head := if Shown(p, searchTerm, selectedCategory) then [p] else [];
      assert a == [p] + rest;
      assert a + b == [p] + (rest + b);
      calc {
        FilteredProducts(a + b, searchTerm, selectedCategory);
        { FilteredProductsCons(p, rest + b, searchTerm, selectedCategory); }
        head + FilteredProducts(rest + b, searchTerm, selectedCategory);
        { FilteredProductsAppend(rest, b, searchTerm, selectedCategory); }
        head + (FilteredProducts(rest, searchTerm, selectedCategory) + FilteredProducts(b, searchTerm, selectedCategory));
        (head + FilteredProducts(rest, searchTerm, selectedCategory)) + FilteredProducts(b, searchTerm, selectedCategory);
        { FilteredProductsCons(p, rest, searchTerm, selectedCategory); }
        FilteredProducts(a, searchTerm, selectedCategory) + FilteredProducts(b, searchTerm, selectedCategory);
      }
    }
  }

  /** The initial state of the screen, an empty search in "all", shows every product in
      order. */
  lemma {:induction false} InitialFilterShowsAll(products: seq<Product>)
    ensures FilteredProducts(products, "", "all") == products
  {
    if products != [] {
      assert LowerCase(products[0].name)[0..0] == [];
      InitialFilterShowsAll(products[1..]);
      assert products == [products[0]] + products[1..];
    }
  }

  /** The search ignores letter case. */
  lemma SearchIgnoresCase(p: Product, searchTerm: string, selectedCategory: string)
    ensures Shown(p, searchTerm, selectedCategory) == Shown(p, LowerCase(searchTerm), selectedCategory)
  {
    LowerCaseIdempotent(searchTerm);
  }

  lemma LowerCaseIdempotent(s: string)
    ensures LowerCase(LowerCase(s)) == LowerCase(s)
  {
  }

  // ---------------------------------------------------------------------------
  // The cart

  /** Quantities by product id. */
  type Cart = map<string, int>

  /** Every stored quantity is positive: zero quantities are deleted. */
  predicate CartValid(cart: Cart)
  {
    forall id :: id in cart ==> cart[id] > 0
  }

  /** `newCart[productId] || 0`. */
  function Quantity(cart: Cart, id: string): int
  {
    if id in cart then cart[id] else 0
  }

  /** `updateCart(productId, change)`: a copy of the cart in which the product's quantity
      becomes max(0, current + change), the entry deleted when that is zero. */
  function UpdateCart(cart: Cart, id: string, change: int): (r: Cart)
    ensures var q := Quantity(cart, id) + change;
            && (q <= 0 ==> id !in r)
            && (q > 0 ==> id in r && r[id] == q)
    ensures forall k :: k != id ==> (k in r <==> k in cart) && (k in r ==> r[k] == cart[k])
    ensures CartValid(cart) ==> CartValid(r)
  {
    var current := Quantity(cart, id);
    var next := if current + change > 0 then current + change else 0;
    if next == 0 then cart - {id} else cart[id := next]
  }

  /** A "+" followed by a "-" on the same product gives back the cart, also for a product
      not yet in it. */
  lemma {:induction false} AddThenRemove(cart: Cart, id: string)
    requires CartValid(cart)
    ensures UpdateCart(UpdateCart(cart, id, 1), id, -1) == cart
  {
    var r := UpdateCart(UpdateCart(cart, id, 1), id, -1);
    assert forall k :: k in r <==> k in cart;
  }

  /** Removing from a product not in the cart changes nothing: quantities never go below
      zero. */
  lemma RemoveAbsent(cart: Cart, id: string, change: int)
    requires id !in cart && change <= 0
    ensures UpdateCart(cart, id, change) == cart
  {
  }

  /** A key of a non-empty cart. */
  ghost function Pick(cart: Cart): (id: string)
    requires cart != map[]
    ensures id in cart
  {
    var id :| id in cart; id
  }

  /** `getCartItemCount`: the sum of the quantities. */
  ghost function ItemCount(cart: Cart): (n: int)
    ensures cart == map[] ==> n == 0
    ensures (forall id :: id in cart ==> cart[id] >= 0) ==> n >= 0
    decreases |cart|
  {
    if cart == map[] then 0
    else
      var id := Pick(cart);
      cart[id] + ItemCount(cart - {id})
  }

  /** The sum does not depend on which entry is taken first. */
  lemma {:induction false} ItemCountWithout(cart: Cart, id: string)
    requires id in cart
    ensures ItemCount(cart) == cart[id] + ItemCount(cart - {id})
    decreases |cart|
  {
    var first := Pick(cart);
    if first != id {
      var rest := cart - {first};
      ItemCountWithout(rest, id);
      ItemCountWithout(cart - {id}, first);
      assert rest - {id} == (cart - {id}) - {first};
    }
  }

  /** A valid cart has a positive item count exactly when it is not empty, so the badge
      shows for every non-empty cart. */
  lemma {:induction false} ItemCountPositive(cart: Cart)
    requires CartValid(cart)
    ensures ItemCount(cart) >= |cart|
    ensures ItemCount(cart) > 0 <==> cart != map[]
    decreases |cart|
  {
    if cart != map[] {
      var id := Pick(cart);
      ItemCountPositive(cart - {id});
    }
  }

  /** An update moves the item count by exactly the change in the product's quantity. */
  lemma {:induction false} ItemCountAfterUpdate(cart: Cart, id: string, change: int)
    ensures ItemCount(UpdateCart(cart, id, change)) == ItemCount(cart) - Quantity(cart, id) + Quantity(UpdateCart(cart, id, change), id)
  {
    UpdateKeepsOthers(cart, id, change);
    ItemCountOneLine(cart, UpdateCart(cart, id, change), id);
  }

  /** Two carts that differ only in one product's line differ in item count by that line. */
  lemma {:induction false} ItemCountOneLine(cart: Cart, r: Cart, id: string)
    requires r - {id} == cart - {id}
    ensures ItemCount(r) == ItemCount(cart) - Quantity(cart, id) + Quantity(r, id)
  {
    ItemCountSplit(cart, id);
    ItemCountSplit(r, id);
  }

  /** The count is the product's quantity plus the rest of the cart. */
  lemma {:induction false} ItemCountSplit(cart: Cart, id: string)
    ensures ItemCount(cart) == Quantity(cart, id) + ItemCount(cart - {id})
  {
    if id in cart {
      ItemCountWithout(cart, id);
    } else {
      assert cart - {id} == cart;
    }
  }

  /** On a valid cart, a "+" adds one item and a "-" removes one unless the product was
      not in the cart. */
  lemma {:induction false} ItemCountSteps(cart: Cart, id: string)
    requires CartValid(cart)
    ensures ItemCount(UpdateCart(cart, id, 1)) == ItemCount(cart) + 1
    ensures ItemCount(UpdateCart(cart, id, -1)) == ItemCount(cart) - (if id in cart then 1 else 0)
  {
    ItemCountAfterUpdate(cart, id, 1);
    ItemCountAfterUpdate(cart, id, -1);
  }

  /** `products.find(p => p.id === productId)?.price`: the first product with the id. */
  function PriceOf(products: seq<Product>, id: string): (price: int)
    ensures (forall p :: p in products ==> p.id != id) ==> price == 0
    ensures products != [] && products[0].id == id ==> price == products[0].price
    ensures forall i :: 0 <= i < |products| && products[i].id == id && (forall j :: 0 <= j < i ==> products[j].id != id)
              ==> price == products[i].price
  {
    if products == [] then 0
    else if products[0].id == id then products[0].price
    else PriceOf(products[1..], id)
  }

  /** `getCartTotal`: price times quantity over the cart's entries, an id missing from the
      product list contributing nothing. */
  ghost function CartTotal(cart: Cart, products: seq<Product>): (total: int)
    ensures cart == map[] ==> total == 0
    decreases |cart|
  {
    if cart == map[] then 0
    else
      var id := Pick(cart);
      PriceOf(products, id) * cart[id] + CartTotal(cart - {id}, products)
  }

  lemma {:induction false} PriceOfNonNegative(products: seq<Product>, id: string)
    requires forall p :: p in products ==> p.price >= 0
    ensures PriceOf(products, id) >= 0
  {
    if products != [] && products[0].id != id {
      PriceOfNonNegative(products[1..], id);
    }
  }

  /** Non-negative quantities at non-negative prices never total below zero. */
  lemma {:induction false} CartTotalNonNegative(cart: Cart, products: seq<Product>)
    requires forall id :: id in cart ==> cart[id] >= 0
    requires forall p :: p in products ==> p.price >= 0
    ensures CartTotal(cart, products) >= 0
    decreases |cart|
  {
    if cart != map[] {
      var id := Pick(cart);
      CartTotalNonNegative(cart - {id}, products);
      PriceOfNonNegative(products, id);
      LineNonNegative(PriceOf(products, id), cart[id]);
    }
  }

  lemma LineNonNegative(price: int, quantity: int)
    requires price >= 0 && quantity >= 0
    ensures price * quantity >= 0
  {
  }

  lemma {:induction false} CartTotalWithout(cart: Cart, products: seq<Product>, id: string)
    requires id in cart
    ensures CartTotal(cart, products) == PriceOf(products, id) * cart[id] + CartTotal(cart - {id}, products)
    decreases |cart|
  {
    var first := Pick(cart);
    if first != id {
      var rest := cart - {first};
      CartTotalWithout(rest, products, id);
      CartTotalWithout(cart - {id}, products, first);
      assert rest - {id} == (cart - {id}) - {first};
    }
  }

  /** An update moves the total by the product's price times the change in its quantity. */
  lemma {:induction false} CartTotalAfterUpdate(cart: Cart, products: seq<Product>, id: string, change: int)
    ensures var r := UpdateCart(cart, id, change);
            CartTotal(r, products) == CartTotal(cart, products) + PriceOf(products, id) * (Quantity(r, id) - Quantity(cart, id))
  {
    UpdateKeepsOthers(cart, id, change);
    CartTotalOneLine(cart, UpdateCart(cart, id, change), products, id);
  }

  /** Two carts that differ only in one product's line differ in total by that line. */
  lemma {:induction false} CartTotalOneLine(cart: Cart, r: Cart, products: seq<Product>, id: string)
    requires r - {id} == cart - {id}
    ensures CartTotal(r, products) == CartTotal(cart, products) + PriceOf(products, id) * (Quantity(r, id) - Quantity(cart, id))
  {
    var price, before, after := PriceOf(products, id), Quantity(cart, id), Quantity(r, id);
    var base := CartTotal(cart - {id}, products);
    CartTotalSplit(cart, products, id);
    CartTotalSplit(r, products, id);
    LineDifference(CartTotal(cart, products), CartTotal(r, products), price, before, after, base);
  }

  /** An update leaves the rest of the cart as it was. */
  lemma UpdateKeepsOthers(cart: Cart, id: string, change: int)
    ensures UpdateCart(cart, id, change) - {id} == cart - {id}
  {
    var current := Quantity(cart, id);
    var next := if current + change > 0 then current + change else 0;
    if next == 0 {
      assert (cart - {id}) - {id} == cart - {id};
    } else {
      assert cart[id := next] - {id} == cart - {id};
    }
  }

  lemma LineDifference(total: int, total': int, price: int, before: int, after: int, base: int)
    requires total == price * before + base && total' == price * after + base
    ensures total' == total + price * (after - before)
  {
  }

  /** The total is the product's line plus the rest of the cart. */
  lemma {:induction false} CartTotalSplit(cart: Cart, products: seq<Product>, id: string)
    ensures CartTotal(cart, products) == PriceOf(products, id) * Quantity(cart, id) + CartTotal(cart - {id}, products)
  {
    if id in cart {
      CartTotalWithout(cart, products, id);
    } else {
      assert cart - {id} == cart;
    }
  }

  /** Ids outside the product list add nothing to the total. */
  lemma {:induction false} UnknownIdsCostNothing(cart: Cart, products: seq<Product>)
    requires forall id :: id in cart ==> forall p :: p in products ==> p.id != id
    ensures CartTotal(cart, products) == 0
    decreases |cart|
  {
    if cart != map[] {
      UnknownIdsCostNothing(cart - {Pick(cart)}, products);
    }
  }

  /** Onions cost 25 and turmeric 180 in the screen's product list. */
  lemma CataloguePrices()
    ensures PriceOf(Catalogue, "1") == 25 && PriceOf(Catalogue, "3") == 180
  {
    assert Catalogue[0].id == "1";
    var rest := Catalogue[2..];
    assert rest[0].id == "3";
    assert Catalogue[1..][1..] == rest;
    assert Catalogue[0].id != "3" && Catalogue[1].id != "3";
  }

  /** A cart of one entry totals that entry's line. */
  lemma CartTotalSingle(id: string, quantity: int, products: seq<Product>)
    ensures CartTotal(map[id := quantity], products) == PriceOf(products, id) * quantity
  {
    CartTotalWithout(map[id := quantity], products, id);
    assert map[id := quantity] - {id} == map[];
  }

  /** A cart of two entries totals the two lines. */
  lemma CartTotalPair(a: string, qa: int, b: string, qb: int, products: seq<Product>)
    requires a != b
    ensures CartTotal(map[a := qa, b := qb], products) == PriceOf(products, a) * qa + PriceOf(products, b) * qb
  {
    var cart := map[a := qa, b := qb];
    CartTotalWithout(cart, products, a);
    assert cart - {a} == map[b := qb];
    CartTotalSingle(b, qb, products);
  }

  /** Two kilograms of onions and one of turmeric come to 230. */
  lemma CartTotalExample()
    ensures CartTotal(map["1" := 2, "3" := 1], Catalogue) == 2 * 25 + 180
  {
    CartTotalPair("1", 2, "3", 1, Catalogue);
    CataloguePrices();
  }
}
