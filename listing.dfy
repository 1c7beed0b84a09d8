/**
  Pricing and the cart listing (store/views.py, `cart_view` and `checkout`,
  whose two loops are the same): for every key of the cart, in order, the
  product is looked up (`get_object_or_404(Product, pk=int(pid))`), and for
  every entry under that key an item is priced at
  `price_per_kg / 1000 * weight_grams` and added to a running total.
 */
module Listing {
  import opened Wrappers
  import opened Digits
  import opened Money
  import opened Carts

  /** A product row: its price per kilogram in paise (`DecimalField`, two places). */
  datatype Product = Product(id: nat, name: string, pricePerKg: nat)

  /** The products table, by primary key. */
  type Catalog = map<nat, Product>

  /** A product found under id has that id. */
  ghost predicate CatalogWellFormed(catalog: Catalog) {
    forall id :: id in catalog ==> catalog[id].id == id
  }

  /** One `{'product': p, 'weight_grams': w, 'price': price}` of the listing. */
  datatype Item = Item(product: Product, weightGrams: nat, price: Dec)

  datatype CartListing = CartListing(items: seq<Item>, total: Dec)

  /**
    Why a listing fails: `int(pid)` raising on a key that is not a number,
    or `get_object_or_404` raising Http404 for a product that is gone.
   */
  datatype ListingError = InvalidKey | ProductNotFound

  /** `get_object_or_404(Product, pk=int(key))`. */
  function Resolve(key: string, catalog: Catalog): (r: Result<Product, ListingError>)
    ensures r == Err(InvalidKey) <==> ParseNat(key).None?
    ensures r == Err(ProductNotFound) <==> ParseNat(key).Some? && ParseNat(key).value !in catalog
    ensures r.Ok? ==> ParseNat(key).Some? && r.value == catalog[ParseNat(key).value]
  {
    match ParseNat(key)
    case None => Err(InvalidKey)
    case Some(id) => if id in catalog then Ok(catalog[id]) else Err(ProductNotFound)
  }

  /** The key `add_to_cart` stores for a product finds that product, or 404s once it is gone. */
  lemma ResolveProductKey(id: nat, catalog: Catalog)
    ensures Resolve(ProductKey(id), catalog) == if id in catalog then Ok(catalog[id]) else Err(ProductNotFound)
  {
    ProductKeyIsKey(id);
  }

  /** The item for one entry of product p. */
  function PriceItem(p: Product, e: CartEntry): Item {
    Item(p, e.weightGrams, LinePrice(p.pricePerKg, e.weightGrams))
  }

  /** The items for the entries under one key, in entry order. */
  function KeyItems(p: Product, es: seq<CartEntry>): (r: seq<Item>)
    ensures |r| == |es|
  {
    seq(|es|, j requires 0 <= j < |es| => PriceItem(p, es[j]))
  }

  /** The items of the keys, in key order; the first key that fails decides the error. */
  function ListItems(keys: seq<string>, entries: map<string, seq<CartEntry>>, catalog: Catalog): Result<seq<Item>, ListingError>
    requires forall k :: k in keys ==> k in entries
  {
    if keys == [] then Ok([])
    else
      var last := keys[|keys| - 1];
      match ListItems(keys[..|keys| - 1], entries, catalog)
      case Err(e) => Err(e)
      case Ok(items) =>
        match Resolve(last, catalog)
        case Err(e) => Err(e)
        case Ok(p) => Ok(items + KeyItems(p, entries[last]))
  }

  function Prices(items: seq<Item>): (r: seq<Dec>)
    ensures |r| == |items|
  {
    seq(|items|, i requires 0 <= i < |items| => items[i].price)
  }

  /** What the listing loop produces: the items and `total`, or the error it raises. */
  function ListingSpec(keys: seq<string>, entries: map<string, seq<CartEntry>>, catalog: Catalog): Result<CartListing, ListingError>
    requires forall k :: k in keys ==> k in entries
  {
    match ListItems(keys, entries, catalog)
    case Err(e) => Err(e)
    case Ok(items) => Ok(CartListing(items, Sum(Prices(items))))
  }

  /**
    The loop of `cart_view` and of `checkout`:
    `for pid, entries in cart.items(): product = get_object_or_404(...); for e in entries: ...`.
   */
  method BuildListing(keys: seq<string>, entries: map<string, seq<CartEntry>>, catalog: Catalog)
    returns (r: Result<CartListing, ListingError>)
    requires forall k :: k in keys ==> k in entries
    ensures r == ListingSpec(keys, entries, catalog)
  {
    var items: seq<Item> := [];
    var total := Zero;
    var i := 0;
    while i < |keys|
      invariant 0 <= i <= |keys|
      invariant ListItems(keys[..i], entries, catalog) == Ok(items)
      invariant total == Sum(Prices(items))
    {
      var key := keys[i];
      var found := Resolve(key, catalog);
      if found.Err? {
        ListItemsStepErr(keys, i, entries, catalog);
        ErrorPersists(keys, i + 1, entries, catalog);
        return Err(found.error);
      }
      var product := found.value;
      items, total := PriceEntries(product, entries[key], items, total);
      ListItemsStep(keys, i, entries, catalog);
      i := i + 1;
    }
    assert keys[..i] == keys;
    return Ok(CartListing(items, total));
  }

  /**
    The inner loop, `for e in entries: ... total += price; items.append(...)`:
    the key's items are appended in entry order and the total follows them.
   */
  method PriceEntries(product: Product, es: seq<CartEntry>, items0: seq<Item>, total0: Dec)
    returns (items: seq<Item>, total: Dec)
    requires total0 == Sum(Prices(items0))
    ensures items == items0 + KeyItems(product, es)
    ensures total == Sum(Prices(items))
  {
    items, total := items0, total0;
    var j := 0;
    while j < |es|
      invariant 0 <= j <= |es|
      invariant items == items0 + KeyItems(product, es[..j])
      invariant total == Sum(Prices(items))
    {
      var w := es[j].weightGrams;
      var price := LinePrice(product.pricePerKg, w);
      total := Add(total, price);
      SumPricesSnoc(items, Item(product, w, price));
      items := items + [Item(product, w, price)];
      KeyItemsSnoc(product, es, j);
      j := j + 1;
    }
    assert es[..j] == es;
  }

  lemma SumPricesSnoc(items: seq<Item>, it: Item)
    ensures Sum(Prices(items + [it])) == Add(Sum(Prices(items)), it.price)
  {
    assert Prices(items + [it])[..|items|] == Prices(items);
  }

  lemma KeyItemsSnoc(p: Product, es: seq<CartEntry>, j: nat)
    requires j < |es|
    ensures KeyItems(p, es[..j + 1]) == KeyItems(p, es[..j]) + [PriceItem(p, es[j])]
  {
  }

  lemma ListItemsStep(keys: seq<string>, i: nat, entries: map<string, seq<CartEntry>>, catalog: Catalog)
    requires forall k :: k in keys ==> k in entries
    requires i < |keys| && ListItems(keys[..i], entries, catalog).Ok? && Resolve(keys[i], catalog).Ok?
    ensures ListItems(keys[..i + 1], entries, catalog)
         == Ok(ListItems(keys[..i], entries, catalog).value + KeyItems(Resolve(keys[i], catalog).value, entries[keys[i]]))
  {
    assert keys[..i + 1][..i] == keys[..i];
  }

  lemma ListItemsStepErr(keys: seq<string>, i: nat, entries: map<string, seq<CartEntry>>, catalog: Catalog)
    requires forall k :: k in keys ==> k in entries
    requires i < |keys| && ListItems(keys[..i], entries, catalog).Ok? && Resolve(keys[i], catalog).Err?
    ensures ListItems(keys[..i + 1], entries, catalog) == Err(Resolve(keys[i], catalog).error)
  {
    assert keys[..i + 1][..i] == keys[..i];
  }

  /** Once a prefix of the keys fails, every longer prefix fails the same way. */
  lemma {:induction false} ErrorPersists(keys: seq<string>, n: nat, entries: map<string, seq<CartEntry>>, catalog: Catalog)
    requires forall k :: k in keys ==> k in entries
    requires n <= |keys| && ListItems(keys[..n], entries, catalog).Err?
    ensures ListItems(keys, entries, catalog) == ListItems(keys[..n], entries, catalog)
    decreases |keys| - n
  {
    if n < |keys| {
      var next := keys[..n + 1];
      assert next[..n] == keys[..n];
      ErrorPersists(keys, n + 1, entries, catalog);
    } else {
      assert keys[..n] == keys;
    }
  }

  /** The listing succeeds exactly when every key resolves to a product. */
  lemma {:induction false} ListingSucceedsIff(keys: seq<string>, entries: map<string, seq<CartEntry>>, catalog: Catalog)
    requires forall k :: k in keys ==> k in entries
    ensures ListItems(keys, entries, catalog).Ok? <==> forall i :: 0 <= i < |keys| ==> Resolve(keys[i], catalog).Ok?
  {
    if keys != [] {
      var init := keys[..|keys| - 1];
      ListingSucceedsIff(init, entries, catalog);
      assert forall i :: 0 <= i < |init| ==> init[i] == keys[i];
    }
  }

  /**
    A failing listing fails with the error of the first key that does not
    resolve: no key is skipped, and nothing after it matters.
   */
  lemma {:induction false} ListingFailsAtFirstBadKey(keys: seq<string>, entries: map<string, seq<CartEntry>>, catalog: Catalog, i: nat)
    requires forall k :: k in keys ==> k in entries
    requires i < |keys| && Resolve(keys[i], catalog).Err?
    requires forall j :: 0 <= j < i ==> Resolve(keys[j], catalog).Ok?
    ensures ListItems(keys, entries, catalog) == Err(Resolve(keys[i], catalog).error)
  {
    var pre := keys[..i];
    ListingSucceedsIff(pre, entries, catalog);
    assert keys[..i + 1][..i] == pre;
    ErrorPersists(keys, i + 1, entries, catalog);
  }

  /** One line of the cart: a key and one of its entries. */
  datatype Line = Line(key: string, entry: CartEntry)

  /** The cart's (key, entry) pairs in key order, then entry order. */
  function Lines(keys: seq<string>, entries: map<string, seq<CartEntry>>): seq<Line>
    requires forall k :: k in keys ==> k in entries
  {
    if keys == [] then []
    else
      var last := keys[|keys| - 1];
      Lines(keys[..|keys| - 1], entries) + seq(|entries[last]|, j requires 0 <= j < |entries[last]| => Line(last, entries[last][j]))
  }

  /**
    A successful listing has one item per line of the cart, in the cart's
    order, priced from the line's product and weight.
   */
  lemma {:induction false} ListingShape(keys: seq<string>, entries: map<string, seq<CartEntry>>, catalog: Catalog)
    requires forall k :: k in keys ==> k in entries
    requires ListItems(keys, entries, catalog).Ok?
    ensures var items, lines := ListItems(keys, entries, catalog).value, Lines(keys, entries);
      && |items| == |lines|
      && forall i :: 0 <= i < |items| ==>
           && Resolve(lines[i].key, catalog).Ok?
           && items[i] == PriceItem(Resolve(lines[i].key, catalog).value, lines[i].entry)
  {
    if keys != [] {
      var init := keys[..|keys| - 1];
      var last := keys[|keys| - 1];
      ListingShape(init, entries, catalog);
      var items0, lines0 := ListItems(init, entries, catalog).value, Lines(init, entries);
      var p := Resolve(last, catalog).value;
      var items, lines := ListItems(keys, entries, catalog).value, Lines(keys, entries);
      assert items == items0 + KeyItems(p, entries[last]);
      forall i | 0 <= i < |items|
        ensures Resolve(lines[i].key, catalog).Ok?
        ensures items[i] == PriceItem(Resolve(lines[i].key, catalog).value, lines[i].entry)
      {
        if i >= |items0| {
          assert lines[i] == Line(last, entries[last][i - |items0|]);
        } else {
          assert lines[i] == lines0[i];
        }
      }
    }
  }

  /** Grams listed under one key. */
  function Grams(es: seq<CartEntry>): nat {
    if es == [] then 0 else Grams(es[..|es| - 1]) + es[|es| - 1].weightGrams
  }

  /**
    An independent reckoning of the cart's value in 10^-5 rupee: for each
    key, its product's price per kilogram (paise) times the grams under it.
   */
  function CartValue(keys: seq<string>, entries: map<string, seq<CartEntry>>, catalog: Catalog): nat
    requires forall k :: k in keys ==> k in entries
  {
    if keys == [] then 0
    else
      var last := keys[|keys| - 1];
      var here := match Resolve(last, catalog)
        case Ok(p) => p.pricePerKg * Grams(entries[last])
        case Err(_) => 0;
      CartValue(keys[..|keys| - 1], entries, catalog) + here
  }

  lemma AllFinePrices(items: seq<Item>)
    requires forall i :: 0 <= i < |items| ==> items[i].price.places <= 5
    ensures AllFine(Prices(items))
  {
  }

  lemma {:induction false} KeyItemsValue(p: Product, es: seq<CartEntry>)
    ensures AllFine(Prices(KeyItems(p, es)))
    ensures UnitsSum(Prices(KeyItems(p, es))) == p.pricePerKg * Grams(es)
  {
    var ps := Prices(KeyItems(p, es));
    if es != [] {
      var es' := es[..|es| - 1];
      KeyItemsValue(p, es');
      assert ps[..|ps| - 1] == Prices(KeyItems(p, es'));
      var w := es[|es| - 1].weightGrams;
      assert ps[|ps| - 1] == LinePrice(p.pricePerKg, w);
      Distribute(p.pricePerKg, Grams(es'), w);
    }
  }

  lemma Distribute(a: nat, b: nat, c: nat)
    ensures a * b + a * c == a * (b + c)
  {
  }

  lemma PricesAppend(a: seq<Item>, b: seq<Item>)
    ensures Prices(a + b) == Prices(a) + Prices(b)
  {
  }

  /**
    The listing's total is the sum of its items' prices, and it equals the
    cart's value reckoned per product: price per kilogram times total grams,
    divided by 1000. The total has between two and five places.
   */
  lemma {:induction false} ListingTotal(keys: seq<string>, entries: map<string, seq<CartEntry>>, catalog: Catalog)
    requires forall k :: k in keys ==> k in entries
    requires ListingSpec(keys, entries, catalog).Ok?
    ensures var l := ListingSpec(keys, entries, catalog).value;
      && AllFine(Prices(l.items))
      && 2 <= l.total.places <= 5
      && Units(l.total) == UnitsSum(Prices(l.items))
      && Units(l.total) == CartValue(keys, entries, catalog)
  {
    ItemsValue(keys, entries, catalog);
  }

  lemma {:induction false} ItemsValue(keys: seq<string>, entries: map<string, seq<CartEntry>>, catalog: Catalog)
    requires forall k :: k in keys ==> k in entries
    requires ListItems(keys, entries, catalog).Ok?
    ensures AllFine(Prices(ListItems(keys, entries, catalog).value))
    ensures UnitsSum(Prices(ListItems(keys, entries, catalog).value)) == CartValue(keys, entries, catalog)
  {
    if keys != [] {
      var init := keys[..|keys| - 1];
      var last := keys[|keys| - 1];
      ItemsValue(init, entries, catalog);
      var p := Resolve(last, catalog).value;
      var items0 := ListItems(init, entries, catalog).value;
      KeyItemsValue(p, entries[last]);
      PricesAppend(items0, KeyItems(p, entries[last]));
      UnitsSumAppend(Prices(items0), Prices(KeyItems(p, entries[last])));
    }
  }

  /** A cart built by the views never hits the `int(pid)` error. */
  lemma {:induction false} WellFormedKeysParse(keys: seq<string>, entries: map<string, seq<CartEntry>>, catalog: Catalog)
    requires WellFormed(keys, entries)
    ensures ListItems(keys, entries, catalog) != Err(InvalidKey)
  {
    if ListItems(keys, entries, catalog).Err? {
      ListingSucceedsIff(keys, entries, catalog);
      var i :| 0 <= i < |keys| && Resolve(keys[i], catalog).Err?;
      var first := FirstBad(keys, catalog, i);
      ListingFailsAtFirstBadKey(keys, entries, catalog, first);
      assert keys[first] in entries;
    }
  }

  /** The first index at or before i whose key does not resolve. */
  function FirstBad(keys: seq<string>, catalog: Catalog, i: nat): (f: nat)
    requires i < |keys| && Resolve(keys[i], catalog).Err?
    ensures f <= i && Resolve(keys[f], catalog).Err?
    ensures forall j :: 0 <= j < f ==> Resolve(keys[j], catalog).Ok?
  {
    if exists j :: 0 <= j < i && Resolve(keys[j], catalog).Err? then
      var j :| 0 <= j < i && Resolve(keys[j], catalog).Err?;
      FirstBad(keys, catalog, j)
    else i
  }

  lemma {:induction false} CartValueFrame(keys: seq<string>, e1: map<string, seq<CartEntry>>, e2: map<string, seq<CartEntry>>, catalog: Catalog)
    requires forall k :: k in keys ==> k in e1 && k in e2 && e1[k] == e2[k]
    ensures CartValue(keys, e1, catalog) == CartValue(keys, e2, catalog)
  {
    if keys != [] {
      CartValueFrame(keys[..|keys| - 1], e1, e2, catalog);
    }
  }

  lemma {:induction false} CartValueAppend(a: seq<string>, b: seq<string>, entries: map<string, seq<CartEntry>>, catalog: Catalog)
    requires forall k :: k in a + b ==> k in entries
    ensures CartValue(a + b, entries, catalog) == CartValue(a, entries, catalog) + CartValue(b, entries, catalog)
  {
    if b == [] {
      assert a + b == a;
    } else {
      var b' := b[..|b| - 1];
      assert (a + b)[..|a + b| - 1] == a + b';
      CartValueAppend(a, b', entries, catalog);
    }
  }

  lemma GramsSnoc(es: seq<CartEntry>, e: CartEntry)
    ensures Grams(es + [e]) == Grams(es) + e.weightGrams
  {
    assert (es + [e])[..|es|] == es;
  }

  /** The value a key contributes once its list is replaced. */
  lemma KeyValueChange(keys: seq<string>, entries: map<string, seq<CartEntry>>, catalog: Catalog, i: nat, es: seq<CartEntry>)
    requires forall k :: k in keys ==> k in entries
    requires NoDuplicates(keys) && i < |keys|
    ensures var k := keys[i];
      CartValue(keys, entries[k := es], catalog) + CartValue([k], entries, catalog)
      == CartValue(keys, entries, catalog) + CartValue([k], entries[k := es], catalog)
  {
    var k := keys[i];
    var pre, post := keys[..i], keys[i + 1..];
    assert keys == pre + [k] + post;
    NoDuplicatesAt(keys, i);
    var e2 := entries[k := es];
    CartValueAppend(pre + [k], post, entries, catalog);
    CartValueAppend(pre, [k], entries, catalog);
    CartValueAppend(pre + [k], post, e2, catalog);
    CartValueAppend(pre, [k], e2, catalog);
    CartValueFrame(pre, entries, e2, catalog);
    CartValueFrame(post, entries, e2, catalog);
  }

  lemma {:induction false} NoDuplicatesAt(s: seq<string>, i: nat)
    requires NoDuplicates(s) && i < |s|
    ensures s[i] !in s[..i] && s[i] !in s[i + 1..]
  {
    if i > 0 {
      NoDuplicatesAt(s[1..], i - 1);
      assert s[1..][..i - 1] == s[1..i];
      assert s[..i] == [s[0]] + s[1..i];
      assert s[1..][i..] == s[i + 1..];
    }
  }

  /**
    Adding w grams of a product that exists raises the cart's value by
    exactly the product's price per kilogram (paise) times w, in 10^-5
    rupee: the new entry is priced and nothing else is.
   */
  lemma AppendedValue(c: CartState, catalog: Catalog, productId: nat, grams: nat)
    requires WellFormed(c.keys, c.entries) && grams >= 1
    requires CatalogWellFormed(catalog) && productId in catalog
    ensures var a := Appended(c, productId, grams);
      && WellFormed(a.keys, a.entries)
      && CartValue(a.keys, a.entries, catalog) == CartValue(c.keys, c.entries, catalog) + catalog[productId].pricePerKg * grams
  {
    AppendedShape(c, productId, grams);
    ProductKeyIsKey(productId);
    var k := ProductKey(productId);
    assert Resolve(k, catalog) == Ok(catalog[productId]);
    if k in c.entries {
      var i :| 0 <= i < |c.keys| && c.keys[i] == k;
      ExistingKeyValue(c.keys, c.entries, catalog, i, catalog[productId], CartEntry(grams));
    } else {
      NewKeyValue(c.keys, c.entries, catalog, k, catalog[productId], CartEntry(grams));
    }
  }

  /** The value one resolving key contributes. */
  lemma SingleKeyValue(k: string, entries: map<string, seq<CartEntry>>, catalog: Catalog, p: Product)
    requires k in entries && Resolve(k, catalog) == Ok(p)
    ensures CartValue([k], entries, catalog) == p.pricePerKg * Grams(entries[k])
  {
    assert [k][..0] == [];
  }

  lemma ExistingKeyValue(keys: seq<string>, entries: map<string, seq<CartEntry>>, catalog: Catalog, i: nat, p: Product, e: CartEntry)
    requires forall k :: k in keys ==> k in entries
    requires NoDuplicates(keys) && i < |keys| && Resolve(keys[i], catalog) == Ok(p)
    ensures var k := keys[i];
      CartValue(keys, entries[k := entries[k] + [e]], catalog) == CartValue(keys, entries, catalog) + p.pricePerKg * e.weightGrams
  {
    var k := keys[i];
    var es := entries[k] + [e];
    KeyValueChange(keys, entries, catalog, i, es);
    SingleKeyValue(k, entries, catalog, p);
    SingleKeyValue(k, entries[k := es], catalog, p);
    GramsSnoc(entries[k], e);
    Distribute(p.pricePerKg, Grams(entries[k]), e.weightGrams);
  }

  lemma NewKeyValue(keys: seq<string>, entries: map<string, seq<CartEntry>>, catalog: Catalog, k: string, p: Product, e: CartEntry)
    requires forall k' :: k' in keys ==> k' in entries
    requires k !in keys && Resolve(k, catalog) == Ok(p)
    ensures CartValue(keys + [k], entries[k := [e]], catalog) == CartValue(keys, entries, catalog) + p.pricePerKg * e.weightGrams
  {
    var e2 := entries[k := [e]];
    CartValueFrame(keys, entries, e2, catalog);
    CartValueAppend(keys, [k], e2, catalog);
    SingleKeyValue(k, e2, catalog, p);
    GramsSnoc([], e);
    assert [] + [e] == [e];
  }
}
