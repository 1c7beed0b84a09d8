/**
  The cart and checkout views of store/views.py. A request arrives with its
  session and the already-parsed form values; the database is a `Store`,
  the products table a `Catalog`, the logged-in user an id and the clock a
  number. Redirects and rendered pages become the outcome a view returns.
 */
module Views {
  import opened Wrappers
  import opened Money
  import opened Carts
  import opened Listing
  import opened Receipt
  import opened Orders

  /** The fields of a submitted `AddToCartForm`: the product's id and the weight. */
  datatype AddRequest = AddRequest(productId: nat, weightGrams: int)

  /**
    `form.is_valid()` for `AddToCartForm`: the product must exist
    (`ModelChoiceField`) and the weight be at least one gram (`min_value=1`).
   */
  predicate AddFormValid(req: AddRequest, catalog: Catalog) {
    req.productId in catalog && req.weightGrams >= 1
  }

  /** `CheckoutForm`'s `ChoiceField`: only the two listed values are accepted. */
  function ParseMethod(value: string): (r: Option<PaymentMethod>)
    ensures r == Some(Cash) <==> value == "cash"
    ensures r == Some(Online) <==> value == "online"
  {
    if value == "cash" then Some(Cash)
    else if value == "online" then Some(Online)
    else None
  }

  /**
    `add_to_cart`. `post` is the submitted form, or None for a request that
    is not a POST. An invalid form, or no form, leaves the session alone;
    otherwise the weight is appended to the product's list.
   */
  method AddToCart(session: Session, catalog: Catalog, post: Option<AddRequest>)
    requires session.Valid()
    modifies session, session.cart
    ensures session.Valid()
    ensures if post.Some? && AddFormValid(post.value, catalog) then
        session.Contents() == Appended(old(session.Contents()), post.value.productId, post.value.weightGrams)
      else
        session.cart == old(session.cart) && session.Contents() == old(session.Contents())
  {
    if post.Some? && AddFormValid(post.value, catalog) {
      var cart := session.CartSession();
      cart.Add(post.value.productId, post.value.weightGrams);
    }
  }

  /** `remove_from_cart(request, product_id, index)`. */
  method RemoveFromCart(session: Session, productId: nat, index: nat)
    requires session.Valid()
    modifies session, session.cart
    ensures session.Valid()
    ensures session.Contents() == Popped(old(session.Contents()), productId, index)
  {
    var cart := session.CartSession();
    cart.Remove(productId, index);
  }

  /** `cart_view`: the listing of the session's cart, or the error that stops it. */
  method CartView(session: Session, catalog: Catalog) returns (r: Result<CartListing, ListingError>)
    requires session.Valid()
    modifies session
    ensures session.Valid() && session.Contents() == old(session.Contents())
    ensures r == ListingSpec(old(session.Contents()).keys, old(session.Contents()).entries, catalog)
  {
    var cart := session.CartSession();
    r := BuildListing(cart.keys, cart.entries, catalog);
  }

  /** What `checkout` answers. */
  datatype CheckoutOutcome =
    | EmptyCart                        // redirect to the product list
    | ListingFailed(error: ListingError) // the listing loop raised
    | ShowForm(listing: CartListing)          // the checkout page with its items and total
    | Placed(orderId: nat, qrText: Option<string>, receipt: Layout) // redirect to the receipt

  /** The order checkout creates, after the payment branch and the receipt are done. */
  function PlacedOrder(id: nat, customer: nat, total: Dec, m: PaymentMethod, now: int): (o: Order)
    ensures o.id == id && o.customer == customer && o.totalPrice == total
    ensures o.paymentMethod == Some(m) && o.createdAt == now
    ensures o.paymentStatus <==> m == Cash
    ensures o.qrCode.Some? <==> m == Online
    ensures m == Online ==> o.qrCode == Some(QrPath(id))
    ensures o.receiptPdf == Some(ReceiptPath(id))
  {
    Order(id, customer, total, Some(m), m == Cash, now, if m == Online then Some(QrPath(id)) else None, Some(ReceiptPath(id)))
  }

  /**
    `checkout`. `post` is the submitted `method` value, or None when the
    request is not a POST. An empty cart redirects at once; otherwise the
    listing is built, and a POST with a valid method creates the order and
    its items, pays a cash order, gives an online order its QR code,
    attaches the receipt and empties the cart.
   */
  method Checkout(session: Session, store: Store, catalog: Catalog, customer: nat, post: Option<string>, now: int)
    returns (out: CheckoutOutcome)
    requires session.Valid() && store.Valid()
    modifies session, store
    ensures session.Valid() && store.Valid()
    ensures old(store.TotalsMatch()) ==> store.TotalsMatch()
    ensures old(session.Contents()) == Empty ==>
      && out == EmptyCart
      && store.orders == old(store.orders) && store.items == old(store.items) && store.nextId == old(store.nextId)
      && session.Contents() == Empty
    ensures old(session.Contents()) != Empty ==>
      var l := ListingSpec(old(session.Contents()).keys, old(session.Contents()).entries, catalog);
      var m := if post.Some? then ParseMethod(post.value) else None;
      if l.Err? || m.None? then
        && out == (if l.Err? then ListingFailed(l.error) else ShowForm(l.value))
        && store.orders == old(store.orders) && store.items == old(store.items) && store.nextId == old(store.nextId)
        && session.Contents() == old(session.Contents())
      else
        var id := old(store.nextId);
        && 2 <= l.value.total.places <= 5
        && out == Placed(id,
                         if m.value == Online then Some(QrText(l.value.total, id)) else None,
                         ReceiptLayout(A4Height, |l.value.items|, if m.value == Online then Some(QrPath(id)) else None))
        && store.nextId == id + 1
        && store.orders == old(store.orders)[id := PlacedOrder(id, customer, l.value.total, m.value, now)]
        && store.items == old(store.items) + Snapshot(id, l.value.items)
        && OwnedOrder(store.orders, id, customer) == Some(store.orders[id])
        && session.Contents() == Empty
  {
    var cart := session.CartSession();
    if |cart.entries| == 0 {
      EmptyCartState(cart.Contents());
      return EmptyCart;
    }
    var listed := BuildListing(cart.keys, cart.entries, catalog);
    if listed.Err? {
      return ListingFailed(listed.error);
    }
    var listing := listed.value;
    var m := if post.Some? then ParseMethod(post.value) else None;
    if m.None? {
      return ShowForm(listing);
    }
    ListingTotal(cart.keys, cart.entries, catalog);
    var id, qrText, layout := PlaceOrder(store, customer, listing, m.value, now);
    session.ResetCart();
    return Placed(id, qrText, layout);
  }

  /**
    The POST branch of `checkout` (store/views.py): create the order and one
    item per listed item, settle the payment method, attach the receipt.
   */
  method PlaceOrder(store: Store, customer: nat, listing: CartListing, payment: PaymentMethod, now: int)
    returns (id: nat, qrText: Option<string>, layout: Layout)
    requires store.Valid()
    requires listing.total.places <= 5
    modifies store
    ensures store.Valid()
    ensures id == old(store.nextId) && store.nextId == id + 1
    ensures store.orders == old(store.orders)[id := PlacedOrder(id, customer, listing.total, payment, now)]
    ensures store.items == old(store.items) + Snapshot(id, listing.items)
    ensures qrText == if payment == Online then Some(QrText(listing.total, id)) else None
    ensures layout == ReceiptLayout(A4Height, |listing.items|, if payment == Online then Some(QrPath(id)) else None)
    ensures old(store.TotalsMatch()) && listing.total == Sum(Prices(listing.items)) ==> store.TotalsMatch()
  {
    ghost var orders0, items0 := store.orders, store.items;
    var order := store.CreateOrder(customer, listing.total, payment, now);
    id := order.id;
    var k := 0;
    while k < |listing.items|
      invariant 0 <= k <= |listing.items|
      invariant store.Valid() && id in store.orders
      invariant store.orders == orders0[id := order] && store.nextId == id + 1
      invariant store.items == items0 + Snapshot(id, listing.items[..k])
    {
      var it := listing.items[k];
      store.CreateItem(OrderItem(id, it.product.id, it.weightGrams, it.price));
      SnapshotSnoc(id, listing.items, k);
      k := k + 1;
    }
    assert listing.items[..k] == listing.items;

    ghost var created := order;
    qrText := None;
    if payment == Cash {
      order := order.(paymentStatus := true);
      store.Save(order);
    } else {
      qrText := Some(QrText(order.totalPrice, id));
      order := order.(qrCode := Some(QrPath(id)));
      store.Save(order);
    }
    MapOverwrite(orders0, id, created, order);
    assert forall i :: 0 <= i < |items0| ==> items0[i].order != id;
    NewOrderItems(items0, id, listing.items);
    layout := store.GenerateReceipt(order, A4Height);
    ghost var final := order.(receiptPdf := Some(ReceiptPath(id)));
    MapOverwrite(orders0, id, order, final);
    assert final == PlacedOrder(id, customer, listing.total, payment, now);
    if old(store.TotalsMatch()) && listing.total == Sum(Prices(listing.items)) {
      PlaceKeepsTotals(orders0, items0, final, listing.items);
    }
  }

  /**
    After a successful `add_to_cart`, the cart's listing total (as
    `cart_view` and `checkout` compute it) has grown by exactly the new
    entry's price, price_per_kg × w / 1000, and the listing still succeeds.
   */
  lemma AddRaisesTotal(c: CartState, catalog: Catalog, req: AddRequest)
    requires WellFormed(c.keys, c.entries) && CatalogWellFormed(catalog) && AddFormValid(req, catalog)
    requires ListingSpec(c.keys, c.entries, catalog).Ok?
    ensures var a := Appended(c, req.productId, req.weightGrams);
      && WellFormed(a.keys, a.entries)
      && ListingSpec(a.keys, a.entries, catalog).Ok?
      && ListingSpec(c.keys, c.entries, catalog).value.total.places <= 5
      && ListingSpec(a.keys, a.entries, catalog).value.total.places <= 5
      && Units(ListingSpec(a.keys, a.entries, catalog).value.total)
         == Units(ListingSpec(c.keys, c.entries, catalog).value.total) + catalog[req.productId].pricePerKg * req.weightGrams
  {
    var a := Appended(c, req.productId, req.weightGrams);
    AppendedValue(c, catalog, req.productId, req.weightGrams);
    AppendedListingSucceeds(c, catalog, req.productId, req.weightGrams);
    ListingTotal(c.keys, c.entries, catalog);
    ListingTotal(a.keys, a.entries, catalog);
  }

  lemma AppendedListingSucceeds(c: CartState, catalog: Catalog, productId: nat, grams: nat)
    requires WellFormed(c.keys, c.entries) && grams >= 1 && productId in catalog
    requires ListingSpec(c.keys, c.entries, catalog).Ok?
    ensures var a := Appended(c, productId, grams);
      WellFormed(a.keys, a.entries) && ListingSpec(a.keys, a.entries, catalog).Ok?
  {
    var a := Appended(c, productId, grams);
    AppendedShape(c, productId, grams);
    ListingSucceedsIff(c.keys, c.entries, catalog);
    AppendedKeysResolve(c.keys, catalog, productId);
    ListingSucceedsIff(a.keys, a.entries, catalog);
  }

  /** Every key still resolves after the added product's key joins the order. */
  lemma AppendedKeysResolve(keys: seq<string>, catalog: Catalog, productId: nat)
    requires productId in catalog
    requires forall i :: 0 <= i < |keys| ==> Resolve(keys[i], catalog).Ok?
    ensures forall i :: 0 <= i < |keys + [ProductKey(productId)]| ==> Resolve((keys + [ProductKey(productId)])[i], catalog).Ok?
  {
    ProductKeyIsKey(productId);
  }
}
