/**
  Orders and their items (store/models.py, `Order` and `OrderItem`) and the
  asset names checkout gives them (store/views.py). The database is a class
  whose fields are the two tables; `objects.create` adds a row, `save`
  writes an order's fields back. Row ids come from the table's
  auto-increment counter, `nextId`.
 */
module Orders {
  import opened Wrappers
  import opened Digits
  import opened Money
  import opened Listing
  import opened Receipt

  /** `CheckoutForm.method`: one of the two choices. */
  datatype PaymentMethod = Cash | Online

  /**
    An `Order` row. `totalPrice` is the Decimal the view passed in; the
    customer is the user's id and `createdAt` the clock reading that
    `auto_now_add` stores.
   */
  datatype Order = Order(
    id: nat,
    customer: nat,
    totalPrice: Dec,
    paymentMethod: Option<PaymentMethod>,
    paymentStatus: bool,
    createdAt: int,
    qrCode: Option<string>,
    receiptPdf: Option<string>)

  /** An `OrderItem` row: the order's id, the product's id, the weight and the price. */
  datatype OrderItem = OrderItem(order: nat, product: nat, weightGrams: nat, price: Dec)

  /** `f"qrcodes/qr_{order.id}.png"`, the QR image's name under the media root. */
  function QrPath(id: nat): (p: string)
    ensures |p| >= 15 && p[..11] == "qrcodes/qr_" && p[|p| - 4..] == ".png"
    ensures ParseNat(p[11..|p| - 4]) == Some(id)
  {
    NatToStringRoundTrip(id);
    var p := "qrcodes/qr_" + NatToString(id) + ".png";
    assert p[11..|p| - 4] == NatToString(id);
    p
  }

  /** `f"receipts/receipt_order_{order.id}.pdf"`, the receipt's name under the media root. */
  function ReceiptPath(id: nat): (p: string)
    ensures |p| >= 27 && p[..23] == "receipts/receipt_order_" && p[|p| - 4..] == ".pdf"
    ensures ParseNat(p[23..|p| - 4]) == Some(id)
  {
    NatToStringRoundTrip(id);
    var p := "receipts/receipt_order_" + NatToString(id) + ".pdf";
    assert p[23..|p| - 4] == NatToString(id);
    p
  }

  /** The text the QR image encodes: `f"Pay Rs. {order.total_price} to EcomStore Order:{order.id}"`. */
  function QrText(total: Dec, id: nat): (t: string)
    requires total.places <= 5
    ensures var n := |NatToString(id)|;
      && |t| >= 8 + 20 + n
      && t[..8] == "Pay Rs. " && t[|t| - n - 20..|t| - n] == " to EcomStore Order:"
      && Money.Parse(t[8..|t| - n - 20]) == Some(total)
      && ParseNat(t[|t| - n..]) == Some(id)
  {
    ToStringRoundTrip(total);
    NatToStringRoundTrip(id);
    var amount, digits := Money.ToString(total), NatToString(id);
    FourParts("Pay Rs. ", amount, " to EcomStore Order:", digits);
    "Pay Rs. " + amount + " to EcomStore Order:" + digits
  }

  /** The four pieces of a concatenation can be cut back out of it. */
  lemma FourParts(pre: string, a: string, mid: string, b: string)
    ensures var t := pre + a + mid + b;
      && |t| == |pre| + |a| + |mid| + |b|
      && t[..|pre|] == pre
      && t[|pre|..|t| - |b| - |mid|] == a
      && t[|t| - |b| - |mid|..|t| - |b|] == mid
      && t[|t| - |b|..] == b
  {
  }

  lemma AffixCancel(pre: string, a: string, b: string, post: string)
    requires pre + a + post == pre + b + post
    ensures a == b
  {
    var s := pre + a + post;
    assert |s| == |pre + b + post|;
    assert a == s[|pre|..|pre| + |a|];
    assert b == (pre + b + post)[|pre|..|pre| + |b|];
  }

  /** Two orders never share a QR file, nor a receipt file. */
  lemma AssetPathsDistinct(a: nat, b: nat)
    ensures QrPath(a) == QrPath(b) ==> a == b
    ensures ReceiptPath(a) == ReceiptPath(b) ==> a == b
  {
    if QrPath(a) == QrPath(b) {
      AffixCancel("qrcodes/qr_", NatToString(a), NatToString(b), ".png");
      NatToStringInjective(a, b);
    }
    if ReceiptPath(a) == ReceiptPath(b) {
      AffixCancel("receipts/receipt_order_", NatToString(a), NatToString(b), ".pdf");
      NatToStringInjective(a, b);
    }
  }

  /** `order.items.all()`: the items whose order is id, in the order they were created. */
  function ItemsOf(items: seq<OrderItem>, id: nat): (r: seq<OrderItem>)
    ensures forall i :: 0 <= i < |r| ==> r[i].order == id
  {
    if items == [] then []
    else ItemsOf(items[..|items| - 1], id) + (if items[|items| - 1].order == id then [items[|items| - 1]] else [])
  }

  function ItemPrices(items: seq<OrderItem>): (r: seq<Dec>)
    ensures |r| == |items|
  {
    seq(|items|, i requires 0 <= i < |items| => items[i].price)
  }

  /** The OrderItems checkout creates from the listing: product, weight and price copied as they are. */
  function Snapshot(id: nat, listed: seq<Item>): (r: seq<OrderItem>)
    ensures |r| == |listed|
  {
    seq(|listed|, i requires 0 <= i < |listed| => OrderItem(id, listed[i].product.id, listed[i].weightGrams, listed[i].price))
  }

  lemma {:induction false} ItemsOfAppend(a: seq<OrderItem>, b: seq<OrderItem>, id: nat)
    ensures ItemsOf(a + b, id) == ItemsOf(a, id) + ItemsOf(b, id)
    decreases |b|
  {
    if b == [] {
      assert a + b == a;
    } else {
      var b' := b[..|b| - 1];
      assert (a + b)[..|a + b| - 1] == a + b';
      ItemsOfAppend(a, b', id);
    }
  }

  /** Items all belonging to other orders contribute nothing to id. */
  lemma {:induction false} ItemsOfNone(items: seq<OrderItem>, id: nat)
    requires forall i :: 0 <= i < |items| ==> items[i].order != id
    ensures ItemsOf(items, id) == []
  {
    if items != [] {
      ItemsOfNone(items[..|items| - 1], id);
    }
  }

  /** Items all belonging to id are all of id's items. */
  lemma {:induction false} ItemsOfAll(items: seq<OrderItem>, id: nat)
    requires forall i :: 0 <= i < |items| ==> items[i].order == id
    ensures ItemsOf(items, id) == items
  {
    if items != [] {
      ItemsOfAll(items[..|items| - 1], id);
    }
  }

  lemma SnapshotSnoc(id: nat, listed: seq<Item>, k: nat)
    requires k < |listed|
    ensures Snapshot(id, listed[..k + 1])
         == Snapshot(id, listed[..k]) + [OrderItem(id, listed[k].product.id, listed[k].weightGrams, listed[k].price)]
  {
  }

  /** Every order's total_price is the sum of its items' prices, in creation order. */
  ghost predicate TotalsAgree(orders: map<nat, Order>, items: seq<OrderItem>) {
    forall id :: id in orders ==> orders[id].totalPrice == Sum(ItemPrices(ItemsOf(items, id)))
  }

  /**
    The items checkout creates for a new order are exactly that order's
    items: one per listed item, in listing order, each with the listed
    product, weight and price.
   */
  lemma NewOrderItems(items: seq<OrderItem>, id: nat, listed: seq<Item>)
    requires forall i :: 0 <= i < |items| ==> items[i].order != id
    ensures ItemsOf(items + Snapshot(id, listed), id) == Snapshot(id, listed)
    ensures forall i :: 0 <= i < |listed| ==>
      var oi := ItemsOf(items + Snapshot(id, listed), id)[i];
      oi.product == listed[i].product.id && oi.weightGrams == listed[i].weightGrams && oi.price == listed[i].price
  {
    ItemsOfAppend(items, Snapshot(id, listed), id);
    ItemsOfNone(items, id);
    ItemsOfAll(Snapshot(id, listed), id);
  }

  /**
    Creating an order whose total is the sum of the listed prices, together
    with one item per listed item, keeps every order's total equal to the
    sum of its items.
   */
  lemma PlaceKeepsTotals(orders: map<nat, Order>, items: seq<OrderItem>, o: Order, listed: seq<Item>)
    requires TotalsAgree(orders, items)
    requires o.id !in orders
    requires forall i :: 0 <= i < |items| ==> items[i].order != o.id
    requires o.totalPrice == Sum(Prices(listed))
    ensures TotalsAgree(orders[o.id := o], items + Snapshot(o.id, listed))
  {
    var orders', items' := orders[o.id := o], items + Snapshot(o.id, listed);
    forall id | id in orders'
      ensures orders'[id].totalPrice == Sum(ItemPrices(ItemsOf(items', id)))
    {
      if id == o.id {
        NewOrderItems(items, o.id, listed);
        SnapshotPrices(o.id, listed);
      } else {
        OtherOrderItems(items, o.id, listed, id);
      }
    }
  }

  lemma SnapshotPrices(id: nat, listed: seq<Item>)
    ensures ItemPrices(Snapshot(id, listed)) == Prices(listed)
  {
  }

  /** The new order's items are not any other order's. */
  lemma OtherOrderItems(items: seq<OrderItem>, id: nat, listed: seq<Item>, other: nat)
    requires other != id
    ensures ItemsOf(items + Snapshot(id, listed), other) == ItemsOf(items, other)
  {
    ItemsOfAppend(items, Snapshot(id, listed), other);
    ItemsOfNone(Snapshot(id, listed), other);
  }

  /**
    The `receipt` view's lookup, `get_object_or_404(Order, id=order_id,
    customer=request.user)`: an order is found only by the customer who
    placed it.
   */
  function OwnedOrder(orders: map<nat, Order>, id: nat, customer: nat): (r: Option<Order>)
    ensures r.Some? <==> id in orders && orders[id].customer == customer
    ensures r.Some? ==> r.value == orders[id]
  {
    if id in orders && orders[id].customer == customer then Some(orders[id]) else None
  }

  lemma MapOverwrite(m: map<nat, Order>, k: nat, a: Order, b: Order)
    ensures m[k := a][k := b] == m[k := b]
  {
  }

  class Store {
    var orders: map<nat, Order>
    var items: seq<OrderItem>
    var nextId: nat

    /** Every order sits under its own id, below the counter; every item belongs to an order. */
    ghost predicate Valid()
      reads this
    {
      && 1 <= nextId
      && (forall id :: id in orders ==> orders[id].id == id && 1 <= id < nextId)
      && (forall i :: 0 <= i < |items| ==> items[i].order in orders)
    }

    ghost predicate TotalsMatch()
      reads this
    {
      TotalsAgree(orders, items)
    }

    /** Empty tables; the auto-increment counter starts at 1. */
    constructor ()
      ensures Valid() && TotalsMatch()
      ensures orders == map[] && items == [] && nextId == 1
    {
      orders := map[];
      items := [];
      nextId := 1;
    }

    /** `Order.objects.create(customer=..., total_price=total, payment_method=method)`. */
    method CreateOrder(customer: nat, total: Dec, payment: PaymentMethod, createdAt: int) returns (o: Order)
      requires Valid()
      modifies this
      ensures Valid()
      ensures o == Order(old(nextId), customer, total, Some(payment), false, createdAt, None, None)
      ensures orders == old(orders)[o.id := o] && nextId == old(nextId) + 1 && items == old(items)
    {
      o := Order(nextId, customer, total, Some(payment), false, createdAt, None, None);
      orders := orders[nextId := o];
      nextId := nextId + 1;
    }

    /** `OrderItem.objects.create(order=..., product=..., weight_grams=..., price=...)`. */
    method CreateItem(oi: OrderItem)
      requires Valid() && oi.order in orders
      modifies this
      ensures Valid()
      ensures items == old(items) + [oi] && orders == old(orders) && nextId == old(nextId)
    {
      items := items + [oi];
    }

    /** `order.save()`: the order's row takes the in-memory fields. */
    method Save(o: Order)
      requires Valid() && o.id in orders
      modifies this
      ensures Valid()
      ensures orders == old(orders)[o.id := o] && items == old(items) && nextId == old(nextId)
    {
      orders := orders[o.id := o];
    }

    /**
      `generate_receipt_pdf(order)`: lays the order's items out on pages of
      the given height, writes the file (not modelled) and saves the order
      with `receipt_pdf` naming it.
     */
    method GenerateReceipt(o: Order, height: int) returns (layout: Layout)
      requires Valid() && o.id in orders
      modifies this
      ensures Valid()
      ensures layout == ReceiptLayout(height, |ItemsOf(old(items), o.id)|, o.qrCode)
      ensures orders == old(orders)[o.id := o.(receiptPdf := Some(ReceiptPath(o.id)))]
      ensures items == old(items) && nextId == old(nextId)
    {
      var rows := ItemsOf(items, o.id);
      var ys, y, breaks := LayOutRows(height, |rows|);
      layout := Layout(ys, y - 10, breaks + 1, if o.qrCode.Some? then o.qrCode else None);
      var attached := o.(receiptPdf := Some(ReceiptPath(o.id)));
      Save(attached);
    }
  }
}
