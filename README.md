# Dry-fruit store: cart, pricing, checkout and receipt layout

A Dafny model of the shopping core of a small Django store that sells dry
fruits by weight (`store/views.py`):

- **The session cart.** It maps `str(product.id)` to the list of weights
  (in grams) added for that product, in the order they were added. A product
  added twice has two entries, which are never merged. Python dictionaries
  iterate in insertion order, so the model keeps the key order beside the map
  (`Carts.CartState`). The session and the cart are classes whose methods
  update their fields, as the views update the session's dictionary in place.
- **Pricing and the listing.** Each entry is priced at
  `price_per_kg / 1000 * weight`, and the prices are added to a running total
  that starts at `Decimal('0.00')`. This is Python's `decimal` arithmetic, not
  floating point.
  - `Money.Dec` keeps both the coefficient and the exponent, because
    `50.00` and `50.000` are equal numbers but print differently.
  - Division by 1000 drops trailing zeros exactly as `decimal` does.
  - `cart_view` and `checkout` contain the same listing loop. Both are modelled
    by one method, `Listing.BuildListing`, which is proved equal to the
    specification `Listing.ListingSpec`.
- **Checkout.** Checkout creates one `Order` and one `OrderItem` per listed
  entry, then settles the payment:
  - cash marks the order paid;
  - online gives the order a QR code named `qrcodes/qr_<id>.png`, whose text
    carries the unrounded total.

  It then attaches `receipts/receipt_order_<id>.pdf` and empties the cart. The
  database is a class (`Orders.Store`) holding the two tables and the
  auto-increment counter.
- **The receipt layout.** Only the vertical cursor of the item table is
  modelled. It steps down 18 points per row, and when it falls below 80 it
  starts a new page 50 points below the top. The page height is an integer
  parameter; A4 is taken as 842 points.

Files:

| file | module | contents |
|---|---|---|
| `wrappers.dfy` | `Wrappers` | `Option` and `Result` |
| `digits.dfy` | `Digits` | `str(n)` and `int(s)` on naturals |
| `money.dfy` | `Money` | Decimal arithmetic and `str()` of a Decimal |
| `cart.dfy` | `Carts` | cart contents, the `Cart` and `Session` classes |
| `listing.dfy` | `Listing` | products, pricing, the listing loop |
| `receipt.dfy` | `Receipt` | the cursor of the receipt's item table |
| `orders.dfy` | `Orders` | `Order`, `OrderItem`, asset names, the `Store` class |
| `views.dfy` | `Views` | `add_to_cart`, `remove_from_cart`, `cart_view`, `checkout` |
| `scenarios.dfy` | `Scenarios` | worked examples with concrete prices |

## Model

| member | source | states |
|---|---|---|
| `Digits.NatToStringRoundTrip` | store/views.py:78 | `int(str(id)) == id`: every cart key the views make reads back as the product id it came from |
| `Digits.NatToStringInjective` | store/views.py:66 | two different product ids never share a cart key |
| `Money.Add` | store/views.py:82 | `total += price` is exact. The sum is written with the finer exponent of the two operands, and its value is the sum of their values |
| `Money.Reduce` | store/views.py:81 | the exact-quotient step of `decimal` division. The result is numerically the dividend. It has no fewer places than the ideal exponent and no more than the dividend. It has more places than the ideal only while its last digit is non-zero |
| `Money.DivThousand` | store/views.py:81 | `price_per_kg / Decimal(1000)` is exact. It keeps the dividend's places or adds at most three, and never adds a trailing zero |
| `Money.LinePrice` | store/views.py:81 | a line price has 2 to 5 places. Its value in 10^-5 rupee is exactly the price per kilogram (in paise) times the grams |
| `Money.Sum` | store/views.py:76-82 | the running total starting at `0.00` has at least two places. Over line prices it has at most five, and its value is the sum of the values |
| `Money.ToStringRoundTrip` | store/views.py:136 | `Decimal(str(d)) == d`, exponent included: the amount in the QR text is the total, to the last place |
| `Money.ToString` | store/views.py:136 | `str()` of a Decimal prints exactly as many digits after the point as the exponent says, trailing zeros included, and no point for a whole number, so `100.00` prints with its two places |
| `Carts.ProductKeyIsKey` | store/views.py:66 | `str(product.id)` is a key that `int()` parses back to the id |
| `Carts.Without` | store/views.py:95 | deleting a key leaves exactly the other keys, and keeps them free of duplicates |
| `Carts.WithoutAt` | store/views.py:95 | `del cart[k]` for the key at position i keeps the keys before it and after it in their order: the result is the key order with position i cut out |
| `Carts.AppendedShape` | store/views.py:64-68 | adding an entry keeps the cart well formed. The entry goes at the end of its product's list, and a new product's key goes at the end of the key order. Every other product's list is unchanged |
| `Carts.PoppedShape` | store/views.py:91-98 | removing keeps the cart well formed. An unknown key or an index past the end changes nothing. A valid index removes exactly that entry and the rest keep their order. A list of one entry loses its key. Other products are untouched |
| `Carts.PoppedKeys` | store/views.py:93-95 | removing never reorders the cart. While the product keeps entries the key order is unchanged. When its last entry goes, its key alone leaves the order and the other keys keep their places, which is the order the listing then follows |
| `Carts.PopUndoesAppend` | store/views.py:91-95 | removing the entry just added, at its position at the end of the list, gives back the cart as it was (the key too, when it was new) |
| `Carts.EmptyCartState` | store/views.py:104 | for a well-formed cart, `not cart` holds exactly when the cart is the empty cart |
| `Carts.Cart.Add` | store/views.py:66-68 | `setdefault` then `append`: the new contents are `Appended` of the old |
| `Carts.Cart.Remove` | store/views.py:91-98 | `pop(index)`, then `del` when the list is empty, with IndexError swallowed: the new contents are `Popped` of the old |
| `Carts.Session.CartSession` | store/views.py:49-50 | `setdefault('cart', {})` returns the stored cart, or a fresh empty one stored in the session |
| `Carts.Session.ResetCart` | store/views.py:148 | `session['cart'] = {}` leaves the session holding a new empty cart |
| `Listing.BuildListing` | store/views.py:76-83 | the listing loop returns exactly `ListingSpec`: the items in key order then entry order, and their running sum. When a key fails to parse or its product is missing, it returns the error that key raises |
| `Listing.PriceEntries` | store/views.py:79-83 | the inner loop appends one priced item per entry of the key, in entry order, and keeps the total equal to the running sum of all item prices so far |
| `Listing.Resolve` | store/views.py:78 | `get_object_or_404(Product, pk=int(pid))`: a key that is not a number fails with the `int()` error, a number with no product fails with Http404, and otherwise the key's product is returned |
| `Listing.ResolveProductKey` | store/views.py:66-78 | the key `add_to_cart` stores for a product finds exactly that product, or 404s once the product is gone |
| `Listing.ListingSucceedsIff` | store/views.py:78 | the listing succeeds if and only if every key of the cart resolves to a product: missing products are never skipped |
| `Listing.ListingFailsAtFirstBadKey` | store/views.py:77-78 | a failing listing fails with the error of the first key that does not resolve |
| `Listing.ListingShape` | store/views.py:77-83 | a successful listing has one item per (key, entry) line of the cart, in the cart's order. Each item is priced from that line's product and weight |
| `Listing.ListingTotal` | store/views.py:76-82 | the total has 2 to 5 places. It equals the sum of the item prices, and also the independent per-product reckoning `CartValue` (price per kilogram × total grams / 1000) |
| `Listing.WellFormedKeysParse` | store/views.py:78 | a cart built by the views never fails with the `int(pid)` error: only a missing product can stop its listing |
| `Listing.AppendedValue` | store/views.py:64-68 | adding w grams of an existing product raises the cart's value by exactly price_per_kg × w / 1000 |
| `Receipt.LayOutRows` | store/views.py:179-195 | the cursor loop draws row i at `Cursor(height, i)`, ends at `Cursor(height, rows)` and makes `Breaks(height, rows)` page breaks |
| `Receipt.CursorBounds` | store/views.py:185-195 | when the first row clears the margin (height − 185 ≥ 80), every row is drawn at a cursor between 80 and height − 50. Each step either goes down 18 or starts a new page at height − 50 |
| `Receipt.TotalAboveQrNote` | store/views.py:199-205 | the total row ends at least 10 points, and every item row at least 20 points, above the QR note's line (y = 60) |
| `Receipt.CursorClosedForm` | store/views.py:188-195 | the closed forms. The first page takes (height − 265) / 18 + 1 rows and every later page (height − 130) / 18 + 1. The cursor and the break count follow from those |
| `Receipt.A4FortyRows` | store/views.py:163-195 | on A4, 40 rows make one page break and two pages, and the cursor ends at 666 |
| `Orders.AssetPathsDistinct` | store/views.py:138-143 | two orders never share a QR file name, nor a receipt file name |
| `Orders.QrPath` | store/views.py:138-143 | the QR image's stored name is `qrcodes/qr_` and `.png` around the decimal order id, which reads back as that id |
| `Orders.ReceiptPath` | store/views.py:214-219 | the receipt's stored name is `receipts/receipt_order_` and `.pdf` around the decimal order id, which reads back as that id |
| `Orders.QrText` | store/views.py:136 | the QR text is `Pay Rs. `, the amount, ` to EcomStore Order:` and the id. The amount reads back as the order's Decimal total, exponent included, and the id part reads back as the order id |
| `Orders.ItemsOf` | store/views.py:188 | `order.items.all()` yields only items of that order |
| `Orders.NewOrderItems` | store/views.py:122-128 | the items created at checkout are exactly the new order's items: one per listed item, in order, with product, weight and price copied unchanged |
| `Orders.PlaceKeepsTotals` | store/views.py:120-128 | creating an order whose total is the listing's sum, together with its items, keeps every order's `total_price` equal to the sum of its items' prices |
| `Orders.OwnedOrder` | store/views.py:156 | the receipt lookup finds an order only for the customer who placed it, and then it is that order |
| `Orders.Store.CreateOrder` | store/views.py:120 | `Order.objects.create` adds an unpaid order with the next id, no QR code and no receipt, leaving every other row as it was |
| `Orders.Store.CreateItem` | store/views.py:123-128 | `OrderItem.objects.create` appends one item row, leaving the orders as they were |
| `Orders.Store.Save` | store/views.py:133 | `order.save()` replaces that order's row and nothing else |
| `Orders.Store.GenerateReceipt` | store/views.py:160-220 | the receipt is laid out over the order's own items and carries the QR note exactly when the order has a QR code. The order is saved with `receipt_pdf` set to `receipts/receipt_order_<id>.pdf` |
| `Views.ParseMethod` | store/forms.py:11 | the checkout form accepts exactly `"cash"` and `"online"` |
| `Views.AddToCart` | store/views.py:57-70 | a valid form (product exists, weight ≥ 1) appends the weight to the product's list. No form, or an invalid one, leaves the session alone |
| `Views.RemoveFromCart` | store/views.py:86-99 | the session's cart becomes `Popped` of the old one |
| `Views.CartView` | store/views.py:72-84 | the page shows `ListingSpec` of the session's cart, and the cart is unchanged |
| `Views.PlacedOrder` | store/views.py:117-146 | the order checkout leaves behind. Its total is the listing's total. It is paid if and only if cash was chosen. It has a QR code if and only if payment is online, and the code is named `qrcodes/qr_<id>.png`. Its receipt is `receipts/receipt_order_<id>.pdf` |
| `Views.PlaceOrder` | store/views.py:117-146 | the POST branch. It creates order id = old counter and the items `Snapshot(id, items)`. The QR text is present exactly for online payment. The receipt is laid out over all the new items. Totals stay in agreement |
| `Views.Checkout` | store/views.py:101-152 | the whole view. An empty cart redirects and creates nothing. A listing error creates nothing and leaves the cart. A GET or an invalid form shows the listing (the same one `cart_view` shows) and changes nothing. A valid POST places the order as above, leaves it visible to its customer, and empties the cart. The orders' totals stay in agreement throughout |
| `Views.AddRaisesTotal` | store/views.py:57-84 | after a successful add, the listing still succeeds and its total rises by exactly the new line's price |
| `Views.AppendedListingSucceeds` | store/views.py:64-78 | adding a product that exists keeps a succeeding listing succeeding |
| `Scenarios.TwoProductCart` | store/views.py:64-68 | adding 500 g of product 1 and then 250 g of product 2 gives keys `["1", "2"]` with one entry each |
| `Scenarios.TwoProductListing` | store/views.py:76-83 | at Rs. 100.00 and Rs. 200.00 per kilogram, that cart lists two items of `50.00` each and totals `100.00` |
| `Scenarios.HundredRupees` | store/views.py:136 | `str(Decimal('100.00'))` is `"100.00"`, and the QR text for order 7 is `Pay Rs. 100.00 to EcomStore Order:7` |
| `Scenarios.SingleGramPrice` | store/views.py:81 | 1 g at Rs. 123.45 per kilogram costs `0.12345`, and the QR text prints all five places |

## Left out

- Authentication views (`register_view`, `login_view`, `logout_view`) and `product_list`. They are framework calls and a bare query. The `receipt` view is kept only as its lookup, `Orders.OwnedOrder`.
- Redirects and template rendering are not modelled. They become the `Views.CheckoutOutcome` a view returns.
- File-system effects are not modelled: `qrcode.make` and writing the QR image, and writing the PDF file. Only the names stored on the order, the QR text and the layout are kept.
- ReportLab drawing (fonts, strings, lines) and the text of the receipt's rows are not modelled. This includes `f"{item.price:.2f}"`, the date, and the customer's name and e-mail: the `User` model is not part of this model.
- The QR note's URL (`order.qr_code.url`, which depends on `MEDIA_URL`) is modelled as the stored name.
- A4 is 841.89 points high. The model uses the integer 842, so the cursor arithmetic is integral.
- The database's two-place quantisation of `DecimalField` columns happens outside the code. The model keeps the Decimal values the view passes, and `Orders.Store.TotalsMatch` is about those values, not about the rounded stored columns.
- Transactions, concurrency and session persistence (`request.session.modified`) are not modelled. The views are taken to run one at a time.
- `Orders.ItemsOf`: `order.items.all()` has no declared ordering. The model lists items in creation order, which is the order the receipt shows in practice.
- Money: prices are non-negative, as the store enters them, and Decimal's 28-digit context precision is not modelled (the store's amounts stay far below it). `str()` of a Decimal is modelled for plain notation only, which covers every amount with at most five places.
- `int(pid)` accepts more strings than `Digits.ParseNat` does (signs, surrounding spaces, underscores). Every cart key the views create is a plain digit string, so the difference never arises (`Listing.WellFormedKeysParse`).
- Form machinery is taken as given. A submitted `AddToCartForm` becomes an `AddRequest` whose product id is checked against the catalogue. The checkout form becomes the posted `method` value, with None for a request that is not a POST.
- The two identical listing loops of `cart_view` and `checkout` are one method here, `Listing.BuildListing`. So "checkout lists what the cart view lists" holds by construction and is not a separate lemma.
- `Receipt.CursorBounds` and `Receipt.CursorClosedForm` assume that the first row clears the bottom margin (height − 185 ≥ 80). This holds for A4. For shorter pages the loop can start below the margin, a case the source does not guard.
