/**
  Worked examples: a two-product cart from `add_to_cart` to the QR text, and
  a one-gram purchase whose price keeps five decimal places.
 */
module Scenarios {
  import opened Wrappers
  import opened Digits
  import opened Money
  import opened Carts
  import opened Listing
  import opened Orders

  /** Adding 500 g of product 1 and then 250 g of product 2 to an empty cart. */
  lemma TwoProductCart()
    ensures Appended(Appended(Empty, 1, 500), 2, 250)
         == CartState(["1", "2"], map["1" := [CartEntry(500)], "2" := [CartEntry(250)]])
  {
    assert ProductKey(1) == "1" && ProductKey(2) == "2";
    var c1 := Appended(Empty, 1, 500);
    assert c1 == CartState(["1"], map["1" := [CartEntry(500)]]) by {
      assert [] + [CartEntry(500)] == [CartEntry(500)];
    }
    assert "2" !in c1.entries;
    assert [] + [CartEntry(250)] == [CartEntry(250)];
  }

  /** 500 g at Rs. 100.00 per kilogram, and 250 g at Rs. 200.00, each cost Rs. 50.00. */
  lemma FiftyRupeeLines()
    ensures LinePrice(10000, 500) == Dec(5000, 2)
    ensures LinePrice(20000, 250) == Dec(5000, 2)
  {
    assert Reduce(10000, 5, 2) == Dec(10, 2);
    assert Reduce(20000, 5, 2) == Dec(20, 2);
  }

  /** The cart's keys resolve to the two products. */
  lemma TwoProductKeys()
    ensures Resolve("1", map[1 := Product(1, "Almonds", 10000), 2 := Product(2, "Cashews", 20000)]) == Ok(Product(1, "Almonds", 10000))
    ensures Resolve("2", map[1 := Product(1, "Almonds", 10000), 2 := Product(2, "Cashews", 20000)]) == Ok(Product(2, "Cashews", 20000))
  {
    ProductKeyIsKey(1);
    ProductKeyIsKey(2);
    assert ProductKey(1) == "1" && ProductKey(2) == "2";
  }

  /** Two lines of Rs. 50.00 add up to Rs. 100.00. */
  lemma TwoFifties()
    ensures Sum([Dec(5000, 2), Dec(5000, 2)]) == Dec(10000, 2)
  {
    assert [Dec(5000, 2), Dec(5000, 2)][..1] == [Dec(5000, 2)];
    assert [Dec(5000, 2)][..0] == [];
  }

  /** The cart's items, key by key: almonds first, then cashews. */
  lemma TwoProductItems()
    ensures var almonds, cashews := Product(1, "Almonds", 10000), Product(2, "Cashews", 20000);
      ListItems(["1", "2"], map["1" := [CartEntry(500)], "2" := [CartEntry(250)]], map[1 := almonds, 2 := cashews])
      == Ok([Item(almonds, 500, Dec(5000, 2)), Item(cashews, 250, Dec(5000, 2))])
  {
    var almonds, cashews := Product(1, "Almonds", 10000), Product(2, "Cashews", 20000);
    var catalog := map[1 := almonds, 2 := cashews];
    var keys, entries := ["1", "2"], map["1" := [CartEntry(500)], "2" := [CartEntry(250)]];
    TwoProductKeys();
    FiftyRupeeLines();
    var i1, i2 := Item(almonds, 500, Dec(5000, 2)), Item(cashews, 250, Dec(5000, 2));
    assert keys[..0] == [];
    ListItemsStep(keys, 0, entries, catalog);
    assert KeyItems(almonds, entries["1"]) == [i1];
    assert ListItems(keys[..1], entries, catalog) == Ok([i1]) by {
      assert [] + [i1] == [i1];
    }
    ListItemsStep(keys, 1, entries, catalog);
    assert KeyItems(cashews, entries["2"]) == [i2];
    assert [i1] + [i2] == [i1, i2];
    assert keys[..2] == keys;
  }

  /**
    That cart lists two items of Rs. 50.00, almonds first, and totals
    Rs. 100.00.
   */
  lemma TwoProductListing()
    ensures var almonds, cashews := Product(1, "Almonds", 10000), Product(2, "Cashews", 20000);
      ListingSpec(["1", "2"], map["1" := [CartEntry(500)], "2" := [CartEntry(250)]], map[1 := almonds, 2 := cashews])
      == Ok(CartListing([Item(almonds, 500, Dec(5000, 2)), Item(cashews, 250, Dec(5000, 2))], Dec(10000, 2)))
  {
    var almonds, cashews := Product(1, "Almonds", 10000), Product(2, "Cashews", 20000);
    var i1, i2 := Item(almonds, 500, Dec(5000, 2)), Item(cashews, 250, Dec(5000, 2));
    TwoProductItems();
    assert Prices([i1, i2]) == [Dec(5000, 2), Dec(5000, 2)];
    TwoFifties();
  }

  /** The total Rs. 100.00 prints with its two places, in the text and in the QR code. */
  lemma HundredRupees()
    ensures Money.ToString(Dec(10000, 2)) == "100.00"
    ensures QrText(Dec(10000, 2), 7) == "Pay Rs. " + "100.00" + " to EcomStore Order:" + "7"
  {
    assert NatToString(10000) == "10000" by {
      assert NatToString(10) == "10";
      assert NatToString(100) == "100";
      assert NatToString(1000) == "1000";
    }
    assert "10000"[..3] == "100" && "10000"[3..] == "00";
    assert NatToString(7) == "7";
  }

  /**
    A product at Rs. 123.45 per kilogram bought by the gram costs
    Rs. 0.12345: the line price keeps all five places, and so does the QR
    text, which prints the unrounded total.
   */
  lemma SingleGramPrice()
    ensures LinePrice(12345, 1) == Dec(12345, 5)
    ensures Money.ToString(Dec(12345, 5)) == "0.12345"
    ensures QrText(Dec(12345, 5), 3) == "Pay Rs. " + "0.12345" + " to EcomStore Order:" + "3"
  {
    assert Reduce(12345, 5, 2) == Dec(12345, 5);
    assert NatToString(12345) == "12345" by {
      assert NatToString(1) == "1";
      assert NatToString(12) == "12";
      assert NatToString(123) == "123";
      assert NatToString(1234) == "1234";
    }
    assert Money.ToString(Dec(12345, 5)) == "0.12345" by {
      assert Zeros(0) == "";
    }
    assert NatToString(3) == "3";
  }
}
