/**
  The session cart (store/views.py): a dictionary from `str(product.id)` to
  the list of `{'weight_grams': w}` entries added for that product, in the
  order they were added. A product added twice has two entries; nothing is
  merged. Python dictionaries iterate in insertion order, and the listing
  follows that order, so the model keeps the key order explicitly beside
  the map.
 */
module Carts {
  import opened Wrappers
  import opened Digits

  /** One `{'weight_grams': w}` entry. */
  datatype CartEntry = CartEntry(weightGrams: nat)

  /** `str(product.id)`, the key under which a product's entries are kept. */
  function ProductKey(id: nat): string {
    NatToString(id)
  }

  /** A key that `int()` reads back as the id it was made from. */
  predicate IsProductKey(k: string) {
    ParseNat(k).Some? && ProductKey(ParseNat(k).value) == k
  }

  lemma ProductKeyIsKey(id: nat)
    ensures IsProductKey(ProductKey(id)) && ParseNat(ProductKey(id)) == Some(id)
  {
    NatToStringRoundTrip(id);
  }

  predicate NoDuplicates(s: seq<string>) {
    s == [] || (s[0] !in s[1..] && NoDuplicates(s[1..]))
  }

  /** The key order after `del cart[k]`: k taken out, the others in their order. */
  function Without(keys: seq<string>, k: string): (r: seq<string>)
    ensures forall x :: x in r <==> x in keys && x != k
    ensures NoDuplicates(keys) ==> NoDuplicates(r)
  {
    if keys == [] then []
    else if keys[0] == k then Without(keys[1..], k)
    else [keys[0]] + Without(keys[1..], k)
  }

  predicate PositiveWeights(es: seq<CartEntry>) {
    forall j :: 0 <= j < |es| ==> es[j].weightGrams >= 1
  }

  /**
    What every cart the views build looks like: each key once in the order,
    the order and the map holding the same keys, every key made by `str()`
    from a product id, every list non-empty (an emptied list loses its key)
    and every weight at least one gram (the add form's minimum).
   */
  ghost predicate WellFormed(keys: seq<string>, entries: map<string, seq<CartEntry>>) {
    && NoDuplicates(keys)
    && (forall k :: k in keys <==> k in entries)
    && (forall k :: k in entries ==> IsProductKey(k) && entries[k] != [] && PositiveWeights(entries[k]))
  }

  /** The cart's contents: the key order and the lists under the keys. */
  datatype CartState = CartState(keys: seq<string>, entries: map<string, seq<CartEntry>>)

  /** `{}`. */
  const Empty: CartState := CartState([], map[])

  /**
    The cart after `cart.setdefault(key, [])` and
    `cart[key].append({'weight_grams': grams})`.
   */
  function Appended(c: CartState, productId: nat, grams: nat): CartState {
    var k := ProductKey(productId);
    var es := if k in c.entries then c.entries[k] else [];
    CartState(if k in c.entries then c.keys else c.keys + [k], c.entries[k := es + [CartEntry(grams)]])
  }

  /**
    The cart after `cart[key].pop(index)`, with `del cart[key]` when the list
    is left empty; an unknown key or an index past the end changes nothing.
   */
  function Popped(c: CartState, productId: nat, index: nat): CartState {
    var k := ProductKey(productId);
    if k in c.entries && index < |c.entries[k]| then
      var rest := c.entries[k][..index] + c.entries[k][index + 1..];
      if rest == [] then CartState(Without(c.keys, k), c.entries - {k})
      else CartState(c.keys, c.entries[k := rest])
    else c
  }

  /**
    Adding an entry keeps the cart well formed, puts the entry at the end of
    its product's list, gives a new product a key at the end, and leaves
    every other product's list as it was.
   */
  lemma AppendedShape(c: CartState, productId: nat, grams: nat)
    requires WellFormed(c.keys, c.entries) && grams >= 1
    ensures var r, k := Appended(c, productId, grams), ProductKey(productId);
      && WellFormed(r.keys, r.entries)
      && k in r.entries
      && r.entries[k] == (if k in c.entries then c.entries[k] else []) + [CartEntry(grams)]
      && r.keys == (if k in c.entries then c.keys else c.keys + [k])
      && (forall k' :: k' in c.entries && k' != k ==> k' in r.entries && r.entries[k'] == c.entries[k'])
  {
    var k := ProductKey(productId);
    ProductKeyIsKey(productId);
    if k !in c.entries {
      NoDuplicatesSnoc(c.keys, k);
    }
  }

  /**
    Removing keeps the cart well formed. A valid index removes exactly that
    entry, the others keeping their order; every other product is untouched;
    a product whose list empties loses its key.
   */
  lemma PoppedShape(c: CartState, productId: nat, index: nat)
    requires WellFormed(c.keys, c.entries)
    ensures var r, k := Popped(c, productId, index), ProductKey(productId);
      && WellFormed(r.keys, r.entries)
      && (forall k' :: k' in c.entries && k' != k ==> k' in r.entries && r.entries[k'] == c.entries[k'])
      && (forall k' :: k' in r.entries ==> k' in c.entries)
      && (k !in c.entries || index >= |c.entries[k]| ==> r == c)
      && (k in c.entries && index < |c.entries[k]| ==>
            var es := c.entries[k];
            && (|es| == 1 <==> k !in r.entries)
            && (k in r.entries ==>
                  && |r.entries[k]| == |es| - 1
                  && (forall j :: 0 <= j < index ==> r.entries[k][j] == es[j])
                  && (forall j :: index <= j < |es| - 1 ==> r.entries[k][j] == es[j + 1])))
  {
    var k := ProductKey(productId);
    if k in c.entries && index < |c.entries[k]| {
      var es := c.entries[k];
      var rest := es[..index] + es[index + 1..];
      assert PositiveWeights(rest) by {
        forall j | 0 <= j < |rest| ensures rest[j].weightGrams >= 1 {
          if j < index { assert rest[j] == es[j]; } else { assert rest[j] == es[j + 1]; }
        }
      }
    }
  }

  /**
    Removing never reorders the cart: while the product keeps entries the
    key order is as it was, and when its last entry goes, its key alone
    leaves the order and the keys before and after it keep their places.
   */
  lemma PoppedKeys(c: CartState, productId: nat, index: nat)
    requires WellFormed(c.keys, c.entries)
    ensures var r, k := Popped(c, productId, index), ProductKey(productId);
      && (k in r.entries ==> r.keys == c.keys)
      && (forall i :: 0 <= i < |c.keys| && c.keys[i] == k && k !in r.entries ==> r.keys == c.keys[..i] + c.keys[i + 1..])
  {
    var k := ProductKey(productId);
    forall i | 0 <= i < |c.keys| && c.keys[i] == k
      ensures Without(c.keys, k) == c.keys[..i] + c.keys[i + 1..]
    {
      WithoutAt(c.keys, i);
    }
  }

  /** Removing the entry just added, at the end of its list, gives back the cart as it was. */
  lemma PopUndoesAppend(c: CartState, productId: nat, grams: nat)
    requires WellFormed(c.keys, c.entries)
    ensures var k := ProductKey(productId);
      Popped(Appended(c, productId, grams), productId, if k in c.entries then |c.entries[k]| else 0) == c
  {
    var k := ProductKey(productId);
    var a := Appended(c, productId, grams);
    if k in c.entries {
      var es := c.entries[k];
      assert (es + [CartEntry(grams)])[..|es|] + (es + [CartEntry(grams)])[|es| + 1..] == es;
      assert c.entries[k := es] == c.entries;
    } else {
      WithoutAbsent(c.keys, k);
      assert a.entries - {k} == c.entries;
    }
  }

  /** `not cart`: a well-formed cart with no keys in the dictionary is the empty cart. */
  lemma EmptyCartState(c: CartState)
    requires WellFormed(c.keys, c.entries)
    ensures |c.entries| == 0 <==> c == Empty
  {
    if c.keys != [] {
      assert c.keys[0] in c.entries;
    }
  }

  /** `del` of a key that is not there would raise; Without of such a key changes nothing. */
  lemma {:induction false} WithoutMissing(keys: seq<string>, k: string)
    requires k !in keys
    ensures Without(keys, k) == keys
  {
    if keys != [] {
      WithoutMissing(keys[1..], k);
      assert [keys[0]] + keys[1..] == keys;
    }
  }

  /**
    `del cart[k]` for the key at position i: the keys before it and the keys
    after it stay, in their order.
   */
  lemma {:induction false} WithoutAt(keys: seq<string>, i: nat)
    requires NoDuplicates(keys) && i < |keys|
    ensures Without(keys, keys[i]) == keys[..i] + keys[i + 1..]
  {
    var k := keys[i];
    if i == 0 {
      WithoutMissing(keys[1..], k);
    } else {
      assert k == keys[1..][i - 1];
      assert keys[0] != k;
      WithoutAt(keys[1..], i - 1);
      assert keys[..i] == [keys[0]] + keys[1..][..i - 1];
      assert keys[i + 1..] == keys[1..][i..];
    }
  }

  /** Taking out a key that is not there changes nothing. */
  lemma {:induction false} WithoutAbsent(keys: seq<string>, k: string)
    requires k !in keys
    ensures Without(keys + [k], k) == keys
  {
    if keys != [] {
      assert (keys + [k])[1..] == keys[1..] + [k];
      WithoutAbsent(keys[1..], k);
    }
  }

  class Cart {
    var keys: seq<string>
    var entries: map<string, seq<CartEntry>>

    ghost predicate Valid()
      reads this
    {
      WellFormed(keys, entries)
    }

    ghost function Contents(): CartState
      reads this
    {
      CartState(keys, entries)
    }

    /** `{}`: a new, empty cart. */
    constructor ()
      ensures Valid() && Contents() == Empty
    {
      keys := [];
      entries := map[];
    }

    /** `cart.setdefault(key, [])` then `cart[key].append({'weight_grams': w})`. */
    method Add(productId: nat, grams: nat)
      requires Valid() && grams >= 1
      modifies this
      ensures Valid()
      ensures Contents() == Appended(old(Contents()), productId, grams)
    {
      AppendedShape(Contents(), productId, grams);
      var k := ProductKey(productId);
      var es := if k in entries then entries[k] else [];
      if k !in entries {
        keys := keys + [k];
      }
      entries := entries[k := es + [CartEntry(grams)]];
    }

    /**
      `cart[key].pop(index)`, deleting the key when its list is left empty.
      An unknown key, or an index past the end of the list (`pop` raising
      IndexError, which the view swallows), leaves the cart as it was. The
      index is never negative: the URL converter accepts only digits.
     */
    method Remove(productId: nat, index: nat)
      requires Valid()
      modifies this
      ensures Valid()
      ensures Contents() == Popped(old(Contents()), productId, index)
    {
      PoppedShape(Contents(), productId, index);
      var k := ProductKey(productId);
      if k in entries && index < |entries[k]| {
        var es := entries[k];
        var rest := es[..index] + es[index + 1..];
        if rest == [] {
          keys := Without(keys, k);
          entries := entries - {k};
        } else {
          entries := entries[k := rest];
        }
      }
    }
  }

  lemma {:induction false} NoDuplicatesSnoc(s: seq<string>, k: string)
    requires NoDuplicates(s) && k !in s
    ensures NoDuplicates(s + [k])
  {
    if s != [] {
      assert (s + [k])[1..] == s[1..] + [k];
      NoDuplicatesSnoc(s[1..], k);
    }
  }

  /**
    The request's session. `request.session.setdefault('cart', {})` gives the
    stored cart, creating an empty one the first time, and every view works
    on the dictionary it returns.
   */
  class Session {
    var cart: Cart?

    ghost predicate Valid()
      reads this, cart
    {
      cart != null ==> cart.Valid()
    }

    /** The session's cart; a session without one holds the empty cart. */
    ghost function Contents(): CartState
      reads this, cart
    {
      if cart == null then Empty else cart.Contents()
    }

    constructor ()
      ensures Valid() && cart == null
    {
      cart := null;
    }

    /** `_cart_session`: the cart stored in the session, created empty when absent. */
    method CartSession() returns (c: Cart)
      requires Valid()
      modifies this
      ensures Valid() && cart == c
      ensures old(cart) != null ==> c == old(cart)
      ensures old(cart) == null ==> fresh(c)
      ensures c.Contents() == old(Contents())
    {
      if cart == null {
        cart := new Cart();
      }
      c := cart;
    }

    /** `request.session['cart'] = {}`: a new empty cart replaces the old one. */
    method ResetCart()
      modifies this
      ensures Valid() && cart != null && fresh(cart)
      ensures Contents() == Empty
    {
      cart := new Cart();
    }
  }
}
