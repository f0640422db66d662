/**
 * The cart reducer of client/src/contexts/cartContext.tsx: each operation
 * maps the previous cart array to the next one, and the totals are folds
 * over it. A cart line is identified by its (id, size, colour) triple.
 *
 * Prices are real numbers here (JavaScript numbers in the source);
 * quantities are integers.
 */
module Cart {
  import opened Wrappers

  /** ProductType.id: a string or a number; === never equates the two kinds. */
  datatype ProductId = NumberId(n: int) | StringId(s: string)

  /** CartItemType: a product with the chosen quantity, size and colour. */
  datatype CartItem = CartItem(
    id: ProductId,
    name: string,
    shortDescription: string,
    description: string,
    price: real,
    sizes: seq<string>,
    colors: seq<string>,
    images: map<string, string>,
    quantity: int,
    selectedSize: string,
    selectedColor: string)

  /** The triple that identifies a cart line (what removeFromCart is given). */
  datatype LineKey = LineKey(id: ProductId, selectedSize: string, selectedColor: string)

  function KeyOf(p: CartItem): LineKey {
    LineKey(p.id, p.selectedSize, p.selectedColor)
  }

  /** No two lines share a triple. */
  predicate DistinctLines(cart: seq<CartItem>) {
    forall i, j :: 0 <= i < j < |cart| ==> KeyOf(cart[i]) != KeyOf(cart[j])
  }

  /** Array.prototype.findIndex on the triple: the first matching line, None for -1. */
  function FindLine(cart: seq<CartItem>, key: LineKey): (r: Option<nat>)
    ensures r.Some? ==> r.value < |cart| && KeyOf(cart[r.value]) == key
                        && forall j :: 0 <= j < r.value ==> KeyOf(cart[j]) != key
    ensures r.None? ==> forall j :: 0 <= j < |cart| ==> KeyOf(cart[j]) != key
  {
    if cart == [] then None
    else if KeyOf(cart[0]) == key then Some(0)
    else
      match FindLine(cart[1..], key)
      case None => None
      case Some(i) => Some(i + 1)
  }

  /**
   * addToCart: a line with the product's triple gets the product's quantity
   * added (keeping the line's own other fields, its price included); a new
   * triple is appended.
   */
  function AddToCart(cart: seq<CartItem>, product: CartItem): (r: seq<CartItem>)
  {
    match FindLine(cart, KeyOf(product))
    case Some(i) => Merged(cart, i, product.quantity)
    case None => cart + [product]
  }

  /** The cart with line i's quantity raised by d, every other field and line kept. */
  function Merged(cart: seq<CartItem>, i: nat, d: int): seq<CartItem>
    requires i < |cart|
  {
    cart[i := cart[i].(quantity := cart[i].quantity + d)]
  }

  /** removeFromCart: keeps, in order, the lines whose triple differs. */
  function RemoveFromCart(cart: seq<CartItem>, key: LineKey): (r: seq<CartItem>)
  {
    if cart == [] then []
    else (if KeyOf(cart[0]) == key then [] else [cart[0]]) + RemoveFromCart(cart[1..], key)
  }

  /** clearCart. */
  function ClearCart(): (r: seq<CartItem>)
    ensures |r| == 0
  {
    []
  }

  /** getCartItemsCount: the sum of the quantities. */
  function ItemsCount(cart: seq<CartItem>): int {
    if cart == [] then 0 else ItemsCount(cart[..|cart| - 1]) + cart[|cart| - 1].quantity
  }

  /** getCartSubtotal: the sum of price times quantity. */
  function Subtotal(cart: seq<CartItem>): real {
    if cart == [] then 0.0 else Subtotal(cart[..|cart| - 1]) + cart[|cart| - 1].price * cart[|cart| - 1].quantity as real
  }

  /** getDiscount: a constant 10. */
  function Discount(): real {
    10.0
  }

  /** getShippingFee: a constant 10. */
  function ShippingFee(): real {
    10.0
  }

  /** getCartTotal: subtotal - discount + shipping. */
  function Total(cart: seq<CartItem>): (t: real)
    ensures t == Subtotal(cart)
  {
    Subtotal(cart) - Discount() + ShippingFee()
  }

  // ---------------------------------------------------------------- adding

  /**
   * Adding a product whose triple is in the cart changes only that line's
   * quantity, by the product's quantity; the length, the line's position
   * and every other line stay as they were.
   */
  lemma {:induction false} AddExistingLine(cart: seq<CartItem>, product: CartItem, i: nat)
    requires i < |cart| && KeyOf(cart[i]) == KeyOf(product)
    requires DistinctLines(cart)
    ensures var r := AddToCart(cart, product);
            && |r| == |cart|
            && r[i] == cart[i].(quantity := cart[i].quantity + product.quantity)
            && forall j :: 0 <= j < |cart| && j != i ==> r[j] == cart[j]
  {
    var f := FindLine(cart, KeyOf(product));
    assert f.Some? by {
      if f.None? {
        assert false;
      }
    }
    assert f.value == i by {
      if f.value != i {
        assert false;
      }
    }
  }

  /** Adding a product with a new triple appends it. */
  lemma {:induction false} AddNewLine(cart: seq<CartItem>, product: CartItem)
    requires forall j :: 0 <= j < |cart| ==> KeyOf(cart[j]) != KeyOf(product)
    ensures AddToCart(cart, product) == cart + [product]
  {
  }

  /** addToCart keeps every triple on one line at most. */
  lemma {:induction false} AddKeepsLinesDistinct(cart: seq<CartItem>, product: CartItem)
    requires DistinctLines(cart)
    ensures DistinctLines(AddToCart(cart, product))
  {
    var r := AddToCart(cart, product);
    match FindLine(cart, KeyOf(product))
    case Some(i) =>
      assert forall j :: 0 <= j < |r| ==> KeyOf(r[j]) == KeyOf(cart[j]);
    case None =>
      assert forall j :: 0 <= j < |cart| ==> r[j] == cart[j];
  }

  lemma {:induction false} ItemsCountAppend(cart: seq<CartItem>, p: CartItem)
    ensures ItemsCount(cart + [p]) == ItemsCount(cart) + p.quantity
  {
    assert (cart + [p])[..|cart|] == cart;
  }

  /** Changing one line's quantity by d changes the count by d. */
  lemma {:induction false} ItemsCountUpdate(cart: seq<CartItem>, i: nat, d: int)
    requires i < |cart|
    ensures ItemsCount(Merged(cart, i, d)) == ItemsCount(cart) + d
    decreases |cart|
  {
    var r := Merged(cart, i, d);
    var n := |cart| - 1;
    if i < n {
      ItemsCountUpdate(cart[..n], i, d);
      assert r[..n] == Merged(cart[..n], i, d);
    } else {
      assert r[..n] == cart[..n];
    }
  }

  /** addToCart raises the item count by exactly the product's quantity, merged or appended. */
  lemma {:induction false} AddRaisesCount(cart: seq<CartItem>, product: CartItem)
    ensures ItemsCount(AddToCart(cart, product)) == ItemsCount(cart) + product.quantity
  {
    match FindLine(cart, KeyOf(product))
    case Some(i) => ItemsCountUpdate(cart, i, product.quantity);
    case None => ItemsCountAppend(cart, product);
  }

  /** Changing one line's quantity by d changes the subtotal by that line's price times d. */
  lemma {:induction false} SubtotalUpdate(cart: seq<CartItem>, i: nat, d: int)
    requires i < |cart|
    ensures Subtotal(Merged(cart, i, d)) == Subtotal(cart) + cart[i].price * d as real
    decreases |cart|
  {
    var r := Merged(cart, i, d);
    var n := |cart| - 1;
    if i < n {
      SubtotalUpdate(cart[..n], i, d);
      assert r[..n] == Merged(cart[..n], i, d);
    } else {
      assert r[..n] == cart[..n];
    }
  }

  /** Appending a line adds its price times its quantity to the subtotal. */
  lemma {:induction false} SubtotalAppend(cart: seq<CartItem>, p: CartItem)
    ensures Subtotal(cart + [p]) == Subtotal(cart) + p.price * p.quantity as real
  {
    assert (cart + [p])[..|cart|] == cart;
  }

  /**
   * A merged product is charged at the price already on its line, not at
   * its own: the subtotal grows by the line's price times the added
   * quantity.
   */
  lemma {:induction false} AddSubtotalMerged(cart: seq<CartItem>, product: CartItem, i: nat)
    requires FindLine(cart, KeyOf(product)) == Some(i)
    ensures Subtotal(AddToCart(cart, product)) == Subtotal(cart) + cart[i].price * product.quantity as real
  {
    SubtotalUpdate(cart, i, product.quantity);
  }

  /** A new line adds its own price times its quantity. */
  lemma {:induction false} AddSubtotalNew(cart: seq<CartItem>, product: CartItem)
    requires FindLine(cart, KeyOf(product)).None?
    ensures Subtotal(AddToCart(cart, product)) == Subtotal(cart) + product.price * product.quantity as real
  {
    assert AddToCart(cart, product) == cart + [product];
    SubtotalAppend(cart, product);
  }

  // -------------------------------------------------------------- removing

  /** No line of the removed triple survives, and the cart does not grow. */
  lemma {:induction false} RemoveDropsKey(cart: seq<CartItem>, key: LineKey)
    ensures var r := RemoveFromCart(cart, key);
            |r| <= |cart| && forall j :: 0 <= j < |r| ==> KeyOf(r[j]) != key
  {
    if cart != [] {
      RemoveDropsKey(cart[1..], key);
    }
  }

  /** Every line of the result comes from the cart. */
  lemma {:induction false} RemoveTakesFromCart(cart: seq<CartItem>, key: LineKey)
    ensures multiset(RemoveFromCart(cart, key)) <= multiset(cart)
  {
    if cart != [] {
      RemoveTakesFromCart(cart[1..], key);
      assert cart == [cart[0]] + cart[1..];
    }
  }

  /** Every line with another triple survives. */
  lemma {:induction false} RemoveKeepsEach(cart: seq<CartItem>, key: LineKey)
    ensures forall j :: 0 <= j < |cart| && KeyOf(cart[j]) != key ==> cart[j] in RemoveFromCart(cart, key)
  {
    if cart != [] {
      var rest := RemoveFromCart(cart[1..], key);
      RemoveKeepsEach(cart[1..], key);
      forall j | 1 <= j < |cart| && KeyOf(cart[j]) != key ensures cart[j] in RemoveFromCart(cart, key) {
        assert cart[j] == cart[1..][j - 1];
      }
    }
  }

  /**
   * removeFromCart keeps exactly the lines with another triple: no line of
   * the triple survives, every other line does, and nothing new appears.
   */
  lemma {:induction false} RemoveKeepsOthers(cart: seq<CartItem>, key: LineKey)
    ensures var r := RemoveFromCart(cart, key);
            && |r| <= |cart|
            && (forall j :: 0 <= j < |r| ==> KeyOf(r[j]) != key)
            && multiset(r) <= multiset(cart)
            && forall j :: 0 <= j < |cart| && KeyOf(cart[j]) != key ==> cart[j] in r
  {
    RemoveDropsKey(cart, key);
    RemoveTakesFromCart(cart, key);
    RemoveKeepsEach(cart, key);
  }

  /** Removing a triple the cart does not hold changes nothing. */
  lemma {:induction false} RemoveAbsent(cart: seq<CartItem>, key: LineKey)
    requires forall j :: 0 <= j < |cart| ==> KeyOf(cart[j]) != key
    ensures RemoveFromCart(cart, key) == cart
  {
    if cart != [] {
      RemoveAbsent(cart[1..], key);
      assert cart == [cart[0]] + cart[1..];
    }
  }

  /** Removing is idempotent. */
  lemma {:induction false} RemoveTwice(cart: seq<CartItem>, key: LineKey)
    ensures RemoveFromCart(RemoveFromCart(cart, key), key) == RemoveFromCart(cart, key)
  {
    RemoveDropsKey(cart, key);
    RemoveAbsent(RemoveFromCart(cart, key), key);
  }

  /** Removing lines never brings in a triple the cart lacked. */
  lemma {:induction false} RemoveKeepsKeyAbsent(cart: seq<CartItem>, key: LineKey, absent: LineKey)
    requires forall j :: 0 <= j < |cart| ==> KeyOf(cart[j]) != absent
    ensures forall j :: 0 <= j < |RemoveFromCart(cart, key)| ==> KeyOf(RemoveFromCart(cart, key)[j]) != absent
  {
    if cart != [] {
      RemoveKeepsKeyAbsent(cart[1..], key, absent);
    }
  }

  /** removeFromCart keeps the lines distinct. */
  lemma {:induction false} RemoveKeepsLinesDistinct(cart: seq<CartItem>, key: LineKey)
    requires DistinctLines(cart)
    ensures DistinctLines(RemoveFromCart(cart, key))
  {
    if cart != [] {
      var rest := RemoveFromCart(cart[1..], key);
      RemoveKeepsLinesDistinct(cart[1..], key);
      if KeyOf(cart[0]) != key {
        RemoveKeepsKeyAbsent(cart[1..], key, KeyOf(cart[0]));
        var r := [cart[0]] + rest;
        assert forall j :: 1 <= j < |r| ==> r[j] == rest[j - 1];
      }
    }
  }

  /** Adding a line and then removing its triple from a cart that lacked it restores the cart. */
  lemma {:induction false} AddThenRemove(cart: seq<CartItem>, product: CartItem)
    requires forall j :: 0 <= j < |cart| ==> KeyOf(cart[j]) != KeyOf(product)
    ensures RemoveFromCart(AddToCart(cart, product), KeyOf(product)) == cart
  {
    RemoveAppend(cart, [product], KeyOf(product));
    RemoveAbsent(cart, KeyOf(product));
  }

  lemma {:induction false} RemoveAppend(a: seq<CartItem>, b: seq<CartItem>, key: LineKey)
    ensures RemoveFromCart(a + b, key) == RemoveFromCart(a, key) + RemoveFromCart(b, key)
  {
    if a == [] {
      assert a + b == b;
    } else {
      assert (a + b)[1..] == a[1..] + b;
      RemoveAppend(a[1..], b, key);
    }
  }
}
