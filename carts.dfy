/** A user's cart: lines in the order they were first added (a Python dict
    keeps insertion order), each holding the product record as it was when
    the line was created and a quantity, plus a cached total. */
module Carts {
  import opened Catalog

  datatype CartLine = CartLine(product: Product, quantity: nat)

  datatype Cart = Cart(items: seq<CartLine>, total: real)

  /** What `get_cart` creates and `clear_cart` resets to. */
  const EmptyCart := Cart([], 0.0)

  /** The cart `get_cart` returns: the stored one, or an empty one for a new user. */
  function CartOf(carts: map<int, Cart>, userId: int): Cart
  {
    if userId in carts then carts[userId] else EmptyCart
  }

  function LineIds(items: seq<CartLine>): (ids: seq<int>)
    ensures |ids| == |items|
    ensures forall k :: 0 <= k < |items| ==> ids[k] == items[k].product.id
  {
    seq(|items|, k requires 0 <= k < |items| => items[k].product.id)
  }

  function LineTotal(line: CartLine): real
  {
    line.product.price * (line.quantity as real)
  }

  /** Σ price × quantity over the lines, with each line's own product record. */
  function CartTotal(items: seq<CartLine>): (t: real)
    ensures items == [] ==> t == 0.0
    ensures (forall k :: 0 <= k < |items| ==> items[k].product.price >= 0.0) ==> t >= 0.0
  {
    if items == [] then 0.0 else LineTotal(items[0]) + CartTotal(items[1..])
  }

  /** One line per product id, and no line below quantity 1. */
  predicate WellFormed(items: seq<CartLine>)
  {
    && Distinct(LineIds(items))
    && forall k :: 0 <= k < |items| ==> items[k].quantity >= 1
  }

  /** A cart whose cached total is the sum of its lines. */
  predicate CartValid(c: Cart)
  {
    WellFormed(c.items) && c.total == CartTotal(c.items)
  }

  function LineIndex(items: seq<CartLine>, productId: int): int
  {
    FirstIndex(LineIds(items), productId)
  }

  /** How many of the product the cart holds (0 when there is no line). */
  function Quantity(items: seq<CartLine>, productId: int): nat
  {
    var i := LineIndex(items, productId);
    if i < 0 then 0 else items[i].quantity
  }

  /** The outcome of `add_to_cart`, checked in the source's order. */
  datatype AddStatus = Added | ProductNotFound | SoldOut | OnlyAvailable(stock: int)

  function AddVerdict(products: seq<Product>, items: seq<CartLine>, productId: int): (r: AddStatus)
    ensures r == ProductNotFound <==> FindProduct(products, productId).None?
    ensures r == SoldOut <==> FindProduct(products, productId).Some? && FindProduct(products, productId).value.quantity <= 0
    ensures r == Added <==>
      && FindProduct(products, productId).Some?
      && 0 < FindProduct(products, productId).value.quantity
      && Quantity(items, productId) < FindProduct(products, productId).value.quantity
    ensures r.OnlyAvailable? ==> r.stock == FindProduct(products, productId).value.quantity
  {
    match FindProduct(products, productId)
    case None => ProductNotFound
    case Some(p) =>
      if p.quantity <= 0 then SoldOut
      else
        var i := LineIndex(items, productId);
        if i >= 0 && items[i].quantity >= p.quantity then OnlyAvailable(p.quantity) else Added
  }

  /** The cart lines after a successful `add_to_cart` of `p`: the existing line
      goes up by one in place, otherwise a line at 1 is appended. */
  function AddOne(items: seq<CartLine>, p: Product): (r: seq<CartLine>)
    ensures LineIds(r) == if LineIndex(items, p.id) >= 0 then LineIds(items) else LineIds(items) + [p.id]
  {
    var i := LineIndex(items, p.id);
    if i >= 0 then items[i := items[i].(quantity := items[i].quantity + 1)]
    else items + [CartLine(p, 1)]
  }

  /** The cart lines after `remove_from_cart`: a line above 1 goes down by one,
      a line at 1 is deleted, and an absent product changes nothing. */
  function RemoveOne(items: seq<CartLine>, productId: int): (r: seq<CartLine>)
    ensures LineIndex(items, productId) < 0 ==> r == items
    ensures |items| - 1 <= |r| <= |items|
  {
    var i := LineIndex(items, productId);
    if i < 0 then items
    else if items[i].quantity > 1 then items[i := items[i].(quantity := items[i].quantity - 1)]
    else items[..i] + items[i + 1..]
  }

  /** The price one more unit of `p` adds: that of the line's own product
      record when the line exists, else the catalog's. */
  function UnitPrice(items: seq<CartLine>, p: Product): real
  {
    var i := LineIndex(items, p.id);
    if i < 0 then p.price else items[i].product.price
  }

  /** Every line whose product is still in the catalog is within its stock. */
  predicate WithinStock(items: seq<CartLine>, products: seq<Product>)
  {
    forall k :: 0 <= k < |items| && FindProduct(products, items[k].product.id).Some? ==>
      items[k].quantity <= FindProduct(products, items[k].product.id).value.quantity
  }

  /** An add changes no line's product record and keeps the lines in order:
      every existing line stays where it was, only the product's own line
      changes (its quantity), and a new line carries the catalog record at 1. */
  lemma AddOneLines(items: seq<CartLine>, p: Product)
    ensures |AddOne(items, p)| == if LineIndex(items, p.id) >= 0 then |items| else |items| + 1
    ensures forall k :: 0 <= k < |items| ==> AddOne(items, p)[k].product == items[k].product
    ensures forall k :: 0 <= k < |items| && k != LineIndex(items, p.id) ==> AddOne(items, p)[k] == items[k]
    ensures LineIndex(items, p.id) < 0 ==> AddOne(items, p)[|items|] == CartLine(p, 1)
  {
  }

  /** A removal changes no line's product record and keeps the other lines in
      their order: a line above 1 stays in place with one unit less, and a
      deleted line closes up, every later line moving down by one. */
  lemma RemoveOneLines(items: seq<CartLine>, productId: int)
    ensures var i := LineIndex(items, productId);
      i >= 0 && items[i].quantity > 1 ==>
        && |RemoveOne(items, productId)| == |items|
        && RemoveOne(items, productId)[i] == items[i].(quantity := items[i].quantity - 1)
        && forall k :: 0 <= k < |items| && k != i ==> RemoveOne(items, productId)[k] == items[k]
    ensures var i := LineIndex(items, productId);
      i >= 0 && items[i].quantity <= 1 ==>
        && |RemoveOne(items, productId)| == |items| - 1
        && (forall k :: 0 <= k < i ==> RemoveOne(items, productId)[k] == items[k])
        && forall k :: i < k < |items| ==> RemoveOne(items, productId)[k - 1] == items[k]
  {
  }

  // ---------------------------------------------------------------------------
  // Totals

  lemma {:induction false} CartTotalUpdate(items: seq<CartLine>, i: nat, line: CartLine)
    requires i < |items|
    ensures CartTotal(items[i := line]) == CartTotal(items) - LineTotal(items[i]) + LineTotal(line)
  {
    if i > 0 {
      assert items[i := line][1..] == items[1..][i - 1 := line];
      CartTotalUpdate(items[1..], i - 1, line);
    } else {
      assert items[i := line][1..] == items[1..];
    }
  }

  lemma {:induction false} CartTotalAppend(items: seq<CartLine>, line: CartLine)
    ensures CartTotal(items + [line]) == CartTotal(items) + LineTotal(line)
  {
    if items == [] {
      assert [line][1..] == [];
    } else {
      assert (items + [line])[1..] == items[1..] + [line];
      CartTotalAppend(items[1..], line);
    }
  }

  lemma {:induction false} CartTotalDelete(items: seq<CartLine>, i: nat)
    requires i < |items|
    ensures CartTotal(items[..i] + items[i + 1..]) == CartTotal(items) - LineTotal(items[i])
  {
    if i == 0 {
      assert items[..0] + items[1..] == items[1..];
    } else {
      assert (items[..i] + items[i + 1..])[1..] == items[1..][..i - 1] + items[1..][i..];
      assert (items[..i] + items[i + 1..])[0] == items[0];
      CartTotalDelete(items[1..], i - 1);
    }
  }

  lemma LineTotalStep(line: CartLine, q: nat)
    ensures LineTotal(line.(quantity := q + 1)) == LineTotal(line.(quantity := q)) + line.product.price
  {
    assert (q + 1) as real == q as real + 1.0;
  }

  // ---------------------------------------------------------------------------
  // Quantities

  /** In a well-formed cart, the quantity of a product is that of its line,
      and 0 when it has none. */
  lemma QuantityOf(items: seq<CartLine>, productId: int)
    requires WellFormed(items)
    ensures (forall k :: 0 <= k < |items| ==> items[k].product.id != productId) ==> Quantity(items, productId) == 0
    ensures forall k :: 0 <= k < |items| && items[k].product.id == productId ==> Quantity(items, productId) == items[k].quantity
  {
    forall k | 0 <= k < |items| && items[k].product.id == productId
      ensures Quantity(items, productId) == items[k].quantity
    {
      FirstIndexOfDistinct(LineIds(items), k);
    }
  }

  /** Replacing a line by another line for the same product changes that
      product's quantity to the new line's, no other quantity, and the total
      by the difference of the two lines. */
  lemma UpdateLine(items: seq<CartLine>, i: nat, line: CartLine)
    requires WellFormed(items) && i < |items|
    requires line.product.id == items[i].product.id && line.quantity >= 1
    ensures WellFormed(items[i := line])
    ensures Quantity(items[i := line], line.product.id) == line.quantity
    ensures forall q :: q != line.product.id ==> Quantity(items[i := line], q) == Quantity(items, q)
    ensures CartTotal(items[i := line]) == CartTotal(items) - LineTotal(items[i]) + LineTotal(line)
  {
    var items' := items[i := line];
    assert LineIds(items') == LineIds(items);
    FirstIndexOfDistinct(LineIds(items), i);
    forall q | q != line.product.id
      ensures Quantity(items', q) == Quantity(items, q)
    {
      var j := LineIndex(items, q);
      if j >= 0 {
        assert j != i && items'[j] == items[j];
      }
    }
    CartTotalUpdate(items, i, line);
  }

  /** Appending a line for a product without one sets that product's
      quantity, no other, and adds the line's price × quantity to the total. */
  lemma AppendLine(items: seq<CartLine>, line: CartLine)
    requires WellFormed(items) && line.quantity >= 1 && LineIndex(items, line.product.id) < 0
    ensures WellFormed(items + [line])
    ensures Quantity(items + [line], line.product.id) == line.quantity
    ensures forall q :: q != line.product.id ==> Quantity(items + [line], q) == Quantity(items, q)
    ensures CartTotal(items + [line]) == CartTotal(items) + LineTotal(line)
  {
    var items' := items + [line];
    assert LineIds(items') == LineIds(items) + [line.product.id];
    assert Distinct(LineIds(items'));
    FirstIndexOfDistinct(LineIds(items'), |items|);
    forall q | q != line.product.id
      ensures Quantity(items', q) == Quantity(items, q)
    {
      FirstIndexAppend(LineIds(items), line.product.id, q);
      var j := LineIndex(items, q);
      if j >= 0 {
        assert items'[j] == items[j];
      }
    }
    CartTotalAppend(items, line);
  }

  /** Deleting a line keeps one line per product. */
  lemma DeleteLineWellFormed(items: seq<CartLine>, i: nat)
    requires WellFormed(items) && i < |items|
    ensures WellFormed(items[..i] + items[i + 1..])
    ensures forall k :: 0 <= k < i ==> (items[..i] + items[i + 1..])[k] == items[k]
    ensures forall k :: i < k < |items| ==> (items[..i] + items[i + 1..])[k - 1] == items[k]
  {
    var items' := items[..i] + items[i + 1..];
    forall a, b | 0 <= a < b < |items'|
      ensures LineIds(items')[a] != LineIds(items')[b]
    {
      var a' := if a < i then a else a + 1;
      var b' := if b < i then b else b + 1;
      assert LineIds(items)[a'] != LineIds(items)[b'];
    }
  }

  /** Deleting a line drops its product's quantity to 0 and changes no other. */
  lemma DeleteLineQuantities(items: seq<CartLine>, i: nat)
    requires WellFormed(items) && i < |items|
    ensures Quantity(items[..i] + items[i + 1..], items[i].product.id) == 0
    ensures forall q :: q != items[i].product.id ==> Quantity(items[..i] + items[i + 1..], q) == Quantity(items, q)
  {
    var id := items[i].product.id;
    var items' := items[..i] + items[i + 1..];
    DeleteLineWellFormed(items, i);
    QuantityOf(items', id);
    forall k | 0 <= k < |items'|
      ensures items'[k].product.id != id
    {
      var k' := if k < i then k else k + 1;
      assert LineIds(items)[k'] != LineIds(items)[i];
    }
    forall q | q != id
      ensures Quantity(items', q) == Quantity(items, q)
    {
      QuantityOf(items, q);
      QuantityOf(items', q);
      forall k | 0 <= k < |items| && items[k].product.id == q
        ensures Quantity(items', q) == items[k].quantity
      {
        var k' := if k < i then k else k - 1;
        assert items'[k'] == items[k];
      }
    }
  }

  /** Deleting a line drops its product's quantity to 0, changes no other,
      and subtracts the line's price × quantity from the total. */
  lemma DeleteLine(items: seq<CartLine>, i: nat)
    requires WellFormed(items) && i < |items|
    ensures WellFormed(items[..i] + items[i + 1..])
    ensures Quantity(items[..i] + items[i + 1..], items[i].product.id) == 0
    ensures forall q :: q != items[i].product.id ==> Quantity(items[..i] + items[i + 1..], q) == Quantity(items, q)
    ensures CartTotal(items[..i] + items[i + 1..]) == CartTotal(items) - LineTotal(items[i])
  {
    DeleteLineWellFormed(items, i);
    DeleteLineQuantities(items, i);
    CartTotalDelete(items, i);
  }

  /** `add_to_cart` raises the product's quantity by one and no other, keeps
      the cart well formed, and raises the total by one unit price. */
  lemma AddOneEffect(items: seq<CartLine>, p: Product)
    requires WellFormed(items)
    ensures WellFormed(AddOne(items, p))
    ensures Quantity(AddOne(items, p), p.id) == Quantity(items, p.id) + 1
    ensures forall q :: q != p.id ==> Quantity(AddOne(items, p), q) == Quantity(items, q)
    ensures CartTotal(AddOne(items, p)) == CartTotal(items) + UnitPrice(items, p)
  {
    var i := LineIndex(items, p.id);
    if i >= 0 {
      var oldLine := items[i];
      assert AddOne(items, p) == items[i := oldLine.(quantity := oldLine.quantity + 1)];
      UpdateLine(items, i, oldLine.(quantity := oldLine.quantity + 1));
      LineTotalStep(oldLine, oldLine.quantity);
      assert oldLine.(quantity := oldLine.quantity) == oldLine;
    } else {
      assert AddOne(items, p) == items + [CartLine(p, 1)];
      AppendLine(items, CartLine(p, 1));
      assert LineTotal(CartLine(p, 1)) == p.price;
    }
  }

  /** `remove_from_cart` of a product in the cart lowers its quantity by one
      (deleting the line at 1) and no other, keeps the cart well formed, and
      lowers the total by the line's unit price. */
  lemma RemoveOneEffect(items: seq<CartLine>, productId: int)
    requires WellFormed(items) && LineIndex(items, productId) >= 0
    ensures WellFormed(RemoveOne(items, productId))
    ensures Quantity(RemoveOne(items, productId), productId) == Quantity(items, productId) - 1
    ensures forall q :: q != productId ==> Quantity(RemoveOne(items, productId), q) == Quantity(items, q)
    ensures CartTotal(RemoveOne(items, productId))
         == CartTotal(items) - items[LineIndex(items, productId)].product.price
  {
    var i := LineIndex(items, productId);
    var line := items[i];
    if line.quantity > 1 {
      assert RemoveOne(items, productId) == items[i := line.(quantity := line.quantity - 1)];
      UpdateLine(items, i, line.(quantity := line.quantity - 1));
      LineTotalStep(line, line.quantity - 1);
      assert line.(quantity := line.quantity - 1 + 1) == line;
    } else {
      assert RemoveOne(items, productId) == items[..i] + items[i + 1..];
      DeleteLine(items, i);
      assert LineTotal(line) == line.product.price by {
        assert line.quantity == 1;
      }
    }
  }

  /** A successful `add_to_cart` keeps every line within the catalog's stock. */
  lemma AddOneWithinStock(items: seq<CartLine>, products: seq<Product>, productId: int)
    requires WithinStock(items, products)
    requires AddVerdict(products, items, productId) == Added
    ensures WithinStock(AddOne(items, FindProduct(products, productId).value), products)
  {
    var p := FindProduct(products, productId).value;
    var i := LineIndex(items, productId);
    var items' := AddOne(items, p);
    forall k | 0 <= k < |items'| && FindProduct(products, items'[k].product.id).Some?
      ensures items'[k].quantity <= FindProduct(products, items'[k].product.id).value.quantity
    {
      if i >= 0 && k == i {
        assert items'[k].product.id == productId;
      } else if k < |items| {
        assert items'[k] == items[k];
      } else {
        assert items'[k] == CartLine(p, 1);
      }
    }
  }

  /** `remove_from_cart` keeps every line within the catalog's stock. */
  lemma RemoveOneWithinStock(items: seq<CartLine>, products: seq<Product>, productId: int)
    requires WithinStock(items, products)
    ensures WithinStock(RemoveOne(items, productId), products)
  {
    var i := LineIndex(items, productId);
    var items' := RemoveOne(items, productId);
    forall k | 0 <= k < |items'| && FindProduct(products, items'[k].product.id).Some?
      ensures items'[k].quantity <= FindProduct(products, items'[k].product.id).value.quantity
    {
      if i < 0 || k < i {
        assert items'[k] == items[k];
      } else if items[i].quantity > 1 {
        assert items'[k].product == items[k].product && items'[k].quantity <= items[k].quantity;
      } else {
        assert items'[k] == items[k + 1];
      }
    }
  }

  // ---------------------------------------------------------------------------
  // Whole carts

  /** The cart `add_to_cart` leaves: one more unit of the product with the
      total recomputed, or the cart as it was when the add is refused. */
  function CartAfterAdd(products: seq<Product>, cart: Cart, productId: int): (r: Cart)
    ensures AddVerdict(products, cart.items, productId) != Added ==> r == cart
    ensures AddVerdict(products, cart.items, productId) == Added ==>
      r.total == CartTotal(r.items) && |cart.items| <= |r.items| <= |cart.items| + 1
  {
    if AddVerdict(products, cart.items, productId) != Added then cart
    else
      var items := AddOne(cart.items, FindProduct(products, productId).value);
      Cart(items, CartTotal(items))
  }

  /** The cart `remove_from_cart` leaves: one unit less with the total
      recomputed (0 for no lines), or the cart as it was. */
  function CartAfterRemove(cart: Cart, productId: int): (r: Cart)
    ensures LineIndex(cart.items, productId) < 0 ==> r == cart
    ensures LineIndex(cart.items, productId) >= 0 ==>
      r.total == CartTotal(r.items) && |cart.items| - 1 <= |r.items| <= |cart.items|
  {
    if LineIndex(cart.items, productId) < 0 then cart
    else
      var items := RemoveOne(cart.items, productId);
      Cart(items, if items != [] then CartTotal(items) else 0.0)
  }

  /** An accepted add raises the product's quantity by one and no other, and
      raises the cached total by one unit price; a refused add changes
      nothing. The cart stays valid and within stock. */
  lemma CartAfterAddEffect(products: seq<Product>, cart: Cart, productId: int)
    requires CartValid(cart)
    ensures var r := CartAfterAdd(products, cart, productId);
      && CartValid(r)
      && (WithinStock(cart.items, products) ==> WithinStock(r.items, products))
      && (AddVerdict(products, cart.items, productId) != Added ==> r == cart)
      && (AddVerdict(products, cart.items, productId) == Added ==>
            && Quantity(r.items, productId) == Quantity(cart.items, productId) + 1
            && (forall q :: q != productId ==> Quantity(r.items, q) == Quantity(cart.items, q))
            && r.total == cart.total + UnitPrice(cart.items, FindProduct(products, productId).value))
  {
    if AddVerdict(products, cart.items, productId) == Added {
      var p := FindProduct(products, productId).value;
      AddOneEffect(cart.items, p);
      if WithinStock(cart.items, products) {
        AddOneWithinStock(cart.items, products, productId);
      }
    }
  }

  /** A removal of a product with a line lowers its quantity by one (the line
      goes at 1) and no other, and lowers the cached total by the line's unit
      price; otherwise nothing changes. The cart stays valid and within stock. */
  lemma CartAfterRemoveEffect(products: seq<Product>, cart: Cart, productId: int)
    requires CartValid(cart)
    ensures var r := CartAfterRemove(cart, productId);
      && CartValid(r)
      && (WithinStock(cart.items, products) ==> WithinStock(r.items, products))
      && (LineIndex(cart.items, productId) < 0 ==> r == cart)
      && (LineIndex(cart.items, productId) >= 0 ==>
            && Quantity(r.items, productId) == Quantity(cart.items, productId) - 1
            && (forall q :: q != productId ==> Quantity(r.items, q) == Quantity(cart.items, q))
            && r.total == cart.total - cart.items[LineIndex(cart.items, productId)].product.price)
  {
    if WithinStock(cart.items, products) {
      RemoveOneWithinStock(cart.items, products, productId);
    }
    if LineIndex(cart.items, productId) >= 0 {
      RemoveOneEffect(cart.items, productId);
    }
  }
}
