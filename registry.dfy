/** The records kept in the two pending-payment maps (keyed by the deposit's
    transaction id and by the order id), and the item list an order carries:
    a copy of the cart's lines taken when the order is placed. */
module Registry {
  import opened Common
  import opened Carts

  datatype PendingDeposit = PendingDeposit(userId: int, username: string, amount: real,
                                           methodName: string, transactionId: string)

  datatype OrderItem = OrderItem(id: int, name: string, price: real, quantity: nat)

  /** What a balance-paid order records about its discount. */
  datatype Discount = Discount(percent: nat, amount: real, originalTotal: real)

  datatype PendingOrder = PendingOrder(userId: int, username: string, orderId: string, total: real,
                                       paymentMethod: string, items: seq<OrderItem>,
                                       discount: Option<Discount>)

  function ItemOf(line: CartLine): OrderItem
  {
    OrderItem(line.product.id, line.product.name, line.product.price, line.quantity)
  }

  /** The `items_list` both checkout paths build from the cart's lines. */
  function OrderItems(lines: seq<CartLine>): (r: seq<OrderItem>)
    ensures |r| == |lines|
    ensures forall k :: 0 <= k < |lines| ==> r[k] == ItemOf(lines[k])
  {
    seq(|lines|, k requires 0 <= k < |lines| => ItemOf(lines[k]))
  }

  /** Σ price × quantity over an item list. */
  function ItemsTotal(items: seq<OrderItem>): real
  {
    if items == [] then 0.0 else items[0].price * (items[0].quantity as real) + ItemsTotal(items[1..])
  }

  /** The copied item list adds up to the cart total it was taken from. */
  lemma {:induction false} OrderItemsTotal(lines: seq<CartLine>)
    ensures ItemsTotal(OrderItems(lines)) == CartTotal(lines)
  {
    if lines != [] {
      assert OrderItems(lines)[1..] == OrderItems(lines[1..]);
      OrderItemsTotal(lines[1..]);
    }
  }
}
