/** The state changes the chat handlers make on the database, with the
    messaging taken out: the deposit amount check, the start of a deposit or
    an externally paid purchase, the screenshot that files a pending payment,
    checkout from the balance, and the four admin decisions on pending
    payments. */
module Handlers {
  import opened Common
  import opened Carts
  import opened Ledger
  import opened Registry
  import opened Store

  /** The users allowed to decide on pending payments. */
  const AdminIds: set<int> := {1824049351, 5568154436}

  /** Payment method keys and the names shown for them. */
  const PaymentNames: map<string, string> := map["sber" := "СБП (Озон Банк)", "yoomoney" := "ЮMoney"]

  /** The amount every deposit is filed with, whatever the user entered. */
  const PlaceholderDepositAmount: real := 1000.0

  /** The payment method a balance-paid order is filed with. */
  const BalanceMethod := "Баланс бота"

  /** A rejected order is refunded when its payment method contains this. */
  const BalanceMarker := "Баланс"

  const NoUsername := "без username"

  const DepositConfirmedNote := "Пополнение подтверждено администратором"

  function RefundNote(orderId: string): string
  {
    "Возврат средств по отмененному заказу " + orderId
  }

  function PaymentNote(orderId: string, percent: nat): string
  {
    "Оплата заказа " + orderId + " (скидка " + NatToString(percent) + "%)"
  }

  /** `username or "без username"`: a missing or empty handle gets the placeholder. */
  function DisplayName(username: Option<string>): (r: string)
    ensures r != ""
    ensures username.Some? && username.value != "" ==> r == username.value
    ensures !(username.Some? && username.value != "") ==> r == NoUsername
  {
    if username.Some? && username.value != "" then username.value else NoUsername
  }

  // ---------------------------------------------------------------------------
  // Deposits and purchases up to the pending registry

  datatype AmountVerdict = TooSmall | TooLarge | AmountAccepted

  /** The limit check of `handle_deposit_amount`, below-minimum first. */
  function CheckDepositAmount(amount: real, minDeposit: real, maxDeposit: real): (r: AmountVerdict)
    ensures r == AmountAccepted <==> minDeposit <= amount <= maxDeposit
    ensures r == TooSmall <==> amount < minDeposit
    ensures r == TooLarge <==> minDeposit <= amount && maxDeposit < amount
  {
    if amount < minDeposit then TooSmall
    else if amount > maxDeposit then TooLarge
    else AmountAccepted
  }

  /** The payment data kept between choosing a method and sending the screenshot. */
  datatype PaymentDraft =
    | DepositDraft(userId: int, username: string, amount: real, paymentName: string, transactionId: string)
    | PurchaseDraft(userId: int, username: string, paymentName: string, orderId: string,
                    total: real, items: seq<OrderItem>)

  datatype Start = Ready(draft: PaymentDraft) | UnknownMethod | CartIsEmpty

  /** `handle_deposit_method`: a known method yields a deposit draft, and its
      amount is the placeholder: the amount checked before does not reach it. */
  function StartDeposit(userId: int, username: Option<string>, methodKey: string, transactionId: string): (r: Start)
    ensures r.Ready? <==> methodKey in PaymentNames
    ensures !r.Ready? ==> r == UnknownMethod
    ensures r.Ready? ==>
      && r.draft.DepositDraft?
      && r.draft.amount == PlaceholderDepositAmount
      && r.draft.paymentName == PaymentNames[methodKey]
      && r.draft.userId == userId && r.draft.transactionId == transactionId
      && r.draft.username == DisplayName(username)
  {
    if methodKey !in PaymentNames then UnknownMethod
    else Ready(DepositDraft(userId, DisplayName(username), PlaceholderDepositAmount,
                            PaymentNames[methodKey], transactionId))
  }

  /** `handle_external_payment`: an unknown method is refused before the cart
      is looked at; an empty cart is refused; otherwise the draft carries a
      copy of the cart's lines and its total, which agree. */
  method StartExternalPayment(db: Database, userId: int, username: Option<string>,
                              methodKey: string, orderId: string) returns (r: Start)
    requires db.Valid()
    modifies db`carts
    ensures db.Valid()
    ensures methodKey !in PaymentNames ==> r == UnknownMethod && db.carts == old(db.carts)
    ensures methodKey in PaymentNames ==>
      var c := CartOf(old(db.carts), userId);
      && db.carts == old(db.carts)[userId := c]
      && (c.items == [] <==> r == CartIsEmpty)
      && (c.items != [] ==>
            r == Ready(PurchaseDraft(userId, DisplayName(username), PaymentNames[methodKey], orderId,
                                     c.total, OrderItems(c.items))))
    ensures r.Ready? ==> ItemsTotal(r.draft.items) == r.draft.total
  {
    if methodKey !in PaymentNames {
      return UnknownMethod;
    }
    var cart := db.GetCart(userId);
    if cart.items == [] {
      return CartIsEmpty;
    }
    OrderItemsTotal(cart.items);
    r := Ready(PurchaseDraft(userId, DisplayName(username), PaymentNames[methodKey], orderId,
                             cart.total, OrderItems(cart.items)));
  }

  /** `handle_payment_screenshot`: files the draft in the pending registry
      (the `add_pending_*` step of sending it to the admins' channel); a
      purchase also empties the user's cart. No account changes. */
  method SubmitScreenshot(db: Database, draft: PaymentDraft)
    requires db.Valid()
    modifies db`pendingDeposits, db`pendingOrders, db`carts
    ensures db.Valid()
    ensures draft.DepositDraft? ==>
      && db.pendingDeposits == old(db.pendingDeposits)[draft.transactionId :=
           PendingDeposit(draft.userId, draft.username, draft.amount, draft.paymentName, draft.transactionId)]
      && db.pendingOrders == old(db.pendingOrders)
      && db.carts == old(db.carts)
    ensures draft.PurchaseDraft? ==>
      && db.pendingOrders == old(db.pendingOrders)[draft.orderId :=
           PendingOrder(draft.userId, draft.username, draft.orderId, draft.total, draft.paymentName,
                        draft.items, None)]
      && db.pendingDeposits == old(db.pendingDeposits)
      && db.carts == if draft.userId in old(db.carts) then old(db.carts)[draft.userId := EmptyCart] else old(db.carts)
  {
    match draft
    case DepositDraft(userId, username, amount, paymentName, transactionId) =>
      db.AddPendingDeposit(transactionId, PendingDeposit(userId, username, amount, paymentName, transactionId));
    case PurchaseDraft(userId, username, paymentName, orderId, total, items) =>
      db.AddPendingOrder(orderId, PendingOrder(userId, username, orderId, total, paymentName, items, None));
      db.ClearCart(userId);
  }

  // ---------------------------------------------------------------------------
  // Checkout from the balance

  function DiscountAmount(total: real, percent: nat): real
  {
    total * (percent as real) / 100.0
  }

  /** The amount a balance checkout charges: the cart total less the discount,
      which is the total scaled to the remaining percentage. */
  function DiscountedTotal(total: real, percent: nat): (r: real)
    ensures r * 100.0 == total * (100.0 - percent as real)
    ensures r + DiscountAmount(total, percent) == total
    ensures percent == 0 ==> r == total
  {
    total - DiscountAmount(total, percent)
  }

  /** A discount of at most 100% on a non-negative total charges between 0 and the total. */
  lemma DiscountedTotalBounds(total: real, percent: nat)
    requires 0.0 <= total && percent <= 100
    ensures 0.0 <= DiscountedTotal(total, percent) <= total
  {
    var p := percent as real;
    assert 0.0 <= total * p by {
      assert 0.0 <= p;
    }
    assert total * p <= total * 100.0 by {
      assert total * (100.0 - p) >= 0.0;
    }
  }

  /** The pending order a balance checkout files: charged the discounted
      total, marked as paid from the balance (so a rejection refunds it),
      recording the discount, and carrying a copy of the cart's lines that
      adds up to the undiscounted total. */
  function BalanceOrder(userId: int, username: string, orderId: string, cart: Cart, percent: nat): (r: PendingOrder)
    ensures r.userId == userId && r.username == username && r.orderId == orderId
    ensures r.total == DiscountedTotal(cart.total, percent)
    ensures Contains(r.paymentMethod, BalanceMarker)
    ensures r.discount.Some? && r.discount.value.percent == percent && r.discount.value.originalTotal == cart.total
    ensures r.discount.value.amount + r.total == cart.total
    ensures ItemsTotal(r.items) == CartTotal(cart.items)
  {
    RefundableMethods();
    OrderItemsTotal(cart.items);
    PendingOrder(userId, username, orderId, DiscountedTotal(cart.total, percent), BalanceMethod,
                 OrderItems(cart.items), Some(Discount(percent, DiscountAmount(cart.total, percent), cart.total)))
  }

  datatype Checkout = Paid(amount: real) | Declined(message: string)

  /** `handle_confirm_balance_payment`: debits the discounted cart total first;
      only when that succeeds is the order filed and the cart emptied. The cart
      is not checked for emptiness here. */
  method ConfirmBalancePayment(db: Database, userId: int, username: Option<string>, orderId: string)
    returns (r: Checkout)
    requires db.Valid()
    modifies db`carts, db`users, db`transactions, db`pendingOrders
    ensures db.Valid()
    ensures db.balanceDiscount == old(db.balanceDiscount)
    ensures r.Paid? <==> CanDebit(old(db.Accounts()), userId, DiscountedTotal(CartOf(old(db.carts), userId).total, db.balanceDiscount))
    ensures db.Accounts() == Debit(old(db.Accounts()), userId, DiscountedTotal(CartOf(old(db.carts), userId).total, db.balanceDiscount),
                                   PaymentNote(orderId, db.balanceDiscount))
    ensures r.Declined? ==>
      && db.pendingOrders == old(db.pendingOrders)
      && db.carts == old(db.carts)[userId := CartOf(old(db.carts), userId)]
    ensures r.Paid? ==>
      && r.amount == DiscountedTotal(CartOf(old(db.carts), userId).total, db.balanceDiscount)
      && db.pendingOrders == old(db.pendingOrders)[orderId :=
           BalanceOrder(userId, DisplayName(username), orderId, CartOf(old(db.carts), userId), db.balanceDiscount)]
      && db.carts == old(db.carts)[userId := EmptyCart]
  {
    var cart, ok, message := ChargeCart(db, userId, orderId);
    if !ok {
      return Declined(message);
    }
    FileBalanceOrder(db, userId, orderId, BalanceOrder(userId, DisplayName(username), orderId, cart, db.balanceDiscount),
                     old(db.carts));
    r := Paid(DiscountedTotal(cart.total, db.balanceDiscount));
  }

  /** The first part of a balance checkout: the user's cart (created when
      missing) is charged at the discounted total. */
  method ChargeCart(db: Database, userId: int, orderId: string) returns (cart: Cart, ok: bool, message: string)
    requires db.Valid()
    modifies db`carts, db`users, db`transactions
    ensures db.Valid()
    ensures cart == CartOf(old(db.carts), userId)
    ensures db.carts == old(db.carts)[userId := CartOf(old(db.carts), userId)]
    ensures ok <==> CanDebit(old(db.Accounts()), userId, DiscountedTotal(cart.total, db.balanceDiscount))
    ensures db.Accounts() == Debit(old(db.Accounts()), userId, DiscountedTotal(cart.total, db.balanceDiscount),
                                   PaymentNote(orderId, db.balanceDiscount))
  {
    cart := db.GetCart(userId);
    ok, message := db.DeductBalance(userId, DiscountedTotal(cart.total, db.balanceDiscount), PaymentNote(orderId, db.balanceDiscount));
  }

  /** The part of a paid balance checkout after the debit: the order is
      filed and the user's cart emptied. */
  method FileBalanceOrder(db: Database, userId: int, orderId: string, order: PendingOrder,
                          ghost carts: map<int, Cart>)
    requires db.Valid() && db.carts == carts[userId := CartOf(carts, userId)]
    modifies db`carts, db`pendingOrders
    ensures db.Valid()
    ensures db.pendingOrders == old(db.pendingOrders)[orderId := order]
    ensures db.carts == carts[userId := EmptyCart]
  {
    db.AddPendingOrder(orderId, order);
    db.ClearCart(userId);
  }

  /** The balance button sends `pay_balance`, which the external-payment
      handler receives with the method key "balance": not a configured key,
      so `StartExternalPayment` answers `UnknownMethod`. */
  lemma BalanceButtonKeyIsUnknown()
    ensures "balance" !in PaymentNames
  {
  }

  /** Orders filed by a balance checkout are the ones a rejection refunds;
      orders paid by an external method are never refunded. */
  lemma RefundableMethods()
    ensures Contains(BalanceMethod, BalanceMarker)
    ensures forall key :: key in PaymentNames ==> !Contains(PaymentNames[key], BalanceMarker)
  {
    assert BalanceMethod[0..|BalanceMarker|] == BalanceMarker;
    assert WindowAt(BalanceMethod, BalanceMarker, 0);
    forall key | key in PaymentNames
      ensures !Contains(PaymentNames[key], BalanceMarker)
    {
      var name := PaymentNames[key];
      forall i | 0 <= i <= |name| - |BalanceMarker|
        ensures !WindowAt(name, BalanceMarker, i)
      {
        assert name[i..i + |BalanceMarker|][0] == name[i];
        assert name[i..i + |BalanceMarker|][1] == name[i + 1];
      }
    }
  }

  // ---------------------------------------------------------------------------
  // Admin decisions on pending payments

  datatype Decision = AccessDenied | NotFound | Done

  /** `handle_confirm_deposit`: credits the filed amount, then drops the entry. */
  method ConfirmDeposit(db: Database, caller: int, transactionId: string) returns (r: Decision)
    requires db.Valid()
    modifies db`users, db`transactions, db`pendingDeposits
    ensures db.Valid()
    ensures caller !in AdminIds ==> r == AccessDenied && unchanged(db)
    ensures caller in AdminIds && transactionId !in old(db.pendingDeposits) ==> r == NotFound && unchanged(db)
    ensures caller in AdminIds && transactionId in old(db.pendingDeposits) ==>
      var d := old(db.pendingDeposits)[transactionId];
      && r == Done
      && db.Accounts() == Credit(old(db.Accounts()), d.userId, d.amount, DepositConfirmedNote)
      && db.pendingDeposits == old(db.pendingDeposits) - {transactionId}
  {
    if caller !in AdminIds {
      return AccessDenied;
    }
    var found := db.GetPendingDeposit(transactionId);
    if found.None? {
      return NotFound;
    }
    var d := found.value;
    var _ := db.AddBalance(d.userId, d.amount, DepositConfirmedNote);
    db.RemovePendingDeposit(transactionId);
    r := Done;
  }

  /** `handle_reject_deposit`: drops the entry; nothing is credited. */
  method RejectDeposit(db: Database, caller: int, transactionId: string) returns (r: Decision)
    requires db.Valid()
    modifies db`pendingDeposits
    ensures db.Valid()
    ensures caller !in AdminIds ==> r == AccessDenied && unchanged(db)
    ensures caller in AdminIds && transactionId !in old(db.pendingDeposits) ==> r == NotFound && unchanged(db)
    ensures caller in AdminIds && transactionId in old(db.pendingDeposits) ==>
      r == Done && db.pendingDeposits == old(db.pendingDeposits) - {transactionId}
  {
    if caller !in AdminIds {
      return AccessDenied;
    }
    var found := db.GetPendingDeposit(transactionId);
    if found.None? {
      return NotFound;
    }
    db.RemovePendingDeposit(transactionId);
    r := Done;
  }

  /** `handle_confirm_order`: drops the entry; the order was paid or its cart
      emptied when it was filed, so nothing else changes. */
  method ConfirmOrder(db: Database, caller: int, orderId: string) returns (r: Decision)
    requires db.Valid()
    modifies db`pendingOrders
    ensures db.Valid()
    ensures caller !in AdminIds ==> r == AccessDenied && unchanged(db)
    ensures caller in AdminIds && orderId !in old(db.pendingOrders) ==> r == NotFound && unchanged(db)
    ensures caller in AdminIds && orderId in old(db.pendingOrders) ==>
      r == Done && db.pendingOrders == old(db.pendingOrders) - {orderId}
  {
    if caller !in AdminIds {
      return AccessDenied;
    }
    var found := db.GetPendingOrder(orderId);
    if found.None? {
      return NotFound;
    }
    db.RemovePendingOrder(orderId);
    r := Done;
  }

  /** `handle_reject_order`: refunds the order total when its payment method
      names the balance, then drops the entry. */
  method RejectOrder(db: Database, caller: int, orderId: string) returns (r: Decision)
    requires db.Valid()
    modifies db`users, db`transactions, db`pendingOrders
    ensures db.Valid()
    ensures caller !in AdminIds ==> r == AccessDenied && unchanged(db)
    ensures caller in AdminIds && orderId !in old(db.pendingOrders) ==> r == NotFound && unchanged(db)
    ensures caller in AdminIds && orderId in old(db.pendingOrders) ==>
      var o := old(db.pendingOrders)[orderId];
      && r == Done
      && db.Accounts() == (if Contains(o.paymentMethod, BalanceMarker)
                           then Credit(old(db.Accounts()), o.userId, o.total, RefundNote(orderId))
                           else old(db.Accounts()))
      && db.pendingOrders == old(db.pendingOrders) - {orderId}
  {
    if caller !in AdminIds {
      return AccessDenied;
    }
    var found := db.GetPendingOrder(orderId);
    if found.None? {
      return NotFound;
    }
    var o := found.value;
    if Contains(o.paymentMethod, BalanceMarker) {
      var _ := db.AddBalance(o.userId, o.total, RefundNote(orderId));
    }
    db.RemovePendingOrder(orderId);
    r := Done;
  }

  // ---------------------------------------------------------------------------
  // Decision sequences

  /** An admin pressing "confirm" twice on the same deposit: the second press
      finds nothing, so the amount is credited at most once. */
  method ConfirmDepositTwice(db: Database, admin: int, transactionId: string)
    returns (first: Decision, second: Decision)
    requires db.Valid() && admin in AdminIds
    modifies db`users, db`transactions, db`pendingDeposits
    ensures db.Valid()
    ensures (first == Done) == (transactionId in old(db.pendingDeposits))
    ensures second == NotFound
    ensures transactionId !in db.pendingDeposits
    ensures first == Done ==>
      var d := old(db.pendingDeposits)[transactionId];
      db.Accounts() == Credit(old(db.Accounts()), d.userId, d.amount, DepositConfirmedNote)
    ensures first != Done ==> db.Accounts() == old(db.Accounts())
  {
    first := ConfirmDeposit(db, admin, transactionId);
    second := ConfirmDeposit(db, admin, transactionId);
  }

  /** A balance checkout that an admin then rejects: the balance comes back,
      the spend and order count the debit added stay, and the emptied cart
      is not restored. */
  method BalanceCheckoutRejected(db: Database, userId: int, username: Option<string>, orderId: string, admin: int)
    returns (paid: Checkout, decision: Decision)
    requires db.Valid() && admin in AdminIds
    modifies db`carts, db`users, db`transactions, db`pendingOrders
    ensures db.Valid()
    ensures paid.Paid? ==>
      var a := AccountOf(old(db.Accounts()), userId);
      && decision == Done
      && AccountOf(db.Accounts(), userId) == Account(a.balance, a.totalSpent + paid.amount, a.totalOrders + 1)
      && |db.transactions| == |old(db.transactions)| + 2
      && userId in db.carts && db.carts[userId] == EmptyCart
      && orderId !in db.pendingOrders
  {
    paid := ConfirmBalancePayment(db, userId, username, orderId);
    RefundableMethods();
    decision := RejectOrder(db, admin, orderId);
    if paid.Paid? {
      DebitThenRefund(old(db.Accounts()), userId, paid.amount,
                      PaymentNote(orderId, db.balanceDiscount), RefundNote(orderId));
    }
  }
}
