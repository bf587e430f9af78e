/** The storefront's in-memory database: carts, catalog, user accounts with
    the transaction log, the two pending-payment maps and the settings. Every
    method changes only the fields it names; saving to disk is not modelled. */
module Store {
  import opened Common
  import opened Catalog
  import opened Carts
  import opened Ledger
  import opened Registry

  /** The categories a fresh installation starts with. */
  const DefaultCategories: seq<Category> :=
    [Category(1, "💻 Цифровые услуги"), Category(2, "🎨 Дизайн"), Category(3, "📝 Контент")]

  const DefaultBalanceDiscount: nat := 5
  const DefaultMinDeposit: real := 100.0
  const DefaultMaxDeposit: real := 50000.0

  class Database {
    var carts: map<int, Cart>
    var products: seq<Product>
    var categories: seq<Category>
    var users: map<int, Account>
    var transactions: seq<Transaction>
    var pendingOrders: map<string, PendingOrder>
    var pendingDeposits: map<string, PendingDeposit>
    var balanceDiscount: nat
    var minDeposit: real
    var maxDeposit: real

    /** The accounts and the transaction log, as one ledger value. */
    function Accounts(): LedgerState
      reads this
    {
      LedgerState(users, transactions)
    }

    /** The ledger replays, every cart's total is the sum of its lines, and
        catalog ids are distinct. */
    ghost predicate Valid()
      reads this
    {
      && Consistent(Accounts())
      && (forall u :: u in carts ==> CartValid(carts[u]))
      && Distinct(ProductIds(products))
      && Distinct(CategoryIds(categories))
    }

    /** A database started without saved files. */
    constructor ()
      ensures Valid()
      ensures carts == map[] && products == [] && categories == DefaultCategories
      ensures users == map[] && transactions == []
      ensures pendingOrders == map[] && pendingDeposits == map[]
      ensures balanceDiscount == DefaultBalanceDiscount
      ensures minDeposit == DefaultMinDeposit && maxDeposit == DefaultMaxDeposit
    {
      carts := map[];
      products := [];
      categories := DefaultCategories;
      users := map[];
      transactions := [];
      pendingOrders := map[];
      pendingDeposits := map[];
      balanceDiscount := DefaultBalanceDiscount;
      minDeposit := DefaultMinDeposit;
      maxDeposit := DefaultMaxDeposit;
    }

    // -------------------------------------------------------------------------
    // Accounts

    /** `get_user`: registers an unknown user at zero; a known record comes back unchanged. */
    method GetUser(userId: int) returns (account: Account)
      requires Valid()
      modifies this`users
      ensures Valid()
      ensures Accounts() == Open(old(Accounts()), userId)
      ensures account == AccountOf(old(Accounts()), userId)
      ensures userId in old(users) ==> users == old(users)
    {
      OpenKeepsConsistent(Accounts(), userId);
      if userId !in users {
        users := users[userId := NewAccount];
      }
      account := users[userId];
    }

    method GetUserBalance(userId: int) returns (balance: real)
      requires Valid()
      modifies this`users
      ensures Valid()
      ensures Accounts() == Open(old(Accounts()), userId)
      ensures balance == AccountOf(old(Accounts()), userId).balance
    {
      var account := GetUser(userId);
      balance := account.balance;
    }

    /** `add_balance`: always succeeds. */
    method AddBalance(userId: int, amount: real, description: string) returns (ok: bool)
      requires Valid()
      modifies this`users, this`transactions
      ensures Valid()
      ensures ok
      ensures Accounts() == Credit(old(Accounts()), userId, amount, description)
    {
      ghost var before := Accounts();
      var account := GetUser(userId);
      users := users[userId := account.(balance := account.balance + amount)];
      transactions := transactions + [Transaction(|transactions| + 1, userId, Deposit, amount, description)];
      assert Accounts() == Credit(before, userId, amount, description);
      CreditKeepsConsistent(before, userId, amount, description);
      ok := true;
    }

    /** `deduct_balance`: refuses a short balance, otherwise moves balance,
        spend and order count and logs a purchase. */
    method DeductBalance(userId: int, amount: real, description: string) returns (ok: bool, message: string)
      requires Valid()
      modifies this`users, this`transactions
      ensures Valid()
      ensures ok <==> CanDebit(old(Accounts()), userId, amount)
      ensures Accounts() == Debit(old(Accounts()), userId, amount, description)
      ensures message == if ok then "Оплата прошла успешно" else "Недостаточно средств на балансе"
    {
      ghost var before := Accounts();
      DebitKeepsConsistent(before, userId, amount, description);
      var account := GetUser(userId);
      if account.balance < amount {
        return false, "Недостаточно средств на балансе";
      }
      users := users[userId := Account(account.balance - amount, account.totalSpent + amount, account.totalOrders + 1)];
      transactions := transactions + [Transaction(|transactions| + 1, userId, Purchase, -amount, description)];
      assert Accounts() == Debit(before, userId, amount, description);
      ok, message := true, "Оплата прошла успешно";
    }

    // -------------------------------------------------------------------------
    // Pending payments

    method AddPendingDeposit(depositId: string, deposit: PendingDeposit)
      requires Valid()
      modifies this`pendingDeposits
      ensures Valid()
      ensures pendingDeposits == old(pendingDeposits)[depositId := deposit]
    {
      pendingDeposits := pendingDeposits[depositId := deposit];
    }

    function GetPendingDeposit(depositId: string): (r: Option<PendingDeposit>)
      reads this
      ensures r.Some? <==> depositId in pendingDeposits
      ensures r.Some? ==> r.value == pendingDeposits[depositId]
    {
      if depositId in pendingDeposits then Some(pendingDeposits[depositId]) else None
    }

    method RemovePendingDeposit(depositId: string)
      requires Valid()
      modifies this`pendingDeposits
      ensures Valid()
      ensures pendingDeposits == old(pendingDeposits) - {depositId}
    {
      if depositId in pendingDeposits {
        pendingDeposits := pendingDeposits - {depositId};
      }
    }

    method AddPendingOrder(orderId: string, order: PendingOrder)
      requires Valid()
      modifies this`pendingOrders
      ensures Valid()
      ensures pendingOrders == old(pendingOrders)[orderId := order]
    {
      pendingOrders := pendingOrders[orderId := order];
    }

    function GetPendingOrder(orderId: string): (r: Option<PendingOrder>)
      reads this
      ensures r.Some? <==> orderId in pendingOrders
      ensures r.Some? ==> r.value == pendingOrders[orderId]
    {
      if orderId in pendingOrders then Some(pendingOrders[orderId]) else None
    }

    method RemovePendingOrder(orderId: string)
      requires Valid()
      modifies this`pendingOrders
      ensures Valid()
      ensures pendingOrders == old(pendingOrders) - {orderId}
    {
      if orderId in pendingOrders {
        pendingOrders := pendingOrders - {orderId};
      }
    }

    // -------------------------------------------------------------------------
    // Catalog

    /** `add_category`: the new category gets an id above every existing one. */
    method AddCategory(name: string) returns (id: int)
      requires Valid()
      modifies this`categories
      ensures Valid()
      ensures id == NextId(CategoryIds(old(categories)))
      ensures forall c :: c in old(categories) ==> c.id < id
      ensures categories == old(categories) + [Category(id, name)]
    {
      id := NextId(CategoryIds(categories));
      NextIdKeepsDistinct(CategoryIds(categories));
      assert CategoryIds(categories + [Category(id, name)]) == CategoryIds(categories) + [id];
      categories := categories + [Category(id, name)];
    }

    /** `add_product`: the new product gets an id above every existing one. */
    method AddProduct(categoryId: int, name: string, price: real, description: string := "",
                      quantity: int := DefaultStock)
      returns (id: int)
      requires Valid()
      modifies this`products
      ensures Valid()
      ensures id == NextId(ProductIds(old(products)))
      ensures forall p :: p in old(products) ==> p.id < id
      ensures products == old(products) + [Product(id, categoryId, name, price, description, quantity)]
    {
      id := NextId(ProductIds(products));
      NextIdKeepsDistinct(ProductIds(products));
      var p := Product(id, categoryId, name, price, description, quantity);
      assert ProductIds(products + [p]) == ProductIds(products) + [id];
      products := products + [p];
    }

    /** `delete_product`: answers whether a product with that id was removed. */
    method DeleteProduct(productId: int) returns (removed: bool)
      requires Valid()
      modifies this`products
      ensures Valid()
      ensures products == WithoutProduct(old(products), productId)
      ensures removed <==> FindProduct(old(products), productId).Some?
      ensures forall p :: p in products <==> p in old(products) && p.id != productId
      ensures forall i :: 0 <= i < |old(products)| && old(products)[i].id == productId ==>
        products == old(products)[..i] + old(products)[i + 1..]
    {
      var initialLength := |products|;
      forall i | 0 <= i < |products| && products[i].id == productId
        ensures WithoutProduct(products, productId) == products[..i] + products[i + 1..]
      {
        WithoutProductAt(products, i);
      }
      FilterKeepsDistinct(products, (p: Product) => p.id != productId);
      products := WithoutProduct(products, productId);
      removed := |products| < initialLength;
    }

    // -------------------------------------------------------------------------
    // Carts

    /** `get_cart`: creates an empty cart for a user who has none. */
    method GetCart(userId: int) returns (cart: Cart)
      requires Valid()
      modifies this`carts
      ensures Valid()
      ensures cart == CartOf(old(carts), userId)
      ensures carts == old(carts)[userId := cart]
      ensures userId in old(carts) ==> carts == old(carts)
    {
      if userId !in carts {
        carts := carts[userId := EmptyCart];
      }
      cart := carts[userId];
    }

    /** `add_to_cart`: the outcome is `AddVerdict` and the user's cart becomes
        `CartAfterAdd` of the old one; no other cart changes. */
    method AddToCart(userId: int, productId: int) returns (status: AddStatus)
      requires Valid()
      modifies this`carts
      ensures Valid()
      ensures status == AddVerdict(products, CartOf(old(carts), userId).items, productId)
      ensures carts == old(carts)[userId := CartAfterAdd(products, CartOf(old(carts), userId), productId)]
    {
      var cart := CartOf(carts, userId);
      status := AddVerdict(products, cart.items, productId);
      assert CartValid(CartAfterAdd(products, cart, productId)) by {
        CartAfterAddEffect(products, cart, productId);
      }
      if status == Added {
        var items := AddOne(cart.items, FindProduct(products, productId).value);
        cart := Cart(items, CartTotal(items));
      }
      // `get_cart` stores the cart even when the add is refused
      carts := carts[userId := cart];
    }

    /** `remove_from_cart`: true exactly when the product has a line; the
        user's cart becomes `CartAfterRemove` of the old one. */
    method RemoveFromCart(userId: int, productId: int) returns (removed: bool)
      requires Valid()
      modifies this`carts
      ensures Valid()
      ensures removed <==> LineIndex(CartOf(old(carts), userId).items, productId) >= 0
      ensures carts == old(carts)[userId := CartAfterRemove(CartOf(old(carts), userId), productId)]
    {
      var before := CartOf(carts, userId);
      var cart := before;
      removed := LineIndex(cart.items, productId) >= 0;
      if removed {
        var items := RemoveOne(cart.items, productId);
        cart := Cart(items, if items != [] then CartTotal(items) else 0.0);
      }
      assert cart == CartAfterRemove(before, productId);
      assert CartValid(cart) by {
        CartAfterRemoveEffect(products, before, productId);
      }
      // `get_cart` stores the cart even when nothing is removed
      carts := carts[userId := cart];
    }

    /** `clear_cart`: empties an existing cart and creates none. */
    method ClearCart(userId: int)
      requires Valid()
      modifies this`carts
      ensures Valid()
      ensures carts == if userId in old(carts) then old(carts)[userId := EmptyCart] else old(carts)
    {
      if userId in carts {
        carts := carts[userId := EmptyCart];
      }
    }
  }
}
