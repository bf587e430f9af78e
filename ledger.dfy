/** The account half of the storefront database: a record per user created on
    first use, and one append-only transaction log shared by all users. A
    credit always succeeds; a debit fails, changing nothing, when the balance
    is short. */
module Ledger {

  datatype TxKind = Deposit | Purchase

  /** A log entry. Deposits carry the credited amount, purchases the negated
      debited amount. */
  datatype Transaction = Transaction(id: int, userId: int, kind: TxKind, amount: real, description: string)

  datatype Account = Account(balance: real, totalSpent: real, totalOrders: nat)

  /** The user records together with the transaction log. */
  datatype LedgerState = LedgerState(users: map<int, Account>, transactions: seq<Transaction>)

  /** The record `get_user` creates for an unknown id. */
  const NewAccount := Account(0.0, 0.0, 0)

  function AccountOf(l: LedgerState, userId: int): Account
  {
    if userId in l.users then l.users[userId] else NewAccount
  }

  /** `get_user`: the ledger with `userId` registered; an existing record is kept as it is. */
  function Open(l: LedgerState, userId: int): (r: LedgerState)
    ensures r.transactions == l.transactions
    ensures r.users.Keys == l.users.Keys + {userId}
    ensures forall u :: u in l.users ==> r.users[u] == l.users[u]
    ensures userId !in l.users ==> r.users[userId] == NewAccount
  {
    if userId in l.users then l else l.(users := l.users[userId := NewAccount])
  }

  /** The entry a ledger operation appends: its id is the log length plus one. */
  function NextTransaction(l: LedgerState, userId: int, kind: TxKind, amount: real, description: string): Transaction
  {
    Transaction(|l.transactions| + 1, userId, kind, amount, description)
  }

  /** `add_balance`. */
  function Credit(l: LedgerState, userId: int, amount: real, description: string): (r: LedgerState)
    ensures r.users.Keys == l.users.Keys + {userId}
    ensures |r.transactions| == |l.transactions| + 1 && r.transactions[..|l.transactions|] == l.transactions
    ensures AccountOf(r, userId).balance == AccountOf(l, userId).balance + amount
  {
    var a := AccountOf(l, userId);
    LedgerState(l.users[userId := a.(balance := a.balance + amount)],
           l.transactions + [NextTransaction(l, userId, Deposit, amount, description)])
  }

  /** The condition under which `deduct_balance` goes ahead. */
  predicate CanDebit(l: LedgerState, userId: int, amount: real)
  {
    AccountOf(l, userId).balance >= amount
  }

  /** `deduct_balance`: on a short balance only the lazy account creation remains. */
  function Debit(l: LedgerState, userId: int, amount: real, description: string): (r: LedgerState)
    ensures r.users.Keys == l.users.Keys + {userId}
    ensures |r.transactions| == |l.transactions| + (if CanDebit(l, userId, amount) then 1 else 0)
    ensures r.transactions[..|l.transactions|] == l.transactions
    ensures AccountOf(r, userId).balance == AccountOf(l, userId).balance - (if CanDebit(l, userId, amount) then amount else 0.0)
    ensures CanDebit(l, userId, amount) ==> AccountOf(r, userId).balance >= 0.0
  {
    if !CanDebit(l, userId, amount) then Open(l, userId)
    else
      var a := AccountOf(l, userId);
      LedgerState(l.users[userId := Account(a.balance - amount, a.totalSpent + amount, a.totalOrders + 1)],
             l.transactions + [NextTransaction(l, userId, Purchase, -amount, description)])
  }

  // ---------------------------------------------------------------------------
  // The log determines every account

  /** Sum of the amounts of the user's entries. */
  function BalanceOf(txs: seq<Transaction>, userId: int): real
  {
    if txs == [] then 0.0
    else
      var t := txs[|txs| - 1];
      BalanceOf(txs[..|txs| - 1], userId) + (if t.userId == userId then t.amount else 0.0)
  }

  /** Sum of the debited amounts of the user's purchase entries. */
  function SpentOf(txs: seq<Transaction>, userId: int): real
  {
    if txs == [] then 0.0
    else
      var t := txs[|txs| - 1];
      SpentOf(txs[..|txs| - 1], userId) + (if t.userId == userId && t.kind == Purchase then -t.amount else 0.0)
  }

  /** Number of the user's purchase entries. */
  function OrdersOf(txs: seq<Transaction>, userId: int): nat
  {
    if txs == [] then 0
    else
      var t := txs[|txs| - 1];
      OrdersOf(txs[..|txs| - 1], userId) + (if t.userId == userId && t.kind == Purchase then 1 else 0)
  }

  /** The account the log alone yields for a user. */
  function Replay(txs: seq<Transaction>, userId: int): Account
  {
    Account(BalanceOf(txs, userId), SpentOf(txs, userId), OrdersOf(txs, userId))
  }

  /** Entry ids run 1..n in log order, every entry belongs to a known user,
      and every user's record is what replaying the log gives. */
  predicate Consistent(l: LedgerState)
  {
    && (forall i :: 0 <= i < |l.transactions| ==> l.transactions[i].id == i + 1)
    && (forall i :: 0 <= i < |l.transactions| ==> l.transactions[i].userId in l.users)
    && (forall u :: u in l.users ==> l.users[u] == Replay(l.transactions, u))
  }

  /** A user with no entries replays to a fresh account. */
  lemma {:induction false} ReplayOfStranger(txs: seq<Transaction>, userId: int)
    requires forall i :: 0 <= i < |txs| ==> txs[i].userId != userId
    ensures Replay(txs, userId) == NewAccount
  {
    if txs != [] {
      var init := txs[..|txs| - 1];
      assert forall i :: 0 <= i < |init| ==> init[i] == txs[i];
      ReplayOfStranger(init, userId);
    }
  }

  /** Appending one entry changes only its own user's replay, by its own amount. */
  lemma ReplayAppend(txs: seq<Transaction>, t: Transaction, userId: int)
    ensures Replay(txs + [t], userId) ==
      if t.userId != userId then Replay(txs, userId)
      else if t.kind == Deposit then Replay(txs, userId).(balance := BalanceOf(txs, userId) + t.amount)
      else Account(BalanceOf(txs, userId) + t.amount, SpentOf(txs, userId) - t.amount, OrdersOf(txs, userId) + 1)
  {
    assert (txs + [t])[..|txs|] == txs;
  }

  /** In a consistent ledger every user's record, registered or not, is the replay of the log. */
  lemma AccountIsReplay(l: LedgerState, userId: int)
    requires Consistent(l)
    ensures AccountOf(l, userId) == Replay(l.transactions, userId)
  {
    if userId !in l.users {
      ReplayOfStranger(l.transactions, userId);
    }
  }

  lemma OpenKeepsConsistent(l: LedgerState, userId: int)
    requires Consistent(l)
    ensures Consistent(Open(l, userId))
  {
    AccountIsReplay(l, userId);
  }

  /** Appending entry `t` while setting its user's record to the replay keeps
      the ledger consistent; the user need not be registered yet. */
  lemma AppendKeepsConsistent(l: LedgerState, t: Transaction, a: Account)
    requires Consistent(l) && t.id == |l.transactions| + 1
    requires a == Replay(l.transactions + [t], t.userId)
    ensures Consistent(LedgerState(l.users[t.userId := a], l.transactions + [t]))
  {
    var l' := LedgerState(l.users[t.userId := a], l.transactions + [t]);
    forall u | u in l'.users
      ensures l'.users[u] == Replay(l'.transactions, u)
    {
      ReplayAppend(l.transactions, t, u);
    }
  }

  lemma CreditKeepsConsistent(l: LedgerState, userId: int, amount: real, description: string)
    requires Consistent(l)
    ensures Consistent(Credit(l, userId, amount, description))
  {
    var a := AccountOf(l, userId);
    var t := NextTransaction(l, userId, Deposit, amount, description);
    assert a.(balance := a.balance + amount) == Replay(l.transactions + [t], userId) by {
      AccountIsReplay(l, userId);
      ReplayAppend(l.transactions, t, userId);
    }
    AppendKeepsConsistent(l, t, a.(balance := a.balance + amount));
  }

  lemma DebitKeepsConsistent(l: LedgerState, userId: int, amount: real, description: string)
    requires Consistent(l)
    ensures Consistent(Debit(l, userId, amount, description))
  {
    if CanDebit(l, userId, amount) {
      var a := AccountOf(l, userId);
      var t := NextTransaction(l, userId, Purchase, -amount, description);
      var a' := Account(a.balance - amount, a.totalSpent + amount, a.totalOrders + 1);
      assert a' == Replay(l.transactions + [t], userId) by {
        AccountIsReplay(l, userId);
        ReplayAppend(l.transactions, t, userId);
      }
      AppendKeepsConsistent(l, t, a');
    } else {
      OpenKeepsConsistent(l, userId);
    }
  }

  // ---------------------------------------------------------------------------
  // Properties of single operations

  /** A credit raises the balance by exactly the amount, touches no other
      account and appends exactly one deposit entry, numbered next. */
  lemma CreditEffect(l: LedgerState, userId: int, amount: real, description: string)
    ensures var r := Credit(l, userId, amount, description);
      && r.users.Keys == l.users.Keys + {userId}
      && r.users[userId] == AccountOf(l, userId).(balance := AccountOf(l, userId).balance + amount)
      && (forall u :: u in l.users && u != userId ==> r.users[u] == l.users[u])
      && r.transactions == l.transactions + [Transaction(|l.transactions| + 1, userId, Deposit, amount, description)]
  {
  }

  /** A debit against a short balance changes no account field and no entry;
      at most it registers the user at zero. */
  lemma DebitFailureEffect(l: LedgerState, userId: int, amount: real, description: string)
    requires !CanDebit(l, userId, amount)
    ensures var r := Debit(l, userId, amount, description);
      && r.transactions == l.transactions
      && AccountOf(r, userId) == AccountOf(l, userId)
      && r.users.Keys == l.users.Keys + {userId}
      && (forall u :: u in l.users ==> r.users[u] == l.users[u])
  {
  }

  /** A debit that goes ahead moves balance, spend and order count together,
      appends one purchase entry of the negated amount, and leaves a
      non-negative balance. */
  lemma DebitSuccessEffect(l: LedgerState, userId: int, amount: real, description: string)
    requires CanDebit(l, userId, amount)
    ensures var r := Debit(l, userId, amount, description); var a := AccountOf(l, userId);
      && r.users[userId] == Account(a.balance - amount, a.totalSpent + amount, a.totalOrders + 1)
      && r.users[userId].balance >= 0.0
      && (forall u :: u in l.users && u != userId ==> r.users[u] == l.users[u])
      && r.transactions == l.transactions + [Transaction(|l.transactions| + 1, userId, Purchase, -amount, description)]
  {
  }

  // ---------------------------------------------------------------------------
  // Properties of operation sequences

  /** Crediting an amount and then debiting it leaves the balance as it was
      and appends two entries that sum to zero. */
  lemma CreditThenDebit(l: LedgerState, userId: int, amount: real, d1: string, d2: string)
    requires AccountOf(l, userId).balance >= 0.0
    ensures CanDebit(Credit(l, userId, amount, d1), userId, amount)
    ensures var r := Debit(Credit(l, userId, amount, d1), userId, amount, d2);
      && AccountOf(r, userId).balance == AccountOf(l, userId).balance
      && |r.transactions| == |l.transactions| + 2
      && r.transactions[..|l.transactions|] == l.transactions
      && r.transactions[|l.transactions|].amount + r.transactions[|l.transactions| + 1].amount == 0.0
  {
    var l1 := Credit(l, userId, amount, d1);
    var r := Debit(l1, userId, amount, d2);
    assert r.transactions == l.transactions + [NextTransaction(l, userId, Deposit, amount, d1),
                                               NextTransaction(l1, userId, Purchase, -amount, d2)];
  }

  /** Refunding a debit (as rejecting a balance-paid order does) restores the
      balance but keeps the spend and order count the debit added. */
  lemma DebitThenRefund(l: LedgerState, userId: int, amount: real, d1: string, d2: string)
    requires CanDebit(l, userId, amount)
    ensures var r := Credit(Debit(l, userId, amount, d1), userId, amount, d2); var a := AccountOf(l, userId);
      && AccountOf(r, userId) == Account(a.balance, a.totalSpent + amount, a.totalOrders + 1)
      && |r.transactions| == |l.transactions| + 2
  {
  }
}
