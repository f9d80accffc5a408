/**
 * The ledger store as values: per-user records and the transaction
 * collection, and what each store operation does to them.
 */
module Ledger {
  import opened Wrappers

  type UserId = string

  /** `'income'` or `'expense'`; the executor passes no other type. */
  datatype TxType = Income | Expense

  /** A user document: balance, optional spending limit (null until set),
      categories (kept as the array $addToSet maintains) and reminder mode. */
  datatype User = User(balance: real, spendingLimit: Option<real>, categories: seq<string>, reminderMode: bool)

  /** The record getUser inserts on first contact. */
  const NEW_USER := User(0.0, None, [], false)

  /** A transaction document; `id` stands for the inserted id and `date` for
      the time stamp (milliseconds). The reserved fixedExpenseId is always null. */
  datatype Transaction = Transaction(id: nat, userId: UserId, date: int, txType: TxType,
                                     amount: real, category: string, description: string)

  /** The users and transactions collections; `nextId` is the next id to hand out. */
  datatype LedgerState = LedgerState(users: map<UserId, User>, transactions: seq<Transaction>, nextId: nat)

  const EMPTY := LedgerState(map[], [], 0)

  /** Every transaction belongs to a known user and has an id below `nextId`,
      and ids increase along the collection. */
  predicate WellFormed(l: LedgerState) {
    && (forall k :: 0 <= k < |l.transactions| ==> l.transactions[k].userId in l.users && l.transactions[k].id < l.nextId)
    && IdsIncrease(l.transactions)
  }

  /** The user's transactions, in insertion order (`find({ userId })`). */
  function TxsOf(txs: seq<Transaction>, u: UserId): (r: seq<Transaction>)
    ensures |r| <= |txs|
    ensures forall k :: 0 <= k < |r| ==> r[k] in txs && r[k].userId == u
  {
    if txs == [] then []
    else
      var last := txs[|txs| - 1];
      TxsOf(txs[..|txs| - 1], u) + (if last.userId == u then [last] else [])
  }

  /** The transactions of everybody but `u` (what `deleteMany({ userId })` leaves). */
  function TxsNotOf(txs: seq<Transaction>, u: UserId): (r: seq<Transaction>)
    ensures forall k :: 0 <= k < |r| ==> r[k] in txs && r[k].userId != u
  {
    if txs == [] then []
    else
      var last := txs[|txs| - 1];
      TxsNotOf(txs[..|txs| - 1], u) + (if last.userId != u then [last] else [])
  }

  function SignedAmount(tx: Transaction): real {
    if tx.txType == Income then tx.amount else -tx.amount
  }

  /** The sum of the signed amounts: incomes add, expenses subtract. */
  function SignedSum(txs: seq<Transaction>): real {
    if txs == [] then 0.0 else SignedSum(txs[..|txs| - 1]) + SignedAmount(txs[|txs| - 1])
  }

  /** The sum of the amounts of expenses. */
  function ExpenseSum(txs: seq<Transaction>): real {
    if txs == [] then 0.0
    else ExpenseSum(txs[..|txs| - 1]) + (if txs[|txs| - 1].txType == Expense then txs[|txs| - 1].amount else 0.0)
  }

  /** The sum of the amounts of everything that is not an expense. */
  function IncomeSum(txs: seq<Transaction>): real {
    if txs == [] then 0.0
    else IncomeSum(txs[..|txs| - 1]) + (if txs[|txs| - 1].txType != Expense then txs[|txs| - 1].amount else 0.0)
  }

  lemma {:induction false} SignedSumSplits(txs: seq<Transaction>)
    ensures SignedSum(txs) == IncomeSum(txs) - ExpenseSum(txs)
  {
    if txs != [] {
      SignedSumSplits(txs[..|txs| - 1]);
    }
  }

  lemma TxsOfAppend(txs: seq<Transaction>, t: Transaction, u: UserId)
    ensures TxsOf(txs + [t], u) == TxsOf(txs, u) + (if t.userId == u then [t] else [])
  {
    assert (txs + [t])[..|txs|] == txs;
  }

  lemma TxsNotOfAppend(txs: seq<Transaction>, t: Transaction, u: UserId)
    ensures TxsNotOf(txs + [t], u) == TxsNotOf(txs, u) + (if t.userId != u then [t] else [])
  {
    assert (txs + [t])[..|txs|] == txs;
  }

  /** After deleting `u`'s transactions, `u` has none and everyone else keeps theirs. */
  lemma {:induction false} TxsOfNotOf(txs: seq<Transaction>, u: UserId, v: UserId)
    ensures TxsOf(TxsNotOf(txs, u), v) == if v == u then [] else TxsOf(txs, v)
  {
    if txs != [] {
      var init, last := txs[..|txs| - 1], txs[|txs| - 1];
      TxsOfNotOf(init, u, v);
      if last.userId != u {
        TxsOfAppend(TxsNotOf(init, u), last, v);
      } else {
        assert TxsNotOf(txs, u) == TxsNotOf(init, u) + [];
        assert TxsNotOf(init, u) + [] == TxsNotOf(init, u);
      }
    }
  }

  lemma SignedSumAppend(txs: seq<Transaction>, t: Transaction)
    ensures SignedSum(txs + [t]) == SignedSum(txs) + SignedAmount(t)
  {
    assert (txs + [t])[..|txs|] == txs;
  }

  function UserTransactions(l: LedgerState, u: UserId): seq<Transaction> {
    TxsOf(l.transactions, u)
  }

  /** The store agrees with the log for `u`: `u`'s balance is the signed sum
      of `u`'s transactions. */
  predicate Consistent(l: LedgerState, u: UserId) {
    u in l.users ==> l.users[u].balance == SignedSum(UserTransactions(l, u))
  }

  /** getUser's lazy creation: a user seen for the first time gets NEW_USER. */
  function EnsureUser(l: LedgerState, u: UserId): (r: LedgerState)
    ensures u in r.users && r.users[u] == (if u in l.users then l.users[u] else NEW_USER)
    ensures forall v :: v != u ==> (v in r.users <==> v in l.users) && (v in l.users ==> r.users[v] == l.users[v])
    ensures r.transactions == l.transactions && r.nextId == l.nextId
    ensures WellFormed(l) ==> WellFormed(r)
  {
    if u in l.users then l
    else l.(users := l.users[u := NEW_USER])
  }

  /** A newly created user starts consistent with the (empty) log, and no
      other user's record changes. */
  lemma EnsureUserKeepsConsistent(l: LedgerState, u: UserId, v: UserId)
    requires WellFormed(l) && Consistent(l, v)
    ensures Consistent(EnsureUser(l, u), v)
  {
    if u !in l.users {
      TxsOfAbsent(l.transactions, u);
    }
  }

  /** A user with no transaction in the collection has an empty log. */
  lemma {:induction false} TxsOfAbsent(txs: seq<Transaction>, u: UserId)
    requires forall k :: 0 <= k < |txs| ==> txs[k].userId != u
    ensures TxsOf(txs, u) == []
  {
    if txs != [] {
      TxsOfAbsent(txs[..|txs| - 1], u);
    }
  }

  /** getCategories: the user's categories, or none for an unknown user. */
  function CategoriesOf(l: LedgerState, u: UserId): seq<string> {
    if u in l.users then l.users[u].categories else []
  }

  /** `updateOne({ _id: u }, ...)`: changes the user's record when there is one. */
  function UpdateUser(l: LedgerState, u: UserId, user: User): (r: LedgerState)
    ensures r.transactions == l.transactions && r.nextId == l.nextId
    ensures r.users.Keys == l.users.Keys
  {
    if u in l.users then l.(users := l.users[u := user]) else l
  }

  /** addTransaction: inserts one transaction with a fresh id, and changes
      the user's balance by +amount for an income and -amount otherwise. */
  function AddTransaction(l: LedgerState, u: UserId, t: TxType, amount: real, category: string,
                          description: string, date: int): (r: (LedgerState, nat))
    ensures r.1 == l.nextId && r.0.nextId == l.nextId + 1
    ensures r.0.transactions == l.transactions + [Transaction(r.1, u, date, t, amount, category, description)]
    ensures r.0.users.Keys == l.users.Keys
    ensures u in l.users ==> r.0.users[u] == l.users[u].(balance := l.users[u].balance + (if t == Income then amount else -amount))
    ensures forall v :: v in l.users && v != u ==> r.0.users[v] == l.users[v]
  {
    var tx := Transaction(l.nextId, u, date, t, amount, category, description);
    var l1 := l.(transactions := l.transactions + [tx], nextId := l.nextId + 1);
    if u in l.users then
      var user := l.users[u];
      (UpdateUser(l1, u, user.(balance := user.balance + SignedAmount(tx))), tx.id)
    else (l1, tx.id)
  }

  /** What one addTransaction does to the user's log and balance, and that it
      touches no other user's log. */
  lemma AddTransactionEffect(l: LedgerState, u: UserId, t: TxType, amount: real, category: string,
                             description: string, date: int)
    ensures var (r, id) := AddTransaction(l, u, t, amount, category, description, date);
      && UserTransactions(r, u) == UserTransactions(l, u) + [Transaction(id, u, date, t, amount, category, description)]
      && (forall v :: v != u ==> UserTransactions(r, v) == UserTransactions(l, v))
  {
    var (r, id) := AddTransaction(l, u, t, amount, category, description, date);
    var tx := Transaction(id, u, date, t, amount, category, description);
    TxsOfAppend(l.transactions, tx, u);
    forall v | v != u ensures UserTransactions(r, v) == UserTransactions(l, v) {
      TxsOfAppend(l.transactions, tx, v);
      assert TxsOf(l.transactions, v) + [] == TxsOf(l.transactions, v);
    }
  }

  /** Adding a transaction keeps every user's balance equal to the signed sum
      of that user's transactions, and keeps the collections well formed. */
  lemma AddTransactionKeepsConsistent(l: LedgerState, u: UserId, t: TxType, amount: real, category: string,
                                      description: string, date: int, v: UserId)
    requires Consistent(l, v)
    ensures Consistent(AddTransaction(l, u, t, amount, category, description, date).0, v)
  {
    var (r, id) := AddTransaction(l, u, t, amount, category, description, date);
    var tx := Transaction(id, u, date, t, amount, category, description);
    AddTransactionEffect(l, u, t, amount, category, description, date);
    if v == u {
      SignedSumAppend(UserTransactions(l, u), tx);
    }
  }

  lemma AddTransactionKeepsWellFormed(l: LedgerState, u: UserId, t: TxType, amount: real, category: string,
                                      description: string, date: int)
    requires WellFormed(l) && u in l.users
    ensures WellFormed(AddTransaction(l, u, t, amount, category, description, date).0)
  {
  }

  /** deleteAllTransactions: deletes the user's transactions and sets the balance to 0. */
  function DeleteAllTransactions(l: LedgerState, u: UserId): (r: LedgerState)
    ensures r.users.Keys == l.users.Keys && r.nextId == l.nextId
    ensures u in l.users ==> r.users[u] == l.users[u].(balance := 0.0)
    ensures forall v :: v in l.users && v != u ==> r.users[v] == l.users[v]
    ensures forall k :: 0 <= k < |r.transactions| ==> r.transactions[k] in l.transactions
  {
    var l1 := l.(transactions := TxsNotOf(l.transactions, u));
    if u in l.users then UpdateUser(l1, u, l.users[u].(balance := 0.0)) else l1
  }

  /** Deleting leaves `u` with no transactions, everyone else with theirs,
      and `u` consistent with the (empty) log. */
  lemma DeleteAllEffect(l: LedgerState, u: UserId)
    ensures UserTransactions(DeleteAllTransactions(l, u), u) == []
    ensures forall v :: v != u ==> UserTransactions(DeleteAllTransactions(l, u), v) == UserTransactions(l, v)
    ensures Consistent(DeleteAllTransactions(l, u), u)
    ensures forall v :: Consistent(l, v) ==> Consistent(DeleteAllTransactions(l, u), v)
  {
    TxsOfNotOf(l.transactions, u, u);
    forall v ensures TxsOf(TxsNotOf(l.transactions, u), v) == if v == u then [] else TxsOf(l.transactions, v) {
      TxsOfNotOf(l.transactions, u, v);
    }
  }

  predicate IdsIncrease(txs: seq<Transaction>) {
    forall j, k :: 0 <= j < k < |txs| ==> txs[j].id < txs[k].id
  }

  /** Deleting transactions keeps the remaining ones in id order. */
  lemma {:induction false} NotOfKeepsOrder(txs: seq<Transaction>, u: UserId)
    requires IdsIncrease(txs)
    ensures IdsIncrease(TxsNotOf(txs, u))
  {
    if txs != [] {
      var init, last := txs[..|txs| - 1], txs[|txs| - 1];
      NotOfKeepsOrder(init, u);
      var r0 := TxsNotOf(init, u);
      var r := TxsNotOf(txs, u);
      if last.userId != u {
        forall j, k | 0 <= j < k < |r| ensures r[j].id < r[k].id {
          if k == |r0| {
            assert r[j] == r0[j] && r0[j] in init;
            var a :| 0 <= a < |init| && init[a] == r0[j];
            assert txs[a] == init[a];
          }
        }
      } else {
        assert r == r0 + [];
      }
    }
  }

  lemma DeleteAllKeepsWellFormed(l: LedgerState, u: UserId)
    requires WellFormed(l)
    ensures WellFormed(DeleteAllTransactions(l, u))
  {
    NotOfKeepsOrder(l.transactions, u);
  }

  /** setBalance overrides the balance and nothing else. */
  function SetBalance(l: LedgerState, u: UserId, amount: real): (r: LedgerState)
    ensures r.transactions == l.transactions && r.nextId == l.nextId && r.users.Keys == l.users.Keys
    ensures u in l.users ==> r.users[u] == l.users[u].(balance := amount)
    ensures forall v :: v in l.users && v != u ==> r.users[v] == l.users[v]
  {
    if u in l.users then UpdateUser(l, u, l.users[u].(balance := amount)) else l
  }

  /** A balance override drifts from the log: here no transactions, balance 50. */
  lemma SetBalanceDrifts(l: LedgerState, u: UserId)
    requires u in l.users && UserTransactions(l, u) == []
    ensures !Consistent(SetBalance(l, u, 50.0), u)
  {
  }

  /** setSpendingLimit sets the limit and nothing else. */
  function SetSpendingLimit(l: LedgerState, u: UserId, amount: real): (r: LedgerState)
    ensures r.transactions == l.transactions && r.nextId == l.nextId && r.users.Keys == l.users.Keys
    ensures u in l.users ==> r.users[u] == l.users[u].(spendingLimit := Some(amount))
    ensures forall v :: v in l.users && v != u ==> r.users[v] == l.users[v]
  {
    if u in l.users then UpdateUser(l, u, l.users[u].(spendingLimit := Some(amount))) else l
  }

  /** The reminder-mode toggles (`$set: { reminderMode }`). */
  function SetReminderMode(l: LedgerState, u: UserId, on: bool): (r: LedgerState)
    ensures r.transactions == l.transactions && r.nextId == l.nextId && r.users.Keys == l.users.Keys
    ensures u in l.users ==> r.users[u] == l.users[u].(reminderMode := on)
    ensures forall v :: v in l.users && v != u ==> r.users[v] == l.users[v]
  {
    if u in l.users then UpdateUser(l, u, l.users[u].(reminderMode := on)) else l
  }

  /** `$addToSet`: appends the category unless it is already there. */
  function AddToSet(cats: seq<string>, c: string): (r: seq<string>)
    ensures c in r
    ensures forall x :: x in r <==> x in cats || x == c
  {
    if c in cats then cats else cats + [c]
  }

  predicate NoDuplicates(s: seq<string>) {
    forall j, k :: 0 <= j < k < |s| ==> s[j] != s[k]
  }

  /** $addToSet is idempotent and keeps the array free of duplicates. */
  lemma AddToSetIsSetLike(cats: seq<string>, c: string)
    ensures AddToSet(AddToSet(cats, c), c) == AddToSet(cats, c)
    ensures NoDuplicates(cats) ==> NoDuplicates(AddToSet(cats, c))
    ensures c in cats ==> AddToSet(cats, c) == cats
  {
  }

  /** addCategory. */
  function AddCategory(l: LedgerState, u: UserId, c: string): (r: LedgerState)
    ensures r.transactions == l.transactions && r.nextId == l.nextId && r.users.Keys == l.users.Keys
    ensures u in l.users ==> r.users[u] == l.users[u].(categories := AddToSet(l.users[u].categories, c))
    ensures forall v :: v in l.users && v != u ==> r.users[v] == l.users[v]
  {
    if u in l.users then UpdateUser(l, u, l.users[u].(categories := AddToSet(l.users[u].categories, c))) else l
  }

  /** Adding a category twice is adding it once. */
  lemma AddCategoryIdempotent(l: LedgerState, u: UserId, c: string)
    ensures AddCategory(AddCategory(l, u, c), u, c) == AddCategory(l, u, c)
  {
    if u in l.users {
      AddToSetIsSetLike(l.users[u].categories, c);
      var r := AddCategory(l, u, c);
      assert r.users[u := r.users[u]] == r.users;
    }
  }

  /** getBalance. */
  function Balance(l: LedgerState, u: UserId): (r: real)
    requires u in l.users
    ensures Consistent(l, u) ==> r == SignedSum(UserTransactions(l, u))
  {
    l.users[u].balance
  }

  function Reverse(s: seq<Transaction>): (r: seq<Transaction>)
    ensures |r| == |s|
    ensures forall k :: 0 <= k < |s| ==> r[k] == s[|s| - 1 - k]
  {
    if s == [] then [] else [s[|s| - 1]] + Reverse(s[..|s| - 1])
  }

  /** getLastTransactions: the user's newest `limit` transactions, newest
      first (insertion order taken as date order). */
  function LastTransactions(l: LedgerState, u: UserId, limit: nat): (r: seq<Transaction>)
    ensures |r| == if |UserTransactions(l, u)| < limit then |UserTransactions(l, u)| else limit
    ensures forall k :: 0 <= k < |r| ==> r[k] == UserTransactions(l, u)[|UserTransactions(l, u)| - 1 - k]
  {
    var newestFirst := Reverse(UserTransactions(l, u));
    if |newestFirst| <= limit then newestFirst else newestFirst[..limit]
  }

  /** The month being reported, as getMonthStartEnd computes it: `start` is
      the first day at midnight, `lastDay` the last day at midnight (the end
      it uses) and `next` the first day of the following month at midnight. */
  datatype Window = Window(start: int, lastDay: int, next: int)

  predicate ValidWindow(w: Window) {
    w.start <= w.lastDay < w.next
  }

  /** `date: { $gte: start, $lte: end }` as written, end being the last day's midnight. */
  predicate InWindowAsWritten(w: Window, date: int) {
    w.start <= date <= w.lastDay
  }

  /** The whole calendar month, last day included. */
  predicate InMonth(w: Window, date: int) {
    w.start <= date < w.next
  }

  function MonthTxs(txs: seq<Transaction>, w: Window): (r: seq<Transaction>)
    ensures forall k :: 0 <= k < |r| ==> r[k] in txs && InMonth(w, r[k].date)
  {
    if txs == [] then []
    else
      var last := txs[|txs| - 1];
      MonthTxs(txs[..|txs| - 1], w) + (if InMonth(w, last.date) then [last] else [])
  }

  function MonthTxsAsWritten(txs: seq<Transaction>, w: Window): (r: seq<Transaction>)
    ensures forall k :: 0 <= k < |r| ==> r[k] in txs && InWindowAsWritten(w, r[k].date)
  {
    if txs == [] then []
    else
      var last := txs[|txs| - 1];
      MonthTxsAsWritten(txs[..|txs| - 1], w) + (if InWindowAsWritten(w, last.date) then [last] else [])
  }

  /** The find() of getMonthlyReport: the user's transactions of the month. */
  function MonthTransactions(l: LedgerState, u: UserId, w: Window): seq<Transaction> {
    MonthTxs(UserTransactions(l, u), w)
  }

  /** getTotalExpensesThisMonth: the sum of the user's expenses this month (0 if none). */
  function MonthExpenses(l: LedgerState, u: UserId, w: Window): (r: real)
    ensures (forall k :: 0 <= k < |MonthTransactions(l, u, w)| ==> MonthTransactions(l, u, w)[k].txType != Expense) ==> r == 0.0
  {
    NoExpensesSumZero(MonthTransactions(l, u, w));
    ExpenseSum(MonthTransactions(l, u, w))
  }

  /** With no expense to group, the total is 0. */
  lemma {:induction false} NoExpensesSumZero(txs: seq<Transaction>)
    ensures (forall k :: 0 <= k < |txs| ==> txs[k].txType != Expense) ==> ExpenseSum(txs) == 0.0
  {
    if txs != [] {
      NoExpensesSumZero(txs[..|txs| - 1]);
    }
  }

  /** As written, an expense made on the last day of the month after
      midnight is left out of the month: here 20 spent at noon of the 31st. */
  lemma LastDayLeftOut()
    ensures var w := Window(0, 30 * 86400000, 31 * 86400000);
      var tx := Transaction(0, "u", 30 * 86400000 + 43200000, Expense, 20.0, "comida", "almoço");
      && ValidWindow(w) && InMonth(w, tx.date)
      && ExpenseSum(MonthTxsAsWritten([tx], w)) == 0.0
      && ExpenseSum(MonthTxs([tx], w)) == 20.0
  {
    var w := Window(0, 30 * 86400000, 31 * 86400000);
    var tx := Transaction(0, "u", 30 * 86400000 + 43200000, Expense, 20.0, "comida", "almoço");
    assert [tx][..0] == [];
  }

  /** The month filter keeps exactly the transactions dated inside the month. */
  lemma {:induction false} MonthTxsExact(txs: seq<Transaction>, w: Window, t: Transaction)
    ensures t in MonthTxs(txs, w) <==> t in txs && InMonth(w, t.date)
  {
    if txs != [] {
      MonthTxsExact(txs[..|txs| - 1], w, t);
      assert txs == txs[..|txs| - 1] + [txs[|txs| - 1]];
    }
  }
}
