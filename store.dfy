/**
 * The database layer as an object: the users and transactions collections
 * are fields the store operations update, each specified by a Ledger or
 * Reports function: GetUser and GetCategories by EnsureUser (and
 * CategoriesOf), GetBalance by Balance, TotalExpensesThisMonth by
 * ExpenseSum of MonthTransactions, Tabulate by ReportOf, and the rest by
 * the function of the same name.
 */
module Storage {
  import opened Wrappers
  import Ledger
  import Reports

  class Store {
    var users: map<Ledger.UserId, Ledger.User>
    var transactions: seq<Ledger.Transaction>
    var nextId: nat

    function State(): Ledger.LedgerState
      reads this
    {
      Ledger.LedgerState(users, transactions, nextId)
    }

    constructor ()
      ensures State() == Ledger.EMPTY
    {
      users := map[];
      transactions := [];
      nextId := 0;
    }

    /** getUser: finds the user, inserting a fresh record on first contact. */
    method GetUser(u: Ledger.UserId) returns (user: Ledger.User)
      modifies this
      ensures State() == Ledger.EnsureUser(old(State()), u)
      ensures user == users[u]
    {
      if u !in users {
        users := users[u := Ledger.NEW_USER];
      }
      user := users[u];
    }

    /** getCategories: the user's categories (creating the user if new). */
    method GetCategories(u: Ledger.UserId) returns (categories: seq<string>)
      modifies this
      ensures State() == Ledger.EnsureUser(old(State()), u)
      ensures categories == Ledger.CategoriesOf(State(), u)
    {
      var user := GetUser(u);
      categories := user.categories;
    }

    /** addTransaction: inserts the transaction, then updates the balance. */
    method AddTransaction(u: Ledger.UserId, t: Ledger.TxType, amount: real, category: string,
                          description: string, date: int) returns (id: nat)
      modifies this
      ensures (State(), id) == Ledger.AddTransaction(old(State()), u, t, amount, category, description, date)
    {
      id := nextId;
      transactions := transactions + [Ledger.Transaction(id, u, date, t, amount, category, description)];
      nextId := nextId + 1;
      if u in users {
        var user := users[u];
        users := users[u := user.(balance := user.balance + (if t == Ledger.Income then amount else -amount))];
      }
    }

    /** getBalance. */
    method GetBalance(u: Ledger.UserId) returns (balance: real)
      requires u in users
      ensures balance == Ledger.Balance(State(), u)
    {
      balance := users[u].balance;
    }

    /** deleteAllTransactions. */
    method DeleteAllTransactions(u: Ledger.UserId)
      modifies this
      ensures State() == Ledger.DeleteAllTransactions(old(State()), u)
    {
      transactions := Ledger.TxsNotOf(transactions, u);
      if u in users {
        users := users[u := users[u].(balance := 0.0)];
      }
    }

    method SetBalance(u: Ledger.UserId, amount: real)
      modifies this
      ensures State() == Ledger.SetBalance(old(State()), u, amount)
    {
      if u in users {
        users := users[u := users[u].(balance := amount)];
      }
    }

    method SetSpendingLimit(u: Ledger.UserId, amount: real)
      modifies this
      ensures State() == Ledger.SetSpendingLimit(old(State()), u, amount)
    {
      if u in users {
        users := users[u := users[u].(spendingLimit := Some(amount))];
      }
    }

    /** The reminder-mode update of activate_reminder and deactivate_reminder. */
    method SetReminderMode(u: Ledger.UserId, on: bool)
      modifies this
      ensures State() == Ledger.SetReminderMode(old(State()), u, on)
    {
      if u in users {
        users := users[u := users[u].(reminderMode := on)];
      }
    }

    method AddCategory(u: Ledger.UserId, c: string)
      modifies this
      ensures State() == Ledger.AddCategory(old(State()), u, c)
    {
      if u in users && c !in users[u].categories {
        users := users[u := users[u].(categories := users[u].categories + [c])];
      }
    }

    /** getLastTransactions. */
    method LastTransactions(u: Ledger.UserId, limit: nat) returns (txs: seq<Ledger.Transaction>)
      ensures txs == Ledger.LastTransactions(State(), u, limit)
    {
      txs := Ledger.LastTransactions(State(), u, limit);
    }

    /** getTotalExpensesThisMonth: the month's expenses of the user. */
    method TotalExpensesThisMonth(u: Ledger.UserId, w: Ledger.Window) returns (total: real)
      ensures total == Ledger.ExpenseSum(Ledger.MonthTransactions(State(), u, w))
    {
      total := Ledger.MonthExpenses(State(), u, w);
    }

    /** getMonthlyReport: the month's transactions of the user, tallied. */
    method MonthlyReport(u: Ledger.UserId, w: Ledger.Window) returns (r: Reports.MonthReport)
      ensures r == Reports.MonthlyReport(State(), u, w)
      ensures r.totalExpense == Ledger.ExpenseSum(Ledger.MonthTransactions(State(), u, w))
      ensures r.totalIncome == Ledger.IncomeSum(Ledger.MonthTransactions(State(), u, w))
      ensures Reports.AddsUp(r)
    {
      var txs := Ledger.MonthTransactions(State(), u, w);
      r := Tabulate(txs);
      Reports.CategoriesAddUp(txs);
    }
  }

  /** getMonthlyReport's forEach: per-category and overall totals. */
  method Tabulate(txs: seq<Ledger.Transaction>) returns (r: Reports.MonthReport)
    ensures r == Reports.ReportOf(txs)
  {
    var order: seq<string> := [];
    var report: map<string, Reports.Totals> := map[];
    var totalExpense, totalIncome := 0.0, 0.0;
    var i := 0;
    while i < |txs|
      invariant 0 <= i <= |txs|
      invariant Reports.MonthReport(order, report, totalExpense, totalIncome) == Reports.ReportOf(txs[..i])
    {
      var tx := txs[i];
      ghost var before := Reports.MonthReport(order, report, totalExpense, totalIncome);
      if tx.category !in report {
        report := report[tx.category := Reports.Totals(0.0, 0.0)];
        order := order + [tx.category];
      }
      if tx.txType == Ledger.Expense {
        report := report[tx.category := report[tx.category].(expense := report[tx.category].expense + tx.amount)];
        totalExpense := totalExpense + tx.amount;
      } else {
        report := report[tx.category := report[tx.category].(income := report[tx.category].income + tx.amount)];
        totalIncome := totalIncome + tx.amount;
      }
      assert Reports.MonthReport(order, report, totalExpense, totalIncome) == Reports.Tally(before, tx);
      assert txs[..i + 1][..i] == txs[..i];
      assert Reports.ReportOf(txs[..i + 1]) == Reports.Tally(Reports.ReportOf(txs[..i]), tx);
      i := i + 1;
    }
    assert txs[..i] == txs;
    r := Reports.MonthReport(order, report, totalExpense, totalIncome);
  }
}
