/**
 * getMonthlyReport's aggregation: per-category income and expense totals
 * and the overall totals, folded over the month's transactions in order.
 */
module Reports {
  import opened Ledger

  datatype Totals = Totals(expense: real, income: real)

  /** `report` with `totalExpense` and `totalIncome`; `order` lists the
      categories in the order they were first seen. */
  datatype MonthReport = MonthReport(order: seq<string>, byCategory: map<string, Totals>,
                                     totalExpense: real, totalIncome: real)

  const EMPTY_REPORT := MonthReport([], map[], 0.0, 0.0)

  /** One iteration of the forEach: a category seen for the first time
      starts at zero; an expense goes to the expense columns and anything
      else to the income columns. */
  function Tally(r: MonthReport, tx: Transaction): MonthReport {
    var c := tx.category;
    var order := if c in r.byCategory then r.order else r.order + [c];
    var t := if c in r.byCategory then r.byCategory[c] else Totals(0.0, 0.0);
    if tx.txType == Expense then
      MonthReport(order, r.byCategory[c := Bumped(t, tx)], r.totalExpense + tx.amount, r.totalIncome)
    else
      MonthReport(order, r.byCategory[c := Bumped(t, tx)], r.totalExpense, r.totalIncome + tx.amount)
  }

  /** The report after the loop has visited every transaction of `txs`: its
      totals are the sum of the expenses and the sum of all other amounts. */
  function ReportOf(txs: seq<Transaction>): (r: MonthReport)
    ensures r.totalExpense == ExpenseSum(txs)
    ensures r.totalIncome == IncomeSum(txs)
  {
    if txs == [] then EMPTY_REPORT else Tally(ReportOf(txs[..|txs| - 1]), txs[|txs| - 1])
  }

  /** The report of the user's transactions of the month; its expense total
      is the one getTotalExpensesThisMonth computes. */
  function MonthlyReport(l: LedgerState, u: UserId, w: Window): (r: MonthReport)
    ensures r.totalExpense == MonthExpenses(l, u, w)
    ensures r.totalIncome == IncomeSum(MonthTransactions(l, u, w))
  {
    ReportOf(MonthTransactions(l, u, w))
  }

  /** The transactions filed under category `c`. */
  function InCategory(txs: seq<Transaction>, c: string): (r: seq<Transaction>)
    ensures forall k :: 0 <= k < |r| ==> r[k] in txs && r[k].category == c
  {
    if txs == [] then []
    else
      var last := txs[|txs| - 1];
      InCategory(txs[..|txs| - 1], c) + (if last.category == c then [last] else [])
  }

  lemma ExpenseSumAppend(txs: seq<Transaction>, t: Transaction)
    ensures ExpenseSum(txs + [t]) == ExpenseSum(txs) + (if t.txType == Expense then t.amount else 0.0)
    ensures IncomeSum(txs + [t]) == IncomeSum(txs) + (if t.txType != Expense then t.amount else 0.0)
  {
    assert (txs + [t])[..|txs|] == txs;
  }

  /** The balance line of the report is the net of the month's transactions. */
  lemma ReportNet(txs: seq<Transaction>)
    ensures ReportOf(txs).totalIncome - ReportOf(txs).totalExpense == SignedSum(txs)
  {
    SignedSumSplits(txs);
  }

  /** A category appears in the report exactly when some transaction is filed
      under it, and its columns are the sums over that category's transactions. */
  lemma {:induction false} ReportHasCategory(txs: seq<Transaction>, c: string)
    ensures c in ReportOf(txs).byCategory <==> exists k :: 0 <= k < |txs| && txs[k].category == c
  {
    if txs != [] {
      var init, last := txs[..|txs| - 1], txs[|txs| - 1];
      ReportHasCategory(init, c);
      if c in ReportOf(init).byCategory {
        var k :| 0 <= k < |init| && init[k].category == c;
        assert txs[k] == init[k];
      } else if last.category != c {
        forall k | 0 <= k < |txs| ensures txs[k].category != c {
          if k < |init| {
            assert txs[k] == init[k];
          }
        }
      }
    }
  }

  /** With no transaction filed under `c`, the filter keeps nothing. */
  lemma {:induction false} InCategoryNone(txs: seq<Transaction>, c: string)
    requires forall k :: 0 <= k < |txs| ==> txs[k].category != c
    ensures InCategory(txs, c) == []
  {
    if txs != [] {
      InCategoryNone(txs[..|txs| - 1], c);
    }
  }

  lemma {:induction false} ReportByCategory(txs: seq<Transaction>, c: string)
    ensures c in ReportOf(txs).byCategory <==> exists k :: 0 <= k < |txs| && txs[k].category == c
    ensures c in ReportOf(txs).byCategory ==>
      ReportOf(txs).byCategory[c] == Totals(ExpenseSum(InCategory(txs, c)), IncomeSum(InCategory(txs, c)))
  {
    ReportHasCategory(txs, c);
    if txs != [] {
      var init, last := txs[..|txs| - 1], txs[|txs| - 1];
      ReportByCategory(init, c);
      if last.category == c {
        if c !in ReportOf(init).byCategory {
          InCategoryNone(init, c);
        }
        ExpenseSumAppend(InCategory(init, c), last);
      } else {
        assert InCategory(txs, c) == InCategory(init, c) + [];
        assert InCategory(init, c) + [] == InCategory(init, c);
      }
    }
  }

  /** The categories listed are those of the map, each once. */
  ghost predicate OrderMatches(r: MonthReport) {
    NoDuplicates(r.order) && (forall c :: c in r.byCategory <==> c in r.order)
  }

  lemma {:induction false} ReportOrder(txs: seq<Transaction>)
    ensures OrderMatches(ReportOf(txs))
  {
    if txs != [] {
      ReportOrder(txs[..|txs| - 1]);
    }
  }

  function SumExpense(order: seq<string>, m: map<string, Totals>): real
    requires forall c :: c in order ==> c in m
  {
    if order == [] then 0.0 else SumExpense(order[..|order| - 1], m) + m[order[|order| - 1]].expense
  }

  function SumIncome(order: seq<string>, m: map<string, Totals>): real
    requires forall c :: c in order ==> c in m
  {
    if order == [] then 0.0 else SumIncome(order[..|order| - 1], m) + m[order[|order| - 1]].income
  }

  /** Changing the entry of a category that is not listed changes no sum. */
  lemma {:induction false} SumsIgnoreUnlisted(order: seq<string>, m: map<string, Totals>, c: string, t: Totals)
    requires forall x :: x in order ==> x in m
    requires c !in order
    ensures SumExpense(order, m[c := t]) == SumExpense(order, m)
    ensures SumIncome(order, m[c := t]) == SumIncome(order, m)
  {
    if order != [] {
      SumsIgnoreUnlisted(order[..|order| - 1], m, c, t);
    }
  }

  /** Changing the entry of a category listed once changes the sums by the difference. */
  lemma {:induction false} SumsOfListed(order: seq<string>, m: map<string, Totals>, c: string, t: Totals)
    requires forall x :: x in order ==> x in m
    requires NoDuplicates(order) && c in order
    ensures SumExpense(order, m[c := t]) == SumExpense(order, m) - m[c].expense + t.expense
    ensures SumIncome(order, m[c := t]) == SumIncome(order, m) - m[c].income + t.income
  {
    var init, last := order[..|order| - 1], order[|order| - 1];
    if last == c {
      assert c !in init;
      SumsIgnoreUnlisted(init, m, c, t);
    } else {
      SumsOfListed(init, m, c, t);
    }
  }

  lemma SumsAppend(order: seq<string>, m: map<string, Totals>, c: string)
    requires forall x :: x in order ==> x in m
    requires c in m
    ensures SumExpense(order + [c], m) == SumExpense(order, m) + m[c].expense
    ensures SumIncome(order + [c], m) == SumIncome(order, m) + m[c].income
  {
    assert (order + [c])[..|order|] == order;
  }

  /** The report's lines add up to its totals. */
  ghost predicate AddsUp(r: MonthReport) {
    OrderMatches(r) && SumsMatch(r)
  }

  /** One iteration of the loop keeps the category list matching the map. */
  lemma TallyKeepsOrder(r: MonthReport, tx: Transaction)
    requires OrderMatches(r)
    ensures OrderMatches(Tally(r, tx))
  {
  }

  /** The category's column after one iteration. */
  function Bumped(t: Totals, tx: Transaction): Totals {
    if tx.txType == Expense then t.(expense := t.expense + tx.amount) else t.(income := t.income + tx.amount)
  }

  lemma TallyShape(r: MonthReport, tx: Transaction)
    ensures var c := tx.category;
      var t0 := if c in r.byCategory then r.byCategory[c] else Totals(0.0, 0.0);
      && Tally(r, tx).byCategory == r.byCategory[c := Bumped(t0, tx)]
      && Tally(r, tx).order == (if c in r.byCategory then r.order else r.order + [c])
      && Tally(r, tx).totalExpense == r.totalExpense + (if tx.txType == Expense then tx.amount else 0.0)
      && Tally(r, tx).totalIncome == r.totalIncome + (if tx.txType != Expense then tx.amount else 0.0)
  {
  }

  lemma SumsOfBumpedListed(order: seq<string>, m: map<string, Totals>, tx: Transaction)
    requires forall x :: x in order ==> x in m
    requires NoDuplicates(order) && tx.category in order
    ensures SumExpense(order, m[tx.category := Bumped(m[tx.category], tx)]) == SumExpense(order, m) + (if tx.txType == Expense then tx.amount else 0.0)
    ensures SumIncome(order, m[tx.category := Bumped(m[tx.category], tx)]) == SumIncome(order, m) + (if tx.txType != Expense then tx.amount else 0.0)
  {
    SumsOfListed(order, m, tx.category, Bumped(m[tx.category], tx));
  }

  lemma SumsOfBumpedNew(order: seq<string>, m: map<string, Totals>, tx: Transaction)
    requires forall x :: x in order ==> x in m
    requires tx.category !in order
    ensures SumExpense(order + [tx.category], m[tx.category := Bumped(Totals(0.0, 0.0), tx)]) == SumExpense(order, m) + (if tx.txType == Expense then tx.amount else 0.0)
    ensures SumIncome(order + [tx.category], m[tx.category := Bumped(Totals(0.0, 0.0), tx)]) == SumIncome(order, m) + (if tx.txType != Expense then tx.amount else 0.0)
  {
    var m1 := m[tx.category := Bumped(Totals(0.0, 0.0), tx)];
    SumsIgnoreUnlisted(order, m, tx.category, Bumped(Totals(0.0, 0.0), tx));
    SumsAppend(order, m1, tx.category);
  }

  /** The sums over the listed categories equal the totals. */
  ghost predicate SumsMatch(r: MonthReport)
    requires OrderMatches(r)
  {
    SumExpense(r.order, r.byCategory) == r.totalExpense && SumIncome(r.order, r.byCategory) == r.totalIncome
  }

  lemma TallyListedAddsUp(r: MonthReport, tx: Transaction)
    requires OrderMatches(r) && SumsMatch(r) && tx.category in r.byCategory
    requires OrderMatches(Tally(r, tx))
    ensures SumsMatch(Tally(r, tx))
  {
    TallyShape(r, tx);
    SumsOfBumpedListed(r.order, r.byCategory, tx);
  }

  lemma TallyNewAddsUp(r: MonthReport, tx: Transaction)
    requires OrderMatches(r) && SumsMatch(r) && tx.category !in r.byCategory
    requires OrderMatches(Tally(r, tx))
    ensures SumsMatch(Tally(r, tx))
  {
    TallyShape(r, tx);
    SumsOfBumpedNew(r.order, r.byCategory, tx);
  }

  /** One iteration of the loop keeps the lines adding up to the totals. */
  lemma TallyAddsUp(r: MonthReport, tx: Transaction)
    requires AddsUp(r)
    ensures AddsUp(Tally(r, tx))
  {
    TallyKeepsOrder(r, tx);
    if tx.category in r.byCategory {
      TallyListedAddsUp(r, tx);
    } else {
      TallyNewAddsUp(r, tx);
    }
  }

  /** The per-category lines add up to the two totals. */
  lemma {:induction false} CategoriesAddUp(txs: seq<Transaction>)
    ensures AddsUp(ReportOf(txs))
  {
    if txs != [] {
      CategoriesAddUp(txs[..|txs| - 1]);
      TallyAddsUp(ReportOf(txs[..|txs| - 1]), txs[|txs| - 1]);
    }
  }
}
