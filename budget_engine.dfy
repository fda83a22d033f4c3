/** The budget-status computation that `view_budget` performs before it
    formats its reply: the expenses of the month are summed, the remainder
    and the percentage spent are derived from the budget, and a text
    progress bar of (nominally) ten cells is drawn.

    Amounts are whole cents (`int`) rather than floating-point numbers, so
    every identity below is exact.  The percentage is a `real`, as the
    source's `float` quotient is. */
module BudgetEngine {

  /** A transaction as returned by the monthly summary query: only the two
      fields the computation reads are kept.  The type is free text, as in
      the store; only the exact text "expense" counts as spending. */
  datatype Transaction = Transaction(amount: int, transactionType: string)

  const ExpenseType: string := "expense"

  /** The two glyphs of the progress bar. */
  const FullCell: char := '▓'
  const EmptyCell: char := '░'

  /** Nominal width of the bar, in cells. */
  const BarWidth: int := 10

  // ---------------------------------------------------------------------
  // Spent: the sum over expense transactions
  // ---------------------------------------------------------------------

  predicate IsExpense(tx: Transaction) {
    tx.transactionType == ExpenseType
  }

  /** Independent reference definition: first keep the expenses, then add
      up their amounts. */
  function Expenses(txs: seq<Transaction>): (r: seq<Transaction>)
    ensures |r| <= |txs|
    ensures forall i :: 0 <= i < |r| ==> IsExpense(r[i])
  {
    if txs == [] then []
    else if IsExpense(txs[0]) then [txs[0]] + Expenses(txs[1..])
    else Expenses(txs[1..])
  }

  function Total(txs: seq<Transaction>): int
  {
    if txs == [] then 0 else txs[0].amount + Total(txs[1..])
  }

  /** Total of the expense amounts in `txs`, added up in order; every other
      transaction type (income, or any other text) contributes nothing.  The
      result is exactly the total of the expense transactions. */
  function SumExpenses(txs: seq<Transaction>): (spent: int)
    ensures spent == Total(Expenses(txs))
  {
    if txs == [] then 0
    else
      var rest := SumExpenses(txs[1..]);
      assert IsExpense(txs[0]) ==> Expenses(txs) == [txs[0]] + Expenses(txs[1..]);
      assert ([txs[0]] + Expenses(txs[1..]))[1..] == Expenses(txs[1..]);
      (if IsExpense(txs[0]) then txs[0].amount else 0) + rest
  }

  /** Spending splits over a concatenation of transaction lists. */
  lemma {:induction false} SumExpensesAppend(a: seq<Transaction>, b: seq<Transaction>)
    ensures SumExpenses(a + b) == SumExpenses(a) + SumExpenses(b)
  {
    if a == [] {
      assert a + b == b;
    } else {
      assert (a + b)[0] == a[0];
      assert (a + b)[1..] == a[1..] + b;
      SumExpensesAppend(a[1..], b);
    }
  }

  /** Adding a transaction that is not an expense (an income, say) never
      changes the spent figure. */
  lemma NonExpenseIgnored(txs: seq<Transaction>, tx: Transaction)
    requires !IsExpense(tx)
    ensures SumExpenses(txs + [tx]) == SumExpenses(txs)
    ensures SumExpenses([tx] + txs) == SumExpenses(txs)
  {
    SumExpensesAppend(txs, [tx]);
    SumExpensesAppend([tx], txs);
    assert SumExpenses([tx]) == SumExpenses([tx][1..]);
  }

  /** With non-negative amounts the spent figure is non-negative and bounded
      by the total of all transactions. */
  lemma {:induction false} SumExpensesBounds(txs: seq<Transaction>)
    requires forall i :: 0 <= i < |txs| ==> txs[i].amount >= 0
    ensures 0 <= SumExpenses(txs) <= Total(txs)
  {
    if txs != [] {
      SumExpensesBounds(txs[1..]);
    }
  }

  // ---------------------------------------------------------------------
  // Remaining and percentage
  // ---------------------------------------------------------------------

  /** Budget minus spent; negative when the budget is exceeded, which is
      reported as such and not treated as an error. */
  function Remaining(budget: int, spent: int): (r: int)
    ensures r < 0 <==> spent > budget
    ensures r + spent == budget
  {
    budget - spent
  }

  /** Percentage of the budget spent; a budget that is not positive gives 0
      instead of a division by zero. */
  function PercentSpent(spent: int, budget: int): (p: real)
    ensures budget > 0 ==> p * (budget as real) == (spent as real) * 100.0
    ensures budget <= 0 ==> p == 0.0
    ensures budget > 0 ==> (p >= 0.0 <==> spent >= 0)
    ensures budget > 0 ==> (p <= 100.0 <==> spent <= budget)
  {
    if budget > 0 then (spent as real) / (budget as real) * 100.0 else 0.0
  }

  /** Conversion of a number to an integer by truncation toward zero, as
      `int(x)` does on a float. */
  function Trunc(x: real): (n: int)
    ensures x >= 0.0 ==> n as real <= x < n as real + 1.0
    ensures x < 0.0 ==> n as real - 1.0 < x <= n as real
  {
    if x >= 0.0 then x.Floor else -((-x).Floor)
  }

  /** Number of filled cells: the percentage divided by ten, truncated.
      Nothing clamps it to the bar's width. */
  function FilledCells(spent: int, budget: int): (f: int)
    ensures budget > 0 && spent >= 0 ==> f == (spent * 10) / budget
    ensures budget <= 0 ==> f == 0
  {
    if budget > 0 && spent >= 0 then
      FilledIsIntegerDivision(spent, budget);
      Trunc(PercentSpent(spent, budget) / 10.0)
    else
      Trunc(PercentSpent(spent, budget) / 10.0)
  }

  /** For a positive budget and non-negative spending, truncating the
      percentage over ten is integer division of ten times spent by the
      budget. */
  lemma FilledIsIntegerDivision(spent: int, budget: int)
    requires budget > 0 && spent >= 0
    ensures Trunc(PercentSpent(spent, budget) / 10.0) == (spent * 10) / budget
  {
    var x := PercentSpent(spent, budget) / 10.0;
    var b := budget as real;
    var q := (spent * 10) / budget;
    var r := (spent * 10) % budget;
    assert spent * 10 == q * budget + r && 0 <= r < budget;
    assert (q * budget) as real == (q as real) * b;
    assert x * b == (spent * 10) as real;
    FractionBounds(x - q as real, b, r as real);
  }

  /** A quotient by a positive number of something in [0, b) lies in [0, 1). */
  lemma FractionBounds(d: real, b: real, r: real)
    requires b > 0.0 && d * b == r && 0.0 <= r < b
    ensures 0.0 <= d < 1.0
  {
    assert (1.0 - d) * b == b - r;
    PositiveFactor(1.0 - d, b);
    PositiveFactor(d, b);
  }

  /** The sign of a product with a positive factor is the other factor's. */
  lemma PositiveFactor(u: real, b: real)
    requires b > 0.0
    ensures u * b > 0.0 ==> u > 0.0
    ensures u * b >= 0.0 ==> u >= 0.0
  {
  }

  // ---------------------------------------------------------------------
  // Progress bar
  // ---------------------------------------------------------------------

  /** `c` repeated `n` times; like string repetition, a count that is zero
      or negative gives the empty string. */
  function Repeat(c: char, n: int): (r: string)
    ensures |r| == if n > 0 then n else 0
    ensures forall i :: 0 <= i < |r| ==> r[i] == c
  {
    seq(if n > 0 then n else 0, _ => c)
  }

  /** The bar as written: `filled` full cells, then `10 - filled` empty
      ones.  Within 0..10 that is exactly ten cells; above 10 the empty part
      vanishes and the bar grows to `filled` cells; below 0 the full part
      vanishes and the bar grows to `10 - filled` cells. */
  function ProgressBar(filled: int): (r: string)
    ensures 0 <= filled <= BarWidth ==>
      |r| == BarWidth && forall i :: 0 <= i < |r| ==> r[i] == (if i < filled then FullCell else EmptyCell)
    ensures filled > BarWidth ==>
      |r| == filled && forall i :: 0 <= i < |r| ==> r[i] == FullCell
    ensures filled < 0 ==>
      |r| == BarWidth - filled && forall i :: 0 <= i < |r| ==> r[i] == EmptyCell
  {
    Repeat(FullCell, filled) + Repeat(EmptyCell, BarWidth - filled)
  }

  /** For a positive budget and non-negative spending, the bar is exactly
      ten cells wide if and only if less than 110% of the budget is spent. */
  lemma BarIsTenCellsIff(spent: int, budget: int)
    requires budget > 0 && spent >= 0
    ensures |ProgressBar(FilledCells(spent, budget))| == BarWidth <==> spent * 10 < 11 * budget
  {
    var f := FilledCells(spent, budget);
    var r := (spent * 10) % budget;
    assert spent * 10 == f * budget + r && 0 <= r < budget;
    assert f >= 0;
    if f <= BarWidth {
      MulMonotone(f, 10, budget);
    } else {
      MulMonotone(11, f, budget);
    }
  }

  lemma MulMonotone(x: int, y: int, b: int)
    requires x <= y && b >= 0
    ensures x * b <= y * b
  {
    assert y * b - x * b == (y - x) * b;
  }

  // ---------------------------------------------------------------------
  // The whole status
  // ---------------------------------------------------------------------

  /** Everything `view_budget` reports besides the currency symbol. */
  datatype Status = Status(spent: int, remaining: int, percent: real, filled: int, bar: string)

  function ComputeStatus(budget: int, txs: seq<Transaction>): (st: Status)
    ensures st.spent == Total(Expenses(txs))
    ensures st.remaining == budget - st.spent
    ensures budget > 0 ==> st.percent * (budget as real) == (st.spent as real) * 100.0
    ensures budget <= 0 ==> st.percent == 0.0 && st.filled == 0 && st.bar == Repeat(EmptyCell, BarWidth)
    ensures budget > 0 && st.spent >= 0 ==> st.filled == (st.spent * 10) / budget
    ensures 0 <= st.spent <= budget ==> |st.bar| == BarWidth
    ensures st.bar == ProgressBar(st.filled)
  {
    var spent := SumExpenses(txs);
    var filled := FilledCells(spent, budget);
    Status(spent, Remaining(budget, spent), PercentSpent(spent, budget), filled, ProgressBar(filled))
  }

  /** With non-negative amounts and a positive budget, the status bar is
      ten cells wide exactly when less than 110% of the budget is spent;
      otherwise it is wider. */
  lemma StatusBarIsTenCellsIff(budget: int, txs: seq<Transaction>)
    requires budget > 0
    requires forall i :: 0 <= i < |txs| ==> txs[i].amount >= 0
    ensures var st := ComputeStatus(budget, txs);
      && (|st.bar| == BarWidth <==> st.spent * 10 < 11 * budget)
      && |st.bar| >= BarWidth
  {
    SumExpensesBounds(txs);
    BarIsTenCellsIff(SumExpenses(txs), budget);
  }

  /** Budget 100.00 with expenses 30.00 and 20.00 (and an income that is
      ignored): 50.00 spent, 50.00 left, 50%, five cells filled. */
  lemma HalfSpentExample()
    ensures var st := ComputeStatus(10000, [Transaction(3000, "expense"), Transaction(7000, "income"), Transaction(2000, "expense")]);
      && st.spent == 5000 && st.remaining == 5000 && st.percent == 50.0 && st.filled == 5
      && st.bar == "▓▓▓▓▓░░░░░"
  {
    var txs := [Transaction(3000, "expense"), Transaction(7000, "income"), Transaction(2000, "expense")];
    assert SumExpenses(txs) == 5000 by {
      assert txs[1..] == [Transaction(7000, "income"), Transaction(2000, "expense")];
      assert txs[1..][1..] == [Transaction(2000, "expense")];
    }
  }

  /** Spending two and a half times the budget draws a bar of 25 cells, not
      10: the filled count is not clamped. */
  lemma OverspentBarOverflows()
    ensures |ComputeStatus(10000, [Transaction(25000, "expense")]).bar| == 25
  {
    var txs := [Transaction(25000, "expense")];
    assert SumExpenses(txs) == 25000 by {
      assert txs[1..] == [];
    }
  }
}
