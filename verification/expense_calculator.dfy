/**
 * The `Calculator` helpers (utils/expense_calculator.py) over exact numbers;
 * `calculate_total` takes its arguments as a sequence.
 */
module ExpenseCalculator {

  function Multiply(num1: real, num2: real): real
  {
    num1 * num2
  }

  function Add(num1: real, num2: real): real
  {
    num1 + num2
  }

  /** Python's `sum(x)`: 0 for no values, otherwise the running sum from the left. */
  function CalculateTotal(xs: seq<real>): real
  {
    if xs == [] then 0.0 else CalculateTotal(xs[..|xs| - 1]) + xs[|xs| - 1]
  }

  /** `total/days` for a positive number of days, otherwise 0 without dividing. */
  function CalculateDailyBudget(total: real, days: int): (r: real)
    ensures days > 0 ==> r * days as real == total
    ensures days <= 0 ==> r == 0.0
  {
    if days > 0 then total / days as real else 0.0
  }

  /** The total of two lists of expenses together is the sum of their totals. */
  lemma {:induction false} TotalAppend(xs: seq<real>, ys: seq<real>)
    ensures CalculateTotal(xs + ys) == CalculateTotal(xs) + CalculateTotal(ys)
    decreases |ys|
  {
    if ys == [] {
      assert xs + ys == xs;
    } else {
      assert (xs + ys)[..|xs + ys| - 1] == xs + ys[..|ys| - 1];
      TotalAppend(xs, ys[..|ys| - 1]);
    }
  }

  /** The total does not depend on the order of the expenses: moving the first to the end keeps it. */
  lemma TotalRotate(x: real, ys: seq<real>)
    ensures CalculateTotal([x] + ys) == CalculateTotal(ys + [x])
  {
    TotalAppend([x], ys);
    TotalAppend(ys, [x]);
    assert CalculateTotal([x]) == x by {
      assert [x][..0] == [];
    }
  }

  /** Spreading a trip's total over its days and multiplying back gives the total. */
  lemma DailyBudgetOfTotal(xs: seq<real>, days: int)
    requires days > 0
    ensures Multiply(CalculateDailyBudget(CalculateTotal(xs), days), days as real) == CalculateTotal(xs)
  {
  }

  /** The daily budget of two lists of expenses together is the sum of their daily budgets. */
  lemma DailyBudgetOfCombined(xs: seq<real>, ys: seq<real>, days: int)
    ensures CalculateDailyBudget(CalculateTotal(xs + ys), days) ==
      Add(CalculateDailyBudget(CalculateTotal(xs), days), CalculateDailyBudget(CalculateTotal(ys), days))
  {
    TotalAppend(xs, ys);
  }
}
