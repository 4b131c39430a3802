/** The expense tools (tools/expense_calculator_tool.py), each a call to `Calculator`. */
module ExpenseCalculatorTool {
  import opened ExpenseCalculator

  /** The exported tools, in order. */
  const ToolNames: seq<string> := ["estimate_hotel_cost", "calculate_total_expense", "calculate_daily_budget"]

  function EstimateHotelCost(pricePerNight: int, totalDays: real): real
  {
    Multiply(pricePerNight as real, totalDays)
  }

  function CalculateTotalExpense(pricePerTicket: real, totalDays: real): real
  {
    Multiply(pricePerTicket, totalDays)
  }

  function DailyBudget(totalCost: real, days: int): real
  {
    CalculateDailyBudget(totalCost, days)
  }

  /** A hotel stay costs the nightly price per day: nothing for no days, and stays add up. */
  lemma HotelCostPerNight(pricePerNight: int, d1: real, d2: real)
    ensures EstimateHotelCost(pricePerNight, 0.0) == 0.0
    ensures EstimateHotelCost(pricePerNight, d1 + d2) == EstimateHotelCost(pricePerNight, d1) + EstimateHotelCost(pricePerNight, d2)
    ensures EstimateHotelCost(pricePerNight, 1.0) == pricePerNight as real
  {
  }

  /**
   * Spreading a hotel stay or a trip expense over a positive number of days
   * gives back the nightly price or the ticket price; with no days the budget is 0.
   */
  lemma BudgetOfPerDayCosts(pricePerNight: int, pricePerTicket: real, days: int)
    ensures DailyBudget(EstimateHotelCost(pricePerNight, days as real), days) ==
      if days > 0 then pricePerNight as real else 0.0
    ensures DailyBudget(CalculateTotalExpense(pricePerTicket, days as real), days) ==
      if days > 0 then pricePerTicket else 0.0
  {
    if days > 0 {
      var d := days as real;
      assert (pricePerNight as real * d) / d == pricePerNight as real;
      assert (pricePerTicket * d) / d == pricePerTicket;
    }
  }

  /** The budget tool divides for a positive number of days and answers 0 otherwise. */
  lemma DailyBudgetDelegates(totalCost: real, days: int)
    ensures days > 0 ==> DailyBudget(totalCost, days) * days as real == totalCost
    ensures days <= 0 ==> DailyBudget(totalCost, days) == 0.0
  {
  }

  /** Exactly three tools, distinct, in order. */
  lemma ExportedTools()
    ensures |ToolNames| == 3
    ensures ToolNames[0] == "estimate_hotel_cost" && ToolNames[2] == "calculate_daily_budget"
    ensures forall i, j :: 0 <= i < j < |ToolNames| ==> ToolNames[i] != ToolNames[j]
  {
  }
}
