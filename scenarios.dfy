/** Worked examples of the ledger and the monthly view, written against the
    contracts alone: a client of `Ledger` and two month totals. */
module Scenarios {
  import opened ExpenseLedger
  import opened MonthlyTotals

  /** Add a 124.00 expense at 24% VAT, raise its price to 248.00 through the
      edit form (which passes zero placeholders for the derived amounts),
      then delete it twice. */
  method SeedAddEditDelete() {
    var ledger := new Ledger();
    ledger.Add(Draft("Seed", 124.0, 0.24, Date(2024, 3, 15), ""), "1");
    assert |ledger.expenses| == 1;
    var seed := ledger.expenses[0];
    assert seed.id == "1" && seed.expensePrice == 100.0 && seed.returnedVat == 24.0;

    ledger.Update(seed.(price := 248.0, expensePrice := 0.0, returnedVat := 0.0));
    assert |ledger.expenses| == 1;
    assert ledger.expenses[0].expensePrice == 200.0 && ledger.expenses[0].returnedVat == 48.0;
    assert TotalExpensePrice(ledger.expenses) == 200.0 by {
      SumOfSnoc([], ledger.expenses[0], Net);
      assert [] + [ledger.expenses[0]] == ledger.expenses;
    }

    ledger.Update(Expense("2", "Other", 10.0, 0.0, Date(2024, 1, 1), "", 0.0, 0.0));
    assert |ledger.expenses| == 1 && ledger.expenses[0].id == "1";

    ledger.Delete("1");
    assert ledger.expenses == [];
    ledger.Delete("1");
    assert ledger.expenses == [];
  }

  /** A March expense of 2023 and one of 2024 both count towards March. */
  lemma MarchAcrossYears()
    ensures var march23 := Expense("a", "Seed", 62.0, 0.24, Date(2023, 3, 1), "", 50.0, 12.0);
      var march24 := Expense("b", "Feed", 31.0, 0.24, Date(2024, 3, 1), "", 25.0, 6.0);
      GetMonthTotals([march23, march24], "03") == Totals(75.0, 18.0)
  {
    var march23 := Expense("a", "Seed", 62.0, 0.24, Date(2023, 3, 1), "", 50.0, 12.0);
    var march24 := Expense("b", "Feed", 31.0, 0.24, Date(2024, 3, 1), "", 25.0, 6.0);
    MonthKeyInTable(3);
    MonthTotalsAppend([], march23, "03");
    MonthTotalsAppend([march23], march24, "03");
    assert [] + [march23] == [march23];
    assert [march23] + [march24] == [march23, march24];
  }

  /** A March expense and an April one: the ledger total counts both, the
      March total only the March one. */
  lemma MarchExcludesApril()
    ensures var march := Expense("a", "Seed", 62.0, 0.24, Date(2024, 3, 1), "", 50.0, 12.0);
      var april := Expense("b", "Fuel", 86.8, 0.24, Date(2024, 4, 1), "", 70.0, 16.8);
      TotalExpensePrice([march, april]) == 120.0 &&
      GetMonthTotals([march, april], "03") == Totals(50.0, 12.0)
  {
    var march := Expense("a", "Seed", 62.0, 0.24, Date(2024, 3, 1), "", 50.0, 12.0);
    var april := Expense("b", "Fuel", 86.8, 0.24, Date(2024, 4, 1), "", 70.0, 16.8);
    MonthKeyInTable(3);
    MonthKeyInTable(4);
    MonthTotalsAppend([], march, "03");
    MonthTotalsAppend([march], april, "03");
    assert [] + [march] == [march];
    assert [march] + [april] == [march, april];
    SumOfSnoc([], march, Net);
    SumOfSnoc([march], april, Net);
  }
}
