/** The monthly view over the ledger: the table of the twelve months, the
    key a record's date gives (its month, 1-based, as a two-digit string),
    and the net and VAT totals of the records whose key equals a month id.
    The year of a date plays no part. */
module MonthlyTotals {
  import opened ExpenseLedger

  /** One row of the month table: its id and its display name. */
  datatype MonthEntry = MonthEntry(id: string, name: string)

  /** The month table the home screen lists, in calendar order. */
  const Months: seq<MonthEntry> := [
    MonthEntry("01", "January"),
    MonthEntry("02", "February"),
    MonthEntry("03", "March"),
    MonthEntry("04", "April"),
    MonthEntry("05", "May"),
    MonthEntry("06", "June"),
    MonthEntry("07", "July"),
    MonthEntry("08", "August"),
    MonthEntry("09", "September"),
    MonthEntry("10", "October"),
    MonthEntry("11", "November"),
    MonthEntry("12", "December")
  ]

  /** Whether some row of the table has the id. */
  predicate IsMonthId(monthId: string) {
    exists i :: 0 <= i < |Months| && Months[i].id == monthId
  }

  /** No two rows of the table share an id. */
  lemma MonthIdsDistinct()
    ensures |Months| == 12
    ensures forall i, j :: 0 <= i < j < |Months| ==> Months[i].id != Months[j].id
  {
  }

  // ---------------------------------------------------------------------
  // The month key: `(month).toString().padStart(2, '0')`
  // ---------------------------------------------------------------------

  /** The decimal digit character of 0..9. */
  function DigitChar(d: nat): (c: char)
    requires d < 10
    ensures '0' <= c <= '9'
    ensures c as int == '0' as int + d
  {
    "0123456789"[d]
  }

  /** `n.toString()` for a natural number: its decimal digits, most
      significant first, without leading zeros. */
  function DecimalString(n: nat): string {
    if n < 10 then [DigitChar(n)] else DecimalString(n / 10) + [DigitChar(n % 10)]
  }

  /** The decimal string is made of digits. Below 100 it is n written in
      decimal: the one digit of a number below 10, and the tens digit then
      the units digit of a number from 10 to 99. */
  lemma {:induction false} DecimalStringDigits(n: nat)
    ensures 1 <= |DecimalString(n)|
    ensures forall i :: 0 <= i < |DecimalString(n)| ==> '0' <= DecimalString(n)[i] <= '9'
    ensures n < 10 ==> DecimalString(n) == [DigitChar(n)]
    ensures 10 <= n < 100 ==> DecimalString(n) == [DigitChar(n / 10), DigitChar(n % 10)]
  {
    if 10 <= n {
      DecimalStringDigits(n / 10);
    }
  }

  /** `s.padStart(width, fill)` with a one-character fill: `s` itself when
      it is already `width` long, else `s` preceded by enough fill
      characters to make it `width` long. */
  function PadStart(s: string, width: nat, fill: char): string {
    if |s| >= width then s else seq(width - |s|, _ => fill) + s
  }

  /** The padded string is `s` when `s` is long enough, else `width` long;
      it ends with `s` and is fill before that. */
  lemma PadStartShape(s: string, width: nat, fill: char)
    ensures |s| >= width ==> PadStart(s, width, fill) == s
    ensures |s| < width ==> |PadStart(s, width, fill)| == width
    ensures var r := PadStart(s, width, fill);
      |r| >= |s| && r[|r| - |s|..] == s && forall i :: 0 <= i < |r| - |s| ==> r[i] == fill
  {
  }

  /** The key `getMonthTotals` compares with a month id. */
  function MonthKey(m: Month): string
  {
    PadStart(DecimalString(m), 2, '0')
  }

  /** The key of month `m` is the id of the table's `m`-th row. */
  lemma MonthKeyInTable(m: Month)
    ensures MonthKey(m) == Months[m - 1].id
    ensures IsMonthId(MonthKey(m))
  {
    DecimalStringDigits(m);
    if m < 10 {
      assert DecimalString(m) == [DigitChar(m)];
      assert MonthKey(m) == ['0', DigitChar(m)];
    } else {
      assert DecimalString(m) == [DigitChar(1), DigitChar(m - 10)];
      assert MonthKey(m) == ['1', DigitChar(m - 10)];
    }
  }

  /** Distinct months have distinct keys, so a key names one table row. */
  lemma MonthKeyInjective(m: Month, n: Month)
    requires MonthKey(m) == MonthKey(n)
    ensures m == n
  {
    MonthKeyInTable(m);
    MonthKeyInTable(n);
    MonthIdsDistinct();
  }

  // ---------------------------------------------------------------------
  // getMonthTotals
  // ---------------------------------------------------------------------

  /** The test `getMonthTotals` filters with: the month key of the
      record's date equals the id. */
  function KeyIs(monthId: string): Expense -> bool {
    (e: Expense) => MonthKey(e.date.month) == monthId
  }

  /** The records whose month key equals the id, in list order. */
  function InMonth(s: seq<Expense>, monthId: string): (r: seq<Expense>)
    ensures |r| <= |s|
  {
    Filter(s, KeyIs(monthId))
  }

  /** A record belongs to month `m` exactly when its date's month is `m`,
      whatever its year. */
  lemma InMonthOfMonth(s: seq<Expense>, m: Month, e: Expense)
    ensures e in InMonth(s, MonthKey(m)) <==> e in s && e.date.month == m
  {
    assert e in InMonth(s, MonthKey(m)) <==> e in s && MonthKey(e.date.month) == MonthKey(m);
    if e in s && MonthKey(e.date.month) == MonthKey(m) {
      MonthKeyInjective(e.date.month, m);
    }
  }

  /** The pair `getMonthTotals` returns. */
  datatype Totals = Totals(expenseTotal: real, vatTotal: real) {
    function Plus(other: Totals): Totals {
      Totals(expenseTotal + other.expenseTotal, vatTotal + other.vatTotal)
    }
  }

  /** An id outside the table matches no record's key. */
  lemma InMonthOutsideTable(s: seq<Expense>, monthId: string)
    ensures !IsMonthId(monthId) ==> InMonth(s, monthId) == []
  {
    var r := InMonth(s, monthId);
    if r != [] {
      assert r[0] in r;
      MonthKeyInTable(r[0].date.month);
    }
  }

  /** `getMonthTotals(monthId)`: net and VAT totals of the month's records.
      An id outside the table matches no record. */
  function GetMonthTotals(s: seq<Expense>, monthId: string): (t: Totals)
    ensures !IsMonthId(monthId) ==> t == Totals(0.0, 0.0)
    ensures s == [] ==> t == Totals(0.0, 0.0)
  {
    var monthExpenses := InMonth(s, monthId);
    InMonthOutsideTable(s, monthId);
    Totals(TotalExpensePrice(monthExpenses), TotalReturnedVat(monthExpenses))
  }

  /** Appending a record adds its amounts to its own month's totals and
      nothing to any other month's. */
  lemma MonthTotalsAppend(s: seq<Expense>, e: Expense, monthId: string)
    ensures GetMonthTotals(s + [e], monthId) ==
      if MonthKey(e.date.month) == monthId
      then GetMonthTotals(s, monthId).Plus(Totals(e.expensePrice, e.returnedVat))
      else GetMonthTotals(s, monthId)
  {
    var a := InMonth(s, monthId);
    FilterSnoc(s, e, KeyIs(monthId));
    if KeyIs(monthId)(e) {
      assert InMonth(s + [e], monthId) == a + [e];
      SumOfSnoc(a, e, Net);
      SumOfSnoc(a, e, Vat);
    } else {
      assert InMonth(s + [e], monthId) == a;
    }
  }

  // ---------------------------------------------------------------------
  // The months together cover the ledger
  // ---------------------------------------------------------------------

  /** How many rows of the table have the id. */
  function CountId(table: seq<MonthEntry>, monthId: string): nat {
    if table == [] then 0
    else CountId(table[..|table| - 1], monthId) + (if table[|table| - 1].id == monthId then 1 else 0)
  }

  /** The month totals added up over the rows of a table. */
  ghost function SumOverMonths(s: seq<Expense>, table: seq<MonthEntry>): Totals {
    if table == [] then Totals(0.0, 0.0)
    else SumOverMonths(s, table[..|table| - 1]).Plus(GetMonthTotals(s, table[|table| - 1].id))
  }

  /** A record's net and VAT amounts, added up `n` times. */
  function Repeated(e: Expense, n: nat): Totals {
    if n == 0 then Totals(0.0, 0.0) else Repeated(e, n - 1).Plus(Totals(e.expensePrice, e.returnedVat))
  }

  /** Appending a record adds its amounts to the sum over a table once per
      row whose id is the record's key. */
  lemma {:induction false} SumOverMonthsAppend(s: seq<Expense>, e: Expense, table: seq<MonthEntry>)
    ensures SumOverMonths(s + [e], table) ==
      SumOverMonths(s, table).Plus(Repeated(e, CountId(table, MonthKey(e.date.month))))
  {
    if table != [] {
      var init, last := table[..|table| - 1], table[|table| - 1];
      var k := MonthKey(e.date.month);
      var n0 := CountId(init, k);
      SumOverMonthsAppend(s, e, init);
      var before, after := GetMonthTotals(s, last.id), GetMonthTotals(s + [e], last.id);
      var rest0, rest1 := SumOverMonths(s, init), SumOverMonths(s + [e], init);
      MonthTotalsAppend(s, e, last.id);
      assert rest1 == rest0.Plus(Repeated(e, n0));
      assert SumOverMonths(s, table) == rest0.Plus(before);
      assert SumOverMonths(s + [e], table) == rest1.Plus(after);
      if last.id == k {
        assert after == before.Plus(Totals(e.expensePrice, e.returnedVat));
        assert CountId(table, k) == n0 + 1;
        assert Repeated(e, n0 + 1) == Repeated(e, n0).Plus(Totals(e.expensePrice, e.returnedVat));
      } else {
        assert after == before;
        assert CountId(table, k) == n0;
      }
    }
  }

  /** In a table of distinct ids, an id that some row has is had by one. */
  lemma {:induction false} CountIdDistinct(table: seq<MonthEntry>, k: nat)
    requires k < |table|
    requires forall i, j :: 0 <= i < j < |table| ==> table[i].id != table[j].id
    ensures CountId(table, table[k].id) == 1
  {
    var init := table[..|table| - 1];
    if k == |table| - 1 {
      assert CountId(init, table[k].id) == 0 by {
        CountIdAbsent(init, table[k].id);
      }
    } else {
      assert init[k] == table[k];
      CountIdDistinct(init, k);
    }
  }

  /** An id no row has is counted zero times. */
  lemma {:induction false} CountIdAbsent(table: seq<MonthEntry>, monthId: string)
    requires forall i :: 0 <= i < |table| ==> table[i].id != monthId
    ensures CountId(table, monthId) == 0
  {
    if table != [] {
      CountIdAbsent(table[..|table| - 1], monthId);
    }
  }

  /** Summing each month's totals over the twelve rows of the table gives
      the ledger's overall net and VAT totals. */
  lemma {:induction false} MonthTotalsCoverLedger(s: seq<Expense>)
    ensures SumOverMonths(s, Months) == Totals(TotalExpensePrice(s), TotalReturnedVat(s))
    decreases |s|
  {
    if s == [] {
      SumOverMonthsEmpty(Months);
    } else {
      var init, e := s[..|s| - 1], s[|s| - 1];
      assert init + [e] == s;
      MonthTotalsCoverLedger(init);
      SumOverMonthsAppend(init, e, Months);
      MonthKeyInTable(e.date.month);
      MonthIdsDistinct();
      CountIdDistinct(Months, e.date.month - 1);
    }
  }

  /** Over an empty ledger every month's totals, and so their sum, are 0. */
  lemma {:induction false} SumOverMonthsEmpty(table: seq<MonthEntry>)
    ensures SumOverMonths([], table) == Totals(0.0, 0.0)
  {
    if table != [] {
      SumOverMonthsEmpty(table[..|table| - 1]);
    }
  }
}
