# AgroCost expense ledger, modelled in Dafny

AgroCost is a personal expense tracker. Each expense has a name, a gross
(VAT-inclusive) price, a VAT rate, a date and free-text details; the app
derives the net price (`expensePrice = price / (1 + vatRate)`) and the
reclaimable VAT (`returnedVat = price - expensePrice`), keeps all records in
one in-memory list, and shows the ledger's overall totals and, per calendar
month, the totals of the records dated in that month.

This project models that core:

- `ledger.dfy`, module `ExpenseLedger` (from `context/ExpenseContext.tsx`):
  the `Expense` record and the draft `addExpense` receives; the derivation of
  the two amounts; the new lists the mutators build (`filter` by id for
  delete, `map` replace-by-id for update) and the `reduce` totals, all as
  functions; and a `Ledger` class whose `expenses: seq<Expense>` field the
  methods `Add`, `Delete` and `Update` replace, as `setExpenses` does.
  `Ledger.Valid()` says every stored record carries the amounts derived from
  its own price and rate; every mutator keeps it.
- `monthly.dfy`, module `MonthlyTotals` (from `app/index.tsx`): the table of
  the twelve month ids, the month key `(month).toString().padStart(2, '0')`,
  and `getMonthTotals`, the net and VAT totals of the records whose key
  equals a month id. The main result, `MonthTotalsCoverLedger`, is that the
  twelve months' totals add up to the ledger's totals.
- `scenarios.dfy`, module `Scenarios`: worked examples. A client of `Ledger`
  adds a 124.00 expense at 24% VAT and gets 100.00 net and 24.00 VAT. It then
  edits the price to 248.00 and gets 200.00 and 48.00. It updates an unknown
  id, which changes nothing, and deletes twice. Two month-total examples
  follow.

Modelling choices:

- Money and rates are `real`, so the identities the code's comments state
  (net + VAT = gross, VAT = net × rate) hold exactly.
- `1 + vatRate != 0` is a precondition of the derivation and therefore of
  `Add` and `Update`. The code does not guard it; in JavaScript it gives
  Infinity or NaN.
- A date is `Date(year, month, day)`, with `month` of type `Month` (1..12),
  the range `getMonth() + 1` yields. Parsing the ISO string in the local time
  zone is not modelled.
- The id of a new record is a parameter of `Add`. The app uses
  `Date.now().toString()`, which is a clock read.
- Ids are not assumed unique, because timestamps can collide. Delete removes
  every record with the id, and update replaces every such record, as
  `filter` and `map` do, not only the first match.
- Sums are left folds from 0, the shape of `reduce((sum, e) => sum + …, 0)`.
  One `SumOf` with an `Amount` selector (net, VAT, gross) serves every total.

## Model

| member | source | states |
|---|---|---|
| `ExpenseLedger.NetPrice` | context/ExpenseContext.tsx:59 | the net price times (1 + rate) gives back the gross price; for a non-negative price and rate it lies between 0 and the price |
| `ExpenseLedger.ReturnedVat` | context/ExpenseContext.tsx:60 | net price plus VAT is the gross price; the VAT is the net price times the rate; for a non-negative price and rate it lies between 0 and the price |
| `ExpenseLedger.FromDraft` | context/ExpenseContext.tsx:58-67 | the record `addExpense` builds carries the supplied id and the draft's name, price, rate, date and details unchanged; its amounts are derived from its price and rate and add up to the price |
| `ExpenseLedger.Recomputed` | context/ExpenseContext.tsx:82-89 | the record `updateExpense` stores keeps every supplied field but the two amounts, which are derived afresh and add up to the price |
| `ExpenseLedger.RecomputedIgnoresSupplied` | context/ExpenseContext.tsx:85-89 | whatever amounts the caller passes (the edit form passes zeros) do not affect the stored record |
| `ExpenseLedger.RecomputedOfDerived` | context/ExpenseContext.tsx:82-89 | recomputing a record whose amounts are already derived leaves it as it is |
| `ExpenseLedger.Filter` | context/ExpenseContext.tsx:76 | the filtered list is no longer than the list, and holds exactly the list's records that pass the test |
| `ExpenseLedger.FilterConcat` | context/ExpenseContext.tsx:76 | filtering distributes over concatenation, so kept records keep their relative order |
| `ExpenseLedger.FilterSnoc` | context/ExpenseContext.tsx:76 | filtering a list with a record appended appends that record exactly when it passes |
| `ExpenseLedger.FilterKeepsAll` | context/ExpenseContext.tsx:76 | a filter every record passes returns the list unchanged |
| `ExpenseLedger.Without` | context/ExpenseContext.tsx:76 | the list after `deleteExpense(id)` holds exactly the records whose id is not `id` |
| `ExpenseLedger.Matching` | context/ExpenseContext.tsx:76 | the records a delete removes are exactly those with the id; there are none exactly when no record has the id |
| `ExpenseLedger.WithoutAbsent` | context/ExpenseContext.tsx:76 | deleting an id no record has leaves the list unchanged |
| `ExpenseLedger.WithoutIdempotent` | context/ExpenseContext.tsx:76 | deleting the same id twice gives the same list as deleting it once |
| `ExpenseLedger.SplitSnoc` | context/ExpenseContext.tsx:76 | a record appended to the list is kept by a delete of another id and removed by a delete of its own id |
| `ExpenseLedger.SumOfWithout` | context/ExpenseContext.tsx:76-97 | the kept records' total plus the deleted records' total is the old total, for each amount |
| `ExpenseLedger.Replace` | context/ExpenseContext.tsx:91 | the updated list has the same length; each record with the id becomes the new record, every other record stays in place unchanged |
| `ExpenseLedger.ReplaceAbsent` | context/ExpenseContext.tsx:91 | updating an id no record has leaves the list unchanged |
| `ExpenseLedger.ReplaceIdempotent` | context/ExpenseContext.tsx:91 | applying the same update twice is applying it once |
| `ExpenseLedger.ReplaceKeepsIds` | context/ExpenseContext.tsx:91 | an update neither adds nor removes any id |
| `ExpenseLedger.WithoutAfterReplace` | context/ExpenseContext.tsx:76-91 | deleting an id after updating it gives the same list as deleting it straight away |
| `ExpenseLedger.ReplaceAfterWithout` | context/ExpenseContext.tsx:76-91 | updating an id after deleting it finds nothing to replace: the list stays as the delete left it |
| `ExpenseLedger.SumOfConcat` | context/ExpenseContext.tsx:96-97 | the total over a concatenation is the sum of the two totals |
| `ExpenseLedger.SumOfSnoc` | context/ExpenseContext.tsx:96-97 | appending a record adds its amount to the total |
| `ExpenseLedger.SumOfCons` | context/ExpenseContext.tsx:96-97 | prepending a record adds its amount to the total |
| `ExpenseLedger.TotalExpensePrice` | context/ExpenseContext.tsx:96 | the net total of an empty list is 0 |
| `ExpenseLedger.TotalReturnedVat` | context/ExpenseContext.tsx:97 | the VAT total of an empty list is 0 |
| `ExpenseLedger.TotalsAddUpToGross` | context/ExpenseContext.tsx:96-97 | over derived records, the net total plus the VAT total is the gross total |
| `ExpenseLedger.Ledger.constructor` | context/ExpenseContext.tsx:30 | the ledger starts empty, which is a valid state |
| `ExpenseLedger.Ledger.TotalsAddUp` | context/ExpenseContext.tsx:96-97 | in a valid ledger, `totalExpensePrice` plus `totalReturnedVat` is the sum of the stored gross prices |
| `ExpenseLedger.Ledger.Add` | context/ExpenseContext.tsx:58-73 | the list becomes the old list with the derived record appended at the end; validity is kept; each total grows by the new record's amount |
| `ExpenseLedger.Ledger.Delete` | context/ExpenseContext.tsx:75-79 | the list becomes the old list without the id's records, in order; no record has the id afterwards; an absent id changes nothing; validity is kept; each total drops by the deleted records' total |
| `ExpenseLedger.Ledger.Update` | context/ExpenseContext.tsx:81-94 | the list becomes the old list with each record that has the id replaced by the recomputed record; its length is kept; an absent id changes nothing; validity is kept |
| `MonthlyTotals.MonthIdsDistinct` | app/index.tsx:7-20 | the table has twelve rows, and no two share an id |
| `MonthlyTotals.DigitChar` | app/index.tsx:29 | a digit d below ten is written as the character d places after '0' |
| `MonthlyTotals.DecimalStringDigits` | app/index.tsx:29 | `toString()` of a natural number is one or more digits; below 100 it is exactly the number in decimal (one digit below 10, tens then units from 10 to 99) |
| `MonthlyTotals.PadStartShape` | app/index.tsx:29 | `padStart` leaves a long enough string alone; otherwise the result has the requested width, ends with the string and holds only fill characters before it |
| `MonthlyTotals.MonthKeyInTable` | app/index.tsx:7-29 | the key of month m is the id of the table's m-th row ("01" to "12"), so every key is a table id |
| `MonthlyTotals.MonthKeyInjective` | app/index.tsx:7-29 | different months have different keys, so each month maps to one table row |
| `MonthlyTotals.InMonth` | app/index.tsx:27-30 | the month's records are no more than the ledger's |
| `MonthlyTotals.InMonthOfMonth` | app/index.tsx:27-30 | a record is among month m's records exactly when it is in the ledger and its month is m, whatever its year |
| `MonthlyTotals.InMonthOutsideTable` | app/index.tsx:27-30 | an id outside the table selects no record |
| `MonthlyTotals.GetMonthTotals` | app/index.tsx:26-36 | for an id outside "01".."12", or an empty ledger, both totals are 0 |
| `MonthlyTotals.MonthTotalsAppend` | app/index.tsx:26-36 | appending a record adds its net and VAT amounts to its own month's totals and leaves every other month's totals unchanged |
| `MonthlyTotals.SumOverMonthsAppend` | app/index.tsx:26-36 | appending a record adds its amounts to the month totals summed over a table, once for each row whose id is its key |
| `MonthlyTotals.CountIdDistinct` | app/index.tsx:7-20 | in a table of distinct ids, each row's id occurs once |
| `MonthlyTotals.CountIdAbsent` | app/index.tsx:7-20 | an id no row has occurs zero times |
| `MonthlyTotals.SumOverMonthsEmpty` | app/index.tsx:26-36 | over an empty ledger, the month totals summed over any table are 0 |
| `MonthlyTotals.MonthTotalsCoverLedger` | app/index.tsx:7-36 | the twelve months' net totals add up to the ledger's `totalExpensePrice`, and their VAT totals to `totalReturnedVat` |
| `Scenarios.MarchAcrossYears` | app/index.tsx:26-33 | a March 2023 and a March 2024 expense both count towards "03" |
| `Scenarios.MarchExcludesApril` | app/index.tsx:26-33 | with a March (net 50) and an April (net 70) expense, the ledger's net total is 120 and March's is 50 |

## Left out

- Loading from and saving to AsyncStorage, and JSON serialisation (`context/ExpenseContext.tsx:37-56`). This is asynchronous foreign I/O whose errors are logged and swallowed. The second `saveExpenses` call in `addExpense` does not change the in-memory list. The save-then-load round trip is therefore not modelled.
- `Date.now().toString()` id generation: the id is a parameter of `Ledger.Add`.
- The React context, the `loading` flag, `useExpenses` and the provider wiring in `app/_layout.tsx`. Each is framework plumbing around the list.
- The add/edit form (`app/add-expense.tsx`): input state, alerts, navigation and `parseFloat`. Its checks that name and price are present and numeric are not preconditions here, because the ledger itself does not enforce them.
- The month detail screen (`app/month/[id].tsx`): grouping by local date string and sorting for display. It repeats the month filter modelled by `MonthlyTotals.InMonth`.
- ISO date parsing and the local-time-zone `getMonth()`: a date is abstracted to a year, a month in 1..12 and a day.
- IEEE-754 rounding, `toFixed(2)` display and all rendering: amounts are exact reals.
- A VAT rate of -1, which divides by zero: it is excluded by precondition.
- `MonthlyTotals.InMonth`: its own contract gives only the length bound. Membership is stated by `MonthlyTotals.InMonthOfMonth`, and order by `ExpenseLedger.FilterConcat`, which it inherits from `ExpenseLedger.Filter`.
- Stale closures: the app's `addExpense`, `deleteExpense` and `updateExpense` build the new list from the `expenses` of the render that created them (`context/ExpenseContext.tsx:69`, `76`, `91`), so two mutations within one render would lose the first. The model's methods always act on the current list; in the app, mutations come one per user action.
- Unparsable dates: `new Date(bad).getMonth() + 1` is `NaN`, whose key "NaN" matches no month id (`app/index.tsx:28-29`). Such a record counts in the ledger totals but in no month. The `Month` type (1..12) leaves this case out, so `MonthlyTotals.MonthTotalsCoverLedger` holds for ledgers whose every date parses, as the dates the form writes with `toISOString()` do.
