/** The expense ledger: expense records, the derivation of the net price and
    the reclaimable VAT from the gross price, and the in-memory list that the
    add, delete and update operations replace. Amounts are exact reals. */
module ExpenseLedger {

  /** The calendar month of a date, as `getMonth() + 1` yields it. */
  type Month = m: int | 1 <= m <= 12 witness 1

  /** A calendar date; the time of day plays no part in the ledger. */
  datatype Date = Date(year: int, month: Month, day: int)

  /** What a caller supplies to add an expense: everything but the id and
      the two derived amounts. */
  datatype Draft = Draft(name: string, price: real, vatRate: real, date: Date, details: string)

  /** A stored expense. `price` is the gross (VAT-inclusive) amount;
      `expensePrice` (net) and `returnedVat` are derived from it. */
  datatype Expense = Expense(
    id: string,
    name: string,
    price: real,
    vatRate: real,
    date: Date,
    details: string,
    expensePrice: real,
    returnedVat: real)

  // ---------------------------------------------------------------------
  // Derived amounts
  // ---------------------------------------------------------------------

  /** The net price hidden in a gross price at the given VAT rate. */
  function NetPrice(price: real, vatRate: real): (net: real)
    requires 1.0 + vatRate != 0.0
    ensures net * (1.0 + vatRate) == price
    ensures 0.0 <= vatRate && 0.0 <= price ==> 0.0 <= net <= price
  {
    var net := price / (1.0 + vatRate);
    assert 0.0 <= vatRate && 0.0 <= price ==> net <= price by {
      if 0.0 <= vatRate && 0.0 <= price {
        assert net * (1.0 + vatRate) == price;
        assert 0.0 <= net;
        assert net <= net * (1.0 + vatRate);
      }
    }
    net
  }

  /** The VAT part of a gross price: what is left once the net price is
      taken out. It is the net price times the rate. */
  function ReturnedVat(price: real, vatRate: real): (vat: real)
    requires 1.0 + vatRate != 0.0
    ensures NetPrice(price, vatRate) + vat == price
    ensures vat == NetPrice(price, vatRate) * vatRate
    ensures 0.0 <= vatRate && 0.0 <= price ==> 0.0 <= vat <= price
  {
    var net := NetPrice(price, vatRate);
    assert net * vatRate == price - net by {
      assert net * (1.0 + vatRate) == net + net * vatRate;
    }
    price - net
  }

  /** A record whose derived amounts are those of its price and rate. */
  ghost predicate Derived(e: Expense) {
    1.0 + e.vatRate != 0.0 &&
    e.expensePrice == NetPrice(e.price, e.vatRate) &&
    e.returnedVat == ReturnedVat(e.price, e.vatRate)
  }

  /** The record `addExpense` builds from a draft and a fresh id. */
  function FromDraft(d: Draft, id: string): (e: Expense)
    requires 1.0 + d.vatRate != 0.0
    ensures e.id == id
    ensures e.name == d.name && e.price == d.price && e.vatRate == d.vatRate
    ensures e.date == d.date && e.details == d.details
    ensures Derived(e)
    ensures e.expensePrice + e.returnedVat == e.price
  {
    var net := NetPrice(d.price, d.vatRate);
    Expense(id, d.name, d.price, d.vatRate, d.date, d.details, net, d.price - net)
  }

  /** The record `updateExpense` stores: the supplied record with both
      derived amounts recomputed; every other field is kept. */
  function Recomputed(e: Expense): (r: Expense)
    requires 1.0 + e.vatRate != 0.0
    ensures r.id == e.id && r.name == e.name && r.price == e.price
    ensures r.vatRate == e.vatRate && r.date == e.date && r.details == e.details
    ensures Derived(r)
    ensures r.expensePrice + r.returnedVat == r.price
  {
    var net := NetPrice(e.price, e.vatRate);
    e.(expensePrice := net, returnedVat := e.price - net)
  }

  /** Whatever derived amounts the caller passes in (the edit form passes
      zeros), they do not reach the stored record. */
  lemma RecomputedIgnoresSupplied(e: Expense, net: real, vat: real)
    requires 1.0 + e.vatRate != 0.0
    ensures Recomputed(e.(expensePrice := net, returnedVat := vat)) == Recomputed(e)
  {
  }

  /** A record that is already derived is its own recomputation. */
  lemma RecomputedOfDerived(e: Expense)
    requires Derived(e)
    ensures Recomputed(e) == e
  {
  }

  // ---------------------------------------------------------------------
  // The new lists built by delete and update
  // ---------------------------------------------------------------------

  /** Whether some record carries the id. */
  predicate HasId(s: seq<Expense>, id: string) {
    exists e :: e in s && e.id == id
  }

  /** `s.filter(keep)`: the records `keep` holds of, in list order. */
  function Filter(s: seq<Expense>, keep: Expense -> bool): (r: seq<Expense>)
    ensures |r| <= |s|
    ensures forall e :: e in r <==> e in s && keep(e)
  {
    if s == [] then []
    else (if keep(s[0]) then [s[0]] else []) + Filter(s[1..], keep)
  }

  /** Filtering distributes over concatenation: the kept records stay in
      their original relative order. */
  lemma {:induction false} FilterConcat(s: seq<Expense>, t: seq<Expense>, keep: Expense -> bool)
    ensures Filter(s + t, keep) == Filter(s, keep) + Filter(t, keep)
  {
    if s == [] {
      assert s + t == t;
    } else {
      assert (s + t)[0] == s[0];
      assert (s + t)[1..] == s[1..] + t;
      FilterConcat(s[1..], t, keep);
    }
  }

  /** A filter that holds of every record keeps the whole list. */
  lemma {:induction false} FilterKeepsAll(s: seq<Expense>, keep: Expense -> bool)
    requires forall e :: e in s ==> keep(e)
    ensures Filter(s, keep) == s
  {
    if s != [] {
      assert s[0] in s;
      assert forall e :: e in s[1..] ==> e in s;
      FilterKeepsAll(s[1..], keep);
      assert [s[0]] + s[1..] == s;
    }
  }

  /** The test `deleteExpense` filters with: the record's id is not `id`. */
  function IdIsNot(id: string): Expense -> bool {
    (e: Expense) => e.id != id
  }

  /** The opposite test: the record carries `id`. */
  function IdIs(id: string): Expense -> bool {
    (e: Expense) => e.id == id
  }

  /** The list without the records that carry the id. */
  function Without(s: seq<Expense>, id: string): (r: seq<Expense>)
    ensures |r| <= |s|
    ensures forall e :: e in r <==> e in s && e.id != id
  {
    Filter(s, IdIsNot(id))
  }

  /** The records that carry the id: those `deleteExpense` removes. */
  function Matching(s: seq<Expense>, id: string): (r: seq<Expense>)
    ensures forall e :: e in r <==> e in s && e.id == id
    ensures r == [] <==> !HasId(s, id)
  {
    var r := Filter(s, IdIs(id));
    assert r != [] ==> r[0] in r;
    r
  }

  /** Deleting an id that no record carries leaves the list as it was. */
  lemma WithoutAbsent(s: seq<Expense>, id: string)
    requires !HasId(s, id)
    ensures Without(s, id) == s
  {
    FilterKeepsAll(s, IdIsNot(id));
  }

  /** Deleting the same id twice is deleting it once. */
  lemma WithoutIdempotent(s: seq<Expense>, id: string)
    ensures Without(Without(s, id), id) == Without(s, id)
  {
    WithoutAbsent(Without(s, id), id);
  }

  /** Filtering a list with one record appended. */
  lemma FilterSnoc(s: seq<Expense>, e: Expense, keep: Expense -> bool)
    ensures Filter(s + [e], keep) == Filter(s, keep) + if keep(e) then [e] else []
  {
    FilterConcat(s, [e], keep);
    assert [e][1..] == [];
  }

  /** Appending a record adds it to the deleted records when it carries
      the id, and to the kept ones otherwise. */
  lemma SplitSnoc(s: seq<Expense>, e: Expense, id: string)
    ensures Without(s + [e], id) == Without(s, id) + if e.id != id then [e] else []
    ensures Matching(s + [e], id) == Matching(s, id) + if e.id == id then [e] else []
  {
    FilterSnoc(s, e, IdIsNot(id));
    FilterSnoc(s, e, IdIs(id));
  }

  /** The deleted records and the kept ones together hold the list's
      amounts: a delete lowers a total by the deleted records' share. */
  lemma {:induction false} SumOfWithout(s: seq<Expense>, id: string, f: Amount)
    ensures SumOf(Without(s, id), f) + SumOf(Matching(s, id), f) == SumOf(s, f)
    decreases |s|
  {
    if s != [] {
      var init, e := s[..|s| - 1], s[|s| - 1];
      assert init + [e] == s;
      SumOfWithout(init, id, f);
      var kept, gone := Without(init, id), Matching(init, id);
      SplitSnoc(init, e, id);
      assert SumOf(s, f) == SumOf(init, f) + AmountOf(e, f);
      if e.id == id {
        assert Without(s, id) == kept;
        assert Matching(s, id) == gone + [e];
        SumOfSnoc(gone, e, f);
      } else {
        assert Without(s, id) == kept + [e];
        assert Matching(s, id) == gone;
        SumOfSnoc(kept, e, f);
      }
    }
  }

  /** The list with every record that carries `e.id` replaced by `e`
      (`map`); the other records are untouched, in place. */
  function Replace(s: seq<Expense>, e: Expense): (r: seq<Expense>)
    ensures |r| == |s|
    ensures forall i :: 0 <= i < |s| ==> r[i] == if s[i].id == e.id then e else s[i]
  {
    if s == [] then []
    else [if s[0].id == e.id then e else s[0]] + Replace(s[1..], e)
  }

  /** Updating an id that no record carries leaves the list as it was. */
  lemma ReplaceAbsent(s: seq<Expense>, e: Expense)
    requires !HasId(s, e.id)
    ensures Replace(s, e) == s
  {
  }

  /** Replacing twice with the same record is replacing once. */
  lemma ReplaceIdempotent(s: seq<Expense>, e: Expense)
    ensures Replace(Replace(s, e), e) == Replace(s, e)
  {
  }

  /** Updating does not change which ids the list holds. */
  lemma ReplaceKeepsIds(s: seq<Expense>, e: Expense, id: string)
    ensures HasId(Replace(s, e), id) <==> HasId(s, id)
  {
  }

  /** A delete after an update removes what the update wrote. */
  lemma WithoutAfterReplace(s: seq<Expense>, e: Expense)
    ensures Without(Replace(s, e), e.id) == Without(s, e.id)
  {
  }

  /** An update after a delete of the same id finds nothing to replace. */
  lemma ReplaceAfterWithout(s: seq<Expense>, e: Expense)
    ensures Replace(Without(s, e.id), e) == Without(s, e.id)
  {
    ReplaceAbsent(Without(s, e.id), e);
  }

  // ---------------------------------------------------------------------
  // Totals
  // ---------------------------------------------------------------------

  /** Which amount of a record a total adds up. */
  datatype Amount = Net | Vat | Gross

  /** The amount of one record that a total adds up. */
  function AmountOf(e: Expense, f: Amount): real {
    match f
    case Net => e.expensePrice
    case Vat => e.returnedVat
    case Gross => e.price
  }

  /** `reduce((sum, e) => sum + e.<amount>, 0)`: a left fold from 0. */
  function SumOf(s: seq<Expense>, f: Amount): real
    decreases |s|
  {
    if s == [] then 0.0 else SumOf(s[..|s| - 1], f) + AmountOf(s[|s| - 1], f)
  }

  /** The sum over a concatenation is the sum of the sums. */
  lemma {:induction false} SumOfConcat(s: seq<Expense>, t: seq<Expense>, f: Amount)
    ensures SumOf(s + t, f) == SumOf(s, f) + SumOf(t, f)
    decreases |t|
  {
    if t == [] {
      assert s + t == s;
    } else {
      var u := t[..|t| - 1];
      assert (s + t)[..|s + t| - 1] == s + u;
      assert (s + t)[|s + t| - 1] == t[|t| - 1];
      SumOfConcat(s, u, f);
    }
  }

  /** The sum over a list with one record appended. */
  lemma SumOfSnoc(s: seq<Expense>, e: Expense, f: Amount)
    ensures SumOf(s + [e], f) == SumOf(s, f) + AmountOf(e, f)
  {
  }

  /** The sum over a list with one record prepended. */
  lemma SumOfCons(e: Expense, s: seq<Expense>, f: Amount)
    ensures SumOf([e] + s, f) == AmountOf(e, f) + SumOf(s, f)
  {
    SumOfConcat([e], s, f);
    assert [e][..0] == [];
  }

  /** The sum of the net prices over the whole list. */
  function TotalExpensePrice(s: seq<Expense>): (t: real)
    ensures s == [] ==> t == 0.0
  {
    SumOf(s, Net)
  }

  /** The sum of the reclaimable VAT over the whole list. */
  function TotalReturnedVat(s: seq<Expense>): (t: real)
    ensures s == [] ==> t == 0.0
  {
    SumOf(s, Vat)
  }

  /** The sum of the gross prices over the whole list. */
  function TotalPrice(s: seq<Expense>): real {
    SumOf(s, Gross)
  }

  /** Over derived records the net total and the VAT total add up to the
      gross total. */
  lemma {:induction false} TotalsAddUpToGross(s: seq<Expense>)
    requires forall e :: e in s ==> Derived(e)
    ensures TotalExpensePrice(s) + TotalReturnedVat(s) == TotalPrice(s)
    decreases |s|
  {
    if s != [] {
      var u := s[..|s| - 1];
      assert forall e :: e in u ==> e in s;
      assert s[|s| - 1] in s;
      TotalsAddUpToGross(u);
    }
  }

  // ---------------------------------------------------------------------
  // The ledger state
  // ---------------------------------------------------------------------

  /** The in-memory list of expenses, in insertion order. Each mutator
      replaces the whole list, as `setExpenses` does. */
  class Ledger {
    var expenses: seq<Expense>

    /** Every record in the ledger carries the amounts derived from it. */
    ghost predicate Valid()
      reads this
    {
      forall e :: e in expenses ==> Derived(e)
    }

    /** The ledger starts empty, before the stored list is loaded. */
    constructor ()
      ensures expenses == [] && Valid()
    {
      expenses := [];
    }

    /** In a valid ledger the net total and the VAT total add up to the
        gross total of the stored prices. */
    lemma TotalsAddUp()
      requires Valid()
      ensures TotalExpensePrice(expenses) + TotalReturnedVat(expenses) == TotalPrice(expenses)
    {
      TotalsAddUpToGross(expenses);
    }

    /** `addExpense`: derive the amounts, give the record `id`, append it. */
    method Add(draft: Draft, id: string)
      requires 1.0 + draft.vatRate != 0.0
      modifies this
      ensures expenses == old(expenses) + [FromDraft(draft, id)]
      ensures old(Valid()) ==> Valid()
      ensures TotalExpensePrice(expenses) == old(TotalExpensePrice(expenses)) + NetPrice(draft.price, draft.vatRate)
      ensures TotalReturnedVat(expenses) == old(TotalReturnedVat(expenses)) + ReturnedVat(draft.price, draft.vatRate)
    {
      var e := FromDraft(draft, id);
      SumOfConcat(expenses, [e], Net);
      SumOfConcat(expenses, [e], Vat);
      assert [e][..0] == [];
      expenses := expenses + [e];
    }

    /** `deleteExpense`: drop every record that carries `id`. */
    method Delete(id: string)
      modifies this
      ensures expenses == Without(old(expenses), id)
      ensures !HasId(expenses, id)
      ensures old(Valid()) ==> Valid()
      ensures !old(HasId(expenses, id)) ==> expenses == old(expenses)
      ensures TotalExpensePrice(expenses) == old(TotalExpensePrice(expenses)) - TotalExpensePrice(Matching(old(expenses), id))
      ensures TotalReturnedVat(expenses) == old(TotalReturnedVat(expenses)) - TotalReturnedVat(Matching(old(expenses), id))
    {
      if !HasId(expenses, id) {
        WithoutAbsent(expenses, id);
      }
      SumOfWithout(expenses, id, Net);
      SumOfWithout(expenses, id, Vat);
      expenses := Without(expenses, id);
    }

    /** `updateExpense`: every record that carries `e.id` becomes `e` with
        its amounts recomputed; nothing is added when none does. */
    method Update(e: Expense)
      requires 1.0 + e.vatRate != 0.0
      modifies this
      ensures expenses == Replace(old(expenses), Recomputed(e))
      ensures |expenses| == |old(expenses)|
      ensures old(Valid()) ==> Valid()
      ensures !old(HasId(expenses, e.id)) ==> expenses == old(expenses)
    {
      var r := Recomputed(e);
      if !HasId(expenses, e.id) {
        ReplaceAbsent(expenses, r);
      }
      var old_expenses := expenses;
      expenses := Replace(expenses, r);
      assert Valid() <== (forall x :: x in old_expenses ==> Derived(x)) by {
        if forall x :: x in old_expenses ==> Derived(x) {
          forall x | x in expenses ensures Derived(x) {
            var i :| 0 <= i < |expenses| && expenses[i] == x;
            assert old_expenses[i] in old_expenses;
          }
        }
      }
    }
  }
}
