/**
 * The monthly rollover `handleMonthlyRolloverIfNeeded` (script.js:77-86):
 * when the stored month key differs from the current one, the budget left
 * over is carried into a fresh month with no expenses.
 */
module Rollover {
  import opened Wrappers
  import opened Text
  import opened JsonValues
  import opened MonthKeys
  import opened Ledgers

  /** The sum of the expense prices, added from the first row on like `reduce`. */
  function Total(expenses: seq<Expense>): int {
    if expenses == [] then 0 else Total(expenses[..|expenses| - 1]) + expenses[|expenses| - 1].price
  }

  /** `expenses.reduce((s, e) => s + Number(e.price || 0), 0)`. */
  method SumPrices(expenses: seq<Expense>) returns (total: int)
    ensures total == Total(expenses)
  {
    total := 0;
    var i := 0;
    while i < |expenses|
      invariant 0 <= i <= |expenses|
      invariant total == Total(expenses[..i])
    {
      assert expenses[..i + 1][..i] == expenses[..i];
      total := total + expenses[i].price;
      i := i + 1;
    }
    assert expenses[..i] == expenses;
  }

  lemma {:induction false} TotalAppend(a: seq<Expense>, b: seq<Expense>)
    ensures Total(a + b) == Total(a) + Total(b)
    decreases |b|
  {
    if b == [] {
      assert a + b == a;
    } else {
      var front := b[..|b| - 1];
      assert (a + b)[..|a + b| - 1] == a + front;
      TotalAppend(a, front);
    }
  }

  /** The ledger after the rollover check: unchanged in the stored month, carried forward otherwise. */
  function RolledOver(l: Ledger, clock: Clock): (r: Ledger)
    ensures r.currentMonth == Some(NowKey(clock))
    ensures l.currentMonth == Some(NowKey(clock)) ==> r == l
    ensures l.currentMonth != Some(NowKey(clock)) ==>
      && r.budget.Some? && r.budget.value + Total(l.expenses) == l.budget.GetOr(0)
      && r.fixedItems == l.fixedItems && r.expenses == []
  {
    if l.currentMonth == Some(NowKey(clock)) then l
    else Ledger(Some(l.budget.GetOr(0) - Total(l.expenses)), l.fixedItems, [], Some(NowKey(clock)))
  }

  /**
   * The `if` branch of `handleMonthlyRolloverIfNeeded` up to the save: the
   * budget left over after the `reduce` loop starts the current month.
   */
  method CarryForward(l: Ledger, clock: Clock) returns (r: Ledger)
    requires l.currentMonth != Some(NowKey(clock))
    ensures r == RolledOver(l, clock)
  {
    var totalExp := SumPrices(l.expenses);
    var remaining := l.budget.GetOr(0) - totalExp;
    r := Ledger(Some(remaining), l.fixedItems, [], Some(NowKey(clock)));
  }

  /** Running the check again in the same month changes nothing. */
  lemma RolloverIdempotent(l: Ledger, clock: Clock)
    ensures RolledOver(RolledOver(l, clock), clock) == RolledOver(l, clock)
  {
  }

  /** The carried-forward ledger is stored as it is: saving normalises it to itself. */
  lemma RolloverPersists(l: Ledger, clock: Clock)
    requires l.currentMonth != Some(NowKey(clock))
    ensures Persisted(RolledOver(l, clock), clock) == RolledOver(l, clock)
  {
    assert Truthy(NowKey(clock));
  }

  /**
   * For a ledger stamped with the key of some month, a rollover happens exactly
   * when that month is not the current one: the zero-padded key tells months apart.
   */
  lemma RolloverNeededIff(l: Ledger, stamped: YearMonth, clock: Clock)
    requires l.currentMonth == Some(JStr(MonthKey(stamped)))
    ensures RolledOver(l, clock) != l <==> stamped != clock.local
  {
    MonthKeyInjective(stamped, clock.local);
  }

  /**
   * A budget of 1000 with expenses of 300 and 200, stamped January 2024 and
   * checked in February 2024 (month index 1), rolls over into a budget of 500.
   */
  lemma CarryExample(clock: Clock)
    ensures var l := Ledger(Some(1000), [], [Expense("2024-01-05", "Rent", 300), Expense("2024-01-09", "Food", 200)], Some(JStr("2024-01")));
      clock.local == YearMonth(2024, 1) ==> RolledOver(l, clock).budget == Some(500)
  {
    var expenses := [Expense("2024-01-05", "Rent", 300), Expense("2024-01-09", "Food", 200)];
    assert expenses[..1][..0] == [];
    assert expenses[..|expenses| - 1] == expenses[..1];
    assert Total(expenses) == 500;
    if clock.local == YearMonth(2024, 1) {
      FebruaryKey();
    }
  }

  /** The key of February 2024 is not "2024-01". */
  lemma FebruaryKey()
    ensures MonthKey(YearMonth(2024, 1)) != "2024-01"
  {
    assert "2024"[..3] == "202" && "202"[..2] == "20" && "20"[..1] == "2" && "2"[..0] == [];
    assert "01"[..1] == "0" && "0"[..0] == [];
    assert DecimalValue("2024") == 2024 && DecimalValue("01") == 1;
    ParseKeyParts("2024-01", "2024", "01");
    MonthKeyRoundTrip(YearMonth(2024, 1));
  }
}
