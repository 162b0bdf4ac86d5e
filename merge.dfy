/**
 * The import merge `mergeUploaded` (script.js:36-58): the uploaded ledger is
 * folded into the current one. The current budget wins, fixed items and
 * expenses are only appended, and each candidate is checked against the
 * list as it grows, so duplicates inside one upload collapse too.
 */
module Merge {
  import opened Wrappers
  import opened Text
  import opened JsonValues
  import opened Ledgers
  import opened Dedup

  /** An uploaded fixed item is considered only when its trimmed name is not empty. */
  predicate Eligible(fi: FixedItem) {
    Trim(fi.name) != []
  }

  /** The entry an eligible uploaded fixed item becomes. */
  function Trimmed(fi: FixedItem): FixedItem {
    FixedItem(Trim(fi.name), fi.price)
  }

  /** One step of `up.fixedItems.forEach` (script.js:41-47). */
  function AbsorbFixed(out: seq<FixedItem>, fi: FixedItem): (r: seq<FixedItem>)
    ensures |out| <= |r| <= |out| + 1 && r[..|out|] == out
    ensures |r| == |out| + 1 <==> Eligible(fi) && !HasFixed(out, Trim(fi.name), fi.price)
    ensures |r| == |out| + 1 ==> r[|out|] == Trimmed(fi)
    ensures Eligible(fi) ==> HasFixed(r, Trim(fi.name), fi.price)
    ensures NoDupFixed(out) ==> NoDupFixed(r)
  {
    var name := Trim(fi.name);
    if name == [] then out else InsertFixed(out, name, fi.price)
  }

  /** The fixed items after the whole `forEach`. */
  function MergeFixed(out: seq<FixedItem>, ups: seq<FixedItem>): seq<FixedItem>
    decreases |ups|
  {
    if ups == [] then out else MergeFixed(AbsorbFixed(out, ups[0]), ups[1..])
  }

  /** The candidate row an uploaded expense becomes: `ex.date || todayISO()`, name and price. */
  function Candidate(ex: Expense, today: string): Expense {
    Expense(ResolveDate(ex.date, today), ex.name, ex.price)
  }

  /** One step of `up.expenses.forEach` (script.js:48-54). */
  function AbsorbExpense(out: seq<Expense>, ex: Expense, today: string): (r: seq<Expense>)
    ensures |out| <= |r| <= |out| + 1 && r[..|out|] == out
    ensures |r| == |out| + 1 <==> Candidate(ex, today) !in out
    ensures |r| == |out| + 1 ==> r[|out|] == Candidate(ex, today)
    ensures Candidate(ex, today) in r
    ensures NoDupExpenses(out) ==> NoDupExpenses(r)
  {
    var c := Candidate(ex, today);
    InsertExpense(out, c.date, c.name, c.price)
  }

  /** The expenses after the whole `forEach`. */
  function MergeExpenses(out: seq<Expense>, ups: seq<Expense>, today: string): seq<Expense>
    decreases |ups|
  {
    if ups == [] then out else MergeExpenses(AbsorbExpense(out, ups[0], today), ups[1..], today)
  }

  /** The ledger `mergeUploaded` returns and saves, given the current and the normalised uploaded ledger. */
  function MergeLedger(cur: Ledger, up: Ledger, clock: Clock): (r: Ledger)
    ensures r.budget == cur.budget || r.budget == up.budget
    ensures r.budget != cur.budget <==> cur.budget.None? && up.budget.Some?
    ensures MonthSet(r.currentMonth)
    ensures MonthSet(cur.currentMonth) ==> r.currentMonth == cur.currentMonth
    ensures !MonthSet(cur.currentMonth) && MonthSet(up.currentMonth) ==> r.currentMonth == up.currentMonth
    ensures !MonthSet(cur.currentMonth) && !MonthSet(up.currentMonth) ==> r.currentMonth == Some(NowKey(clock))
  {
    var budget := if up.budget.Some? && cur.budget.None? then up.budget else cur.budget;
    var month :=
      if MonthSet(cur.currentMonth) then cur.currentMonth
      else if MonthSet(up.currentMonth) then up.currentMonth
      else Some(NowKey(clock));
    Ledger(budget, MergeFixed(cur.fixedItems, up.fixedItems), MergeExpenses(cur.expenses, up.expenses, clock.today), month)
  }

  /** The body of `mergeUploaded` between reading storage and saving: two loops that push into `out`. */
  method MergeInto(cur: Ledger, up: Ledger, clock: Clock) returns (out: Ledger)
    ensures out == MergeLedger(cur, up, clock)
  {
    out := cur;
    if up.budget.Some? && out.budget.None? {
      out := out.(budget := up.budget);
    }
    var budget := out.budget;
    var i := 0;
    while i < |up.fixedItems|
      invariant 0 <= i <= |up.fixedItems|
      invariant out.budget == budget && out.expenses == cur.expenses && out.currentMonth == cur.currentMonth
      invariant MergeFixed(out.fixedItems, up.fixedItems[i..]) == MergeFixed(cur.fixedItems, up.fixedItems)
    {
      var fi := up.fixedItems[i];
      var name := Trim(fi.name);
      var price := fi.price;
      if name != [] {
        var found := HasFixed(out.fixedItems, name, price);
        if !found {
          out := out.(fixedItems := out.fixedItems + [FixedItem(name, price)]);
        }
      }
      assert up.fixedItems[i..][1..] == up.fixedItems[i + 1..];
      i := i + 1;
    }
    var fixedItems := out.fixedItems;
    var j := 0;
    while j < |up.expenses|
      invariant 0 <= j <= |up.expenses|
      invariant out.budget == budget && out.fixedItems == fixedItems && out.currentMonth == cur.currentMonth
      invariant MergeExpenses(out.expenses, up.expenses[j..], clock.today) == MergeExpenses(cur.expenses, up.expenses, clock.today)
    {
      var ex := up.expenses[j];
      var date := ResolveDate(ex.date, clock.today);
      var name := ex.name;
      var price := ex.price;
      var found := HasExpense(out.expenses, date, name, price);
      if !found {
        out := out.(expenses := out.expenses + [Expense(date, name, price)]);
      }
      assert up.expenses[j..][1..] == up.expenses[j + 1..];
      j := j + 1;
    }
    if !MonthSet(out.currentMonth) {
      out := out.(currentMonth := if MonthSet(up.currentMonth) then up.currentMonth else Some(NowKey(clock)));
    }
  }

  // Fixed items

  /** Merging never removes or alters an existing fixed item: the current list is a prefix. */
  lemma {:induction false} MergeFixedAppendOnly(out: seq<FixedItem>, ups: seq<FixedItem>)
    ensures |out| <= |MergeFixed(out, ups)| && MergeFixed(out, ups)[..|out|] == out
    decreases |ups|
  {
    if ups != [] {
      var next := AbsorbFixed(out, ups[0]);
      MergeFixedAppendOnly(next, ups[1..]);
      assert MergeFixed(out, ups)[..|out|] == MergeFixed(next, ups[1..])[..|next|][..|out|];
    }
  }

  /** Every appended fixed item is the trimmed form of an eligible uploaded item. */
  lemma {:induction false} MergeFixedFromUpload(out: seq<FixedItem>, ups: seq<FixedItem>)
    ensures forall k :: |out| <= k < |MergeFixed(out, ups)| ==>
      exists j :: 0 <= j < |ups| && Eligible(ups[j]) && MergeFixed(out, ups)[k] == Trimmed(ups[j])
    decreases |ups|
  {
    if ups != [] {
      var next := AbsorbFixed(out, ups[0]);
      var merged := MergeFixed(out, ups);
      MergeFixedAppendOnly(next, ups[1..]);
      MergeFixedFromUpload(next, ups[1..]);
      forall k | |out| <= k < |merged|
        ensures exists j :: 0 <= j < |ups| && Eligible(ups[j]) && merged[k] == Trimmed(ups[j])
      {
        if k < |next| {
          assert merged[k] == next[k];
          assert Eligible(ups[0]) && merged[k] == Trimmed(ups[0]);
        } else {
          var j' :| 0 <= j' < |ups[1..]| && Eligible(ups[1..][j']) && merged[k] == Trimmed(ups[1..][j']);
          assert ups[1..][j'] == ups[j' + 1];
          assert Eligible(ups[j' + 1]) && merged[k] == Trimmed(ups[j' + 1]);
        }
      }
    } else {
      assert MergeFixed(out, ups) == out;
    }
  }

  /** Every eligible uploaded item has a match (lower-cased name, price) in the result. */
  lemma {:induction false} MergeFixedCovers(out: seq<FixedItem>, ups: seq<FixedItem>)
    ensures forall j :: 0 <= j < |ups| && Eligible(ups[j]) ==>
      HasFixed(MergeFixed(out, ups), Trim(ups[j].name), ups[j].price)
    decreases |ups|
  {
    if ups != [] {
      var next := AbsorbFixed(out, ups[0]);
      var merged := MergeFixed(out, ups);
      MergeFixedAppendOnly(next, ups[1..]);
      MergeFixedCovers(next, ups[1..]);
      forall j | 0 <= j < |ups| && Eligible(ups[j])
        ensures HasFixed(merged, Trim(ups[j].name), ups[j].price)
      {
        if j == 0 {
          HasFixedGrows(next, merged, Trim(ups[0].name), ups[0].price);
        } else {
          assert ups[j] == ups[1..][j - 1];
        }
      }
    }
  }

  /** Merging introduces no duplicate fixed items into a list that had none. */
  lemma {:induction false} MergeFixedKeepsNoDup(out: seq<FixedItem>, ups: seq<FixedItem>)
    requires NoDupFixed(out)
    ensures NoDupFixed(MergeFixed(out, ups))
    decreases |ups|
  {
    if ups != [] {
      MergeFixedKeepsNoDup(AbsorbFixed(out, ups[0]), ups[1..]);
    }
  }

  /** An upload whose every eligible item already has a match adds nothing. */
  lemma {:induction false} MergeFixedNoop(acc: seq<FixedItem>, ups: seq<FixedItem>)
    requires forall j :: 0 <= j < |ups| && Eligible(ups[j]) ==> HasFixed(acc, Trim(ups[j].name), ups[j].price)
    ensures MergeFixed(acc, ups) == acc
    decreases |ups|
  {
    if ups != [] {
      var next := AbsorbFixed(acc, ups[0]);
      assert next == acc by {
        assert |next| == |acc|;
      }
      forall j | 0 <= j < |ups[1..]| && Eligible(ups[1..][j])
        ensures HasFixed(acc, Trim(ups[1..][j].name), ups[1..][j].price)
      {
        assert ups[1..][j] == ups[j + 1];
      }
      MergeFixedNoop(acc, ups[1..]);
    }
  }

  /** Merging the same fixed items a second time adds nothing. */
  lemma MergeFixedIdempotent(out: seq<FixedItem>, ups: seq<FixedItem>)
    ensures MergeFixed(MergeFixed(out, ups), ups) == MergeFixed(out, ups)
  {
    MergeFixedCovers(out, ups);
    MergeFixedNoop(MergeFixed(out, ups), ups);
  }

  /** Fixed items as the save button and the merge store them: trimmed, not blank, no duplicates. */
  predicate CleanFixed(items: seq<FixedItem>) {
    NoDupFixed(items) && forall k :: 0 <= k < |items| ==> items[k].name != [] && Trim(items[k].name) == items[k].name
  }

  /** An item of a clean list is its own trimmed form and has no match before it. */
  lemma CleanAt(all: seq<FixedItem>, n: nat)
    requires n < |all| && CleanFixed(all)
    ensures Trimmed(all[n]) == all[n] && Eligible(all[n])
    ensures AbsorbFixed(all[..n], all[n]) == all[..n + 1]
  {
    var x := all[n];
    forall k | 0 <= k < n ensures !SameFixed(all[..n][k], x.name, x.price) {
      assert all[..n][k] == all[k];
    }
    assert !HasFixed(all[..n], Trim(x.name), x.price);
    assert all[..n + 1] == all[..n] + [x];
  }

  /** Merging the rest of a clean list onto its first `n` items gives the whole list back. */
  lemma {:induction false} MergeCleanFrom(all: seq<FixedItem>, n: nat)
    requires n <= |all| && CleanFixed(all)
    ensures MergeFixed(all[..n], all[n..]) == all
    decreases |all| - n
  {
    if n == |all| {
      assert all[..n] == all;
    } else {
      CleanAt(all, n);
      assert all[n..][0] == all[n] && all[n..][1..] == all[n + 1..];
      MergeCleanFrom(all, n + 1);
    }
  }

  /** Clean items with no match in the list are appended as they are, in order. */
  lemma MergeFixedAppendsClean(acc: seq<FixedItem>, items: seq<FixedItem>)
    requires CleanFixed(acc + items)
    ensures MergeFixed(acc, items) == acc + items
  {
    var all := acc + items;
    assert all[..|acc|] == acc && all[|acc|..] == items;
    MergeCleanFrom(all, |acc|);
  }

  // Expenses

  /** Merging never removes or alters an existing expense: the current list is a prefix. */
  lemma {:induction false} MergeExpensesAppendOnly(out: seq<Expense>, ups: seq<Expense>, today: string)
    ensures |out| <= |MergeExpenses(out, ups, today)| && MergeExpenses(out, ups, today)[..|out|] == out
    decreases |ups|
  {
    if ups != [] {
      var next := AbsorbExpense(out, ups[0], today);
      MergeExpensesAppendOnly(next, ups[1..], today);
      assert MergeExpenses(out, ups, today)[..|out|] == MergeExpenses(next, ups[1..], today)[..|next|][..|out|];
    }
  }

  /** Every appended expense is the candidate row of an uploaded expense. */
  lemma {:induction false} MergeExpensesFromUpload(out: seq<Expense>, ups: seq<Expense>, today: string)
    ensures forall k :: |out| <= k < |MergeExpenses(out, ups, today)| ==>
      exists j :: 0 <= j < |ups| && MergeExpenses(out, ups, today)[k] == Candidate(ups[j], today)
    decreases |ups|
  {
    if ups != [] {
      var next := AbsorbExpense(out, ups[0], today);
      var merged := MergeExpenses(out, ups, today);
      MergeExpensesAppendOnly(next, ups[1..], today);
      MergeExpensesFromUpload(next, ups[1..], today);
      forall k | |out| <= k < |merged|
        ensures exists j :: 0 <= j < |ups| && merged[k] == Candidate(ups[j], today)
      {
        if k < |next| {
          assert merged[k] == next[k];
          assert merged[k] == Candidate(ups[0], today);
        } else {
          var j' :| 0 <= j' < |ups[1..]| && merged[k] == Candidate(ups[1..][j'], today);
          assert ups[1..][j'] == ups[j' + 1];
          assert merged[k] == Candidate(ups[j' + 1], today);
        }
      }
    } else {
      assert MergeExpenses(out, ups, today) == out;
    }
  }

  /** Every uploaded expense's candidate row is in the result (exact date, name and price). */
  lemma {:induction false} MergeExpensesCovers(out: seq<Expense>, ups: seq<Expense>, today: string)
    ensures forall j :: 0 <= j < |ups| ==> Candidate(ups[j], today) in MergeExpenses(out, ups, today)
    decreases |ups|
  {
    if ups != [] {
      var next := AbsorbExpense(out, ups[0], today);
      var merged := MergeExpenses(out, ups, today);
      MergeExpensesAppendOnly(next, ups[1..], today);
      MergeExpensesCovers(next, ups[1..], today);
      forall j | 0 <= j < |ups| ensures Candidate(ups[j], today) in merged {
        if j == 0 {
          var c := Candidate(ups[0], today);
          var k :| 0 <= k < |next| && next[k] == c;
          assert merged[k] == next[k];
        } else {
          assert ups[j] == ups[1..][j - 1];
        }
      }
    }
  }

  /** Merging introduces no duplicate expense rows into a list that had none. */
  lemma {:induction false} MergeExpensesKeepsNoDup(out: seq<Expense>, ups: seq<Expense>, today: string)
    requires NoDupExpenses(out)
    ensures NoDupExpenses(MergeExpenses(out, ups, today))
    decreases |ups|
  {
    if ups != [] {
      MergeExpensesKeepsNoDup(AbsorbExpense(out, ups[0], today), ups[1..], today);
    }
  }

  /** An upload whose every candidate row is already present adds nothing. */
  lemma {:induction false} MergeExpensesNoop(acc: seq<Expense>, ups: seq<Expense>, today: string)
    requires forall j :: 0 <= j < |ups| ==> Candidate(ups[j], today) in acc
    ensures MergeExpenses(acc, ups, today) == acc
    decreases |ups|
  {
    if ups != [] {
      var next := AbsorbExpense(acc, ups[0], today);
      assert next == acc by {
        assert |next| == |acc|;
      }
      forall j | 0 <= j < |ups[1..]| ensures Candidate(ups[1..][j], today) in acc {
        assert ups[1..][j] == ups[j + 1];
      }
      MergeExpensesNoop(acc, ups[1..], today);
    }
  }

  /** Merging the same expenses a second time adds nothing. */
  lemma MergeExpensesIdempotent(out: seq<Expense>, ups: seq<Expense>, today: string)
    ensures MergeExpenses(MergeExpenses(out, ups, today), ups, today) == MergeExpenses(out, ups, today)
  {
    MergeExpensesCovers(out, ups, today);
    MergeExpensesNoop(MergeExpenses(out, ups, today), ups, today);
  }

  /** Distinct rows with resolved dates are appended as they are, in order. */
  lemma {:induction false} MergeExpensesAppendsDistinct(acc: seq<Expense>, items: seq<Expense>, today: string)
    requires NoDupExpenses(acc + items)
    requires forall k :: 0 <= k < |items| ==> ResolveDate(items[k].date, today) == items[k].date
    ensures MergeExpenses(acc, items, today) == acc + items
    decreases |items|
  {
    if items != [] {
      var x := items[0];
      var all := acc + items;
      assert all[|acc|] == x;
      assert Candidate(x, today) == x;
      forall k | 0 <= k < |acc| ensures acc[k] != x {
        assert all[k] == acc[k];
      }
      assert AbsorbExpense(acc, x, today) == acc + [x];
      assert (acc + [x]) + items[1..] == all;
      MergeExpensesAppendsDistinct(acc + [x], items[1..], today);
    }
  }

  // Whole ledgers

  /** Merge only appends: both current lists survive unchanged as prefixes of the merged ones. */
  lemma MergeOnlyAppends(cur: Ledger, up: Ledger, clock: Clock)
    ensures var r := MergeLedger(cur, up, clock);
      && |cur.fixedItems| <= |r.fixedItems| && r.fixedItems[..|cur.fixedItems|] == cur.fixedItems
      && |cur.expenses| <= |r.expenses| && r.expenses[..|cur.expenses|] == cur.expenses
  {
    MergeFixedAppendOnly(cur.fixedItems, up.fixedItems);
    MergeExpensesAppendOnly(cur.expenses, up.expenses, clock.today);
  }

  /** Importing the same upload twice gives what importing it once gave. */
  lemma MergeIdempotent(cur: Ledger, up: Ledger, clock: Clock)
    ensures MergeLedger(MergeLedger(cur, up, clock), up, clock) == MergeLedger(cur, up, clock)
  {
    MergeFixedIdempotent(cur.fixedItems, up.fixedItems);
    MergeExpensesIdempotent(cur.expenses, up.expenses, clock.today);
  }

  /** A current ledger without duplicates keeps none after a merge. */
  lemma MergeKeepsNoDup(cur: Ledger, up: Ledger, clock: Clock)
    requires NoDupFixed(cur.fixedItems) && NoDupExpenses(cur.expenses)
    ensures NoDupFixed(MergeLedger(cur, up, clock).fixedItems)
    ensures NoDupExpenses(MergeLedger(cur, up, clock).expenses)
  {
    MergeFixedKeepsNoDup(cur.fixedItems, up.fixedItems);
    MergeExpensesKeepsNoDup(cur.expenses, up.expenses, clock.today);
  }

  /**
   * Exporting a ledger and importing it into a freshly cleared one gives the
   * ledger back (stamped with the current month), provided its fixed items are
   * clean and its expense rows are pairwise distinct.
   */
  lemma ReimportIntoCleared(l: Ledger, clock: Clock)
    requires CleanFixed(l.fixedItems) && NoDupExpenses(l.expenses) && Canonical(l, clock.today)
    ensures MergeLedger(Stamp(Default, clock), l, clock) == l.(currentMonth := Some(NowKey(clock)))
  {
    assert [] + l.fixedItems == l.fixedItems;
    assert [] + l.expenses == l.expenses;
    MergeFixedAppendsClean([], l.fixedItems);
    MergeExpensesAppendsDistinct([], l.expenses, clock.today);
  }

  /** Without distinct rows the re-import round trip fails: two identical rows come back as one. */
  lemma DuplicateRowsCollapse(clock: Clock)
    requires clock.today == "2024-01-01"
    ensures var row := Expense("2024-01-01", "", 0);
      MergeLedger(Stamp(Default, clock), Ledger(None, [], [row, row], None), clock).expenses == [row]
  {
    var row := Expense("2024-01-01", "", 0);
    assert Candidate(row, clock.today) == row;
    assert AbsorbExpense([], row, clock.today) == [row];
    assert AbsorbExpense([row], row, clock.today) == [row];
  }

  /**
   * A budget of `"abc"` (in an upload merged into a ledger without one, say)
   * is `NaN` and is written as `null`, so once read back a later upload's
   * budget of 500 is adopted.
   */
  lemma NonNumericBudgetAdopted(clock: Clock, up: Ledger)
    requires up.budget == Some(500)
    ensures var shaped := Normalize(JObj(map["budget" := JStr("abc")]), clock.today);
      && shaped.Some? && Persisted(shaped.value, clock).budget.None?
      && MergeLedger(Persisted(shaped.value, clock), up, clock).budget == Some(500)
  {
    NonNumericBudgetUnset(clock.today);
  }

  /** Fixed items match case-insensitively: "RENT" at 1000 is a duplicate of "Rent" at 1000. */
  lemma FixedMatchIgnoresCase()
    ensures MergeFixed([FixedItem("Rent", 1000)], [FixedItem("RENT", 1000)]) == [FixedItem("Rent", 1000)]
  {
    var rent := [FixedItem("Rent", 1000)];
    var upper := FixedItem("RENT", 1000);
    UpperRentTrimmed();
    RentMatchesUpperCase();
    assert SameFixed(rent[0], "RENT", 1000);
    assert HasFixed(rent, Trim(upper.name), upper.price);
    assert AbsorbFixed(rent, upper) == rent;
    assert [upper][1..] == [];
  }

  lemma UpperRentTrimmed()
    ensures Trim("RENT") == "RENT"
  {
    assert "RENT"[0] == 'R' && "RENT"[|"RENT"| - 1] == 'T';
    TrimKeepsTrimmed("RENT");
  }

  lemma RentMatchesUpperCase()
    ensures Lower("Rent") == Lower("RENT")
  {
    forall k | 0 <= k < 4 ensures SameLetter("Rent"[k], "RENT"[k]) {
      assert IsUpper('E') && IsUpper('N') && IsUpper('T');
    }
    LowerMatchIgnoresCase("Rent", "RENT");
  }

  /** Merging `{fixedItems: [Rent 1000]}` twice into an empty list keeps one entry. */
  lemma RentMergedTwice()
    ensures MergeFixed(MergeFixed([], [FixedItem("Rent", 1000)]), [FixedItem("Rent", 1000)]) == [FixedItem("Rent", 1000)]
  {
    var rent := [FixedItem("Rent", 1000)];
    RentIsClean();
    assert [] + rent == rent;
    MergeFixedAppendsClean([], rent);
    MergeFixedIdempotent([], rent);
  }

  lemma RentIsClean()
    ensures CleanFixed([FixedItem("Rent", 1000)])
  {
    var rent := [FixedItem("Rent", 1000)];
    assert "Rent"[0] == 'R' && "Rent"[|"Rent"| - 1] == 't';
    TrimKeepsTrimmed("Rent");
    assert NoDupFixed(rent);
    assert rent[0].name == "Rent";
  }

  /** Expenses match case-sensitively: "Coffee" and "coffee" on the same day and price both stay. */
  lemma ExpenseMatchKeepsCase(today: string)
    ensures MergeExpenses([Expense("2024-01-01", "Coffee", 5)], [Expense("2024-01-01", "coffee", 5)], today)
         == [Expense("2024-01-01", "Coffee", 5), Expense("2024-01-01", "coffee", 5)]
  {
    assert "Coffee" != "coffee" by {
      assert "Coffee"[0] != "coffee"[0];
    }
  }
}
