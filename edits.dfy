/**
 * The edits the page makes to the loaded ledger before writing it back:
 * adding, deleting and editing expense rows (script.js:148-173), the save
 * button's budget and fixed-item input (script.js:187-198), a budget typed
 * into its field (script.js:243) and clearing the month (script.js:232).
 */
module Edits {
  import opened Wrappers
  import opened Text
  import opened Ledgers
  import opened Dedup
  import opened Rollover

  /** `addExpense(exp)`: one row `{date: exp.date || today, name, price}` pushed at the end. */
  function AddExpense(l: Ledger, exp: Expense, today: string): (r: Ledger)
    ensures r.budget == l.budget && r.fixedItems == l.fixedItems && r.currentMonth == l.currentMonth
    ensures |r.expenses| == |l.expenses| + 1 && r.expenses[..|l.expenses|] == l.expenses
    ensures r.expenses[|l.expenses|] == CanonExpense(exp, today)
  {
    l.(expenses := l.expenses + [CanonExpense(exp, today)])
  }

  /** `deleteExpense(index)`: an index outside the list is ignored, otherwise `splice(index, 1)`. */
  function RemoveExpense(l: Ledger, index: int): (r: Ledger)
    ensures r.budget == l.budget && r.fixedItems == l.fixedItems && r.currentMonth == l.currentMonth
    ensures !(0 <= index < |l.expenses|) ==> r == l
    ensures 0 <= index < |l.expenses| ==>
      && |r.expenses| == |l.expenses| - 1
      && (forall k :: 0 <= k < index ==> r.expenses[k] == l.expenses[k])
      && (forall k :: index <= k < |r.expenses| ==> r.expenses[k] == l.expenses[k + 1])
      && multiset(r.expenses) + multiset{l.expenses[index]} == multiset(l.expenses)
  {
    if index < 0 || index >= |l.expenses| then l
    else
      var expenses := l.expenses[..index] + l.expenses[index + 1..];
      assert l.expenses == l.expenses[..index] + [l.expenses[index]] + l.expenses[index + 1..];
      l.(expenses := expenses)
  }

  /** Deleting a row lowers the month's total by exactly its price. */
  lemma RemoveLowersTotal(l: Ledger, index: int)
    requires 0 <= index < |l.expenses|
    ensures Total(RemoveExpense(l, index).expenses) == Total(l.expenses) - l.expenses[index].price
  {
    var before := l.expenses[..index];
    var after := l.expenses[index + 1..];
    assert l.expenses == before + ([l.expenses[index]] + after);
    TotalAppend(before, [l.expenses[index]] + after);
    TotalAppend([l.expenses[index]], after);
    TotalAppend(before, after);
    assert Total([l.expenses[index]]) == l.expenses[index].price by {
      assert [l.expenses[index]][..0] == [];
    }
  }

  /** Deleting the row just added gives the ledger back. */
  lemma RemoveUndoesAdd(l: Ledger, exp: Expense, today: string)
    ensures RemoveExpense(AddExpense(l, exp, today), |l.expenses|) == l
  {
    var added := AddExpense(l, exp, today);
    assert added.expenses[..|l.expenses|] + added.expenses[|l.expenses| + 1..] == l.expenses;
  }

  /** The three cells of a row the table edits. */
  datatype Field = DateField | NameField | PriceField

  /** `row[field] = value`, where the price is `Number(value)` and a non-number becomes 0. */
  function EditedRow(row: Expense, field: Field, value: string): (r: Expense)
    ensures field == DateField ==> r == row.(date := value)
    ensures field == NameField ==> r == row.(name := value)
    ensures field == PriceField ==> r.date == row.date && r.name == row.name
    ensures field == PriceField && ParseNumber(value).None? ==> r.price == 0
  {
    match field
    case DateField => row.(date := value)
    case NameField => row.(name := value)
    case PriceField => row.(price := ParseNumber(value).GetOr(0))
  }

  /** `handleRowEdit`: a missing row is ignored, otherwise only the one cell of that row changes. */
  function EditRow(l: Ledger, index: int, field: Field, value: string): (r: Ledger)
    ensures r.budget == l.budget && r.fixedItems == l.fixedItems && r.currentMonth == l.currentMonth
    ensures !(0 <= index < |l.expenses|) ==> r == l
    ensures |r.expenses| == |l.expenses|
    ensures forall k :: 0 <= k < |l.expenses| && k != index ==> r.expenses[k] == l.expenses[k]
    ensures 0 <= index < |l.expenses| ==> r.expenses[index] == EditedRow(l.expenses[index], field, value)
  {
    if index < 0 || index >= |l.expenses| then l
    else l.(expenses := l.expenses[index := EditedRow(l.expenses[index], field, value)])
  }

  /** Typing the decimal form of a whole number into a price cell stores that number. */
  lemma EditPriceReadsNumber(l: Ledger, index: int, n: int)
    requires 0 <= index < |l.expenses|
    ensures EditRow(l, index, PriceField, IntToString(n)).expenses[index].price == n
  {
    NumberRoundTrip(n);
  }

  /** Typing the old text back into a date or name cell undoes the edit. */
  lemma EditRowUndo(l: Ledger, index: int, field: Field, value: string)
    requires 0 <= index < |l.expenses| && field != PriceField
    ensures var prior := if field == DateField then l.expenses[index].date else l.expenses[index].name;
      EditRow(EditRow(l, index, field, value), index, field, prior) == l
  {
    var edited := EditRow(l, index, field, value);
    var prior := if field == DateField then l.expenses[index].date else l.expenses[index].name;
    assert EditRow(edited, index, field, prior).expenses == l.expenses;
  }

  /** `input !== '' ? Number(input) : null`, with `NaN` as `None`. */
  function ReadNumberInput(text: string): (r: Option<int>)
    ensures text == "" ==> r.None?
    ensures text != "" && IsBlank(text) ==> r == Some(0)
    ensures ParseNumber(text).None? ==> r.None?
    ensures r.Some? ==> r == ParseNumber(text)
  {
    if text == "" then None
    else if IsBlank(text) then
      ParseBlank(text);
      ParseNumber(text)
    else ParseNumber(text)
  }

  /** An input holding the decimal form of a whole number reads as that number. */
  lemma ReadNumberInputReadsNumber(n: int)
    ensures ReadNumberInput(IntToString(n)) == Some(n)
  {
    NumberRoundTrip(n);
  }

  /**
   * The state change of the save button: a budget that reads as a number
   * replaces the budget, and a non-blank trimmed name with a price that reads
   * as a number is inserted as a fixed item unless it already has a match.
   */
  function ApplyInput(l: Ledger, budgetText: string, nameText: string, priceText: string): (r: Ledger)
    ensures r.expenses == l.expenses && r.currentMonth == l.currentMonth
    ensures ReadNumberInput(budgetText).Some? ==> r.budget == ReadNumberInput(budgetText)
    ensures ReadNumberInput(budgetText).None? ==> r.budget == l.budget
    ensures |l.fixedItems| <= |r.fixedItems| <= |l.fixedItems| + 1 && r.fixedItems[..|l.fixedItems|] == l.fixedItems
    ensures Trim(nameText) != [] && ReadNumberInput(priceText).Some? ==>
      HasFixed(r.fixedItems, Trim(nameText), ReadNumberInput(priceText).value)
    ensures Trim(nameText) == [] || ReadNumberInput(priceText).None? ==> r.fixedItems == l.fixedItems
    ensures |r.fixedItems| == |l.fixedItems| + 1 <==>
      Trim(nameText) != [] && ReadNumberInput(priceText).Some?
      && !HasFixed(l.fixedItems, Trim(nameText), ReadNumberInput(priceText).value)
    ensures |r.fixedItems| == |l.fixedItems| + 1 ==>
      r.fixedItems[|l.fixedItems|] == FixedItem(Trim(nameText), ReadNumberInput(priceText).value)
    ensures NoDupFixed(l.fixedItems) ==> NoDupFixed(r.fixedItems)
  {
    var budget := ReadNumberInput(budgetText);
    var name := Trim(nameText);
    var price := ReadNumberInput(priceText);
    var items := if name != [] && price.Some? then InsertFixed(l.fixedItems, name, price.value) else l.fixedItems;
    Ledger(if budget.Some? then budget else l.budget, items, l.expenses, l.currentMonth)
  }

  /** Pressing save twice with the same inputs changes nothing the second time. */
  lemma ApplyInputIdempotent(l: Ledger, budgetText: string, nameText: string, priceText: string)
    ensures var once := ApplyInput(l, budgetText, nameText, priceText);
      ApplyInput(once, budgetText, nameText, priceText) == once
  {
  }

  /** The budget field's change handler: an empty field clears the budget; `NaN` is stored as `null`. */
  function SetBudget(l: Ledger, text: string): (r: Ledger)
    ensures r.fixedItems == l.fixedItems && r.expenses == l.expenses && r.currentMonth == l.currentMonth
    ensures r.budget == ReadNumberInput(text)
  {
    l.(budget := ReadNumberInput(text))
  }

  /** Typing the decimal form of a whole number into the budget field sets that budget. */
  lemma SetBudgetReadsNumber(l: Ledger, n: int)
    ensures SetBudget(l, IntToString(n)).budget == Some(n)
  {
    NumberRoundTrip(n);
  }

  /** Clear-month: the expenses go, budget, fixed items and month stay. */
  function ClearMonth(l: Ledger): (r: Ledger)
    ensures r.budget == l.budget && r.fixedItems == l.fixedItems && r.currentMonth == l.currentMonth
    ensures r.expenses == [] && Total(r.expenses) == 0
  {
    l.(expenses := [])
  }
}
