/**
 * The two duplicate rules of the ledger. A fixed item duplicates another
 * when the lower-cased names and the prices are equal (script.js:45 and
 * script.js:195); an expense duplicates another only when date, name and
 * price are all exactly equal (script.js:52), so name case matters there.
 */
module Dedup {
  import opened Text
  import opened Ledgers

  /** `x.name.toLowerCase() === name.toLowerCase() && Number(x.price) === price`. */
  predicate SameFixed(x: FixedItem, name: string, price: int) {
    Lower(x.name) == Lower(name) && x.price == price
  }

  /** `items.some(x => SameFixed(x, name, price))`. */
  predicate HasFixed(items: seq<FixedItem>, name: string, price: int) {
    exists k :: 0 <= k < |items| && SameFixed(items[k], name, price)
  }

  /** No two fixed items are duplicates of each other. */
  predicate NoDupFixed(items: seq<FixedItem>) {
    forall a, b :: 0 <= a < b < |items| ==> !SameFixed(items[a], items[b].name, items[b].price)
  }

  /** `if (!exists) items.push({name, price})`. */
  function InsertFixed(items: seq<FixedItem>, name: string, price: int): (r: seq<FixedItem>)
    ensures HasFixed(r, name, price)
    ensures |items| <= |r| <= |items| + 1 && r[..|items|] == items
    ensures |r| == |items| + 1 <==> !HasFixed(items, name, price)
    ensures |r| == |items| + 1 ==> r[|items|] == FixedItem(name, price)
    ensures NoDupFixed(items) ==> NoDupFixed(r)
  {
    if HasFixed(items, name, price) then items
    else
      var r := items + [FixedItem(name, price)];
      assert SameFixed(r[|items|], name, price);
      r
  }

  /** A fixed item found in a list is still found once the list has grown at its end. */
  lemma HasFixedGrows(items: seq<FixedItem>, longer: seq<FixedItem>, name: string, price: int)
    requires |items| <= |longer| && longer[..|items|] == items
    requires HasFixed(items, name, price)
    ensures HasFixed(longer, name, price)
  {
    var k :| 0 <= k < |items| && SameFixed(items[k], name, price);
    assert longer[k] == items[k];
  }

  /** `x.date === date && x.name === name && Number(x.price) === price`. */
  predicate SameExpense(x: Expense, date: string, name: string, price: int) {
    x.date == date && x.name == name && x.price == price
  }

  /** `expenses.some(x => SameExpense(x, date, name, price))`. */
  predicate HasExpense(expenses: seq<Expense>, date: string, name: string, price: int) {
    exists k :: 0 <= k < |expenses| && SameExpense(expenses[k], date, name, price)
  }

  /** No two expense rows are equal. */
  predicate NoDupExpenses(expenses: seq<Expense>) {
    forall a, b :: 0 <= a < b < |expenses| ==> expenses[a] != expenses[b]
  }

  /** The expense rule is field equality, so a match is the very row being looked for. */
  lemma HasExpenseIsMembership(expenses: seq<Expense>, date: string, name: string, price: int)
    ensures HasExpense(expenses, date, name, price) <==> Expense(date, name, price) in expenses
  {
    if Expense(date, name, price) in expenses {
      var k :| 0 <= k < |expenses| && expenses[k] == Expense(date, name, price);
      assert SameExpense(expenses[k], date, name, price);
    }
  }

  /** `if (!exists) expenses.push({date, name, price})`. */
  function InsertExpense(expenses: seq<Expense>, date: string, name: string, price: int): (r: seq<Expense>)
    ensures Expense(date, name, price) in r
    ensures |expenses| <= |r| <= |expenses| + 1 && r[..|expenses|] == expenses
    ensures |r| == |expenses| + 1 <==> Expense(date, name, price) !in expenses
    ensures NoDupExpenses(expenses) ==> NoDupExpenses(r)
  {
    HasExpenseIsMembership(expenses, date, name, price);
    if HasExpense(expenses, date, name, price) then expenses
    else expenses + [Expense(date, name, price)]
  }
}
