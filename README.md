# Personal finance tracker: the ledger-reconciliation core in Dafny

The tracker keeps one ledger record `{budget, fixedItems, expenses, currentMonth}`
in a single browser storage slot. Every user action reads the record back
through a shape normaliser, changes it and writes it back. This project models
that layer of `script.js` and proves properties about it:

- the month key `YEAR-MM` (module `MonthKeys`);
- the normaliser `ensureDataShape`, on a JSON value datatype with JavaScript
  truthiness, `String(x)` and `Number(x)` (modules `JsonValues`, `Ledgers`);
- the two duplicate rules: fixed items match on lower-cased name and price,
  expenses on exact date, name and price (module `Dedup`);
- the import merge `mergeUploaded`, as a fold and as the looping method it
  is in the source (module `Merge`);
- the monthly rollover with its carried-forward budget (module `Rollover`);
- the row edits, the save button's input, the budget field and clear-month
  (module `Edits`);
- the storage slot and every handler that reads, changes and writes it, as a
  class whose methods update the slot (module `Storage`).

Prices and the budget are integers. The clock (`new Date()`, `todayISO()`) is a
`Clock` parameter carrying the local year and month and today's ISO date.

Points where the code's behaviour is easy to misread:

- `monthKey` pads the month to two digits (`2024-03`), and the model uses that
  key everywhere. `MonthKeys.MonthKeyInjective` shows that equal keys mean
  equal months, which is what the rollover comparison relies on.
- `ensureDataShape` throws a `TypeError` when a `fixedItems` or `expenses`
  element is `null`. It also throws when it coerces a value that `String` and
  `Number` cannot convert. That value is a budget, or a row's truthy name,
  price or date. It cannot be converted when it is an object with its own
  `toString` key (which `JSON.parse` creates as a plain property), or an array
  holding such an object. In `readStorage` this takes the `catch` path (a
  default ledger). In `mergeUploaded` the exception escapes, so nothing is
  written. `Ledgers.Normalize` returns `None` there.
- Normalisation is not idempotent for every input. An
  expense whose `date` is truthy but stringifies to `""` (an empty array) is
  kept as `""` by the first pass. The second pass re-dates it to today
  (`Ledgers.HollowDateNotIdempotent`). A price that is not a number, such as
  `"abc"`, is a second case: the first pass gives `NaN` and the second
  `Number(NaN || 0)`, which is 0. The model reads such a price as 0 at once
  (see "Floating point" below). So the model's normaliser is idempotent on
  every input whose normalised form is `Canonical`
  (`Ledgers.NormalizeIdempotent`), and after one more pass it is always stable
  (`Ledgers.NormalizeStable`). The code also reaches that fixed point after
  one more pass in both cases.
- Exporting and re-importing into a cleared ledger reproduces the ledger only
  when its expense rows are pairwise distinct and its fixed items are trimmed,
  non-blank and free of duplicates (`Merge.ReimportIntoCleared`). Two
  identical rows come back as one (`Merge.DuplicateRowsCollapse`).
- A budget that `Number` cannot read (`"abc"`) is `NaN`, which
  `JSON.stringify` writes as `null`. The model reads such a budget as no
  budget (`Ledgers.ShapeBudget`), so once written and read back, a later
  upload's budget is adopted (`Merge.NonNumericBudgetAdopted`).

## Model

| member | source | states |
|---|---|---|
| Text.Trim | script.js:42 | the trimmed name has no white space at either end and is no longer than the input |
| Text.TrimCuts | script.js:42 | the trimmed name is a contiguous slice of the input, and everything cut off before and after it is white space |
| Text.TrimIdempotent | script.js:191 | trimming an already trimmed name changes nothing |
| Text.TrimEmptyIffBlank | script.js:44 | a name is skipped as empty after `trim` exactly when it is made of white space only |
| Text.Lower | script.js:45 | lower-casing keeps the length, turns each upper-case letter into its lower-case letter, leaves no upper-case letter and leaves every other character as it is |
| Text.LowerMatchIgnoresCase | script.js:45 | two names lower-case to the same text exactly when they have equal length and agree letter by letter up to case |
| Text.LowerIdempotent | script.js:195 | lower-casing a lower-cased name changes nothing |
| Text.Decimal | script.js:5 | the decimal form of a year or month is a non-empty string of digits |
| Text.DecimalRoundTrip | script.js:5 | the digits of a natural number read back as that number |
| Text.IntToString | script.js:12-13 | `String(n)` is non-empty, starts with a digit or a minus sign and ends with a digit |
| Text.ParseBlank | script.js:189 | a blank input reads as the number 0, as `Number` does |
| Text.ParseNonDigitEnd | script.js:11 | a text whose trimmed form ends in a non-digit reads as `NaN` |
| Text.ParseSignedDigits | script.js:152 | an optionally negative string of digits reads as the integer it spells |
| Text.NumberRoundTrip | script.js:152 | `Number(String(n))` is `n` for every integer |
| JsonValues.SingletonArrayText | script.js:12-13 | `String([x])` is the text `x` contributes to `join` |
| JsonValues.PairArrayText | script.js:12-13 | `String([x, y])` joins both texts with a comma |
| JsonValues.SingletonArrayNumber | script.js:11-13 | `Number([n])` is `n` |
| JsonValues.EmptyArrayNumber | script.js:11-13 | `String([])` is empty and `Number([])` is 0 |
| JsonValues.StringArrayNumber | script.js:11-13 | a string in a one-element array reads as `Number` of the string, and a blank string reads as 0 |
| JsonValues.NonNumericString | script.js:11-13 | `"abc"` and `"12abc"` read as `NaN` |
| JsonValues.PairArrayNumber | script.js:11-13 | `[1, 2]` stringifies to `"1,2"`, which reads as `NaN` |
| MonthKeys.PadStart2 | script.js:5 | padding yields at least two characters, ends with the input and fills only with zeros |
| MonthKeys.PaddedMonthValue | script.js:5 | a padded one-based month is two digits that read back as the month |
| MonthKeys.MonthKey | script.js:5 | the key ends in a dash followed by two characters |
| MonthKeys.MonthKeyRoundTrip | script.js:5 | the key parses back into the year and month it was made from |
| MonthKeys.MonthKeyInjective | script.js:80 | two dates have equal keys exactly when they fall in the same year and month |
| Ledgers.MapAll | script.js:12-13 | `map` succeeds exactly when the callback succeeds on every element, and then keeps length and order |
| Ledgers.ShapeFixedItem | script.js:12 | shaping a fixed item fails exactly on a `null` element or when its name or price cannot be coerced; a falsy name becomes `""` and a string name is kept; a falsy price becomes 0 and a number is kept |
| Ledgers.ShapeExpense | script.js:13 | shaping an expense fails exactly on a `null` element or when its date, name or price cannot be coerced; a falsy date becomes today and a non-empty string date is kept; name and price as for fixed items |
| Ledgers.Normalize | script.js:8-16 | a falsy or non-object input gives the default ledger; it throws exactly when the budget cannot be coerced or a list row throws, and so whenever a list holds `null`; list lengths follow the input arrays (0 for non-arrays) and each row is the shaped input row at the same index; the budget is `Number` of the input's when that is not `null` and unset otherwise; a truthy month is kept and any other becomes `null` |
| Ledgers.Canon | script.js:13-14 | one more normaliser pass yields a canonical ledger and leaves a canonical one as it is; budget and fixed items are kept, each expense keeps its name and price and its date unless that is empty, when it becomes today; a truthy month is kept, any other becomes `null` |
| Ledgers.Stamp | script.js:23 | the month is always set afterwards, kept when it was set and filled with the current key otherwise |
| Ledgers.Persisted | script.js:30-33 | what is written is canonical with its month set, and a canonical stamped ledger is written as it is; budget and fixed items are kept, expenses change only in empty dates, which become today; a set month is kept, a missing one becomes the current key |
| Ledgers.ToJson | script.js:33 | the stored object has lists of the ledger's lengths without `null` rows, and a `null` budget exactly when there is none |
| Ledgers.EncodedFields | script.js:11-14 | in a stored ledger the normaliser finds both lists as written, reads the budget back as the ledger's own (unset stays unset) and keeps a set month, while an unset month reads as `null` |
| Ledgers.NormalizeEncoded | script.js:31 | normalising a stored ledger's JSON gives that ledger after one more normaliser pass |
| Ledgers.ReloadPersisted | script.js:21-22 | the normaliser reads a written ledger back as exactly that ledger |
| Ledgers.OwnToStringThrows | script.js:11-12 | a budget or a fixed item's name that is an object with its own `toString` key makes the normaliser throw; a name that is an object without one becomes `"[object Object]"` |
| Ledgers.NonNumericBudgetUnset | script.js:11 | `{budget: "abc"}` normalises to a ledger without a budget |
| Ledgers.NormalizeDefaults | script.js:9 | `null` and `{}` both normalise to the default ledger |
| Ledgers.NormalizeStable | script.js:8-16 | the normaliser's output is a fixed point after one further pass |
| Ledgers.NormalizeIdempotent | script.js:8-16 | normalising twice equals normalising once when the first output is canonical |
| Ledgers.HollowDateNotIdempotent | script.js:13 | an expense date `[]` normalises to `""` and then to today: normalisation is not idempotent in general |
| Dedup.InsertFixed | script.js:195-196 | after the insert a match exists; the list grows by one at the end exactly when no match existed; no duplicates are introduced |
| Dedup.HasFixedGrows | script.js:45 | a match in a list is still a match once items are appended to it |
| Dedup.HasExpenseIsMembership | script.js:52 | the expense match is membership of the exact row |
| Dedup.InsertExpense | script.js:52-53 | after the insert the row is present; the list grows by one exactly when it was absent; no duplicates are introduced |
| Merge.AbsorbFixed | script.js:42-46 | one upload step appends the trimmed item exactly when its name is non-blank and it has no match |
| Merge.AbsorbExpense | script.js:49-53 | one upload step appends the dated row exactly when that row is absent |
| Merge.MergeLedger | script.js:40-55 | the budget is the current one unless that is `null` and the uploaded one is not; the month is kept when it was set, otherwise taken from the upload when that has one, otherwise the current key |
| Merge.MergeInto | script.js:39-55 | the two push loops compute the merged ledger |
| Merge.MergeFixedAppendOnly | script.js:41-47 | the current fixed items stay an unchanged prefix |
| Merge.MergeFixedFromUpload | script.js:41-47 | every appended fixed item is the trimmed form of an eligible uploaded one |
| Merge.MergeFixedCovers | script.js:41-47 | every uploaded item with a non-blank name has a match in the result |
| Merge.MergeFixedKeepsNoDup | script.js:45-46 | a duplicate-free list stays duplicate-free, including duplicates inside one upload |
| Merge.MergeFixedNoop | script.js:45-46 | an upload whose items all have matches adds nothing |
| Merge.MergeFixedIdempotent | script.js:41-47 | merging the same fixed items twice adds nothing the second time |
| Merge.MergeFixedAppendsClean | script.js:41-47 | trimmed, non-blank items without matches are appended as they are, in order |
| Merge.MergeExpensesAppendOnly | script.js:48-54 | the current expenses stay an unchanged prefix |
| Merge.MergeExpensesFromUpload | script.js:48-54 | every appended expense is the dated form of an uploaded one |
| Merge.MergeExpensesCovers | script.js:48-54 | every uploaded expense's dated row is in the result |
| Merge.MergeExpensesKeepsNoDup | script.js:52-53 | duplicate-free expenses stay duplicate-free |
| Merge.MergeExpensesNoop | script.js:52-53 | an upload whose rows are all present adds nothing |
| Merge.MergeExpensesIdempotent | script.js:48-54 | merging the same expenses twice adds nothing the second time |
| Merge.MergeExpensesAppendsDistinct | script.js:48-54 | distinct dated rows not yet present are appended as they are, in order |
| Merge.MergeOnlyAppends | script.js:39-54 | both current lists survive as unchanged prefixes of the merged ones |
| Merge.MergeIdempotent | script.js:36-58 | importing the same upload twice gives what importing it once gave |
| Merge.MergeKeepsNoDup | script.js:41-54 | a ledger without duplicates keeps none after a merge |
| Merge.ReimportIntoCleared | script.js:36-58 | a clean ledger merged into a cleared one comes back unchanged, stamped with the current month |
| Merge.DuplicateRowsCollapse | script.js:52-53 | two identical expense rows come back from a re-import as one |
| Merge.NonNumericBudgetAdopted | script.js:40 | a budget `"abc"` is written as `null`, so a later uploaded budget of 500 is adopted |
| Merge.FixedMatchIgnoresCase | script.js:45 | "RENT" at 1000 is a duplicate of "Rent" at 1000 |
| Merge.RentMergedTwice | script.js:41-47 | merging `Rent 1000` twice into an empty list keeps one entry |
| Merge.ExpenseMatchKeepsCase | script.js:52 | "Coffee" and "coffee" on the same day and price both survive |
| Rollover.SumPrices | script.js:81 | the loop computes the total of the expense prices |
| Rollover.TotalAppend | script.js:81 | the total of two lists is the sum of their totals |
| Rollover.CarryForward | script.js:80-83 | the `reduce` loop and the subtraction compute the rolled-over ledger |
| Rollover.RolledOver | script.js:77-86 | the ledger is unchanged in the current month; otherwise the new budget plus the old total is the old budget (or 0), fixed items stay, expenses are emptied and the month becomes the current key |
| Rollover.RolloverIdempotent | script.js:80 | a second check in the same month changes nothing |
| Rollover.RolloverPersists | script.js:83-84 | the carried-forward ledger is written as it is |
| Rollover.RolloverNeededIff | script.js:79-80 | a ledger stamped with some month rolls over exactly when that month is not the current one |
| Rollover.CarryExample | script.js:81-83 | a budget of 1000 with expenses 300 and 200, stamped January and checked in February, rolls over into 500 |
| Edits.AddExpense | script.js:159-162 | exactly one row is appended at the end, dated today when its date is empty; the rest is unchanged |
| Edits.RemoveExpense | script.js:167-170 | an index outside the list changes nothing; otherwise exactly that row goes, the others keep their order, and the rows form the same multiset minus that one |
| Edits.RemoveLowersTotal | script.js:170 | deleting a row lowers the total by exactly its price |
| Edits.RemoveUndoesAdd | script.js:162-170 | deleting the row just added gives the ledger back |
| Edits.EditedRow | script.js:152-153 | only the chosen cell changes; a price that is not a number becomes 0 |
| Edits.EditRow | script.js:148-153 | a missing row changes nothing; otherwise only the chosen cell of that row changes |
| Edits.EditPriceReadsNumber | script.js:152 | typing a whole number into a price cell stores that number |
| Edits.EditRowUndo | script.js:153 | typing the old text back into a date or name cell undoes the edit |
| Edits.ReadNumberInput | script.js:189 | an empty field reads as `null`; a blank non-empty one as 0; a text `Number` cannot read as `NaN` (`None`) |
| Edits.ReadNumberInputReadsNumber | script.js:189 | a field holding the decimal form of a whole number reads as that number |
| Edits.ApplyInput | script.js:188-197 | a numeric budget replaces the budget, otherwise it stays; a non-blank name with a numeric price ends up matched in the fixed items; they grow, by the trimmed name and price at the end, exactly when the name is non-blank, the price numeric and no match existed; they stay duplicate-free; expenses and month stay |
| Edits.ApplyInputIdempotent | script.js:193-196 | pressing save twice with the same inputs changes nothing the second time |
| Edits.SetBudget | script.js:243 | the budget becomes the field's number, or `null` for an empty or non-numeric field; nothing else changes |
| Edits.SetBudgetReadsNumber | script.js:243 | typing a whole number into the budget field sets that budget |
| Edits.ClearMonth | script.js:232 | the expenses go and their total is 0; budget, fixed items and month stay |
| Storage.Parsed | script.js:20-22 | an empty slot reads as the default ledger, unparsable text fails, stored JSON is normalised |
| Storage.Read | script.js:18-28 | the month is always set; a failed read gives the default ledger with the current key; otherwise the normalised ledger with its month kept or filled |
| Storage.ReadAfterWrite | script.js:30-33 | a written ledger reads back as exactly the ledger `saveStorage` persisted |
| Storage.ResaveKeepsCanonical | script.js:246 | saving what was read leaves a canonical stored ledger as it is |
| Storage.Store.Save | script.js:30-34 | the slot holds the normalised, stamped ledger, and reading it back gives that ledger |
| Storage.Store.RolloverIfNeeded | script.js:77-86 | nothing is written in the current month; the ledger read afterwards is the rolled-over one |
| Storage.Store.MergeUploaded | script.js:36-58 | an upload that makes the normaliser throw (a `null` row, or a budget or row field that cannot be coerced) fails without writing; otherwise the merged ledger is returned and stored |
| Storage.Store.HandleRowEdit | script.js:148-157 | a missing row writes nothing; otherwise the edited ledger is stored |
| Storage.Store.AddExpense | script.js:159-165 | the ledger with the row appended is stored |
| Storage.Store.DeleteExpense | script.js:167-173 | an index outside the list writes nothing; otherwise the ledger without that row is stored |
| Storage.Store.SaveInput | script.js:187-198 | the ledger with the budget and fixed-item input applied is stored |
| Storage.Store.ChangeBudget | script.js:243 | the ledger with the field's budget is stored |
| Storage.Store.ClearMonth | script.js:230-234 | the ledger without expenses is stored |
| Storage.Store.ClearAll | script.js:222-228 | the stored ledger is the default one stamped with the current month |

## Left out

- Rendering and the summary display (`renderAll`, `renderFixedItems`, `renderExpenseTable`, `updateSummary`, the element lookups): UI plumbing with no state logic beyond the sum that `Rollover.Total` states.
- The file-reader callback, `JSON.parse` of the uploaded text and `alert`: asynchronous browser I/O. `Storage.Store.MergeUploaded` starts from the parsed value.
- The backup and month export downloads: browser I/O of the stored ledger as it is.
- The `localStorage` API and `JSON.stringify`: the slot holds the parsed value, on the ground that stringify followed by parse is the identity on the integer-valued ledgers modelled here. Text that `JSON.parse` rejects is the `Garbled` slot.
- `new Date()`, `todayISO()` and the `confirm` dialogs: the clock is a parameter and confirmation is taken as given. That `todayISO()` is UTC while `monthKey` is local time is carried only in that both come from the `Clock` parameter independently.
- Floating point: prices and budgets are integers, and `Text.ParseNumber` reads only optionally signed decimal integers (no fractions, exponents, hexadecimal or `Infinity`). `NaN` is `None` in `Text.ParseNumber` and `JsonValues.NumberOf`. A `NaN` price is 0 in `JsonValues.ToNumber`, the value the next read of the stored `null` gives it.
- Ledgers.ShapeBudget: a `NaN` budget is unset at once, where the source keeps `NaN` in memory until `saveStorage` writes it as `null`. What is stored is the same except where a handler reads a `NaN` budget from a slot this program did not write (it always writes `null`): there `Rollover.RolledOver` carries `0 - total` where the source writes `null`, and `Merge.MergeLedger` adopts an uploaded budget that the source, seeing `NaN != null`, does not. The value `mergeUploaded` returns also holds an uploaded `NaN` budget where the model's is unset.
- Storage.Store.ClearAll: always stores the empty default ledger. In the source `{...defaultData}` is a shallow copy, so a ledger read from an empty, unreadable or non-object slot shares its two lists with `defaultData`; a row that `addExpense`, the save button or `mergeUploaded` pushes into them stays there for the page's lifetime, and clear-all (script.js:225) then writes those rows back. The model's default ledger is a value and never changes.
- Storage.Store.MergeUploaded: for the same shared lists, a non-object upload in the source merges whatever rows earlier handlers pushed into `defaultData`; the model merges the empty default.
- Text.Lower: lower-cases ASCII letters only, where `toLowerCase` also maps the rest of Unicode.
- MonthKeys.MonthKey: years are non-negative, where `getFullYear` can be negative.
- `JsonValues.ToStr` and `JsonValues.NumberOf` assume the value can be coerced: JSON values have no callable methods, so only an own `toString` key changes `String` and `Number`, and that case (a `TypeError`) is `JsonValues.Uncoercible`, which the normaliser tests before it coerces.
- The in-memory ledger between read and write is a value, so the model does not capture aliasing of the object `readStorage` returns.
- The `beforeunload` re-save and the `dragover` handler: event wiring. The re-save is `saveStorage(readStorage())`, which `Storage.ResaveKeepsCanonical` covers.
- Concurrent writes from other tabs to the same slot.
