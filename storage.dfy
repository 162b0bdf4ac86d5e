/**
 * The single persisted slot `pfm_data_v1` and the operations that read it,
 * change the ledger and write it back (script.js:18-34 and the handlers
 * that call them). `JSON.stringify` followed by `JSON.parse` is the identity
 * on the values the model stores, so the slot holds the parsed value.
 */
module Storage {
  import opened Wrappers
  import opened JsonValues
  import opened Ledgers
  import opened Merge
  import opened Rollover
  import Edits

  /** The slot's content: nothing, text that `JSON.parse` rejects, or a parsed value. */
  datatype Slot = Absent | Garbled | Saved(value: Json)

  /** The `try` block of `readStorage` up to the month check; `None` is the `catch` path. */
  function Parsed(slot: Slot, today: string): (r: Option<Ledger>)
    ensures slot.Absent? ==> r == Some(Default)
    ensures slot.Garbled? ==> r.None?
    ensures slot.Saved? ==> r == Normalize(slot.value, today)
  {
    match slot
    case Absent => Normalize(JNull, today)
    case Garbled => None
    case Saved(j) => Normalize(j, today)
  }

  /** `readStorage()`: the month is always set, and taken from the clock only when missing. */
  function Read(slot: Slot, clock: Clock): (r: Ledger)
    ensures MonthSet(r.currentMonth)
    ensures Parsed(slot, clock.today).None? ==> r == Ledger(None, [], [], Some(NowKey(clock)))
    ensures Parsed(slot, clock.today).Some? ==>
      var p := Parsed(slot, clock.today).value;
      && r.budget == p.budget && r.fixedItems == p.fixedItems && r.expenses == p.expenses
      && r.currentMonth == (if MonthSet(p.currentMonth) then p.currentMonth else Some(NowKey(clock)))
  {
    var shaped := Parsed(slot, clock.today);
    if shaped.Some? then Stamp(shaped.value, clock) else Stamp(Default, clock)
  }

  /** A written ledger reads back as exactly the ledger `saveStorage` persisted. */
  lemma ReadAfterWrite(l: Ledger, clock: Clock)
    ensures Read(Saved(ToJson(Persisted(l, clock))), clock) == Persisted(l, clock)
  {
    ReloadPersisted(l, clock);
  }

  /** `saveStorage(readStorage())`, the unload handler, leaves a canonical stored ledger as it is. */
  lemma ResaveKeepsCanonical(slot: Slot, clock: Clock)
    requires Canonical(Read(slot, clock), clock.today)
    ensures Read(Saved(ToJson(Persisted(Read(slot, clock), clock))), clock) == Read(slot, clock)
  {
    ReadAfterWrite(Read(slot, clock), clock);
  }

  /** The browser's storage, holding the one ledger slot. */
  class Store {
    var slot: Slot

    constructor(initial: Slot)
      ensures slot == initial
    {
      slot := initial;
    }

    /** `saveStorage(data)`: normalise, fill a missing month, write. */
    method Save(data: Ledger, clock: Clock)
      modifies this
      ensures slot == Saved(ToJson(Persisted(data, clock)))
      ensures Read(slot, clock) == Persisted(data, clock)
    {
      NormalizeEncoded(data, clock.today);
      var toSave := Normalize(ToJson(data), clock.today).value;
      if !MonthSet(toSave.currentMonth) {
        toSave := toSave.(currentMonth := Some(NowKey(clock)));
      }
      slot := Saved(ToJson(toSave));
      ReadAfterWrite(data, clock);
    }

    /** `handleMonthlyRolloverIfNeeded()`: nothing is written while the stored month is current. */
    method RolloverIfNeeded(clock: Clock)
      modifies this
      ensures old(Read(slot, clock)).currentMonth == Some(NowKey(clock)) ==> slot == old(slot)
      ensures Read(slot, clock) == RolledOver(old(Read(slot, clock)), clock)
    {
      var data := Read(slot, clock);
      var nowKey := NowKey(clock);
      if data.currentMonth != Some(nowKey) {
        var carried := CarryForward(data, clock);
        RolloverPersists(data, clock);
        Save(carried, clock);
      }
    }

    /**
     * `mergeUploaded(upload)`: returns the merged ledger and stores it, or
     * throws (`None`) without writing when the normaliser throws on the
     * upload (a `null` row, or a field `String` or `Number` cannot coerce).
     */
    method MergeUploaded(upload: Json, clock: Clock) returns (result: Option<Ledger>)
      modifies this
      ensures result.None? <==> Normalize(upload, clock.today).None?
      ensures result.None? ==> slot == old(slot)
      ensures result.Some? ==>
        && result.value == MergeLedger(old(Read(slot, clock)), Normalize(upload, clock.today).value, clock)
        && Read(slot, clock) == Persisted(result.value, clock)
    {
      var cur := Read(slot, clock);
      var up := Normalize(upload, clock.today);
      if up.None? {
        return None;
      }
      var out := MergeInto(cur, up.value, clock);
      Save(out, clock);
      return Some(out);
    }

    /** `handleRowEdit(row, field, value)`: a missing row writes nothing. */
    method HandleRowEdit(index: int, field: Edits.Field, value: string, clock: Clock)
      modifies this
      ensures !(0 <= index < |old(Read(slot, clock)).expenses|) ==> slot == old(slot)
      ensures 0 <= index < |old(Read(slot, clock)).expenses| ==>
        Read(slot, clock) == Persisted(Edits.EditRow(old(Read(slot, clock)), index, field, value), clock)
    {
      var data := Read(slot, clock);
      if index < 0 || index >= |data.expenses| {
        return;
      }
      Save(Edits.EditRow(data, index, field, value), clock);
    }

    /** `addExpense(exp)`, as called by a fixed-item button and by the new-row button. */
    method AddExpense(exp: Expense, clock: Clock)
      modifies this
      ensures Read(slot, clock) == Persisted(Edits.AddExpense(old(Read(slot, clock)), exp, clock.today), clock)
    {
      var data := Read(slot, clock);
      Save(Edits.AddExpense(data, exp, clock.today), clock);
    }

    /** `deleteExpense(index)`: an index outside the list writes nothing. */
    method DeleteExpense(index: int, clock: Clock)
      modifies this
      ensures !(0 <= index < |old(Read(slot, clock)).expenses|) ==> slot == old(slot)
      ensures 0 <= index < |old(Read(slot, clock)).expenses| ==>
        Read(slot, clock) == Persisted(Edits.RemoveExpense(old(Read(slot, clock)), index), clock)
    {
      var data := Read(slot, clock);
      if index < 0 || index >= |data.expenses| {
        return;
      }
      Save(Edits.RemoveExpense(data, index), clock);
    }

    /** The state change of the save button (the budget and fixed-item inputs). */
    method SaveInput(budgetText: string, nameText: string, priceText: string, clock: Clock)
      modifies this
      ensures Read(slot, clock) == Persisted(Edits.ApplyInput(old(Read(slot, clock)), budgetText, nameText, priceText), clock)
    {
      var data := Read(slot, clock);
      Save(Edits.ApplyInput(data, budgetText, nameText, priceText), clock);
    }

    /** The budget field's change handler. */
    method ChangeBudget(text: string, clock: Clock)
      modifies this
      ensures Read(slot, clock) == Persisted(Edits.SetBudget(old(Read(slot, clock)), text), clock)
    {
      var data := Read(slot, clock);
      Save(Edits.SetBudget(data, text), clock);
    }

    /** Clear-month, once confirmed. */
    method ClearMonth(clock: Clock)
      modifies this
      ensures Read(slot, clock) == Persisted(Edits.ClearMonth(old(Read(slot, clock))), clock)
    {
      var data := Read(slot, clock);
      Save(Edits.ClearMonth(data), clock);
    }

    /** Clear-all, once confirmed: remove the entry, then save the default ledger stamped with the month. */
    method ClearAll(clock: Clock)
      modifies this
      ensures Read(slot, clock) == Ledger(None, [], [], Some(NowKey(clock)))
    {
      slot := Absent;
      Save(Stamp(Default, clock), clock);
    }
  }
}
