/**
 * The canonical ledger record `{budget, fixedItems, expenses, currentMonth}`
 * and the shape normaliser `ensureDataShape` (script.js:8-16) that turns an
 * untrusted parsed value into one.
 */
module Ledgers {
  import opened Wrappers
  import opened JsonValues
  import opened MonthKeys

  /** A reusable expense template. */
  datatype FixedItem = FixedItem(name: string, price: int)

  /** One logged transaction; `date` is an ISO calendar date `YYYY-MM-DD`. */
  datatype Expense = Expense(date: string, name: string, price: int)

  /**
   * The one persisted record. `currentMonth` holds whatever truthy value the
   * input carried there (normally a month key string), or `None` for `null`.
   */
  datatype Ledger = Ledger(
    budget: Option<int>,
    fixedItems: seq<FixedItem>,
    expenses: seq<Expense>,
    currentMonth: Option<Json>)

  /**
   * What the code reads from `new Date()`: the local year and month (for
   * `monthKey`) and the UTC calendar date `todayISO()` renders.
   */
  datatype Clock = Clock(local: YearMonth, today: string)

  /** `defaultData`. */
  const Default: Ledger := Ledger(None, [], [], None)

  /** The month key of the clock's current month, as a stored value. */
  function NowKey(clock: Clock): Json {
    JStr(MonthKey(clock.local))
  }

  /** `!!m`: the month is set. */
  predicate MonthSet(m: Option<Json>) {
    Filled(m)
  }

  /** `date || todayISO()` for a date that is already a string. */
  function ResolveDate(date: string, today: string): string {
    if date == [] then today else date
  }

  /** `xs.map(f)`, where `f` throws (`None`) on some elements: the whole map throws. */
  function MapAll<T>(xs: seq<Json>, f: Json -> Option<T>): (r: Option<seq<T>>)
    ensures r.Some? <==> forall k :: 0 <= k < |xs| ==> f(xs[k]).Some?
    ensures r.Some? ==> |r.value| == |xs| && forall k :: 0 <= k < |xs| ==> r.value[k] == f(xs[k]).value
  {
    if xs == [] then Some([])
    else
      var head := f(xs[0]);
      var tail := MapAll(xs[1..], f);
      if head.None? || tail.None? then None else Some([head.value] + tail.value)
  }

  /**
   * The fixed-item callback throws: reading `fi.name` of `null`, or coercing a
   * name or price that cannot be coerced.
   */
  predicate FixedRowThrows(fi: Json) {
    fi.JNull? || CoercionThrows(Prop(fi, "name")) || CoercionThrows(Prop(fi, "price"))
  }

  /** The expense callback throws, as for fixed items, with the date coerced too. */
  predicate ExpenseRowThrows(ex: Json) {
    ex.JNull? || CoercionThrows(Prop(ex, "date")) || CoercionThrows(Prop(ex, "name"))
    || CoercionThrows(Prop(ex, "price"))
  }

  /** `v` is an array one of whose fixed-item rows throws. */
  predicate FixedListThrows(v: Option<Json>) {
    v.Some? && v.value.JArr? && exists k :: 0 <= k < |v.value.items| && FixedRowThrows(v.value.items[k])
  }

  /** `v` is an array one of whose expense rows throws. */
  predicate ExpenseListThrows(v: Option<Json>) {
    v.Some? && v.value.JArr? && exists k :: 0 <= k < |v.value.items| && ExpenseRowThrows(v.value.items[k])
  }

  /** The element callback of `raw.fixedItems.map`. */
  function ShapeFixedItem(fi: Json): (r: Option<FixedItem>)
    ensures r.None? <==> FixedRowThrows(fi)
    ensures r.Some? && !Filled(Prop(fi, "name")) ==> r.value.name == ""
    ensures r.Some? && Prop(fi, "name").Some? && Prop(fi, "name").value.JStr? ==> r.value.name == Prop(fi, "name").value.s
    ensures r.Some? && !Filled(Prop(fi, "price")) ==> r.value.price == 0
    ensures r.Some? && Prop(fi, "price").Some? && Prop(fi, "price").value.JNum? ==> r.value.price == Prop(fi, "price").value.n
  {
    if FixedRowThrows(fi) then None
    else Some(FixedItem(ToStr(Or(Prop(fi, "name"), JStr(""))), ToNumber(Or(Prop(fi, "price"), JNum(0)))))
  }

  /** The element callback of `raw.expenses.map`. */
  function ShapeExpense(ex: Json, today: string): (r: Option<Expense>)
    ensures r.None? <==> ExpenseRowThrows(ex)
    ensures r.Some? && !Filled(Prop(ex, "date")) ==> r.value.date == today
    ensures r.Some? && Filled(Prop(ex, "date")) && Prop(ex, "date").value.JStr? ==> r.value.date == Prop(ex, "date").value.s
    ensures r.Some? && !Filled(Prop(ex, "name")) ==> r.value.name == ""
    ensures r.Some? && Prop(ex, "name").Some? && Prop(ex, "name").value.JStr? ==> r.value.name == Prop(ex, "name").value.s
    ensures r.Some? && !Filled(Prop(ex, "price")) ==> r.value.price == 0
    ensures r.Some? && Prop(ex, "price").Some? && Prop(ex, "price").value.JNum? ==> r.value.price == Prop(ex, "price").value.n
  {
    if ExpenseRowThrows(ex) then None
    else Some(Expense(
      ToStr(Or(Prop(ex, "date"), JStr(today))),
      ToStr(Or(Prop(ex, "name"), JStr(""))),
      ToNumber(Or(Prop(ex, "price"), JNum(0)))))
  }

  /** The expense callback with today's date bound. */
  function ExpenseShaper(today: string): Json -> Option<Expense> {
    ex => ShapeExpense(ex, today)
  }

  /** `Array.isArray(v) ? v.map(f) : []`. */
  function ShapeList<T>(v: Option<Json>, f: Json -> Option<T>): Option<seq<T>> {
    if v.Some? && v.value.JArr? then MapAll(v.value.items, f) else Some([])
  }

  /**
   * `v != null ? Number(v) : null`, as it is stored: `JSON.stringify` writes
   * a `NaN` budget as `null`.
   */
  function ShapeBudget(v: Option<Json>): (r: Option<int>)
    ensures r.Some? ==> Present(v)
    ensures Present(v) ==> r == NumberOf(v.value)
  {
    if Present(v) then NumberOf(v.value) else None
  }

  /** `v || null`. */
  function ShapeMonth(v: Option<Json>): (r: Option<Json>)
    ensures Filled(v) ==> r == v
    ensures !Filled(v) ==> r.None?
  {
    if Filled(v) then v else None
  }

  /**
   * `ensureDataShape(raw)`. `None` is the `TypeError` thrown when the budget
   * cannot be coerced or a list row throws; every other input yields a
   * ledger, field by field.
   */
  function Normalize(raw: Json, today: string): (r: Option<Ledger>)
    ensures !Truthy(raw) || !IsObject(raw) ==> r == Some(Default)
    ensures r.None? <==>
      CoercionThrows(Prop(raw, "budget")) || FixedListThrows(Prop(raw, "fixedItems"))
      || ExpenseListThrows(Prop(raw, "expenses"))
    ensures HoldsNull(Prop(raw, "fixedItems")) || HoldsNull(Prop(raw, "expenses")) ==> r.None?
    ensures r.Some? ==> |r.value.fixedItems| == ArrayLength(Prop(raw, "fixedItems"))
    ensures r.Some? ==> |r.value.expenses| == ArrayLength(Prop(raw, "expenses"))
    ensures r.Some? && Prop(raw, "fixedItems").Some? && Prop(raw, "fixedItems").value.JArr? ==>
      forall k :: 0 <= k < |r.value.fixedItems| ==>
        Some(r.value.fixedItems[k]) == ShapeFixedItem(Prop(raw, "fixedItems").value.items[k])
    ensures r.Some? && Prop(raw, "expenses").Some? && Prop(raw, "expenses").value.JArr? ==>
      forall k :: 0 <= k < |r.value.expenses| ==>
        Some(r.value.expenses[k]) == ShapeExpense(Prop(raw, "expenses").value.items[k], today)
    ensures r.Some? && r.value.budget.Some? ==> Present(Prop(raw, "budget"))
    ensures r.Some? && Present(Prop(raw, "budget")) ==> r.value.budget == NumberOf(Prop(raw, "budget").value)
    ensures r.Some? && Filled(Prop(raw, "currentMonth")) ==> r.value.currentMonth == Prop(raw, "currentMonth")
    ensures r.Some? && !Filled(Prop(raw, "currentMonth")) ==> r.value.currentMonth.None?
  {
    if !Truthy(raw) || !IsObject(raw) then Some(Default)
    else if CoercionThrows(Prop(raw, "budget")) then None
    else
      var fixed := ShapeList(Prop(raw, "fixedItems"), ShapeFixedItem);
      var expenses := ShapeList(Prop(raw, "expenses"), ExpenseShaper(today));
      if fixed.None? || expenses.None? then None
      else Some(Ledger(ShapeBudget(Prop(raw, "budget")), fixed.value, expenses.value, ShapeMonth(Prop(raw, "currentMonth"))))
  }

  function EncodeFixedItem(fi: FixedItem): Json {
    JObj(map["name" := JStr(fi.name), "price" := JNum(fi.price)])
  }

  function EncodeExpense(e: Expense): Json {
    JObj(map["date" := JStr(e.date), "name" := JStr(e.name), "price" := JNum(e.price)])
  }

  function EncodeFixedItems(items: seq<FixedItem>): (r: seq<Json>)
    ensures |r| == |items| && forall k :: 0 <= k < |items| ==> r[k] == EncodeFixedItem(items[k])
  {
    seq(|items|, k requires 0 <= k < |items| => EncodeFixedItem(items[k]))
  }

  function EncodeExpenses(expenses: seq<Expense>): (r: seq<Json>)
    ensures |r| == |expenses| && forall k :: 0 <= k < |expenses| ==> r[k] == EncodeExpense(expenses[k])
  {
    seq(|expenses|, k requires 0 <= k < |expenses| => EncodeExpense(expenses[k]))
  }

  /**
   * The ledger as the parsed form of `JSON.stringify(ledger)`: an object whose
   * lists have the ledger's lengths and hold no `null`, with a `null` budget
   * exactly when there is none.
   */
  function ToJson(l: Ledger): (r: Json)
    ensures r.JObj? && Truthy(r)
    ensures ArrayLength(Prop(r, "fixedItems")) == |l.fixedItems| && !HoldsNull(Prop(r, "fixedItems"))
    ensures ArrayLength(Prop(r, "expenses")) == |l.expenses| && !HoldsNull(Prop(r, "expenses"))
    ensures Present(Prop(r, "budget")) <==> l.budget.Some?
  {
    JObj(map[
      "budget" := (if l.budget.Some? then JNum(l.budget.value) else JNull),
      "fixedItems" := JArr(EncodeFixedItems(l.fixedItems)),
      "expenses" := JArr(EncodeExpenses(l.expenses)),
      "currentMonth" := (if l.currentMonth.Some? then l.currentMonth.value else JNull)])
  }

  /**
   * A ledger the normaliser leaves as it is: its month, when set, is truthy,
   * and no expense date is the empty string (which `date || todayISO()` would replace).
   */
  predicate Canonical(l: Ledger, today: string) {
    (l.currentMonth.Some? ==> MonthSet(l.currentMonth))
    && forall k :: 0 <= k < |l.expenses| ==> ResolveDate(l.expenses[k].date, today) == l.expenses[k].date
  }

  /**
   * `after` is `before` with every empty date replaced by today: names, prices,
   * order and non-empty dates are kept.
   */
  predicate Redated(before: seq<Expense>, after: seq<Expense>, today: string) {
    |after| == |before|
    && forall k :: 0 <= k < |before| ==>
      && after[k].name == before[k].name && after[k].price == before[k].price
      && (before[k].date != [] ==> after[k].date == before[k].date)
      && (before[k].date == [] ==> after[k].date == today)
  }

  /** What one more pass of the normaliser does to a stored expense. */
  function CanonExpense(e: Expense, today: string): Expense {
    Expense(ResolveDate(e.date, today), e.name, e.price)
  }

  function CanonExpenses(expenses: seq<Expense>, today: string): (r: seq<Expense>)
    ensures |r| == |expenses| && forall k :: 0 <= k < |expenses| ==> r[k] == CanonExpense(expenses[k], today)
  {
    seq(|expenses|, k requires 0 <= k < |expenses| => CanonExpense(expenses[k], today))
  }

  /** What one more pass of the normaliser does to a ledger. */
  function Canon(l: Ledger, today: string): (r: Ledger)
    ensures Canonical(r, today)
    ensures Canonical(l, today) ==> r == l
    ensures r.budget == l.budget && r.fixedItems == l.fixedItems && Redated(l.expenses, r.expenses, today)
    ensures MonthSet(l.currentMonth) ==> r.currentMonth == l.currentMonth
    ensures !MonthSet(l.currentMonth) ==> r.currentMonth.None?
  {
    Ledger(
      l.budget,
      l.fixedItems,
      CanonExpenses(l.expenses, today),
      if MonthSet(l.currentMonth) then l.currentMonth else None)
  }

  /** `if (!x.currentMonth) x.currentMonth = monthKey(new Date())`. */
  function Stamp(l: Ledger, clock: Clock): (r: Ledger)
    ensures MonthSet(r.currentMonth)
    ensures MonthSet(l.currentMonth) ==> r == l
    ensures !MonthSet(l.currentMonth) ==> r == l.(currentMonth := Some(NowKey(clock)))
  {
    if MonthSet(l.currentMonth) then l else l.(currentMonth := Some(NowKey(clock)))
  }

  /** The ledger `saveStorage(l)` writes: normalised again, then stamped. */
  function Persisted(l: Ledger, clock: Clock): (r: Ledger)
    ensures Canonical(r, clock.today) && MonthSet(r.currentMonth)
    ensures Canonical(l, clock.today) && MonthSet(l.currentMonth) ==> r == l
    ensures r.budget == l.budget && r.fixedItems == l.fixedItems && Redated(l.expenses, r.expenses, clock.today)
    ensures MonthSet(l.currentMonth) ==> r.currentMonth == l.currentMonth
    ensures !MonthSet(l.currentMonth) ==> r.currentMonth == Some(NowKey(clock))
  {
    Stamp(Canon(l, clock.today), clock)
  }

  lemma EncodedFixedItem(fi: FixedItem)
    ensures ShapeFixedItem(EncodeFixedItem(fi)) == Some(fi)
  {
    assert Prop(EncodeFixedItem(fi), "name") == Some(JStr(fi.name));
    assert Prop(EncodeFixedItem(fi), "price") == Some(JNum(fi.price));
  }

  lemma EncodedFixedItems(items: seq<FixedItem>)
    ensures MapAll(EncodeFixedItems(items), ShapeFixedItem) == Some(items)
  {
    var encoded := EncodeFixedItems(items);
    forall k | 0 <= k < |items| ensures ShapeFixedItem(encoded[k]) == Some(items[k]) {
      EncodedFixedItem(items[k]);
    }
    assert MapAll(encoded, ShapeFixedItem).value == items;
  }

  lemma EncodedExpense(e: Expense, today: string)
    ensures ShapeExpense(EncodeExpense(e), today) == Some(CanonExpense(e, today))
  {
    var j := EncodeExpense(e);
    assert "date" != "name";
    assert Prop(j, "date") == Some(JStr(e.date));
    assert Prop(j, "name") == Some(JStr(e.name));
    assert Prop(j, "price") == Some(JNum(e.price));
  }

  lemma EncodedExpenses(expenses: seq<Expense>, today: string)
    ensures MapAll(EncodeExpenses(expenses), ExpenseShaper(today)) == Some(CanonExpenses(expenses, today))
  {
    var encoded := EncodeExpenses(expenses);
    var f := ExpenseShaper(today);
    forall k | 0 <= k < |expenses| ensures f(encoded[k]) == Some(CanonExpense(expenses[k], today)) {
      EncodedExpense(expenses[k], today);
    }
    assert MapAll(encoded, f).value == CanonExpenses(expenses, today);
  }

  /** Normalising a stored ledger only re-dates blank expense dates and drops a falsy month. */
  lemma NormalizeObject(raw: Json, today: string, fixed: seq<FixedItem>, expenses: seq<Expense>)
    requires raw.JObj? && !CoercionThrows(Prop(raw, "budget"))
    requires ShapeList(Prop(raw, "fixedItems"), ShapeFixedItem) == Some(fixed)
    requires ShapeList(Prop(raw, "expenses"), ExpenseShaper(today)) == Some(expenses)
    ensures Normalize(raw, today) == Some(Ledger(ShapeBudget(Prop(raw, "budget")), fixed, expenses, ShapeMonth(Prop(raw, "currentMonth"))))
  {
  }

  /** Normalising a stored ledger only re-dates blank expense dates and drops a falsy month. */
  lemma {:induction false} NormalizeEncoded(l: Ledger, today: string)
    ensures Normalize(ToJson(l), today) == Some(Canon(l, today))
  {
    var raw := ToJson(l);
    EncodedFields(l);
    EncodedFixedItems(l.fixedItems);
    EncodedExpenses(l.expenses, today);
    NormalizeObject(raw, today, l.fixedItems, CanonExpenses(l.expenses, today));
  }

  /** The four fields of a stored ledger, as the normaliser looks them up. */
  lemma EncodedFields(l: Ledger)
    ensures Prop(ToJson(l), "fixedItems") == Some(JArr(EncodeFixedItems(l.fixedItems)))
    ensures Prop(ToJson(l), "expenses") == Some(JArr(EncodeExpenses(l.expenses)))
    ensures ShapeBudget(Prop(ToJson(l), "budget")) == l.budget && !CoercionThrows(Prop(ToJson(l), "budget"))
    ensures ShapeMonth(Prop(ToJson(l), "currentMonth")) == if MonthSet(l.currentMonth) then l.currentMonth else None
  {
  }

  /** What `saveStorage` writes is read back by the normaliser as exactly that ledger. */
  lemma ReloadPersisted(l: Ledger, clock: Clock)
    ensures Normalize(ToJson(Persisted(l, clock)), clock.today) == Some(Persisted(l, clock))
  {
    NormalizeEncoded(Persisted(l, clock), clock.today);
  }

  /** `ensureDataShape(null)` and `ensureDataShape({})` are both the default ledger. */
  lemma NormalizeDefaults(today: string)
    ensures Normalize(JNull, today) == Some(Default)
    ensures Normalize(JObj(map[]), today) == Some(Default)
  {
  }

  /**
   * An object carrying its own `toString` key cannot be coerced: as a budget
   * or as a fixed item's name it makes the normaliser throw. An object without
   * that key is coerced to "[object Object]".
   */
  lemma OwnToStringThrows(today: string)
    ensures var bad := JObj(map["toString" := JNum(1)]);
      && Normalize(JObj(map["budget" := bad]), today).None?
      && Normalize(JObj(map["fixedItems" := JArr([JObj(map["name" := bad])])]), today).None?
    ensures Normalize(JObj(map["fixedItems" := JArr([JObj(map["name" := JObj(map[])])])]), today)
      == Some(Ledger(None, [FixedItem("[object Object]", 0)], [], None))
  {
    var bad := JObj(map["toString" := JNum(1)]);
    assert Uncoercible(bad);
    var row := JObj(map["name" := bad]);
    assert Prop(JObj(map["budget" := bad]), "budget") == Some(bad);
    assert Prop(row, "name") == Some(bad) && FixedRowThrows(row);
    assert Prop(JObj(map["fixedItems" := JArr([row])]), "fixedItems") == Some(JArr([row]));
    assert [row][0] == row;
    assert FixedListThrows(Some(JArr([row])));
    var plain := JObj(map["name" := JObj(map[])]);
    var raw := JObj(map["fixedItems" := JArr([plain])]);
    assert Prop(plain, "name") == Some(JObj(map[])) && Prop(plain, "price").None?;
    assert !FixedRowThrows(plain);
    assert Prop(raw, "budget").None? && Prop(raw, "expenses").None? && Prop(raw, "currentMonth").None?;
    assert Prop(raw, "fixedItems") == Some(JArr([plain]));
    assert ShapeFixedItem(plain) == Some(FixedItem("[object Object]", 0));
    var shaped := MapAll([plain], ShapeFixedItem);
    assert [plain][0] == plain;
    assert shaped.Some? && |shaped.value| == 1 && shaped.value[0] == FixedItem("[object Object]", 0);
    assert shaped.value == [FixedItem("[object Object]", 0)];
  }

  /** A budget `Number` cannot read, such as `"abc"`, leaves the ledger without a budget. */
  lemma NonNumericBudgetUnset(today: string)
    ensures Normalize(JObj(map["budget" := JStr("abc")]), today) == Some(Ledger(None, [], [], None))
  {
    var raw := JObj(map["budget" := JStr("abc")]);
    assert Prop(raw, "budget") == Some(JStr("abc"));
    assert Prop(raw, "fixedItems").None? && Prop(raw, "expenses").None? && Prop(raw, "currentMonth").None?;
    NonNumericString();
  }

  /**
   * Normalising the normaliser's own output changes nothing once the ledger
   * has been through one more pass: `Canon` is the fixed point.
   */
  lemma {:induction false} NormalizeStable(raw: Json, today: string)
    requires Normalize(raw, today).Some?
    ensures Normalize(ToJson(Normalize(raw, today).value), today) == Some(Canon(Normalize(raw, today).value, today))
    ensures Normalize(ToJson(Canon(Normalize(raw, today).value, today)), today) == Some(Canon(Normalize(raw, today).value, today))
  {
    var l := Normalize(raw, today).value;
    NormalizeEncoded(l, today);
    NormalizeEncoded(Canon(l, today), today);
  }

  /** Normalisation is idempotent on every input whose expense dates do not stringify to "". */
  lemma {:induction false} NormalizeIdempotent(raw: Json, today: string)
    requires Normalize(raw, today).Some? && Canonical(Normalize(raw, today).value, today)
    ensures Normalize(ToJson(Normalize(raw, today).value), today) == Normalize(raw, today)
  {
    NormalizeEncoded(Normalize(raw, today).value, today);
  }

  /**
   * It is not idempotent in general: a truthy date that stringifies to ""
   * (an empty array) is kept as "" by the first pass and becomes today's
   * date on the second.
   */
  lemma HollowDateNotIdempotent()
    ensures var raw := JObj(map["expenses" := JArr([JObj(map["date" := JArr([])])])]);
            var once := Normalize(raw, "2024-01-31");
            once.Some? && once.value.expenses[0].date == ""
            && Normalize(ToJson(once.value), "2024-01-31").value.expenses[0].date == "2024-01-31"
  {
    var raw := JObj(map["expenses" := JArr([JObj(map["date" := JArr([])])])]);
    var once := Normalize(raw, "2024-01-31");
    assert Prop(JObj(map["date" := JArr([])]), "date") == Some(JArr([]));
    assert ToStr(JArr([])) == "";
    NormalizeEncoded(once.value, "2024-01-31");
  }
}
