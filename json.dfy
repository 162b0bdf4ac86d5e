/**
 * Untrusted input: a value as `JSON.parse` produces it, together with the
 * JavaScript coercions the normaliser applies to it (truthiness, property
 * access, `String(x)` and `Number(x)`).
 */
module JsonValues {
  import opened Wrappers
  import opened Text

  /** A parsed JSON value. An absent object property is `None` on the side of `Prop`. */
  datatype Json =
    | JNull
    | JBool(b: bool)
    | JNum(n: int)
    | JStr(s: string)
    | JArr(items: seq<Json>)
    | JObj(fields: map<string, Json>)

  /** JavaScript truthiness: `null`, `false`, `0` and `""` are falsy, arrays and objects are truthy. */
  predicate Truthy(j: Json) {
    match j
    case JNull => false
    case JBool(b) => b
    case JNum(n) => n != 0
    case JStr(s) => s != []
    case JArr(_) => true
    case JObj(_) => true
  }

  /** `typeof j === 'object'` for a non-null value: arrays count as objects. */
  predicate IsObject(j: Json) {
    j.JArr? || j.JObj?
  }

  /** `j.key` on a non-null value: only objects carry the ledger's property names. */
  function Prop(j: Json, key: string): Option<Json> {
    if j.JObj? && key in j.fields then Some(j.fields[key]) else None
  }

  /** `v != null`: present and not `null`. */
  predicate Present(v: Option<Json>) {
    v.Some? && !v.value.JNull?
  }

  /** `!!v`: present and truthy. */
  predicate Filled(v: Option<Json>) {
    v.Some? && Truthy(v.value)
  }

  /** `v || fallback`. */
  function Or(v: Option<Json>, fallback: Json): Json {
    if v.Some? && Truthy(v.value) then v.value else fallback
  }

  /** `Array.isArray(v) ? v.length : 0`. */
  function ArrayLength(v: Option<Json>): nat {
    if v.Some? && v.value.JArr? then |v.value.items| else 0
  }

  /** `v` is an array holding a `null` element. */
  predicate HoldsNull(v: Option<Json>) {
    v.Some? && v.value.JArr? && JNull in v.value.items
  }

  /**
   * `String(j)` and `Number(j)` throw a `TypeError`. A parsed object with its
   * own `toString` key has no callable `toString`, and its `valueOf` returns
   * the object itself, so neither yields a primitive; an array holding such a
   * value throws through `join`.
   */
  predicate Uncoercible(j: Json) {
    match j
    case JObj(fields) => "toString" in fields
    case JArr(xs) => exists k :: 0 <= k < |xs| && Uncoercible(xs[k])
    case _ => false
  }

  /** Coercing `v` (after `v || fallback`, or behind `v != null`) throws. */
  predicate CoercionThrows(v: Option<Json>) {
    v.Some? && Uncoercible(v.value)
  }

  /** The string an array element contributes to `Array.prototype.join`: `null` gives "". */
  function JoinPart(j: Json): string
    decreases j, 1
  {
    if j.JNull? then "" else ToStr(j)
  }

  function JoinWithCommas(parts: seq<string>): string {
    if parts == [] then "" else if |parts| == 1 then parts[0]
    else JoinWithCommas(parts[..|parts| - 1]) + "," + parts[|parts| - 1]
  }

  /** `String(j)`. */
  function ToStr(j: Json): string
    decreases j, 0
  {
    match j
    case JNull => "null"
    case JBool(b) => if b then "true" else "false"
    case JNum(n) => IntToString(n)
    case JStr(s) => s
    case JArr(xs) => JoinWithCommas(seq(|xs|, k requires 0 <= k < |xs| => JoinPart(xs[k])))
    case JObj(_) => "[object Object]"
  }

  /**
   * `Number(j)`, with `None` for `NaN`: a string or an array reads through its
   * text, an object is `NaN`.
   */
  function NumberOf(j: Json): (r: Option<int>)
    ensures j.JNull? ==> r == Some(0)
    ensures j.JNum? ==> r == Some(j.n)
    ensures j.JObj? ==> r.None?
  {
    match j
    case JNull => Some(0)
    case JBool(b) => Some(if b then 1 else 0)
    case JNum(n) => Some(n)
    case JStr(s) => ParseNumber(s)
    case JArr(_) => ParseNumber(ToStr(j))
    case JObj(_) => None
  }

  /**
   * `Number(j || 0)`: the model has no `NaN`, and where the normaliser stores
   * such a number the next `JSON.stringify` turns it into `null`, which the
   * next read of `Number(x || 0)` turns into 0.
   */
  function ToNumber(j: Json): int {
    NumberOf(j).GetOr(0)
  }

  /** An array of one element stringifies as that element does. */
  lemma SingletonArrayText(x: Json)
    ensures ToStr(JArr([x])) == JoinPart(x)
  {
  }

  /** An array of one number reads, through its text, as that number. */
  lemma SingletonArrayNumber(n: int)
    ensures NumberOf(JArr([JNum(n)])) == Some(n)
  {
    SingletonArrayText(JNum(n));
    NumberRoundTrip(n);
  }

  /** An empty array stringifies to "" and so reads as 0. */
  lemma EmptyArrayNumber()
    ensures ToStr(JArr([])) == "" && NumberOf(JArr([])) == Some(0)
  {
  }

  /** A string that is not a number, such as "abc" or "12abc", reads as `NaN`. */
  lemma NonNumericString()
    ensures NumberOf(JStr("abc")) == None && NumberOf(JStr("12abc")) == None
  {
    TrimKeepsTrimmed("abc");
    ParseNonDigitEnd("abc");
    TrimKeepsTrimmed("12abc");
    ParseNonDigitEnd("12abc");
  }

  /**
   * A string in a one-element array reads as the string itself, so `["12"]`
   * reads as 12, and a blank string reads as 0.
   */
  lemma StringArrayNumber(s: string)
    ensures NumberOf(JArr([JStr(s)])) == NumberOf(JStr(s))
    ensures IsBlank(s) ==> NumberOf(JStr(s)) == Some(0)
  {
    SingletonArrayText(JStr(s));
    if IsBlank(s) {
      ParseBlank(s);
    }
  }

  /** An array of two elements stringifies as both, joined by a comma. */
  lemma PairArrayText(x: Json, y: Json)
    ensures ToStr(JArr([x, y])) == JoinPart(x) + "," + JoinPart(y)
  {
    var xs := [x, y];
    var parts := seq(|xs|, k requires 0 <= k < |xs| => JoinPart(xs[k]));
    assert ToStr(JArr(xs)) == JoinWithCommas(parts);
    assert parts[..1] == [JoinPart(x)];
  }

  /** Two numbers in an array stringify with a comma between them, which is `NaN`. */
  lemma PairArrayNumber()
    ensures ToStr(JArr([JNum(1), JNum(2)])) == "1,2" && NumberOf(JArr([JNum(1), JNum(2)])) == None
  {
    OneTwoText();
    CommaListIsNaN();
  }

  lemma OneTwoText()
    ensures ToStr(JArr([JNum(1), JNum(2)])) == "1,2"
  {
    PairArrayText(JNum(1), JNum(2));
    assert IntToString(1) == "1" && IntToString(2) == "2";
  }

  lemma CommaListIsNaN()
    ensures ParseNumber("1,2") == None
  {
    assert "1,2"[0] == '1' && "1,2"[|"1,2"| - 1] == '2';
    TrimKeepsTrimmed("1,2");
    CommaReadsNaN();
  }

  lemma CommaReadsNaN()
    ensures ReadTrimmed("1,2") == None
  {
    assert "1,2"[0] == '1' && !IsDigit("1,2"[1]);
    assert !AllDigits("1,2");
  }
}
