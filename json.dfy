/**
 * The parsed body of a service response, as `response.json()` hands it to the
 * form, together with the three JavaScript behaviours the form's checks rely
 * on: property reads (`x.key`, `x?.key`), truthiness (`if (x)`, `!x`) and
 * conversion to a string (`'...' + x`, `[...].join`).
 */
module Json {
  import opened Wrappers
  import opened JsText

  /** A JSON value. Numbers are integers here; see the README for what that leaves out. */
  datatype Json =
    | JNull
    | JBool(b: bool)
    | JNum(n: int)
    | JStr(s: string)
    | JArr(elems: seq<Json>)
    | JObj(members: map<string, Json>)

  /**
   * `v.key` on a value that is not null, and `v?.key` on any value: only an
   * object holding `key` yields something; everything else reads `undefined`
   * (None). None of the keys the form reads is a built-in property of strings,
   * arrays or numbers.
   */
  function Member(v: Json, key: string): (r: Option<Json>)
    ensures r.Some? <==> v.JObj? && key in v.members
    ensures r.Some? ==> r.value == v.members[key]
  {
    match v
    case JObj(m) => if key in m then Some(m[key]) else None
    case _ => None
  }

  /** `v?.key` where `v` may itself be `undefined`. */
  function MemberOpt(v: Option<Json>, key: string): Option<Json>
  {
    match v
    case None => None
    case Some(x) => Member(x, key)
  }

  /** JavaScript truthiness; None stands for `undefined`. */
  predicate Truthy(v: Option<Json>) {
    match v
    case None => false
    case Some(JNull) => false
    case Some(JBool(b)) => b
    case Some(JNum(n)) => n != 0
    case Some(JStr(s)) => s != ""
    case Some(JArr(_)) => true
    case Some(JObj(_)) => true
  }

  /** Falsy values are exactly undefined, null, false, 0 and the empty string. */
  lemma FalsyValues(v: Option<Json>)
    ensures !Truthy(v) <==> v in {None, Some(JNull), Some(JBool(false)), Some(JNum(0)), Some(JStr(""))}
  {
  }

  /**
   * Whether turning `v` into text succeeds. A parsed object may carry its own
   * `toString` member, which is data and not a function: `String(v)`, a
   * template literal and `'...' + v` then find no callable conversion
   * (`valueOf` gives back the object itself) and throw a TypeError. An array
   * turns into text through its elements, so one such element makes it throw
   * too.
   */
  predicate Stringifiable(v: Json) {
    match v
    case JObj(m) => "toString" !in m
    case JArr(es) => forall i :: 0 <= i < |es| ==> Stringifiable(es[i])
    case _ => true
  }

  /**
   * String(n) for an integer: its decimal digits, at least one and no leading
   * zero, after a "-" when it is negative.
   */
  function NumberText(n: int): (r: string)
    ensures n >= 0 ==> DecimalValue(r) == n && forall i :: 0 <= i < |r| ==> '0' <= r[i] <= '9'
    ensures n >= 0 ==> |r| >= 1 && (|r| > 1 ==> r[0] != '0')
    ensures n < 0 ==> |r| >= 2 && r[0] == '-' && DecimalValue(r[1..]) == -n && forall i :: 1 <= i < |r| ==> '0' <= r[i] <= '9'
    ensures n < 0 ==> |r| > 2 ==> r[1] != '0'
  {
    if n >= 0 then
      DecimalRoundTrip(n);
      NatToDecimal(n)
    else
      DecimalRoundTrip(-n);
      assert ("-" + NatToDecimal(-n))[1..] == NatToDecimal(-n);
      "-" + NatToDecimal(-n)
  }

  /** String(v) for a value with `Stringifiable(v)`: what `'...' + v`, `${v}` and `join` write. */
  function ToJsString(v: Json): (r: string)
    requires Stringifiable(v)
    ensures v.JStr? ==> r == v.s
    ensures v.JNull? ==> r == "null"
    ensures v.JBool? ==> r == (if v.b then "true" else "false")
    ensures v.JNum? && v.n >= 0 ==> DecimalValue(r) == v.n && forall i :: 0 <= i < |r| ==> '0' <= r[i] <= '9'
    ensures v.JNum? && v.n < 0 ==>
              |r| >= 2 && r[0] == '-' && DecimalValue(r[1..]) == -v.n && forall i :: 1 <= i < |r| ==> '0' <= r[i] <= '9'
    ensures v.JNum? ==> (v.n >= 0 ==> |r| >= 1 && (|r| > 1 ==> r[0] != '0')) && (v.n < 0 ==> |r| > 2 ==> r[1] != '0')
    ensures v.JObj? ==> r == "[object Object]"
    ensures v.JArr? && v.elems == [] ==> r == ""
  {
    match v
    case JNull => "null"
    case JBool(b) => if b then "true" else "false"
    case JNum(n) => NumberText(n)
    case JStr(s) => s
    case JArr(es) =>
      // Array.prototype.join writes "" for a null element
      Join(seq(|es|, i requires 0 <= i < |es| => if es[i] == JNull then "" else ToJsString(es[i])), ",")
    case JObj(_) => "[object Object]"
  }

  /** An array of one non-null element reads as that element; one null element reads as "". */
  lemma SingletonArrayString(x: Json)
    requires Stringifiable(x)
    ensures ToJsString(JArr([x])) == (if x == JNull then "" else ToJsString(x))
  {
    var parts := seq(1, i requires 0 <= i < 1 => if [x][i] == JNull then "" else ToJsString([x][i]));
    assert parts == [if x == JNull then "" else ToJsString(x)];
  }
}
