/** Values shared by the whole model: optional values, the outcome of an
    UPDATE or DELETE handler, JSON values, and the two JavaScript operators
    (`??` and `||`) the handlers apply to request fields. */
module Base {

  datatype Option<+T> = None | Some(value: T) {
    function GetOr(default: T): T {
      match this
      case Some(v) => v
      case None => default
    }
  }

  /** What an UPDATE or DELETE handler answers: 200 with a message, or 404
      when no row had the requested id. */
  datatype Outcome = Ok | NotFound

  /** A JSON value, as a request body or a stored `event_data` column holds it. */
  datatype Json =
    | JNull
    | JBool(b: bool)
    | JNum(n: int)
    | JStr(s: string)
    | JArr(items: seq<Json>)
    | JObj(fields: map<string, Json>)

  /** A field of a parsed request body: absent (`undefined`), `null`, or a value. */
  datatype Input<+T> = Undefined | Null | Given(value: T)

  /** `x ?? null`: undefined and null both become SQL NULL, every given value
      (0 and the empty string included) is kept.  mysql2 binds an undefined
      parameter as NULL too, so this is also how any field lands in a column. */
  function Nullish<T>(x: Input<T>): (r: Option<T>)
    ensures r.None? <==> !x.Given?
    ensures x.Given? ==> r == Some(x.value)
  {
    match x
    case Given(v) => Some(v)
    case _ => None
  }

  /** JavaScript truthiness of a string-valued field. */
  predicate Truthy(x: Input<string>) {
    x.Given? && x.value != ""
  }

  /** `x || fallback` on a string-valued field: undefined, null and "" are falsy. */
  function OrElse(x: Input<string>, fallback: string): (r: string)
    ensures Truthy(x) ==> r == x.value
    ensures !Truthy(x) ==> r == fallback
  {
    if Truthy(x) then x.value else fallback
  }

  /** `x || null` on a number-valued field: 0 is falsy as well. */
  function NumberOrNull(x: Input<int>): (r: Option<int>)
    ensures r.Some? <==> x.Given? && x.value != 0
    ensures r.Some? ==> r.value == x.value
  {
    if x.Given? && x.value != 0 then Some(x.value) else None
  }

  // ---------------------------------------------------------------------
  // Integers as template literals print them

  function DigitChar(d: nat): (c: char)
    requires d < 10
    ensures '0' <= c <= '9' && c as int - '0' as int == d
  {
    ('0' as int + d) as char
  }

  /** The decimal spelling of `n`, as a template literal prints an integer id. */
  function Decimal(n: nat): (s: string)
    ensures |s| > 0 && forall i :: 0 <= i < |s| ==> '0' <= s[i] <= '9'
  {
    if n < 10 then [DigitChar(n)] else Decimal(n / 10) + [DigitChar(n % 10)]
  }

  /** The number a string of decimal digits spells. */
  function DecimalValue(s: string): nat
    requires forall i :: 0 <= i < |s| ==> '0' <= s[i] <= '9'
  {
    if s == [] then 0
    else DecimalValue(s[..|s| - 1]) * 10 + (s[|s| - 1] as int - '0' as int)
  }

  lemma {:induction false} DecimalRoundTrip(n: nat)
    ensures DecimalValue(Decimal(n)) == n
  {
    if n >= 10 {
      var s := Decimal(n);
      assert s[..|s| - 1] == Decimal(n / 10);
      DecimalRoundTrip(n / 10);
    }
  }
}
