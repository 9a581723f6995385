/** Values shared by every part of the gateway model: an optional value, the
    JSON values that token payloads and service responses carry, and Python's
    notion of truthiness, which the gateway uses in almost every `if x:` test. */
module Common {

  datatype Option<+T> = None | Some(value: T) {
    function GetOr(default: T): T {
      match this
      case Some(v) => v
      case None => default
    }
  }

  /** The result of a Python call that either returns a value or raises an
      exception (the reason names the exception). */
  datatype Fallible<+T> = Returns(value: T) | Raises(reason: string)

  /** A JSON value as Python's json / jose libraries hand it over. Floating
      point numbers are not modelled. */
  datatype Json =
    | JNull
    | JBool(b: bool)
    | JInt(i: int)
    | JStr(s: string)
    | JList(items: seq<Json>)
    | JObject(fields: map<string, Json>)

  /** A decoded token payload or a JSON response body: a dictionary of claims. */
  type Dict = map<string, Json>

  /** Python's `bool(v)`: null, false, 0, "", [] and {} are falsy. */
  predicate Truthy(v: Json) {
    match v
    case JNull => false
    case JBool(b) => b
    case JInt(i) => i != 0
    case JStr(s) => s != ""
    case JList(items) => items != []
    case JObject(fields) => fields != map[]
  }

  /** Python's `d.get(key)`: the value stored under `key`, or None. */
  function Get(d: Dict, key: string): (v: Json)
    ensures key !in d ==> v == JNull
    ensures key in d ==> v == d[key]
  {
    if key in d then d[key] else JNull
  }

  /** Python's truthiness of an optional string (`if user_id:`). */
  predicate Present(s: Option<string>) {
    s.Some? && s.value != ""
  }

  /** Python's `a or b` on JSON values: `a` when it is truthy, else `b`. */
  function Or(a: Json, b: Json): (r: Json)
    ensures Truthy(a) ==> r == a
    ensures !Truthy(a) ==> r == b
  {
    if Truthy(a) then a else b
  }

  /** `str(n)` for an integer: its decimal digits, with a leading '-' when negative. */
  function DecimalString(n: int): (s: string)
    ensures |s| >= 1
    ensures n >= 0 ==> s[0] != '-'
    ensures n < 0 ==> s[0] == '-'
  {
    if n < 0 then "-" + NaturalDigits(-n)
    else NaturalDigits(n)
  }

  /** Every character is a decimal digit. */
  predicate AllDigits(s: string) {
    forall i :: 0 <= i < |s| ==> '0' <= s[i] <= '9'
  }

  function NaturalDigits(n: nat): (s: string)
    ensures |s| >= 1 && AllDigits(s)
  {
    if n < 10 then [DigitChar(n)]
    else NaturalDigits(n / 10) + [DigitChar(n % 10)]
  }

  function DigitChar(d: nat): (c: char)
    requires d < 10
    ensures '0' <= c <= '9'
  {
    ['0', '1', '2', '3', '4', '5', '6', '7', '8', '9'][d]
  }

  function DigitValue(c: char): (d: nat)
    requires '0' <= c <= '9'
    ensures d < 10 && DigitChar(d) == c
  {
    if c == '0' then 0 else if c == '1' then 1 else if c == '2' then 2
    else if c == '3' then 3 else if c == '4' then 4 else if c == '5' then 5
    else if c == '6' then 6 else if c == '7' then 7 else if c == '8' then 8
    else 9
  }

  /** Reads back a string of decimal digits. */
  function ParseNatural(s: string): (n: nat)
    requires AllDigits(s)
  {
    if s == [] then 0
    else ParseNatural(s[..|s| - 1]) * 10 + DigitValue(s[|s| - 1])
  }

  /** Reads back what DecimalString writes. */
  function ParseDecimal(s: string): (r: Option<int>)
  {
    if |s| >= 2 && s[0] == '-' && AllDigits(s[1..]) then
      var v: int := 0 - (ParseNatural(s[1..]) as int); Some(v)
    else if |s| >= 1 && AllDigits(s) then
      Some(ParseNatural(s))
    else None
  }

  lemma DigitRoundTrip(d: nat)
    requires d < 10
    ensures DigitValue(DigitChar(d)) == d
  {
  }

  lemma {:induction false} NaturalDigitsRoundTrip(n: nat)
    ensures ParseNatural(NaturalDigits(n)) == n
  {
    var s := NaturalDigits(n);
    DigitRoundTrip(n % 10);
    if n < 10 {
      assert s == [DigitChar(n)] && s[..0] == [];
    } else {
      var prefix := NaturalDigits(n / 10);
      assert s == prefix + [DigitChar(n % 10)];
      assert s[..|s| - 1] == prefix;
      NaturalDigitsRoundTrip(n / 10);
      assert ParseNatural(s) == ParseNatural(prefix) * 10 + n % 10;
    }
  }

  lemma NegativeRoundTrip(n: int)
    requires n < 0
    ensures ParseDecimal(DecimalString(n)) == Some(n)
  {
    var digits := NaturalDigits(-n);
    var s := DecimalString(n);
    assert s == "-" + digits;
    assert |s| >= 2 && s[0] == '-';
    assert s[1..] == digits;
    NaturalDigitsRoundTrip(-n);
    assert ParseNatural(s[1..]) == -n;
  }

  /** The header value written for an integer reads back as that integer. */
  lemma DecimalStringRoundTrip(n: int)
    ensures ParseDecimal(DecimalString(n)) == Some(n)
  {
    if n < 0 {
      NegativeRoundTrip(n);
    } else {
      NaturalDigitsRoundTrip(n);
    }
  }
}
