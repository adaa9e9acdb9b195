/** JavaScript values as the console and the hub exchange them: the scalars that
    JSON carries, their truthiness, and what `String(v)` and template literals
    turn them into. */
module JsValues {

  datatype Option<+T> = None | Some(value: T)

  /** A JSON scalar. Numbers are integers in this model. */
  datatype JValue = JNull | JBool(b: bool) | JNumber(n: int) | JString(s: string)

  /** An object as `Object.entries` lists it: key/value pairs in iteration order. */
  type Entries = seq<(string, JValue)>

  /** A JSON object used as a command payload. */
  type Payload = map<string, JValue>

  /** JavaScript truthiness of a JSON scalar: `null`, `false`, `0` and `""`
      are the falsy ones. */
  function Truthy(v: JValue): (r: bool)
    ensures !r <==> v == JNull || v == JBool(false) || v == JNumber(0) || v == JString("")
  {
    match v
    case JNull => false
    case JBool(b) => b
    case JNumber(n) => n != 0
    case JString(s) => s != ""
  }

  predicate IsDigit(c: char)
  {
    '0' <= c <= '9'
  }

  function DigitChar(d: nat): (c: char)
    requires d < 10
    ensures IsDigit(c) && c as int - '0' as int == d
  {
    "0123456789"[d]
  }

  function DigitValue(c: char): (d: nat)
    requires IsDigit(c)
    ensures d < 10
  {
    c as int - '0' as int
  }

  predicate AllDigits(s: string)
  {
    forall i :: 0 <= i < |s| ==> IsDigit(s[i])
  }

  /** The number a string of decimal digits denotes. */
  function DigitsValue(s: string): nat
    requires AllDigits(s)
    decreases |s|
  {
    if s == [] then 0 else DigitsValue(s[..|s| - 1]) * 10 + DigitValue(s[|s| - 1])
  }

  /** The decimal rendering of a non-negative integer, as `String(n)` gives it. */
  function NatToString(n: nat): (r: string)
    ensures |r| >= 1 && AllDigits(r)
    ensures r[0] == '0' <==> n == 0
    ensures n < 10 <==> |r| == 1
    ensures 10 <= n < 100 <==> |r| == 2
    decreases n
  {
    if n < 10 then [DigitChar(n)] else NatToString(n / 10) + [DigitChar(n % 10)]
  }

  /** Reading the decimal rendering back gives the number. */
  lemma {:induction false} NatToStringRoundTrip(n: nat)
    ensures DigitsValue(NatToString(n)) == n
    decreases n
  {
    var r := NatToString(n);
    if n >= 10 {
      NatToStringRoundTrip(n / 10);
      assert r[..|r| - 1] == NatToString(n / 10);
    }
  }

  /** Two numbers with the same decimal rendering are equal. */
  lemma NatToStringInjective(m: nat, n: nat)
    requires NatToString(m) == NatToString(n)
    ensures m == n
  {
    NatToStringRoundTrip(m);
    NatToStringRoundTrip(n);
  }

  /** `String(i)` for an integer. */
  function IntToString(i: int): (r: string)
    ensures i >= 0 ==> r == NatToString(i)
    ensures i < 0 ==> r == "-" + NatToString(-i)
    ensures r != "" && (r[0] == '-' <==> i < 0)
  {
    if i < 0 then "-" + NatToString(-i) else NatToString(i)
  }

  /** Two integers with the same rendering are equal. */
  lemma {:induction false} IntToStringInjective(i: int, j: int)
    requires IntToString(i) == IntToString(j)
    ensures i == j
  {
    if i < 0 {
      assert IntToString(i)[1..] == NatToString(-i) && IntToString(j)[1..] == NatToString(-j);
      NatToStringInjective(-i, -j);
    } else {
      NatToStringInjective(i, j);
    }
  }

  /** `String(v)`, which is also what `${v}` inserts into a template literal:
      a string is itself, a number its decimal form, and only the empty string
      renders as nothing. */
  function ToJsString(v: JValue): (r: string)
    ensures v.JString? ==> r == v.s
    ensures v.JNumber? ==> r == IntToString(v.n)
    ensures r == "" <==> v == JString("")
  {
    match v
    case JNull => "null"
    case JBool(b) => if b then "true" else "false"
    case JNumber(n) => IntToString(n)
    case JString(s) => s
  }

  /** `obj[key]`: the value of the first entry with that key, if any. */
  function Lookup(e: Entries, key: string): (r: Option<JValue>)
    ensures r.None? <==> forall i :: 0 <= i < |e| ==> e[i].0 != key
    ensures r.Some? ==> exists i :: 0 <= i < |e| && e[i] == (key, r.value) &&
                          forall j :: 0 <= j < i ==> e[j].0 != key
  {
    if e == [] then None
    else if e[0].0 == key then Some(e[0].1)
    else Lookup(e[1..], key)
  }
}
