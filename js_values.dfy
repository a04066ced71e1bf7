/**
  The JavaScript value semantics the proxy handler leans on: JSON values as
  `JSON.parse` produces them, truthiness (`!x`, `a || b`), property access,
  conversion to string (`"..." + x`), conversion to number (`Number(x)`) and
  `String.prototype.toUpperCase`.
 */
module JsValues {

  datatype Option<+T> = None | Some(value: T)

  datatype Result<+T, +E> = Success(value: T) | Failure(error: E)

  /** The exception a conversion to a primitive value throws. */
  datatype JsError = TypeError

  /** A JSON value. Numbers are restricted to integers; `undefined` is `None`
      wherever a value may be missing. */
  datatype Json =
    | JNull
    | JBool(b: bool)
    | JNum(n: int)
    | JStr(s: string)
    | JArr(items: seq<Json>)
    | JObj(fields: map<string, Json>)

  /** JavaScript truthiness: `null`, `false`, `0` and `""` are falsy. */
  predicate Truthy(j: Json) {
    match j
    case JNull => false
    case JBool(b) => b
    case JNum(n) => n != 0
    case JStr(s) => s != ""
    case JArr(_) => true
    case JObj(_) => true
  }

  /** Truthiness of a value that may be `undefined`. */
  predicate Defined(v: Option<Json>) {
    v.Some? && Truthy(v.value)
  }

  /** `j.key` for a `j` that is not `null`: only objects have the keys the
      handler reads; on every other value the lookup yields `undefined`. */
  function Property(j: Json, key: string): Option<Json> {
    if j.JObj? && key in j.fields then Some(j.fields[key]) else None
  }

  /** `k1 || k2 || ...` over the properties `keys` of `j`: the first truthy
      one, or `None` when all of them are falsy or missing. */
  function FirstTruthy(j: Json, keys: seq<string>): (r: Option<Json>)
    ensures r.Some? ==>
      Truthy(r.value) &&
      exists i :: 0 <= i < |keys| && Property(j, keys[i]) == r &&
        forall k :: 0 <= k < i ==> !Defined(Property(j, keys[k]))
    ensures r.None? ==> forall i :: 0 <= i < |keys| ==> !Defined(Property(j, keys[i]))
  {
    if keys == [] then None
    else if Defined(Property(j, keys[0])) then Property(j, keys[0])
    else
      var rest := FirstTruthy(j, keys[1..]);
      assert forall i :: 1 <= i < |keys| ==> keys[i] == keys[1..][i - 1];
      rest
  }

  // ---------------------------------------------------------------------
  // Decimal digits

  predicate IsDigit(c: char) {
    '0' <= c <= '9'
  }

  predicate AllDigits(s: string) {
    forall i :: 0 <= i < |s| ==> IsDigit(s[i])
  }

  function DigitChar(d: nat): (c: char)
    requires d < 10
    ensures IsDigit(c) && c as int - '0' as int == d
  {
    ('0' as int + d) as char
  }

  function DigitValue(c: char): nat
    requires IsDigit(c)
  {
    c as int - '0' as int
  }

  /** The decimal representation of `n`, most significant digit first. */
  function NatToString(n: nat): (r: string)
    ensures r != [] && AllDigits(r)
    ensures n >= 10 ==> r[0] != '0'
    decreases n
  {
    if n < 10 then [DigitChar(n)]
    else NatToString(n / 10) + [DigitChar(n % 10)]
  }

  /** The value of a string of decimal digits. */
  function DecimalValue(s: string): nat
    requires AllDigits(s)
    decreases |s|
  {
    if s == [] then 0
    else DecimalValue(s[..|s| - 1]) * 10 + DigitValue(s[|s| - 1])
  }

  /** `String(n)` for an integer `n`. */
  function IntToString(n: int): string {
    if n < 0 then "-" + NatToString(-n) else NatToString(n)
  }

  // ---------------------------------------------------------------------
  // Conversions

  /** Whether `j` converts to a primitive value without throwing. An object
      with its own `toString` key throws a TypeError: that property is not
      callable, so the conversion skips it, and the inherited `valueOf`
      returns the object itself. An own `valueOf` key is skipped in the same
      way, after which the inherited `toString` gives "[object Object]". An
      array converts by joining its elements, so it throws when one of them
      does. */
  predicate Convertible(j: Json)
    decreases j
  {
    match j
    case JObj(fields) => "toString" !in fields
    case JArr(items) => forall i :: 0 <= i < |items| ==> Convertible(items[i])
    case _ => true
  }

  /** `String(j)`, as used by `"..." + j`, or the TypeError it throws. An
      array joins its elements with commas, writing `null` elements as the
      empty string. */
  function ToJsString(j: Json): (r: Result<string, JsError>)
    ensures r.Success? <==> Convertible(j)
    decreases j, 1
  {
    match j
    case JNull => Success("null")
    case JBool(b) => Success(if b then "true" else "false")
    case JNum(n) => Success(IntToString(n))
    case JStr(s) => Success(s)
    case JArr(items) => JoinItems(items)
    case JObj(fields) => if "toString" in fields then Failure(TypeError) else Success("[object Object]")
  }

  /** `items.join(",")`, which throws when converting an element throws. */
  function JoinItems(items: seq<Json>): (r: Result<string, JsError>)
    ensures r.Success? <==> forall i :: 0 <= i < |items| ==> Convertible(items[i])
    decreases items, 0
  {
    if items == [] then Success("")
    else
      var first := if items[0].JNull? then Success("") else ToJsString(items[0]);
      if first.Failure? then Failure(TypeError)
      else if |items| == 1 then first
      else
        var rest := JoinItems(items[1..]);
        assert forall i :: 1 <= i < |items| ==> items[i] == items[1..][i - 1];
        if rest.Failure? then Failure(TypeError) else Success(first.value + "," + rest.value)
  }

  /** `Number(s)` for the integer forms of a numeric string: the empty string
      is 0, and an optional sign followed by decimal digits is that integer.
      `None` is NaN (and every other form, which this model does not parse). */
  function StringToNumber(s: string): Option<int> {
    if s == "" then Some(0)
    else if (s[0] == '-' || s[0] == '+') && |s| > 1 && AllDigits(s[1..]) then
      var magnitude: int := DecimalValue(s[1..]);
      Some(if s[0] == '-' then -magnitude else magnitude)
    else if AllDigits(s) then Some(DecimalValue(s))
    else None
  }

  /** `Number(j)`, or the TypeError it throws: booleans are 0 and 1, `null`
      is 0, and arrays and objects convert through their string form. A
      successful `None` is NaN. */
  function ToNumber(j: Json): (r: Result<Option<int>, JsError>)
    ensures r.Success? <==> Convertible(j)
    ensures j.JNum? ==> r == Success(Some(j.n))
    ensures j.JObj? && r.Success? ==> r.value.None?
    ensures j.JStr? && AllDigits(j.s) ==> r == Success(Some(DecimalValue(j.s)))
  {
    match j
    case JNull => Success(Some(0))
    case JBool(b) => Success(Some(if b then 1 else 0))
    case JNum(n) => Success(Some(n))
    case JStr(s) => Success(StringToNumber(s))
    case _ =>
      match ToJsString(j)
      case Success(s) => Success(StringToNumber(s))
      case Failure(e) => Failure(e)
  }

  // ---------------------------------------------------------------------
  // Case mapping

  function UpperChar(c: char): char {
    if 'a' <= c <= 'z' then (c as int - 32) as char else c
  }

  /** `s.toUpperCase()` on the ASCII letters. */
  function ToUpperCase(s: string): (r: string)
    ensures |r| == |s|
    ensures forall i :: 0 <= i < |s| ==> r[i] == UpperChar(s[i])
  {
    if s == [] then [] else [UpperChar(s[0])] + ToUpperCase(s[1..])
  }

  // ---------------------------------------------------------------------
  // Lemmas

  lemma {:induction false} DecimalValueOfNatToString(n: nat)
    ensures DecimalValue(NatToString(n)) == n
    decreases n
  {
    if n >= 10 {
      DecimalValueOfNatToString(n / 10);
      var s := NatToString(n / 10);
      var t := s + [DigitChar(n % 10)];
      assert t[..|t| - 1] == s;
    }
  }

  /** `Number(String(n)) == n` for every integer `n`: the two conversions are
      inverse on the integers. */
  lemma {:induction false} NumberOfIntToString(n: int)
    ensures StringToNumber(IntToString(n)) == Some(n)
    ensures ToNumber(JStr(IntToString(n))) == Success(Some(n))
  {
    var digits := NatToString(if n < 0 then -n else n);
    DecimalValueOfNatToString(if n < 0 then -n else n);
    if n < 0 {
      var s := "-" + digits;
      assert s[1..] == digits;
    } else {
      assert !(digits[0] == '-' || digits[0] == '+');
    }
  }

  lemma UpperCharIs(c: char, u: char)
    requires 'A' <= u <= 'Z'
    ensures UpperChar(c) == u <==> c == u || c as int == u as int + 32
  {
  }

  /** The upper-cased string is "GET" exactly when `s` is "get" in some
      mixture of letter cases. */
  lemma IsUpperGet(s: string)
    ensures ToUpperCase(s) == "GET" <==>
      |s| == 3 && (s[0] == 'g' || s[0] == 'G') && (s[1] == 'e' || s[1] == 'E') && (s[2] == 't' || s[2] == 'T')
  {
    var r := ToUpperCase(s);
    var get := "GET";
    assert |get| == 3 && get[0] == 'G' && get[1] == 'E' && get[2] == 'T';
    if |s| == 3 {
      UpperCharIs(s[0], 'G');
      UpperCharIs(s[1], 'E');
      UpperCharIs(s[2], 'T');
      assert r == get <==> r[0] == get[0] && r[1] == get[1] && r[2] == get[2];
    } else {
      assert |r| != |get|;
    }
  }
}
