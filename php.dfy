/** The parts of the PHP runtime that the library relies on: its values and
    arrays, the truthiness test, integer-to-string conversion, and the
    foreign extensions (hash, JSON) that the model treats as unknown
    functions supplied by the caller. */
module Php {

  datatype Option<+T> = None | Some(value: T)

  datatype Result<+T, +E> = Success(value: T) | Failure(error: E)

  /** A PHP array key: an integer or a string. */
  datatype Key = IntKey(i: int) | StrKey(s: string)

  /** The PHP values that reach the client: scalars and (nested) arrays.
      An array is an ordered list of key/value entries. */
  datatype Value =
    | Null
    | Bool(b: bool)
    | Int(i: int)
    | Str(s: string)
    | Arr(entries: seq<(Key, Value)>)

  type PhpArray = seq<(Key, Value)>

  /** The keyed MAC of the hash extension: hmac(algo, key, message) is the
      hex digest of `message` under `key` with digest `algo`. */
  type Hmac = (string, string, string) -> string

  /** The foreign extensions, all unknown to the model:
      - hmac: the hash extension's HMAC (section 2 of RFC 2104);
      - jsonEncode: json_encode, None where PHP returns false;
      - jsonDecode: json_decode($s, true), Null for a malformed document. */
  datatype Runtime = Runtime(
    hmac: Hmac,
    jsonEncode: Value -> Option<string>,
    jsonDecode: string -> Value)

  /** PHP's `!$v` on a value of type string|false: false, "" and "0" are falsy. */
  predicate Falsy(v: Option<string>)
  {
    v.None? || v.value == "" || v.value == "0"
  }

  predicate IsDigit(c: char)
  {
    '0' <= c <= '9'
  }

  function DigitChar(d: nat): (c: char)
    requires d < 10
    ensures IsDigit(c)
  {
    ['0', '1', '2', '3', '4', '5', '6', '7', '8', '9'][d]
  }

  function DigitValue(c: char): (d: nat)
    requires IsDigit(c)
    ensures d < 10 && DigitChar(d) == c
  {
    (c as int - '0' as int)
  }

  /** PHP's conversion of a non-negative integer to a string: its decimal
      digits, most significant first, without leading zeros. */
  function Decimal(n: nat): (s: string)
    ensures |s| >= 1
    ensures forall i :: 0 <= i < |s| ==> IsDigit(s[i])
    ensures n >= 10 ==> s[0] != '0'
  {
    if n < 10 then [DigitChar(n)] else Decimal(n / 10) + [DigitChar(n % 10)]
  }

  /** The number an all-digit string denotes. */
  function DigitsValue(s: string): nat
    requires forall i :: 0 <= i < |s| ==> IsDigit(s[i])
  {
    if s == [] then 0 else DigitsValue(s[..|s| - 1]) * 10 + DigitValue(s[|s| - 1])
  }

  /** Reading back the decimal rendering gives the number. */
  lemma {:induction false} DecimalRoundTrip(n: nat)
    ensures DigitsValue(Decimal(n)) == n
  {
    if n >= 10 {
      var s := Decimal(n);
      assert s[..|s| - 1] == Decimal(n / 10);
      DecimalRoundTrip(n / 10);
    }
  }
}
