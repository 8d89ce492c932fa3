/**
 * The part of the platform JSON object that the signaling code relies on: an
 * object is a map from keys to values, `put` with a null value removes the key,
 * and the two lenient readers `optString` and `optInt` return a default instead
 * of failing when a key is missing or holds a value of another kind.
 * Text parsing and serialisation are not modelled.
 */
module Json {
  import opened Wrappers

  const INT32_MIN: int := -0x8000_0000
  const INT32_MAX: int := 0x7fff_ffff
  const INT64_MIN: int := -0x8000_0000_0000_0000
  const INT64_MAX: int := 0x7fff_ffff_ffff_ffff

  /** A Kotlin/Java `Int`. */
  type Int32 = n: int | INT32_MIN <= n <= INT32_MAX

  /** A JSON value: a string or an integral number. */
  datatype Value = Str(s: string) | Num(n: int)

  type Object = map<string, Value>

  /** `put(key, value)` where a null value removes the key. */
  function PutOpt(o: Object, key: string, v: Option<string>): (r: Object)
    ensures v.Some? ==> key in r && r[key] == Str(v.value)
    ensures v.None? ==> key !in r
    ensures forall k :: k in o && k != key ==> k in r && r[k] == o[k]
    ensures forall k :: k in r && k != key ==> k in o
  {
    match v
    case Some(s) => o[key := Str(s)]
    case None => o - {key}
  }

  // ---------------------------------------------------------------------------
  // 32-bit narrowing

  /** `Number.intValue()` on a long: keeps the low 32 bits, two's complement. */
  function Wrap32(n: int): (r: Int32)
    ensures INT32_MIN <= n <= INT32_MAX ==> r == n
    ensures (n - r) % 0x1_0000_0000 == 0
  {
    var m := n % 0x1_0000_0000;
    if m <= INT32_MAX then m else m - 0x1_0000_0000
  }

  /** A `(int)` cast of a double holding an integer: clamps to the Int range. */
  function Saturate32(n: int): (r: Int32)
    ensures INT32_MIN <= n <= INT32_MAX ==> r == n
    ensures n > INT32_MAX ==> r == INT32_MAX
    ensures n < INT32_MIN ==> r == INT32_MIN
  {
    if n > INT32_MAX then INT32_MAX else if n < INT32_MIN then INT32_MIN else n
  }

  // ---------------------------------------------------------------------------
  // Decimal text of integers

  predicate IsDigit(c: char) {
    '0' <= c <= '9'
  }

  predicate AllDigits(s: string) {
    forall i :: 0 <= i < |s| ==> IsDigit(s[i])
  }

  function DigitChar(d: int): (c: char)
    requires 0 <= d < 10
    ensures IsDigit(c) && c as int - '0' as int == d
  {
    ('0' as int + d) as char
  }

  /** The decimal digits of `n`, most significant first, without leading zeros. */
  function Digits(n: nat): (r: string)
    ensures |r| > 0 && AllDigits(r)
    ensures n > 0 ==> r[0] != '0'
    decreases n
  {
    if n < 10 then [DigitChar(n)] else Digits(n / 10) + [DigitChar(n % 10)]
  }

  /** `String.valueOf` of an integral number. */
  function Decimal(n: int): string {
    if n < 0 then "-" + Digits(-n) else Digits(n)
  }

  /** The value of a run of decimal digits. */
  function DigitsValue(s: string): nat
    requires AllDigits(s)
  {
    if s == [] then 0
    else DigitsValue(s[..|s| - 1]) * 10 + (s[|s| - 1] as int - '0' as int)
  }

  /**
   * Reads an optionally signed run of decimal digits as an integer; anything
   * else is not a number.
   */
  function ParseInteger(s: string): Option<int> {
    if |s| > 0 && (s[0] == '-' || s[0] == '+') then
      if |s| > 1 && AllDigits(s[1..]) then
        var v: int := DigitsValue(s[1..]);
        Some(if s[0] == '-' then -v else v)
      else None
    else if |s| > 0 && AllDigits(s) then Some(DigitsValue(s))
    else None
  }

  lemma {:induction false} DigitsValueOfDigits(n: nat)
    ensures DigitsValue(Digits(n)) == n
    decreases n
  {
    if n >= 10 {
      var prefix := Digits(n / 10);
      var r := prefix + [DigitChar(n % 10)];
      assert r[..|r| - 1] == prefix;
      DigitsValueOfDigits(n / 10);
    }
  }

  /** Rendering an integer in decimal and reading it back gives the integer. */
  lemma {:induction false} ParseDecimal(n: int)
    ensures ParseInteger(Decimal(n)) == Some(n)
  {
    if n < 0 {
      var d := Digits(-n);
      assert ("-" + d)[1..] == d;
      DigitsValueOfDigits(-n);
    } else {
      DigitsValueOfDigits(n);
    }
  }

  // ---------------------------------------------------------------------------
  // Lenient readers

  /**
   * `optString(key)`: the string stored under `key`, the decimal text of a
   * number stored there, and "" when the key is missing.
   */
  function OptString(o: Object, key: string): (r: string)
    ensures key !in o ==> r == ""
    ensures key in o && o[key].Str? ==> r == o[key].s
  {
    if key !in o then ""
    else match o[key]
      case Str(s) => s
      case Num(n) => Decimal(n)
  }

  /**
   * `optInt(key)`: a number stored under `key` narrowed to an Int, a string
   * holding an integer read as a number, and 0 in every other case. The
   * platform parser holds an integer literal within the 64-bit range as a
   * long, whose narrowing keeps the low 32 bits, and one beyond it as a
   * double, whose narrowing clamps.
   */
  function OptInt(o: Object, key: string): (r: Int32)
    ensures key !in o ==> r == 0
    ensures key in o && o[key].Num? && INT32_MIN <= o[key].n <= INT32_MAX ==> r == o[key].n
    ensures key in o && o[key].Num? && INT64_MIN <= o[key].n <= INT64_MAX ==> (o[key].n - r) % 0x1_0000_0000 == 0
    ensures key in o && o[key].Num? && o[key].n > INT64_MAX ==> r == INT32_MAX
    ensures key in o && o[key].Num? && o[key].n < INT64_MIN ==> r == INT32_MIN
    ensures key in o && o[key].Str? && ParseInteger(o[key].s).None? ==> r == 0
  {
    if key !in o then 0
    else match o[key]
      case Num(n) => if INT64_MIN <= n <= INT64_MAX then Wrap32(n) else Saturate32(n)
      case Str(s) =>
        match ParseInteger(s)
        case Some(v) => Saturate32(v)
        case None => 0
  }

  /**
   * An Int sent by a peer as a decimal string is read by `optInt` as the same
   * Int, and the two encodings of an Int are read alike.
   */
  lemma {:induction false} NumericStringReadsAsInt(o: Object, key: string, n: Int32)
    requires key in o && o[key] == Str(Decimal(n))
    ensures OptInt(o, key) == n
    ensures OptInt(o, key) == OptInt(o[key := Num(n)], key)
  {
    ParseDecimal(n);
  }
}
