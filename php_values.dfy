/**
 * The PHP values the package handles: what a decoded query string holds
 * (strings and nested string-keyed arrays) plus the scalars a caller may
 * pass to a filter directly, and the handful of PHP conversions the core
 * relies on (`is_numeric`, `(int)`, `(bool)`, string conversion, `??`,
 * `isset`, `key()`, `array_key_exists`).
 */
module PhpValues {
  import opened PhpStrings

  /** A PHP value. An array is an ordered map with string keys. */
  datatype Raw =
    | Str(s: string)
    | Int(i: int)
    | Bool(b: bool)
    | Null
    | Arr(entries: seq<(string, Raw)>)

  /** The entries of a PHP array, in insertion order. */
  type Entries = seq<(string, Raw)>

  /** Errors that abort a request. */
  datatype Error =
    | AliasEmpty  // ErrorException('ExpressRequest: Alias is empty.')
    | TypeError   // a strict_types argument or return type check failed
    | ObjectAsArray  // Error: an object (a DateTime) indexed as an array

  /** Completion of an operation that can only fail. */
  datatype Status = Ok | Fail(error: Error)

  datatype Option<T> = None | Some(value: T)

  /** Completion of an operation that yields a value or aborts. */
  datatype Result<T> = Success(value: T) | Failure(error: Error) {
    predicate IsFailure() { Failure? }
    function PropagateFailure<U>(): Result<U> requires Failure? { Failure(error) }
    function Extract(): T requires Success? { value }
  }

  /** `array_key_exists(k, e)`. */
  predicate HasKey<V>(e: seq<(string, V)>, k: string) {
    exists i :: 0 <= i < |e| && e[i].0 == k
  }

  /** `e[k]` for a present key; the first entry with that key. */
  function Lookup<V>(e: seq<(string, V)>, k: string): (v: V)
    requires HasKey(e, k)
    ensures exists i :: 0 <= i < |e| && e[i] == (k, v)
  {
    if e[0].0 == k then e[0].1
    else
      assert exists i :: 1 <= i < |e| && e[i].0 == k;
      assert HasKey(e[1..], k) by {
        var i :| 1 <= i < |e| && e[i].0 == k;
        assert e[1..][i - 1].0 == k;
      }
      var v := Lookup(e[1..], k);
      ghost var i :| 0 <= i < |e[1..]| && e[1..][i] == (k, v);
      assert e[i + 1] == (k, v);
      v
  }

  /** `key($array)` on a fresh array: its first key, or null when empty. */
  function FirstKey(e: Entries): (k: Option<string>)
    ensures k.Some? <==> e != []
  {
    if e == [] then None else Some(e[0].0)
  }

  /** `isset($e[k])`: present and not null. */
  predicate IsSet(e: Entries, k: string) {
    HasKey(e, k) && Lookup(e, k) != Null
  }

  /** `$e[k] ?? d`. */
  function Coalesce(e: Entries, k: string, d: Raw): (r: Raw)
    ensures IsSet(e, k) ==> r == Lookup(e, k)
    ensures !IsSet(e, k) ==> r == d
  {
    if IsSet(e, k) then Lookup(e, k) else d
  }

  /** `is_numeric`, restricted to decimal integers. */
  predicate IsNumeric(r: Raw) {
    match r
    case Str(s) => IsDecimalInt(s)
    case Int(_) => true
    case _ => false
  }

  /** The range of a PHP integer on a 64-bit platform. */
  const PHP_INT_MAX: int := 0x7FFF_FFFF_FFFF_FFFF
  const PHP_INT_MIN: int := -0x8000_0000_0000_0000

  predicate InIntRange(i: int) {
    PHP_INT_MIN <= i <= PHP_INT_MAX
  }

  /** A decimal string beyond the integer range is clamped to its nearest end. */
  function Saturate(i: int): int {
    if i > PHP_INT_MAX then PHP_INT_MAX else if i < PHP_INT_MIN then PHP_INT_MIN else i
  }

  /** `(int)` of a numeric value: a decimal string saturates at the integer range. */
  function IntCast(r: Raw): (i: int)
    requires IsNumeric(r)
    ensures r.Str? ==> InIntRange(i)
  {
    match r
    case Str(s) => Saturate(DecimalValue(s))
    case Int(i) => i
  }

  /**
   * `is_numeric` accepts PHP's decimal form of every integer, and `(int)`
   * reads it back as that integer within the range and as the nearest end
   * of the range beyond it.
   */
  lemma {:induction false} IntCastOfDecimal(i: int)
    ensures IsNumeric(Str(IntToString(i)))
    ensures IntCast(Str(IntToString(i))) == Saturate(i)
    ensures InIntRange(i) ==> IntCast(Str(IntToString(i))) == i
    ensures i > PHP_INT_MAX ==> IntCast(Str(IntToString(i))) == PHP_INT_MAX
    ensures i < PHP_INT_MIN ==> IntCast(Str(IntToString(i))) == PHP_INT_MIN
  {
    DecimalRoundTrip(i);
  }

  /** PHP's conversion of a value to string (`'%'.$value`, `(string)$value`). */
  function PhpString(r: Raw): string {
    match r
    case Str(s) => s
    case Int(i) => IntToString(i)
    case Bool(b) => if b then "1" else ""
    case Null => ""
    case Arr(_) => "Array"
  }

  /** `empty($s)` for a string: the empty string and "0". */
  predicate PhpEmptyString(s: string) {
    s == "" || s == "0"
  }

  /** `(bool)$r`. */
  predicate PhpBool(r: Raw) {
    match r
    case Str(s) => !PhpEmptyString(s)
    case Int(i) => i != 0
    case Bool(b) => b
    case Null => false
    case Arr(e) => e != []
  }

  /** The result of PHP's numeric coercion `0 + $text` of a string. */
  datatype Numeric =
    | Integer(n: int)        // the string is a decimal integer within the integer range
    | Coerced(text: string)  // a float, or any other string, left uninterpreted

  /** `0 + $text`: an integer within the range; a float beyond it. */
  function Coerce(text: string): (r: Numeric)
    ensures r.Integer? <==> IsDecimalInt(text) && InIntRange(DecimalValue(text))
    ensures r.Integer? ==> InIntRange(r.n) && r.n == DecimalValue(text)
    ensures r.Coerced? ==> r.text == text
  {
    if IsDecimalInt(text) && InIntRange(DecimalValue(text)) then Integer(DecimalValue(text)) else Coerced(text)
  }

  /**
   * Coercion reads back the decimal form of every integer within the range;
   * beyond it the sum is a float, kept as the text.
   */
  lemma {:induction false} CoerceOfDecimal(n: int)
    ensures InIntRange(n) ==> Coerce(IntToString(n)) == Integer(n)
    ensures !InIntRange(n) ==> Coerce(IntToString(n)) == Coerced(IntToString(n))
  {
    DecimalRoundTrip(n);
  }

  /** Leading zeros and a `+` sign do not change the integer: "007" is 7 and "+5" is 5. */
  lemma CoercePaddedAndSigned(d: string)
    requires IsDigits(d) && InIntRange(DigitsValue(d))
    ensures Coerce("0" + d) == Integer(DigitsValue(d))
    ensures Coerce("00" + d) == Integer(DigitsValue(d))
    ensures Coerce("+" + d) == Integer(DigitsValue(d))
  {
    var z := "0" + d;
    LeadingZero(d);
    CoerceDigits(z);
    var zz := "0" + z;
    LeadingZero(z);
    CoerceDigits(zz);
    assert zz == "00" + d;
    CoerceSigned(d);
  }

  lemma CoerceDigits(d: string)
    requires IsDigits(d) && InIntRange(DigitsValue(d))
    ensures Coerce(d) == Integer(DigitsValue(d))
  {
  }

  lemma CoerceSigned(d: string)
    requires IsDigits(d) && InIntRange(DigitsValue(d))
    ensures Coerce("+" + d) == Integer(DigitsValue(d))
  {
    var signed := "+" + d;
    assert signed[0] == '+' && !IsDigit(signed[0]) && signed[1..] == d;
    assert !IsDigits(signed);
  }
}
