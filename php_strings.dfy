/**
 * The PHP string functions the core uses: `explode`/`implode`,
 * `strtolower` (ASCII), and the decimal integer forms behind
 * `is_numeric`, `(int)` and integer-to-string conversion.
 */
module PhpStrings {

  /** `sub` occurs in `s` at position `i`. */
  predicate OccursAt(s: string, sub: string, i: int) {
    0 <= i && i + |sub| <= |s| && s[i..i + |sub|] == sub
  }

  /** `str_contains($s, $sub)`. */
  predicate Contains(s: string, sub: string) {
    exists i :: 0 <= i <= |s| && OccursAt(s, sub, i)
  }

  /**
   * `explode($sep, $s)`: the pieces between the non-overlapping occurrences
   * of `sep`, found from the left. Never empty.
   */
  function Split(s: string, sep: string): (r: seq<string>)
    requires sep != []
    ensures r != []
    decreases |s|
  {
    if |s| < |sep| then [s]
    else if s[..|sep|] == sep then [""] + Split(s[|sep|..], sep)
    else
      var rest := Split(s[1..], sep);
      [[s[0]] + rest[0]] + rest[1..]
  }

  /** `implode($sep, $parts)`. */
  function Join(parts: seq<string>, sep: string): string
    requires parts != []
  {
    if |parts| == 1 then parts[0] else parts[0] + sep + Join(parts[1..], sep)
  }

  /** Joining the pieces of `explode` with the same separator gives back the input. */
  lemma {:induction false} SplitJoin(s: string, sep: string)
    requires sep != []
    ensures Join(Split(s, sep), sep) == s
    decreases |s|
  {
    if |s| < |sep| {
    } else if s[..|sep|] == sep {
      SplitJoin(s[|sep|..], sep);
      JoinEmptyFirst(Split(s[|sep|..], sep), sep);
      assert s == s[..|sep|] + s[|sep|..];
    } else {
      SplitJoin(s[1..], sep);
      JoinCons(s[0], Split(s[1..], sep), sep);
      assert s == [s[0]] + s[1..];
    }
  }

  /** An empty first piece leaves a leading separator. */
  lemma JoinEmptyFirst(parts: seq<string>, sep: string)
    requires parts != []
    ensures Join([""] + parts, sep) == sep + Join(parts, sep)
  {
    assert ([""] + parts)[1..] == parts;
  }

  /** A character put in front of the first piece ends up in front of the joined string. */
  lemma JoinCons(c: char, parts: seq<string>, sep: string)
    requires parts != []
    ensures Join([[c] + parts[0]] + parts[1..], sep) == [c] + Join(parts, sep)
  {
    var cons := [[c] + parts[0]] + parts[1..];
    if |parts| > 1 {
      assert cons[1..] == parts[1..];
    }
  }

  /** Where the string does not start with the separator, an occurrence is one in its tail. */
  lemma ContainsShift(s: string, sep: string)
    requires sep != [] && |s| >= |sep| && s[..|sep|] != sep
    ensures Contains(s, sep) <==> Contains(s[1..], sep)
  {
    if Contains(s, sep) {
      var i :| 0 <= i <= |s| && OccursAt(s, sep, i);
      assert i != 0 by { assert s[0..|sep|] == s[..|sep|]; }
      assert s[1..][i - 1..i - 1 + |sep|] == s[i..i + |sep|];
      assert OccursAt(s[1..], sep, i - 1);
    }
    if Contains(s[1..], sep) {
      var i :| 0 <= i <= |s[1..]| && OccursAt(s[1..], sep, i);
      assert s[i + 1..i + 1 + |sep|] == s[1..][i..i + |sep|];
      assert OccursAt(s, sep, i + 1);
    }
  }

  /** `explode` yields a single piece exactly when the separator does not occur. */
  lemma {:induction false} SplitSingle(s: string, sep: string)
    requires sep != []
    ensures |Split(s, sep)| == 1 <==> !Contains(s, sep)
    decreases |s|
  {
    if |s| < |sep| {
      assert !Contains(s, sep);
    } else if s[..|sep|] == sep {
      assert OccursAt(s, sep, 0);
    } else {
      SplitSingle(s[1..], sep);
      ContainsShift(s, sep);
    }
  }

  /** `a` holds no occurrence of the first character of `sep`. */
  predicate Avoids(a: string, sep: string)
    requires sep != []
  {
    forall i :: 0 <= i < |a| ==> a[i] != sep[0]
  }

  /** A piece that avoids the separator's first character is not split. */
  lemma {:induction false} SplitAvoiding(a: string, sep: string)
    requires sep != [] && Avoids(a, sep)
    ensures Split(a, sep) == [a]
    decreases |a|
  {
    if |a| >= |sep| {
      assert a[..|sep|][0] == a[0];
      SplitAvoiding(a[1..], sep);
      assert [a[0]] + a[1..] == a;
    }
  }

  /** Such a piece followed by the separator is split off as the first piece. */
  lemma {:induction false} SplitAvoidingPrefix(a: string, sep: string, rest: string)
    requires sep != [] && Avoids(a, sep)
    ensures Split(a + sep + rest, sep) == [a] + Split(rest, sep)
    decreases |a|
  {
    var s := a + sep + rest;
    if a == [] {
      assert s == sep + rest;
      assert s[..|sep|] == sep;
      assert s[|sep|..] == rest;
    } else {
      assert s[..|sep|][0] == a[0];
      assert s[1..] == a[1..] + sep + rest;
      SplitAvoidingPrefix(a[1..], sep, rest);
      assert [a[0]] + a[1..] == a;
    }
  }

  /** An occurrence in the tail is an occurrence in the whole string. */
  lemma ContainsTail(s: string, sep: string)
    requires s != [] && Contains(s[1..], sep)
    ensures Contains(s, sep)
  {
    var i :| 0 <= i <= |s[1..]| && OccursAt(s[1..], sep, i);
    assert s[i + 1..i + 1 + |sep|] == s[1..][i..i + |sep|];
    assert OccursAt(s, sep, i + 1);
  }

  /**
   * A piece is split off as the first piece exactly up to the first
   * separator: it suffices that no occurrence of `sep` starts inside `a`,
   * that is, none lies in `a` followed by all of `sep` but its last character.
   */
  lemma {:induction false} SplitPrefix(a: string, sep: string, rest: string)
    requires sep != [] && !Contains(a + sep[..|sep| - 1], sep)
    ensures Split(a + sep + rest, sep) == [a] + Split(rest, sep)
    decreases |a|
  {
    var s := a + sep + rest;
    if a == [] {
      assert s == sep + rest;
      assert s[..|sep|] == sep;
      assert s[|sep|..] == rest;
    } else {
      var p := a + sep[..|sep| - 1];
      assert s[..|sep|] != sep by {
        if s[..|sep|] == sep {
          assert p[0..|sep|] == s[..|sep|];
          assert OccursAt(p, sep, 0);
        }
      }
      assert p[1..] == a[1..] + sep[..|sep| - 1];
      if Contains(p[1..], sep) {
        ContainsTail(p, sep);
      }
      assert s[1..] == a[1..] + sep + rest;
      SplitPrefix(a[1..], sep, rest);
      assert [a[0]] + a[1..] == a;
    }
  }

  /** A string without the separator is its own single piece. */
  lemma SplitWhole(s: string, sep: string)
    requires sep != [] && !Contains(s, sep)
    ensures Split(s, sep) == [s]
  {
    SplitSingle(s, sep);
    SplitJoin(s, sep);
  }

  /** Splitting pieces joined with a separator none of them touches gives them back. */
  lemma {:induction false} JoinSplit(parts: seq<string>, sep: string)
    requires sep != [] && parts != []
    requires forall i :: 0 <= i < |parts| ==> Avoids(parts[i], sep)
    ensures Split(Join(parts, sep), sep) == parts
    decreases |parts|
  {
    if |parts| == 1 {
      SplitAvoiding(parts[0], sep);
    } else {
      JoinSplit(parts[1..], sep);
      SplitAvoidingPrefix(parts[0], sep, Join(parts[1..], sep));
      assert parts[0] + sep + Join(parts[1..], sep) == Join(parts, sep);
      assert [parts[0]] + parts[1..] == parts;
    }
  }

  /** Decimal integers hold only digits and signs. */
  lemma NatToStringDigits(n: nat, c: char)
    requires !IsDigit(c)
    ensures forall i :: 0 <= i < |NatToString(n)| ==> NatToString(n)[i] != c
  {
  }

  lemma IntToStringAvoids(n: int, sep: string)
    requires sep != [] && !IsDigit(sep[0]) && sep[0] != '-'
    ensures Avoids(IntToString(n), sep)
  {
    NatToStringDigits(if n < 0 then -n else n, sep[0]);
  }

  /** `strtolower` of one character (ASCII letters only). */
  function LowerChar(c: char): char {
    if 'A' <= c <= 'Z' then (c as int + 32) as char else c
  }

  /** `strtolower`. */
  function Lower(s: string): (r: string)
    ensures |r| == |s|
    ensures forall i :: 0 <= i < |s| ==> r[i] == LowerChar(s[i])
  {
    seq(|s|, i requires 0 <= i < |s| => LowerChar(s[i]))
  }

  /** `array_map('strtolower', $xs)`. */
  function LowerAll(xs: seq<string>): (r: seq<string>)
    ensures |r| == |xs|
    ensures forall i :: 0 <= i < |xs| ==> r[i] == Lower(xs[i])
  {
    seq(|xs|, i requires 0 <= i < |xs| => Lower(xs[i]))
  }

  predicate IsDigit(c: char) {
    '0' <= c <= '9'
  }

  /** One or more decimal digits. */
  predicate IsDigits(s: string) {
    s != [] && forall i :: 0 <= i < |s| ==> IsDigit(s[i])
  }

  function DigitValue(c: char): nat
    requires IsDigit(c)
  {
    (c as int) - ('0' as int)
  }

  /** The value of a string of digits, read most significant first. */
  function DigitsValue(s: string): nat
    requires forall i :: 0 <= i < |s| ==> IsDigit(s[i])
  {
    if s == [] then 0 else DigitsValue(s[..|s| - 1]) * 10 + DigitValue(s[|s| - 1])
  }

  /** A decimal integer with an optional sign, the integer form `is_numeric` accepts. */
  predicate IsDecimalInt(s: string) {
    IsDigits(s) || (|s| >= 2 && (s[0] == '-' || s[0] == '+') && IsDigits(s[1..]))
  }

  /** The value of a decimal integer string, as `(int)` reads it. */
  function DecimalValue(s: string): int
    requires IsDecimalInt(s)
  {
    if IsDigits(s) then DigitsValue(s)
    else if s[0] == '-' then -(DigitsValue(s[1..]) as int)
    else DigitsValue(s[1..])
  }

  function DigitChar(d: nat): (c: char)
    requires d < 10
    ensures IsDigit(c) && DigitValue(c) == d
  {
    ('0' as int + d) as char
  }

  /** The shortest decimal form of a natural number. */
  function NatToString(n: nat): (r: string)
    ensures IsDigits(r)
  {
    if n < 10 then [DigitChar(n)] else NatToString(n / 10) + [DigitChar(n % 10)]
  }

  /** PHP's conversion of an integer to a string. */
  function IntToString(i: int): string {
    if i < 0 then "-" + NatToString(-i) else NatToString(i)
  }

  lemma {:induction false} NatRoundTrip(n: nat)
    ensures DigitsValue(NatToString(n)) == n
  {
    if n >= 10 {
      var s := NatToString(n);
      assert s[..|s| - 1] == NatToString(n / 10);
      NatRoundTrip(n / 10);
    }
  }

  /** A leading zero does not change the value of a string of digits. */
  lemma {:induction false} LeadingZero(d: string)
    requires IsDigits(d)
    ensures IsDigits("0" + d) && DigitsValue("0" + d) == DigitsValue(d)
  {
    var z := "0" + d;
    assert forall i :: 0 <= i < |z| ==> IsDigit(z[i]);
    if |d| > 1 {
      assert z[..|z| - 1] == "0" + d[..|d| - 1];
      var init := d[..|d| - 1];
      assert forall i :: 0 <= i < |init| ==> IsDigit(init[i]);
      LeadingZero(init);
    } else {
      assert z[..|z| - 1] == "0";
      assert "0"[..0] == [];
    }
  }

  /** Reading back the decimal form of an integer gives the integer. */
  lemma {:induction false} DecimalRoundTrip(i: int)
    ensures IsDecimalInt(IntToString(i)) && DecimalValue(IntToString(i)) == i
  {
    if i < 0 {
      var s := IntToString(i);
      assert s[1..] == NatToString(-i);
      assert !IsDigit(s[0]);
      NatRoundTrip(-i);
    } else {
      NatRoundTrip(i);
    }
  }
}
