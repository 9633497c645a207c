/**
 * The date-token grammar of the date filter (`createDateFromString`): every
 * `-` is removed, then the token must be a year, a year and month, or a
 * year, month and day written with digits only. A `DateTime` is reduced to
 * the (year, month, day) the token names.
 *
 * The anchored patterns end in `$`, which also matches before one final
 * newline; `createFromFormat` then fails to read the token, and returning
 * its `false` from a function declared `?\DateTime` raises a `TypeError`.
 */
module DateTokens {
  import opened PhpStrings
  import opened PhpValues

  /** Midnight of a calendar day, as written in the token. */
  datatype Date = Date(year: int, month: int, day: int)

  /** The ranges the regular expressions admit. */
  predicate DateInRange(d: Date) {
    1000 <= d.year <= 2999 && 1 <= d.month <= 12 && 1 <= d.day <= 31
  }

  /** `str_replace('-', '', $s)`. */
  function RemoveDashes(s: string): (r: string)
    ensures forall i :: 0 <= i < |r| ==> r[i] != '-'
  {
    if s == [] then [] else (if s[0] == '-' then [] else [s[0]]) + RemoveDashes(s[1..])
  }

  /** `[12][0-9]{3}` */
  predicate IsYear(t: string) {
    |t| == 4 && (t[0] == '1' || t[0] == '2') && IsDigits(t)
  }

  /** `(01|02|...|12)` */
  predicate IsMonth(t: string) {
    |t| == 2 && IsDigits(t) && 1 <= DigitsValue(t) <= 12
  }

  /** `(0[1-9]|[12]\d|3[01])` */
  predicate IsDay(t: string) {
    |t| == 2 && IsDigits(t) && 1 <= DigitsValue(t) <= 31
  }

  /** `^([12]\d{3}(01|...|12))$` without its final newline. */
  predicate IsYearMonth(t: string) {
    |t| == 6 && IsYear(t[..4]) && IsMonth(t[4..])
  }

  /** `^([12]\d{3}(01|...|12)(0[1-9]|[12]\d|3[01]))$` without its final newline. */
  predicate IsYearMonthDay(t: string) {
    |t| == 8 && IsYear(t[..4]) && IsMonth(t[4..6]) && IsDay(t[6..])
  }

  /** The three anchored, digit-only shapes. */
  predicate Anchored(t: string) {
    IsYear(t) || IsYearMonth(t) || IsYearMonthDay(t)
  }

  /** One of the shapes followed by a newline, which `$` lets through. */
  predicate AnchoredBeforeNewline(t: string) {
    |t| > 0 && t[|t| - 1] == '\n' && Anchored(t[..|t| - 1])
  }

  /** The value of a two-digit string. */
  lemma Digits2(t: string)
    requires |t| == 2 && IsDigits(t)
    ensures DigitsValue(t) == 10 * DigitValue(t[0]) + DigitValue(t[1])
  {
    var a := t[..1];
    assert a[..0] == [];
    assert DigitsValue(a) == DigitValue(t[0]);
  }

  /** The value of a four-digit string. */
  lemma Digits4(t: string)
    requires |t| == 4 && IsDigits(t)
    ensures DigitsValue(t) == 1000 * DigitValue(t[0]) + 100 * DigitValue(t[1]) + 10 * DigitValue(t[2]) + DigitValue(t[3])
  {
    var a, b, c := t[..1], t[..2], t[..3];
    assert DigitsValue(t) == DigitsValue(c) * 10 + DigitValue(t[3]);
    assert c[..2] == b;
    assert DigitsValue(c) == DigitsValue(b) * 10 + DigitValue(t[2]);
    assert b[..1] == a;
    assert DigitsValue(b) == DigitsValue(a) * 10 + DigitValue(t[1]);
    assert a[..0] == [];
    assert DigitsValue(a) == DigitValue(t[0]);
  }

  lemma YearValue(t: string)
    requires IsYear(t)
    ensures 1000 <= DigitsValue(t) <= 2999
  {
    Digits4(t);
  }

  /** The unanchored pattern `[12]\d{3}-(month)-(day)` matches `t` at `i`. */
  predicate DashedDateAt(t: string, i: int) {
    0 <= i && i + 10 <= |t|
    && IsYear(t[i..i + 4]) && t[i + 4] == '-'
    && IsMonth(t[i + 5..i + 7]) && t[i + 7] == '-'
    && IsDay(t[i + 8..i + 10])
  }

  /** The date at the first match of the dashed pattern at or after `from`. */
  function FindDashedDate(t: string, from: nat): (r: Option<Date>)
    requires from <= |t|
    ensures r.Some? ==> DateInRange(r.value)
    decreases |t| - from
  {
    if from + 10 > |t| then None
    else if DashedDateAt(t, from) then
      YearValue(t[from..from + 4]);
      Some(Date(DigitsValue(t[from..from + 4]), DigitsValue(t[from + 5..from + 7]), DigitsValue(t[from + 8..from + 10])))
    else FindDashedDate(t, from + 1)
  }

  /** The midnight `createFromFormat` builds from a token of one of the three shapes. */
  function ShapeDate(t: string): (d: Date)
    requires Anchored(t)
    ensures DateInRange(d)
  {
    if IsYear(t) then
      YearValue(t);
      Date(DigitsValue(t), 1, 1)
    else if IsYearMonth(t) then
      YearValue(t[..4]);
      Date(DigitsValue(t[..4]), DigitsValue(t[4..]), 1)
    else
      YearValue(t[..4]);
      Date(DigitsValue(t[..4]), DigitsValue(t[4..6]), DigitsValue(t[6..]))
  }

  /**
   * `createDateFromString`: the four patterns tried in the source's order
   * (the three anchored ones differ in length, so at most one applies);
   * `None` stands for its `null` and `Failure` for the `TypeError`.
   */
  function CreateDateFromString(date: string): (r: Result<Option<Date>>)
    ensures r.Failure? ==> r.error == TypeError
    ensures r.Success? && r.value.Some? ==> DateInRange(r.value.value)
  {
    var t := RemoveDashes(date);
    if Anchored(t) then Success(Some(ShapeDate(t)))
    else if AnchoredBeforeNewline(t) then Failure(TypeError)
    else Success(FindDashedDate(t, 0))
  }

  /** The fourth pattern needs a `-`, and every `-` has been removed: it never matches. */
  lemma {:induction false} DashedPatternNeverMatches(t: string, from: nat)
    requires from <= |t|
    requires forall i :: 0 <= i < |t| ==> t[i] != '-'
    ensures FindDashedDate(t, from) == None
    decreases |t| - from
  {
    if from + 10 <= |t| {
      assert !DashedDateAt(t, from);
      DashedPatternNeverMatches(t, from + 1);
    }
  }

  /**
   * Only the three digit-only shapes are ever accepted; one of them followed
   * by a newline raises; every other token is `null`.
   */
  lemma CreateDateShapes(date: string)
    ensures var t, r := RemoveDashes(date), CreateDateFromString(date);
      && (r.Success? && r.value.Some? <==>
           (IsYear(t)
            || (|t| == 6 && IsYear(t[..4]) && IsMonth(t[4..]))
            || (|t| == 8 && IsYear(t[..4]) && IsMonth(t[4..6]) && IsDay(t[6..]))))
      && (r.Failure? <==> AnchoredBeforeNewline(t))
  {
    DashedPatternNeverMatches(RemoveDashes(date), 0);
  }

  /** A token of one of the shapes followed by a newline raises a `TypeError`. */
  lemma NewlineRaises(date: string)
    requires Anchored(RemoveDashes(date))
    ensures CreateDateFromString(date + "\n") == Failure(TypeError)
  {
    RemoveDashesConcat(date, "\n");
    assert "\n"[1..] == [];
    var t := RemoveDashes(date) + "\n";
    assert t[..|t| - 1] == RemoveDashes(date);
  }

  /** The year `2020` followed by a newline raises. */
  lemma NewlineYearExample()
    ensures CreateDateFromString("2020\n") == Failure(TypeError)
  {
    RemoveDashesIdempotent("2020");
    NewlineRaises("2020");
  }

  lemma {:induction false} RemoveDashesIdempotent(s: string)
    requires forall i :: 0 <= i < |s| ==> s[i] != '-'
    ensures RemoveDashes(s) == s
  {
    if s != [] {
      RemoveDashesIdempotent(s[1..]);
      assert s == [s[0]] + s[1..];
    }
  }

  /** Dashes carry no meaning: a token and its dash-free form name the same date. */
  lemma DashesIgnored(date: string)
    ensures CreateDateFromString(date) == CreateDateFromString(RemoveDashes(date))
  {
    RemoveDashesIdempotent(RemoveDashes(date));
  }

  /** A bare year is the first of January of that year. */
  lemma YearToken()
    ensures CreateDateFromString("2020") == Success(Some(Date(2020, 1, 1)))
  {
    RemoveDashesIdempotent("2020");
    Digits4("2020");
  }

  /** A leading dash is dropped. */
  lemma RemoveLeadingDash(b: string)
    ensures RemoveDashes("-" + b) == RemoveDashes(b)
  {
    var s := "-" + b;
    assert s[0] == '-' && s[1..] == b;
  }

  /** Two dash-free pieces joined by a dash lose only that dash. */
  lemma RemoveOneDash(a: string, b: string)
    requires RemoveDashes(a) == a && RemoveDashes(b) == b
    ensures RemoveDashes(a + "-" + b) == a + b
  {
    assert a + "-" + b == a + ("-" + b);
    RemoveDashesConcat(a, "-" + b);
    RemoveLeadingDash(b);
  }

  /** A year and month, with or without a dash, is the first of that month. */
  lemma YearMonthShape(y: string, m: string)
    requires IsYear(y) && IsMonth(m)
    ensures CreateDateFromString(y + m) == Success(Some(Date(DigitsValue(y), DigitsValue(m), 1)))
    ensures CreateDateFromString(y + "-" + m) == CreateDateFromString(y + m)
  {
    var t := y + m;
    RemoveDashesIdempotent(t);
    assert t[..4] == y && t[4..] == m;
    RemoveDashesIdempotent(y);
    RemoveDashesIdempotent(m);
    RemoveOneDash(y, m);
  }

  /** A year, month and day, with or without dashes, names that day. */
  lemma YearMonthDayShape(y: string, m: string, d: string)
    requires IsYear(y) && IsMonth(m) && IsDay(d)
    ensures CreateDateFromString(y + m + d) == Success(Some(Date(DigitsValue(y), DigitsValue(m), DigitsValue(d))))
    ensures CreateDateFromString(y + "-" + m + "-" + d) == CreateDateFromString(y + m + d)
  {
    var t := y + m + d;
    RemoveDashesIdempotent(t);
    assert t[..4] == y && t[4..6] == m && t[6..] == d;
    RemoveDashesIdempotent(y);
    RemoveDashesIdempotent(m);
    RemoveDashesIdempotent(d);
    RemoveOneDash(y, m);
    var ym := y + "-" + m;
    RemoveDashesConcat(ym, "-" + d);
    RemoveLeadingDash(d);
    assert y + "-" + m + "-" + d == ym + ("-" + d);
  }

  lemma YearMonthToken()
    ensures CreateDateFromString("2020-03") == Success(Some(Date(2020, 3, 1)))
  {
    var y, m := "2020", "03";
    Digits4(y);
    Digits2(m);
    assert DigitsValue(y) == 2020 && DigitsValue(m) == 3;
    YearMonthShape(y, m);
    assert y + "-" + m == "2020-03";
  }

  /** A month outside 01..12 is rejected. */
  lemma MonthThirteenRejected()
    ensures CreateDateFromString("202013") == Success(None)
  {
    var t := "202013";
    RemoveDashesIdempotent(t);
    DashedPatternNeverMatches(t, 0);
    assert t[4..] == "13";
    Digits2("13");
  }

  lemma {:induction false} RemoveDashesConcat(a: string, b: string)
    ensures RemoveDashes(a + b) == RemoveDashes(a) + RemoveDashes(b)
  {
    if a != [] {
      assert (a + b)[1..] == a[1..] + b;
      RemoveDashesConcat(a[1..], b);
    } else {
      assert a + b == b;
    }
  }
}
