/**
 * `SearchDateFilter`: one date or a `d1..d2` period given as a string, or
 * one or two dates keyed by comparison operators given as a map.
 *
 * The class implements the corrected reading of a one-operator map, which
 * also sets the mode to `exact`; `SetValueWith(st, raw, false)` keeps the
 * behaviour as written, where the mode is left as it was.
 */
module SearchDateFilters {
  import opened PhpStrings
  import opened PhpValues
  import opened DateTokens
  import opened Expressions

  datatype DateMode = ExactMode | BetweenMode

  /** The `value` property: unset, one `DateTime` or a pair of them. */
  datatype DateValue = NoDate | OneDate(d: Date) | TwoDates(first: Date, last: Date)

  datatype DateState = DateState(
    name: string,
    processable: bool,
    value: DateValue,
    mode: Option<DateMode>,
    operator: string,
    firstOperator: string,
    lastOperator: string)

  function Fresh(name: string): (st: DateState)
    ensures st.name == name && !st.processable && st.value.NoDate? && st.mode.None?
    ensures st.operator == "eq" && st.firstOperator == "gte" && st.lastOperator == "lte"
  {
    DateState(name, false, NoDate, None, "eq", "gte", "lte")
  }

  /** A processable filter's mode matches the shape of its value. */
  predicate Valid(st: DateState) {
    st.processable ==>
      (st.mode == Some(ExactMode) && st.value.OneDate?) || (st.mode == Some(BetweenMode) && st.value.TwoDates?)
  }

  /** The property `setOperatorIfValueIsArray` writes: `operator`, `firstOperator` or `lastOperator`. */
  datatype Slot = MainSlot | FirstSlot | LastSlot

  function WithOperator(st: DateState, slot: Slot, op: string): DateState {
    match slot
    case MainSlot => st.(operator := op)
    case FirstSlot => st.(firstOperator := op)
    case LastSlot => st.(lastOperator := op)
  }

  /** `setOperatorIfValueIsArray($value, $propertyName)`: the new state and its boolean answer. */
  function OperatorSpec(st: DateState, raw: Raw, slot: Slot): (r: (DateState, bool))
    ensures r.1 <==> raw.Arr? && IsComparisonKey(FirstKey(raw.entries))
    ensures r.1 ==> r.0 == WithOperator(st, slot, raw.entries[0].0)
    ensures !r.1 ==> r.0 == st
  {
    if raw.Arr? && IsComparisonKey(FirstKey(raw.entries)) then
      (WithOperator(st, slot, FirstKey(raw.entries).value), true)
    else (st, false)
  }

  /** `setOneDateSearch`: the new state and whether the token raised. */
  function OneDateSpec(st: DateState, date: string): (DateState, Status) {
    match CreateDateFromString(date)
    case Failure(e) => (st, Fail(e))
    case Success(None) => (st.(processable := false), Ok)
    case Success(Some(d)) => (st.(value := OneDate(d)), Ok)
  }

  /** `setTwoDateSearch`: both tokens are read before either is checked. */
  function TwoDateSpec(st: DateState, dateOne: string, dateTwo: string): (DateState, Status) {
    var one := CreateDateFromString(dateOne);
    if one.Failure? then (st, Fail(one.error))
    else
      var two := CreateDateFromString(dateTwo);
      if two.Failure? then (st, Fail(two.error))
      else if one.value.None? || two.value.None? then (st.(processable := false), Ok)
      else (st.(mode := Some(BetweenMode), value := TwoDates(one.value.value, two.value.value)), Ok)
  }

  /** `setPeriodByParseString`; a token that raises leaves the mode unset. */
  function PeriodSpec(st: DateState, s: string): (DateState, Status) {
    var dates := Split(s, "..");
    if |dates| > 2 then (st, Ok)
    else
      var st1 := st.(processable := true);
      if |dates| == 1 then
        var (st2, status) := OneDateSpec(st1, dates[0]);
        if status.Fail? then (st2, status) else (st2.(mode := Some(ExactMode)), Ok)
      else TwoDateSpec(st1, dates[0], dates[1])
  }

  /**
   * `setDateByArray`; `fixed` chooses whether a one-operator map also sets
   * the mode to `exact` (the corrected reading) or leaves it (as written).
   */
  function DateByArraySpec(st: DateState, e: Entries, fixed: bool): (DateState, Status) {
    var st1 := st.(processable := true);
    if |e| == 0 || |e| > 2 then (st1.(processable := false), Ok)
    else
      var (st2, isOperator) := if |e| == 1 then OperatorSpec(st1, Arr(e), MainSlot) else (st1, false);
      if isOperator then
        if !e[0].1.Str? then (st2, Fail(TypeError))
        else
          var (st3, status) := OneDateSpec(st2, e[0].1.s);
          if status.Fail? || !fixed then (st3, status) else (st3.(mode := Some(ExactMode)), Ok)
      else
        // array_chunk($values, 1, true): one single-entry map per entry
        var (st3, firstOk) := OperatorSpec(st1, Arr([e[0]]), FirstSlot);
        if !firstOk || |e| == 1 then (st3.(processable := false), Ok)
        else
          var (st4, lastOk) := OperatorSpec(st3, Arr([e[1]]), LastSlot);
          if !lastOk then (st4.(processable := false), Ok)
          else if !e[0].1.Str? || !e[1].1.Str? then (st4, Fail(TypeError))
          else TwoDateSpec(st4, e[0].1.s, e[1].1.s)
  }

  /** `setValue($value)`, with the one-operator branch chosen by `fixed`. */
  function SetValueWith(st: DateState, raw: Raw, fixed: bool): (r: (DateState, Status))
    ensures r.0.name == st.name
    ensures r.1.Fail? ==> r.1.error == TypeError && (raw.Arr? || raw.Str?)
    ensures !raw.Str? && !raw.Arr? ==> r == (st, Ok)
  {
    match raw
    case Str(s) => PeriodSpec(st, s)
    case Arr(e) => DateByArraySpec(st, e, fixed)
    case _ => (OperatorSpec(st, raw, MainSlot).0, Ok)
  }

  /** `setValue($value)`, corrected. */
  function SetValueSpec(st: DateState, raw: Raw): (DateState, Status) {
    SetValueWith(st, raw, true)
  }

  /**
   * `setValue($value)`, as written: it differs from the corrected reading
   * only on a map of one entry, and there only in the mode.
   */
  function SetValueAsWritten(st: DateState, raw: Raw): (r: (DateState, Status))
    ensures r.0.name == st.name
    ensures r.1.Fail? ==> r.1.error == TypeError
    ensures !(raw.Arr? && |raw.entries| == 1) ==> r == SetValueSpec(st, raw)
    ensures r.1 == SetValueSpec(st, raw).1
    ensures SetValueSpec(st, raw).0 == r.0 || SetValueSpec(st, raw).0 == r.0.(mode := Some(ExactMode))
  {
    SetValueWith(st, raw, false)
  }

  function ValueArg(v: DateValue): Arg {
    match v
    case NoDate => NullArg
    case OneDate(d) => DateArg(d)
    case TwoDates(a, b) => DatePairArg(a, b)
  }

  /**
   * What `process` adds on `alias.name`. Indexing a single `DateTime` as
   * the pair `[d1, d2]` is a PHP `Error`.
   */
  function Contribution(st: DateState, alias: string): (r: Result<seq<Condition>>)
    ensures r.Failure? <==> st.mode != Some(ExactMode) && st.value.OneDate?
    ensures r.Failure? ==> r.error == ObjectAsArray
    ensures r.Success? ==> forall c :: c in r.value ==> c.field == alias + "." + st.name
    ensures r.Success? && st.mode == Some(ExactMode) ==>
      r.value == [Condition(st.operator, alias + "." + st.name, [ValueArg(st.value)])]
    ensures st.mode != Some(ExactMode) && st.value.TwoDates? ==>
      r == Success([Condition(st.firstOperator, alias + "." + st.name, [DateArg(st.value.first)]),
                    Condition(st.lastOperator, alias + "." + st.name, [DateArg(st.value.last)])])
  {
    var field := alias + "." + st.name;
    if st.mode == Some(ExactMode) then Success([Condition(st.operator, field, [ValueArg(st.value)])])
    else
      match st.value
      case TwoDates(a, b) => Success([Condition(st.firstOperator, field, [DateArg(a)]), Condition(st.lastOperator, field, [DateArg(b)])])
      case NoDate => Success([Condition(st.firstOperator, field, [NullArg]), Condition(st.lastOperator, field, [NullArg])])
      case OneDate(_) => Failure(ObjectAsArray)
  }

  /** A processable, valid filter always processes without error, adding one or two predicates. */
  lemma ValidContributes(st: DateState, alias: string)
    requires Valid(st) && st.processable
    ensures Contribution(st, alias).Success?
    ensures |Contribution(st, alias).value| == (if st.mode == Some(ExactMode) then 1 else 2)
  {
  }

  /** The corrected `setValue` keeps every filter valid. */
  lemma SetValueKeepsValid(st: DateState, raw: Raw)
    requires Valid(st) && SetValueSpec(st, raw).1 == Ok
    ensures Valid(SetValueSpec(st, raw).0)
  {
  }

  /**
   * A string with two or more `..` changes nothing: the first `..` ends
   * `a` (no `..` starts inside it), and the next one ends `b`.
   */
  lemma {:induction false} TooManyRangesIgnored(st: DateState, a: string, b: string, c: string)
    requires !Contains(a + ".", "..") && !Contains(b + ".", "..")
    ensures SetValueSpec(st, Str(a + ".." + b + ".." + c)) == (st, Ok)
  {
    assert ".."[..1] == ".";
    assert a + ".." + b + ".." + c == a + ".." + (b + ".." + c);
    SplitPrefix(a, "..", b + ".." + c);
    SplitPrefix(b, "..", c);
  }

  /**
   * A string with no `..` is one token. A token that raises leaves the
   * filter marked processable and nothing else changed; otherwise the mode
   * becomes `exact`, and the filter stays processable exactly when the token
   * parses.
   */
  lemma {:induction false} SingleToken(st: DateState, s: string)
    requires !Contains(s, "..")
    ensures var (r, status) := SetValueSpec(st, Str(s));
      var c := CreateDateFromString(s);
      && (status.Fail? <==> c.Failure?)
      && (c.Failure? ==> r == st.(processable := true) && status == Fail(TypeError))
      && (c.Success? ==>
           && r.mode == Some(ExactMode)
           && (r.processable <==> c.value.Some?)
           && r.value == (if r.processable then OneDate(c.value.value) else st.value)
           && r.operator == st.operator && r.firstOperator == st.firstOperator && r.lastOperator == st.lastOperator)
  {
    SplitWhole(s, "..");
  }

  /** A year followed by a newline raises a `TypeError` from `setValue`. */
  lemma NewlineTokenRaises(name: string)
    ensures SetValueSpec(Fresh(name), Str("2020\n")) == (Fresh(name).(processable := true), Fail(TypeError))
  {
    assert Avoids("2020\n", "..");
    SplitAvoiding("2020\n", "..");
    NewlineYearExample();
  }

  /**
   * `d1..d2`, with this `..` the only one, raises when either token raises;
   * otherwise it needs both tokens to parse, and then the mode is `between`
   * and the value the pair.
   */
  lemma {:induction false} TwoTokens(st: DateState, a: string, b: string)
    requires !Contains(a + ".", "..") && !Contains(b, "..")
    ensures var (r, status) := SetValueSpec(st, Str(a + ".." + b));
      var one, two := CreateDateFromString(a), CreateDateFromString(b);
      && (status.Fail? <==> one.Failure? || two.Failure?)
      && (status.Fail? ==> r == st.(processable := true))
      && (status == Ok ==>
           && (r.processable <==> one.value.Some? && two.value.Some?)
           && (r.processable ==> r.mode == Some(BetweenMode) && r.value == TwoDates(one.value.value, two.value.value))
           && (!r.processable ==> r.mode == st.mode && r.value == st.value))
  {
    assert ".."[..1] == ".";
    SplitPrefix(a, "..", b);
    SplitWhole(b, "..");
  }

  /** A map with no entry or more than two is rejected, and nothing else changes. */
  lemma MapSizeRejected(st: DateState, e: Entries)
    requires |e| == 0 || |e| > 2
    ensures SetValueSpec(st, Arr(e)) == (st.(processable := false), Ok)
  {
  }

  /** Corrected: `{op: token}` searches `op` against that date with mode `exact`. */
  lemma OneOperatorCorrected(st: DateState, op: string, token: string, alias: string)
    requires IsComparisonKey(Some(op)) && CreateDateFromString(token).Success? && CreateDateFromString(token).value.Some?
    ensures var d := CreateDateFromString(token).value.value;
      var (r, status) := SetValueSpec(st, Arr([(op, Str(token))]));
      && status == Ok
      && r == st.(processable := true, operator := op, value := OneDate(d), mode := Some(ExactMode))
      && Valid(r)
      && Contribution(r, alias) == Success([Condition(op, alias + "." + st.name, [DateArg(d)])])
  {
  }

  /** As written: `{op: token}` leaves the mode unset, so processing a fresh filter fails. */
  lemma OneOperatorAsWritten(name: string, op: string, token: string, alias: string)
    requires IsComparisonKey(Some(op)) && CreateDateFromString(token).Success? && CreateDateFromString(token).value.Some?
    ensures var (r, status) := SetValueAsWritten(Fresh(name), Arr([(op, Str(token))]));
      && status == Ok
      && r.processable && r.mode.None? && r.value.OneDate?
      && !Valid(r)
      && Contribution(r, alias) == Failure(ObjectAsArray)
  {
  }

  /** The same with the concrete input `{gte: '2020'}`. */
  lemma OneOperatorAsWrittenExample()
    ensures var (r, _) := SetValueAsWritten(Fresh("date"), Arr([("gte", Str("2020"))]));
      r.processable && Contribution(r, "test") == Failure(ObjectAsArray)
  {
    YearToken();
    OneOperatorAsWritten("date", "gte", "2020", "test");
  }

  /** `{op1: t1, op2: t2}` sets the two operators in map order and searches the period. */
  lemma TwoOperators(st: DateState, op1: string, t1: string, op2: string, t2: string, alias: string)
    requires IsComparisonKey(Some(op1)) && IsComparisonKey(Some(op2))
    requires CreateDateFromString(t1).Success? && CreateDateFromString(t1).value.Some?
    requires CreateDateFromString(t2).Success? && CreateDateFromString(t2).value.Some?
    ensures var d1, d2 := CreateDateFromString(t1).value.value, CreateDateFromString(t2).value.value;
      var (r, status) := SetValueSpec(st, Arr([(op1, Str(t1)), (op2, Str(t2))]));
      && status == Ok
      && r == st.(processable := true, firstOperator := op1, lastOperator := op2,
                  mode := Some(BetweenMode), value := TwoDates(d1, d2))
      && Contribution(r, alias) == Success([Condition(op1, alias + "." + st.name, [DateArg(d1)]),
                                            Condition(op2, alias + "." + st.name, [DateArg(d2)])])
  {
  }

  /** A second key that is not an operator rejects the map, after `firstOperator` was written. */
  lemma SecondKeyNotOperator(st: DateState, op1: string, v1: Raw, k2: string, v2: Raw)
    requires IsComparisonKey(Some(op1)) && !IsComparisonKey(Some(k2))
    ensures SetValueSpec(st, Arr([(op1, v1), (k2, v2)])) == (st.(firstOperator := op1, processable := false), Ok)
  {
  }

  /** A first key that is not an operator rejects the map and writes no operator. */
  lemma FirstKeyNotOperator(st: DateState, k1: string, v1: Raw, rest: Entries)
    requires !IsComparisonKey(Some(k1)) && |rest| <= 1
    ensures SetValueSpec(st, Arr([(k1, v1)] + rest)) == (st.(processable := false), Ok)
  {
  }

  class SearchDateFilter {
    const name: string
    var processable: bool
    var value: DateValue
    var mode: Option<DateMode>
    var operator: string
    var firstOperator: string
    var lastOperator: string

    function State(): DateState
      reads this
    {
      DateState(name, processable, value, mode, operator, firstOperator, lastOperator)
    }

    constructor (name: string)
      ensures State() == Fresh(name)
    {
      this.name := name;
      processable := false;
      value := NoDate;
      mode := None;
      operator := "eq";
      firstOperator := "gte";
      lastOperator := "lte";
    }

    constructor Restore(st: DateState)
      ensures State() == st
    {
      name := st.name;
      processable := st.processable;
      value := st.value;
      mode := st.mode;
      operator := st.operator;
      firstOperator := st.firstOperator;
      lastOperator := st.lastOperator;
    }

    method SetProcessable()
      modifies this
      ensures State() == old(State()).(processable := true)
    {
      processable := true;
    }

    method SetCantProcess()
      modifies this
      ensures State() == old(State()).(processable := false)
    {
      processable := false;
    }

    function IsProcessable(): (r: bool)
      reads this
      ensures r <==> State().processable
    {
      processable
    }

    method SetOneDateSearch(date: string) returns (status: Status)
      modifies this
      ensures (State(), status) == OneDateSpec(old(State()), date)
    {
      var datetime := CreateDateFromString(date);
      if datetime.Failure? {
        return Fail(datetime.error);
      }
      if datetime.value.None? {
        SetCantProcess();
        return Ok;
      }
      value := OneDate(datetime.value.value);
      status := Ok;
    }

    method SetTwoDateSearch(dateOne: string, dateTwo: string) returns (status: Status)
      modifies this
      ensures (State(), status) == TwoDateSpec(old(State()), dateOne, dateTwo)
    {
      var datetimeOne := CreateDateFromString(dateOne);
      if datetimeOne.Failure? {
        return Fail(datetimeOne.error);
      }
      var datetimeTwo := CreateDateFromString(dateTwo);
      if datetimeTwo.Failure? {
        return Fail(datetimeTwo.error);
      }
      if datetimeOne.value.None? || datetimeTwo.value.None? {
        SetCantProcess();
        return Ok;
      }
      mode := Some(BetweenMode);
      value := TwoDates(datetimeOne.value.value, datetimeTwo.value.value);
      status := Ok;
    }

    method SetOperatorIfValueIsArray(raw: Raw, slot: Slot) returns (matched: bool)
      modifies this
      ensures (State(), matched) == OperatorSpec(old(State()), raw, slot)
    {
      if raw.Arr? && IsComparisonKey(FirstKey(raw.entries)) {
        var k := FirstKey(raw.entries).value;
        match slot {
          case MainSlot => operator := k;
          case FirstSlot => firstOperator := k;
          case LastSlot => lastOperator := k;
        }
        return true;
      }
      return false;
    }

    method SetPeriodByParseString(s: string) returns (status: Status)
      modifies this
      ensures (State(), status) == PeriodSpec(old(State()), s)
    {
      var dates := Split(s, "..");
      if |dates| > 2 {
        return Ok;
      }
      SetProcessable();
      if |dates| == 1 {
        status := SetOneDateSearch(dates[0]);
        if status.Fail? {
          return;
        }
        mode := Some(ExactMode);
        return;
      }
      status := SetTwoDateSearch(dates[0], dates[1]);
    }

    method SetDateByArray(e: Entries) returns (status: Status)
      modifies this
      ensures (State(), status) == DateByArraySpec(old(State()), e, true)
    {
      SetProcessable();
      var count := |e|;
      if count <= 0 || count > 2 {
        SetCantProcess();
        return Ok;
      }
      var isOperator := false;
      if count == 1 {
        isOperator := SetOperatorIfValueIsArray(Arr(e), MainSlot);
      }
      if isOperator {
        if !e[0].1.Str? {
          return Fail(TypeError);
        }
        status := SetOneDateSearch(e[0].1.s);
        if status.Fail? {
          return;
        }
        mode := Some(ExactMode);
        return;
      }
      var firstOk := SetOperatorIfValueIsArray(Arr([e[0]]), FirstSlot);
      if firstOk && count == 2 {
        var lastOk := SetOperatorIfValueIsArray(Arr([e[1]]), LastSlot);
        if lastOk {
          if !e[0].1.Str? || !e[1].1.Str? {
            return Fail(TypeError);
          }
          status := SetTwoDateSearch(e[0].1.s, e[1].1.s);
          return;
        }
      }
      SetCantProcess();
      status := Ok;
    }

    method SetValue(raw: Raw) returns (status: Status)
      modifies this
      ensures (State(), status) == SetValueSpec(old(State()), raw)
    {
      if raw.Str? {
        status := SetPeriodByParseString(raw.s);
        return;
      }
      if raw.Arr? {
        status := SetDateByArray(raw.entries);
        return;
      }
      var _ := SetOperatorIfValueIsArray(raw, MainSlot);
      status := Ok;
    }

    method Process(e: QueryExpression, alias: string) returns (status: Status)
      modifies e
      ensures Contribution(State(), alias).Success? ==>
        status == Ok && e.conditions == old(e.conditions) + Contribution(State(), alias).value
      ensures Contribution(State(), alias).Failure? ==>
        status == Fail(Contribution(State(), alias).error) && e.conditions == old(e.conditions)
    {
      var aliasFieldName := alias + "." + name;
      if mode == Some(ExactMode) {
        e.Add(Condition(operator, aliasFieldName, [ValueArg(value)]));
        return Ok;
      }
      match value
      case OneDate(_) =>
        return Fail(ObjectAsArray);
      case TwoDates(a, b) =>
        e.Add(Condition(firstOperator, aliasFieldName, [DateArg(a)]));
        e.Add(Condition(lastOperator, aliasFieldName, [DateArg(b)]));
        return Ok;
      case NoDate =>
        e.Add(Condition(firstOperator, aliasFieldName, [NullArg]));
        e.Add(Condition(lastOperator, aliasFieldName, [NullArg]));
        return Ok;
    }
  }
}
