/**
 * `NumberFilter`: an optional one-key operator map (`lt`, `lte`, `gt`,
 * `gte`) around a string that is either one number or a `lo..hi` range.
 */
module NumberFilters {
  import opened PhpStrings
  import opened PhpValues
  import opened Expressions

  datatype NumberMode = ExactMode | BetweenMode

  /** The `value` property: unset, a coerced number, or the two raw range ends. */
  datatype NumberValue = NoValue | Number(n: Numeric) | Pair(lo: string, hi: string)

  datatype NumberState = NumberState(
    name: string,
    processable: bool,
    value: NumberValue,
    mode: Option<NumberMode>,
    operator: string)

  function Fresh(name: string): (st: NumberState)
    ensures st.name == name && !st.processable && st.operator == "eq" && Consistent(st)
  {
    NumberState(name, false, NoValue, None, "eq")
  }

  /** `mode` and `value` always change together. */
  predicate Consistent(st: NumberState) {
    && (st.mode.None? <==> st.value.NoValue?)
    && (st.mode == Some(ExactMode) <==> st.value.Number?)
    && (st.mode == Some(BetweenMode) <==> st.value.Pair?)
  }

  /** `setOperatorIfValueIsArray`: the new state and the unwrapped value. */
  function OperatorSpec(st: NumberState, raw: Raw): (r: (NumberState, Raw))
    ensures r.0 == st.(operator := r.0.operator)
    ensures raw.Arr? && IsComparisonKey(FirstKey(raw.entries)) ==>
      r.0.operator == raw.entries[0].0 && r.1 == raw.entries[0].1
    ensures !(raw.Arr? && IsComparisonKey(FirstKey(raw.entries))) ==> r == (st, raw)
  {
    if raw.Arr? && IsComparisonKey(FirstKey(raw.entries)) then
      var k := FirstKey(raw.entries).value;
      (st.(operator := k), Lookup(raw.entries, k))
    else (st, raw)
  }

  /** `setValue($value)`: the new state and whether a `TypeError` was raised. */
  function SetValueSpec(st: NumberState, raw: Raw): (r: (NumberState, Status))
    ensures r.0.name == st.name
    ensures r.1.Fail? ==> r.1.error == TypeError
    ensures var (st1, v) := OperatorSpec(st, raw);
      && (v.Arr? ==> r == (st1, Ok))
      && (r.1.Fail? <==> !v.Arr? && !v.Str?)
      && (!v.Arr? && !v.Str? ==> r.0 == st1)
      && (r.0.processable != st.processable ==> r.0.processable && v.Str? && |Split(v.s, "..")| <= 2)
      // without `..` the whole string is coerced and compared exactly
      && (v.Str? && !Contains(v.s, "..") ==>
            r == (st1.(processable := true, mode := Some(ExactMode), value := Number(Coerce(v.s))), Ok))
      // one `..` makes a range whose two ends, joined by it, are the string
      && (v.Str? && |Split(v.s, "..")| == 2 ==>
            && r.1 == Ok && r.0.value.Pair?
            && r.0 == st1.(processable := true, mode := Some(BetweenMode), value := r.0.value)
            && r.0.value.lo + ".." + r.0.value.hi == v.s)
      // more than one `..` is ignored
      && (v.Str? && |Split(v.s, "..")| > 2 ==> r == (st1, Ok))
  {
    var (st1, v) := OperatorSpec(st, raw);
    if v.Arr? then (st1, Ok)
    else if !v.Str? then (st1, Fail(TypeError))
    else
      var numbers := Split(v.s, "..");
      SplitSingle(v.s, "..");
      SplitJoin(v.s, "..");
      if |numbers| > 2 then (st1, Ok)
      else if |numbers| == 1 then
        (st1.(processable := true, mode := Some(ExactMode), value := Number(Coerce(numbers[0]))), Ok)
      else
        (st1.(processable := true, mode := Some(BetweenMode), value := Pair(numbers[0], numbers[1])), Ok)
  }

  /** What `process` adds on `alias.name`. */
  function Contribution(st: NumberState, alias: string): (cs: seq<Condition>)
    ensures |cs| == 1 && cs[0].field == alias + "." + st.name
    ensures st.mode == Some(ExactMode) && st.value.Number? ==>
      cs[0] == Condition(st.operator, alias + "." + st.name, [NumArg(st.value.n)])
    ensures st.mode != Some(ExactMode) && st.value.Pair? ==>
      cs[0] == Condition("between", alias + "." + st.name, [StrArg(st.value.lo), StrArg(st.value.hi)])
  {
    var field := alias + "." + st.name;
    if st.mode == Some(ExactMode) then
      [Condition(st.operator, field, [match st.value case Number(n) => NumArg(n) case _ => NullArg])]
    else
      [Condition("between", field, match st.value case Pair(lo, hi) => [StrArg(lo), StrArg(hi)] case _ => [NullArg, NullArg])]
  }

  /** Every call keeps `mode` and `value` in step. */
  lemma SetValueKeepsConsistent(st: NumberState, raw: Raw)
    requires Consistent(st)
    ensures Consistent(SetValueSpec(st, raw).0)
  {
  }

  /** The operator starts as `eq` and afterwards is only ever one of the four map keys. */
  lemma OperatorOnlyOverwritten(st: NumberState, raw: Raw)
    ensures var op := SetValueSpec(st, raw).0.operator;
      op == st.operator || IsComparisonKey(Some(op))
  {
  }

  /**
   * A decimal integer is read back as that integer, with mode `exact`;
   * beyond the integer range `0 +` makes it a float, kept as the text.
   */
  lemma {:induction false} ExactRoundTrip(st: NumberState, n: int)
    ensures SetValueSpec(st, Str(IntToString(n))) ==
      (st.(processable := true, mode := Some(ExactMode),
           value := Number(if InIntRange(n) then Integer(n) else Coerced(IntToString(n)))), Ok)
  {
    IntToStringAvoids(n, "..");
    SplitAvoiding(IntToString(n), "..");
    CoerceOfDecimal(n);
  }

  /**
   * `lo..hi` is read back as the range `[lo, hi]`, both ends kept as
   * strings, whenever this `..` is the only one: `lo` followed by `.` holds
   * none (so `1.5..2.5` and `1...2`, split as `1` and `.2`, are ranges).
   */
  lemma {:induction false} RangeRoundTrip(st: NumberState, lo: string, hi: string)
    requires !Contains(lo + ".", "..") && !Contains(hi, "..")
    ensures SetValueSpec(st, Str(lo + ".." + hi)) ==
      (st.(processable := true, mode := Some(BetweenMode), value := Pair(lo, hi)), Ok)
  {
    assert ".."[..1] == ".";
    SplitPrefix(lo, "..", hi);
    SplitWhole(hi, "..");
  }

  /** Two or more `..` leave the state, the flag included, as it was. */
  lemma {:induction false} TooManyRangesIgnored(st: NumberState, a: string, b: string, c: string)
    requires !Contains(a + ".", "..") && !Contains(b + ".", "..")
    ensures SetValueSpec(st, Str(a + ".." + b + ".." + c)) == (st, Ok)
  {
    assert ".."[..1] == ".";
    assert a + ".." + b + ".." + c == a + ".." + (b + ".." + c);
    SplitPrefix(a, "..", b + ".." + c);
    SplitPrefix(b, "..", c);
  }

  /** An operator map applies its operator to the wrapped number. */
  lemma {:induction false} OperatorMapRoundTrip(st: NumberState, op: string, n: int)
    requires IsComparisonKey(Some(op))
    ensures SetValueSpec(st, Arr([(op, Str(IntToString(n)))])) ==
      (st.(operator := op, processable := true, mode := Some(ExactMode),
           value := Number(if InIntRange(n) then Integer(n) else Coerced(IntToString(n)))), Ok)
  {
    ExactRoundTrip(st.(operator := op), n);
  }

  class NumberFilter {
    const name: string
    var processable: bool
    var value: NumberValue
    var mode: Option<NumberMode>
    var operator: string

    function State(): NumberState
      reads this
    {
      NumberState(name, processable, value, mode, operator)
    }

    constructor (name: string)
      ensures State() == Fresh(name)
    {
      this.name := name;
      processable := false;
      value := NoValue;
      mode := None;
      operator := "eq";
    }

    constructor Restore(st: NumberState)
      ensures State() == st
    {
      name := st.name;
      processable := st.processable;
      value := st.value;
      mode := st.mode;
      operator := st.operator;
    }

    method SetProcessable()
      modifies this
      ensures State() == old(State()).(processable := true)
    {
      processable := true;
    }

    method SetCantProcess()
      modifies this
      ensures State() == old(State()).(processable := false)
    {
      processable := false;
    }

    function IsProcessable(): (r: bool)
      reads this
      ensures r <==> State().processable
    {
      processable
    }

    method SetOperatorIfValueIsArray(raw: Raw) returns (v: Raw)
      modifies this
      ensures (State(), v) == OperatorSpec(old(State()), raw)
    {
      v := raw;
      if raw.Arr? && IsComparisonKey(FirstKey(raw.entries)) {
        operator := FirstKey(raw.entries).value;
        v := Lookup(raw.entries, operator);
      }
    }

    method SetValue(raw: Raw) returns (status: Status)
      modifies this
      ensures (State(), status) == SetValueSpec(old(State()), raw)
    {
      var v := SetOperatorIfValueIsArray(raw);
      if v.Arr? {
        return Ok;
      }
      if !v.Str? {
        return Fail(TypeError);
      }
      var numbers := Split(v.s, "..");
      if |numbers| > 2 {
        return Ok;
      }
      SetProcessable();
      if |numbers| == 1 {
        mode := Some(ExactMode);
        value := Number(Coerce(numbers[0]));
        return Ok;
      }
      mode := Some(BetweenMode);
      value := Pair(numbers[0], numbers[1]);
      status := Ok;
    }

    method Process(e: QueryExpression, alias: string)
      modifies e
      ensures e.conditions == old(e.conditions) + Contribution(State(), alias)
    {
      var aliasFieldName := alias + "." + name;
      if mode == Some(ExactMode) {
        e.Add(Condition(operator, aliasFieldName, [match value case Number(n) => NumArg(n) case _ => NullArg]));
        return;
      }
      e.Add(Condition("between", aliasFieldName, match value case Pair(lo, hi) => [StrArg(lo), StrArg(hi)] case _ => [NullArg, NullArg]));
    }
  }
}
