/**
 * `SearchInFilter`: a `,`-separated list matched with `in`, or with
 * `notIn` when wrapped in a map keyed `not`.
 */
module SearchInFilters {
  import opened PhpStrings
  import opened PhpValues
  import opened Expressions

  datatype InState = InState(name: string, processable: bool, value: Option<seq<string>>, operator: string)

  function Fresh(name: string): (st: InState)
    ensures st.name == name && !st.processable && st.value.None? && st.operator == "in"
  {
    InState(name, false, None, "in")
  }

  /** `setInOperator`: the new state and the unwrapped value. */
  function InOperatorSpec(st: InState, raw: Raw): (r: (InState, Raw))
    ensures r.0 == st.(operator := r.0.operator)
    ensures raw.Arr? && FirstKey(raw.entries) == Some("not") ==>
      r.0.operator == "notIn" && r.1 == raw.entries[0].1
    ensures !(raw.Arr? && FirstKey(raw.entries) == Some("not")) ==> r == (st, raw)
  {
    if raw.Arr? && FirstKey(raw.entries) == Some("not") then
      (st.(operator := "notIn"), Lookup(raw.entries, FirstKey(raw.entries).value))
    else (st, raw)
  }

  /** `setValue($value)`: the new state and whether a `TypeError` was raised. */
  function SetValueSpec(st: InState, raw: Raw): (r: (InState, Status))
    ensures r.0.name == st.name
    ensures var (st1, v) := InOperatorSpec(st, raw);
      && (v.Arr? ==> r == (st1, Ok))
      && (!v.Arr? && !v.Str? ==> r == (st1, Fail(TypeError)))
      && (v.Str? ==>
            && r.1 == Ok
            && r.0 == st1.(processable := true, value := r.0.value)
            && r.0.value.Some? && r.0.value.value != []
            && Join(r.0.value.value, ",") == v.s)
  {
    var (st1, v) := InOperatorSpec(st, raw);
    if v.Arr? then (st1, Ok)
    else if !v.Str? then (st1, Fail(TypeError))
    else
      var possibleValues := Split(v.s, ",");
      SplitJoin(v.s, ",");
      (st1.(processable := true, value := Some(possibleValues)), Ok)
  }

  /** What `process` adds: `operator(alias.name, value)`. */
  function Contribution(st: InState, alias: string): (cs: seq<Condition>)
    ensures |cs| == 1 && cs[0].op == st.operator && cs[0].field == alias + "." + st.name
    ensures st.value.Some? ==> cs[0].args == [ListArg(st.value.value)]
  {
    [Condition(st.operator, alias + "." + st.name, [match st.value case Some(l) => ListArg(l) case None => NullArg])]
  }

  /** Once `notIn`, always `notIn`: nothing sets the operator back to `in`. */
  lemma NotInSticks(st: InState, raw: Raw)
    requires st.operator == "notIn"
    ensures SetValueSpec(st, raw).0.operator == "notIn"
  {
  }

  /** The operator is always `in` or `notIn`. */
  lemma OperatorStaysInRange(st: InState, raw: Raw)
    requires st.operator == "in" || st.operator == "notIn"
    ensures var op := SetValueSpec(st, raw).0.operator; op == "in" || op == "notIn"
  {
  }

  /** A list of comma-free items is read back item for item, in order, untrimmed. */
  lemma {:induction false} ListRoundTrip(st: InState, items: seq<string>)
    requires items != []
    requires forall i :: 0 <= i < |items| ==> Avoids(items[i], ",")
    ensures SetValueSpec(st, Str(Join(items, ","))).0.value == Some(items)
  {
    JoinSplit(items, ",");
  }

  /** A single item without a comma is a one-element list. */
  lemma {:induction false} SingleItem(st: InState, item: string)
    requires !Contains(item, ",")
    ensures SetValueSpec(st, Str(item)).0.value == Some([item])
  {
    var p := Split(item, ",");
    SplitSingle(item, ",");
    SplitJoin(item, ",");
    assert p == [p[0]];
  }

  class SearchInFilter {
    const name: string
    var processable: bool
    var value: Option<seq<string>>
    var operator: string

    function State(): InState
      reads this
    {
      InState(name, processable, value, operator)
    }

    constructor (name: string)
      ensures State() == Fresh(name)
    {
      this.name := name;
      processable := false;
      value := None;
      operator := "in";
    }

    constructor Restore(st: InState)
      ensures State() == st
    {
      name := st.name;
      processable := st.processable;
      value := st.value;
      operator := st.operator;
    }

    method SetProcessable()
      modifies this
      ensures State() == old(State()).(processable := true)
    {
      processable := true;
    }

    method SetCantProcess()
      modifies this
      ensures State() == old(State()).(processable := false)
    {
      processable := false;
    }

    function IsProcessable(): (r: bool)
      reads this
      ensures r <==> State().processable
    {
      processable
    }

    method SetInOperator(raw: Raw) returns (v: Raw)
      modifies this
      ensures (State(), v) == InOperatorSpec(old(State()), raw)
    {
      v := raw;
      if raw.Arr? && FirstKey(raw.entries) == Some("not") {
        operator := "notIn";
        v := Lookup(raw.entries, FirstKey(raw.entries).value);
      }
    }

    method SetValue(raw: Raw) returns (status: Status)
      modifies this
      ensures (State(), status) == SetValueSpec(old(State()), raw)
    {
      var v := SetInOperator(raw);
      if v.Arr? {
        return Ok;
      }
      if !v.Str? {
        return Fail(TypeError);
      }
      var possibleValues := Split(v.s, ",");
      SetProcessable();
      value := Some(possibleValues);
      status := Ok;
    }

    method Process(e: QueryExpression, alias: string)
      modifies e
      ensures e.conditions == old(e.conditions) + Contribution(State(), alias)
    {
      e.Add(Condition(operator, alias + "." + name, [match value case Some(l) => ListArg(l) case None => NullArg]));
    }
  }
}
