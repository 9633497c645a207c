/**
 * `NullFilter`: a map keyed `is` or `not` (the string `'null'` standing for
 * `{is: 'null'}`) marks the filter processable; processing always adds
 * `isNull` on the aliased field.
 */
module NullFilters {
  import opened PhpValues
  import opened Expressions

  const IsStrategy: string := "is"
  const NotStrategy: string := "not"

  /**
   * The observable state of a null filter. `mode` is the first key of the
   * last map given (`None` for PHP's null); `value` is the whole map.
   */
  datatype NullState = NullState(name: string, processable: bool, mode: Option<string>, value: Option<Entries>)

  function Fresh(name: string): (st: NullState)
    ensures st.name == name && !st.processable && st.mode.None? && st.value.None?
  {
    NullState(name, false, None, None)
  }

  /** The input after the `'null'` rewrite. */
  function Normalise(raw: Raw): (r: Raw)
    ensures raw == Str("null") ==> r == Arr([(IsStrategy, Str("null"))])
    ensures raw != Str("null") ==> r == raw
  {
    if raw == Str("null") then Arr([(IsStrategy, raw)]) else raw
  }

  predicate IsStrategyKey(m: Option<string>) {
    m == Some(IsStrategy) || m == Some(NotStrategy)
  }

  /** `setValue($value)`. */
  function SetValueSpec(st: NullState, raw: Raw): (r: NullState)
    ensures r.name == st.name
    ensures !Normalise(raw).Arr? ==> r == st
    ensures Normalise(raw).Arr? ==>
      var e := Normalise(raw).entries;
      && r.mode == FirstKey(e)
      && (r.processable <==> IsStrategyKey(FirstKey(e)))
      && r.value == (if r.processable then Some(e) else st.value)
  {
    var v := Normalise(raw);
    if !v.Arr? then st
    else
      var st1 := st.(mode := FirstKey(v.entries));
      if !IsStrategyKey(st1.mode) then st1.(processable := false)
      else st1.(processable := true, value := Some(v.entries))
  }

  /** What `process` adds: `isNull(alias.name)`, whatever the mode. */
  function Contribution(st: NullState, alias: string): (cs: seq<Condition>)
    ensures |cs| == 1 && cs[0].op == "isNull" && cs[0].field == alias + "." + st.name && cs[0].args == []
  {
    if st.mode != Some(IsStrategy) then [Condition("isNull", alias + "." + st.name, [])]
    else [Condition("isNull", alias + "." + st.name, [])]
  }

  /** The string `'null'` behaves exactly as the map `{is: 'null'}`. */
  lemma NullStringIsIsMap(st: NullState)
    ensures SetValueSpec(st, Str("null")) == SetValueSpec(st, Arr([(IsStrategy, Str("null"))]))
    ensures SetValueSpec(st, Str("null")).processable
  {
  }

  /** An empty map has a null first key and is rejected. */
  lemma EmptyMapRejected(st: NullState)
    ensures SetValueSpec(st, Arr([])) == st.(mode := None, processable := false)
  {
  }

  /** `not` does not negate: both modes produce the same predicate. */
  lemma ModeIgnoredByProcess(st: NullState, m: Option<string>, alias: string)
    ensures Contribution(st.(mode := m), alias) == Contribution(st, alias)
  {
  }

  lemma SetValueIdempotent(st: NullState, raw: Raw)
    ensures SetValueSpec(SetValueSpec(st, raw), raw) == SetValueSpec(st, raw)
  {
  }

  class NullFilter {
    const name: string
    var processable: bool
    var mode: Option<string>
    var value: Option<Entries>

    function State(): NullState
      reads this
    {
      NullState(name, processable, mode, value)
    }

    constructor (name: string)
      ensures State() == Fresh(name)
    {
      this.name := name;
      processable := false;
      mode := None;
      value := None;
    }

    constructor Restore(st: NullState)
      ensures State() == st
    {
      name := st.name;
      processable := st.processable;
      mode := st.mode;
      value := st.value;
    }

    method SetProcessable()
      modifies this
      ensures State() == old(State()).(processable := true)
    {
      processable := true;
    }

    method SetCantProcess()
      modifies this
      ensures State() == old(State()).(processable := false)
    {
      processable := false;
    }

    function IsProcessable(): (r: bool)
      reads this
      ensures r <==> State().processable
    {
      processable
    }

    method SetValue(raw: Raw)
      modifies this
      ensures State() == SetValueSpec(old(State()), raw)
    {
      var v := raw;
      if v == Str("null") {
        v := Arr([(IsStrategy, v)]);
      }
      if !v.Arr? {
        return;
      }
      mode := FirstKey(v.entries);
      if !IsStrategyKey(mode) {
        SetCantProcess();
        return;
      }
      SetProcessable();
      value := Some(v.entries);
    }

    method Process(e: QueryExpression, alias: string)
      modifies e
      ensures e.conditions == old(e.conditions) + Contribution(State(), alias)
    {
      var fieldName := alias + "." + name;
      if mode != Some(IsStrategy) {
        e.Add(Condition("isNull", fieldName, []));
        return;
      }
      e.Add(Condition("isNull", fieldName, []));
    }
  }
}
