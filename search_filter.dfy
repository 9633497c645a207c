/**
 * `SearchFilter`: a text search whose strategy, fixed at construction,
 * wraps the value in `%` wildcards for `partial`, `start` and `end`.
 */
module SearchFilters {
  import opened PhpValues
  import opened Expressions

  const PartialStrategy: string := "partial"
  const StartStrategy: string := "start"
  const EndStrategy: string := "end"
  const ExactStrategy: string := "exact"

  predicate IsWrappingStrategy(mode: string) {
    mode == PartialStrategy || mode == StartStrategy || mode == EndStrategy
  }

  predicate IsKnownStrategy(mode: string) {
    IsWrappingStrategy(mode) || mode == ExactStrategy
  }

  /** The observable state of a search filter; `value` starts as PHP's null. */
  datatype SearchState = SearchState(name: string, mode: string, processable: bool, value: Raw)

  function Fresh(name: string, mode: string): (st: SearchState)
    ensures st.name == name && st.mode == mode && !st.processable && st.value == Null
  {
    SearchState(name, mode, false, Null)
  }

  /** The pattern a wrapping strategy makes of `text`. */
  function Wrap(mode: string, text: string): (r: string)
    requires IsWrappingStrategy(mode)
    ensures |r| == |text| + (if mode == PartialStrategy then 2 else 1)
    ensures mode != StartStrategy ==> r[0] == '%'
    ensures mode != EndStrategy ==> r[|r| - 1] == '%'
  {
    if mode == PartialStrategy then "%" + text + "%"
    else if mode == StartStrategy then text + "%"
    else "%" + text
  }

  /** `pattern` starts with the `%` wildcard. */
  predicate LeadingWildcard(pattern: string) {
    |pattern| >= 1 && pattern[0] == '%'
  }

  /** `pattern` ends with the `%` wildcard. */
  predicate TrailingWildcard(pattern: string) {
    |pattern| >= 1 && pattern[|pattern| - 1] == '%'
  }

  /**
   * Removes the wildcards a strategy adds, an independent reading of a
   * pattern: `None` when a wildcard the strategy adds is missing.
   */
  function Unwrap(mode: string, pattern: string): Option<string>
    requires IsWrappingStrategy(mode)
  {
    if mode == PartialStrategy then
      if |pattern| >= 2 && LeadingWildcard(pattern) && TrailingWildcard(pattern) then Some(pattern[1..|pattern| - 1]) else None
    else if mode == StartStrategy then
      if TrailingWildcard(pattern) then Some(pattern[..|pattern| - 1]) else None
    else
      if LeadingWildcard(pattern) then Some(pattern[1..]) else None
  }

  /** `setValue($value)`. */
  function SetValueSpec(st: SearchState, raw: Raw): (r: SearchState)
    ensures r.name == st.name && r.mode == st.mode
    ensures r.processable <==> IsKnownStrategy(st.mode)
    ensures IsWrappingStrategy(st.mode) ==> r.value.Str? && Unwrap(st.mode, r.value.s) == Some(PhpString(raw))
    ensures !IsWrappingStrategy(st.mode) ==> r.value == raw
  {
    if st.mode == PartialStrategy then st.(processable := true, value := Str("%" + PhpString(raw) + "%"))
    else if st.mode == StartStrategy then st.(processable := true, value := Str(PhpString(raw) + "%"))
    else if st.mode == EndStrategy then st.(processable := true, value := Str("%" + PhpString(raw)))
    else if st.mode == ExactStrategy then st.(processable := true, value := raw)
    else st.(processable := false, value := raw)
  }

  /** What `process` adds: `like` for every strategy but `exact`, which adds `eq`. */
  function Contribution(st: SearchState, alias: string): (cs: seq<Condition>)
    ensures |cs| == 1 && cs[0].field == alias + "." + st.name && cs[0].args == [RawArg(st.value)]
    ensures cs[0].op == (if st.mode == ExactStrategy then "eq" else "like")
  {
    var fieldName := alias + "." + st.name;
    if st.mode != ExactStrategy then [Condition("like", fieldName, [RawArg(st.value)])]
    else [Condition("eq", fieldName, [RawArg(st.value)])]
  }

  /** Stripping the added wildcards gives back the text, for every wrapping strategy. */
  lemma WrapRoundTrip(mode: string, text: string)
    requires IsWrappingStrategy(mode)
    ensures Unwrap(mode, Wrap(mode, text)) == Some(text)
  {
  }

  /** Conversely, every pattern a strategy reads back is the wrapping of what it reads. */
  lemma UnwrapRoundTrip(mode: string, pattern: string)
    requires IsWrappingStrategy(mode) && Unwrap(mode, pattern).Some?
    ensures Wrap(mode, Unwrap(mode, pattern).value) == pattern
  {
    var n := |pattern|;
    if mode == PartialStrategy {
      assert pattern == [pattern[0]] + pattern[1..n - 1] + [pattern[n - 1]];
    } else if mode == StartStrategy {
      assert pattern == pattern[..n - 1] + [pattern[n - 1]];
    } else {
      assert pattern == [pattern[0]] + pattern[1..];
    }
  }

  /** A pattern without the strategy's wildcard is not the wrapping of any text. */
  lemma UnwrapRejects(mode: string, text: string)
    requires IsWrappingStrategy(mode)
    ensures Unwrap(mode, "x" + text + "x").None?
  {
    var p := "x" + text + "x";
    assert p[0] == 'x' && p[|p| - 1] == 'x';
  }

  /** The stored pattern is exactly the wrapped string form of the input. */
  lemma SetValueWraps(st: SearchState, raw: Raw)
    requires IsWrappingStrategy(st.mode)
    ensures SetValueSpec(st, raw).value == Str(Wrap(st.mode, PhpString(raw)))
  {
  }

  /** The result does not depend on the earlier value or flag. */
  lemma SetValueForgetsPast(st: SearchState, raw: Raw, p: bool, v: Raw)
    ensures SetValueSpec(st.(processable := p, value := v), raw) == SetValueSpec(st, raw)
  {
  }

  class SearchFilter {
    const name: string
    const mode: string
    var processable: bool
    var value: Raw

    function State(): SearchState
      reads this
    {
      SearchState(name, mode, processable, value)
    }

    /** `new SearchFilter($name)` uses the `exact` strategy. */
    constructor (name: string)
      ensures State() == Fresh(name, ExactStrategy)
    {
      this.name := name;
      mode := ExactStrategy;
      processable := false;
      value := Null;
    }

    constructor WithMode(name: string, mode: string)
      ensures State() == Fresh(name, mode)
    {
      this.name := name;
      this.mode := mode;
      processable := false;
      value := Null;
    }

    constructor Restore(st: SearchState)
      ensures State() == st
    {
      name := st.name;
      mode := st.mode;
      processable := st.processable;
      value := st.value;
    }

    method SetProcessable()
      modifies this
      ensures State() == old(State()).(processable := true)
    {
      processable := true;
    }

    method SetCantProcess()
      modifies this
      ensures State() == old(State()).(processable := false)
    {
      processable := false;
    }

    function IsProcessable(): (r: bool)
      reads this
      ensures r <==> State().processable
    {
      processable
    }

    method SetValue(raw: Raw)
      modifies this
      ensures State() == SetValueSpec(old(State()), raw)
    {
      SetProcessable();
      var v := raw;
      if mode == PartialStrategy {
        v := Str("%" + PhpString(v) + "%");
      } else if mode == StartStrategy {
        v := Str(PhpString(v) + "%");
      } else if mode == EndStrategy {
        v := Str("%" + PhpString(v));
      } else if mode == ExactStrategy {
      } else {
        SetCantProcess();
      }
      value := v;
    }

    method Process(e: QueryExpression, alias: string)
      modifies e
      ensures e.conditions == old(e.conditions) + Contribution(State(), alias)
    {
      var fieldName := alias + "." + name;
      if mode != ExactStrategy {
        e.Add(Condition("like", fieldName, [RawArg(value)]));
        return;
      }
      e.Add(Condition("eq", fieldName, [RawArg(value)]));
    }
  }
}
