/**
 * `BooleanFilter`: accepts exactly four spellings of true and four of
 * false, and filters on the bare (unaliased) field name.
 */
module BooleanFilters {
  import opened PhpValues
  import opened Expressions

  /** The observable state of a boolean filter. `value` is `None` while PHP's is null. */
  datatype BooleanState = BooleanState(name: string, processable: bool, value: Option<bool>)

  /** A filter just built: not processable, no value. */
  function Fresh(name: string): (st: BooleanState)
    ensures st.name == name && !st.processable && st.value.None?
  {
    BooleanState(name, false, None)
  }

  /** `1`, `'1'`, `'true'`, `true`, compared with `===`. */
  predicate IsTrueLiteral(raw: Raw) {
    raw == Int(1) || raw == Str("1") || raw == Str("true") || raw == Bool(true)
  }

  /** `0`, `'0'`, `'false'`, `false`, compared with `===`. */
  predicate IsFalseLiteral(raw: Raw) {
    raw == Int(0) || raw == Str("0") || raw == Str("false") || raw == Bool(false)
  }

  /** `setValue($value)` on a filter in state `st`. */
  function SetValueSpec(st: BooleanState, raw: Raw): (r: BooleanState)
    ensures r.name == st.name
    ensures IsTrueLiteral(raw) ==> r.processable && r.value == Some(true)
    ensures IsFalseLiteral(raw) ==> r.processable && r.value == Some(false)
    ensures !IsTrueLiteral(raw) && !IsFalseLiteral(raw) ==> r == st
  {
    if IsTrueLiteral(raw) then st.(value := Some(true), processable := true)
    else if IsFalseLiteral(raw) then st.(value := Some(false), processable := true)
    else st
  }

  /** What `process` adds: `eq(name, value)` on the bare name, or nothing when not processable. */
  function Contribution(st: BooleanState, alias: string): (cs: seq<Condition>)
    ensures |cs| == (if st.processable then 1 else 0)
    ensures forall c :: c in cs ==> c.op == "eq" && c.field == st.name
    ensures st.processable && st.value.Some? ==> cs[0].args == [BoolArg(st.value.value)]
  {
    if st.processable then
      [Condition("eq", st.name, [match st.value case Some(b) => BoolArg(b) case None => NullArg])]
    else []
  }

  /** The two accepted sets are disjoint, so no input is read as both. */
  lemma LiteralsDisjoint(raw: Raw)
    ensures !(IsTrueLiteral(raw) && IsFalseLiteral(raw))
  {
  }

  /** Case variants and other words are not booleans: the state is untouched. */
  lemma NearMissesRejected(st: BooleanState)
    ensures SetValueSpec(st, Str("TRUE")) == st
    ensures SetValueSpec(st, Str("yes")) == st
    ensures SetValueSpec(st, Str("")) == st
    ensures SetValueSpec(st, Int(2)) == st
    ensures SetValueSpec(st, Null) == st
  {
  }

  /** The value read back is the boolean whose `'true'`/`'false'` spelling was given. */
  lemma SpellingRoundTrip(st: BooleanState, b: bool)
    ensures SetValueSpec(st, Str(if b then "true" else "false")).value == Some(b)
    ensures SetValueSpec(st, Bool(b)).value == Some(b)
    ensures SetValueSpec(st, Int(if b then 1 else 0)).value == Some(b)
  {
  }

  /**
   * Every accepted spelling, given to a new filter, makes `process` add
   * `eq(name, b)` for the boolean it spells.
   */
  lemma SpellingProcesses(name: string, alias: string, raw: Raw, b: bool)
    requires if b then IsTrueLiteral(raw) else IsFalseLiteral(raw)
    ensures Contribution(SetValueSpec(Fresh(name), raw), alias) == [Condition("eq", name, [BoolArg(b)])]
  {
    LiteralsDisjoint(raw);
  }

  /** Setting the same input twice is the same as setting it once. */
  lemma SetValueIdempotent(st: BooleanState, raw: Raw)
    ensures SetValueSpec(SetValueSpec(st, raw), raw) == SetValueSpec(st, raw)
  {
  }

  /** Once processable, a filter stays processable whatever it is given. */
  lemma ProcessableSticks(st: BooleanState, raw: Raw)
    requires st.processable
    ensures SetValueSpec(st, raw).processable
  {
  }

  class BooleanFilter {
    const name: string
    var processable: bool
    var value: Option<bool>

    function State(): BooleanState
      reads this
    {
      BooleanState(name, processable, value)
    }

    constructor (name: string)
      ensures State() == Fresh(name)
    {
      this.name := name;
      processable := false;
      value := None;
    }

    /** A filter holding a state read back from the cache. */
    constructor Restore(st: BooleanState)
      ensures State() == st
    {
      name := st.name;
      processable := st.processable;
      value := st.value;
    }

    method SetProcessable()
      modifies this
      ensures State() == old(State()).(processable := true)
    {
      processable := true;
    }

    method SetCantProcess()
      modifies this
      ensures State() == old(State()).(processable := false)
    {
      processable := false;
    }

    function IsProcessable(): (r: bool)
      reads this
      ensures r <==> State().processable
    {
      processable
    }

    method SetValue(raw: Raw)
      modifies this
      ensures State() == SetValueSpec(old(State()), raw)
    {
      if IsTrueLiteral(raw) {
        value := Some(true);
        SetProcessable();
        return;
      }
      if IsFalseLiteral(raw) {
        value := Some(false);
        SetProcessable();
      }
    }

    method Process(e: QueryExpression, alias: string)
      modifies e
      ensures e.conditions == old(e.conditions) + Contribution(State(), alias)
    {
      if IsProcessable() {
        e.Add(Condition("eq", name, [match value case Some(b) => BoolArg(b) case None => NullArg]));
      }
    }
  }
}
