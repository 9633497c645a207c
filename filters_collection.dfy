/**
 * `FiltersCollection`: the ordered list of filters a repository declares,
 * with the two walks the builder and the service make over it: binding
 * request parameters (`each` with the `setFilters` callback) and assembling
 * predicates (`eachProcessable` with the `process` callback).
 */
module FiltersCollections {
  import opened PhpValues
  import opened Expressions
  import opened Filters
  import opened Walks

  /** What binding one filter does: `setValue(params[name])` when its name is a key. */
  function Bind1(s: FilterState, params: Entries): (r: (FilterState, Status))
    ensures SameKind(r.0, s) && StateName(r.0) == StateName(s)
    ensures !HasKey(params, StateName(s)) ==> r == (s, Ok)
  {
    if HasKey(params, StateName(s)) then SetValueOf(s, Lookup(params, StateName(s))) else (s, Ok)
  }

  function Binder(params: Entries): FilterState -> (FilterState, Status) {
    s => Bind1(s, params)
  }

  /**
   * Binding every filter in order; a `TypeError` escapes from the walk and
   * leaves the filters after the failing one as they were.
   */
  function BindAll(states: seq<FilterState>, params: Entries): (r: (seq<FilterState>, Status))
    ensures |r.0| == |states|
  {
    MapUntilFail(states, Binder(params))
  }

  function Contributor(alias: string): FilterState -> Result<seq<Condition>> {
    s => ContributionOf(s, alias)
  }

  /** The processable states, in declaration order. */
  function ProcessableOnly(states: seq<FilterState>): (r: seq<FilterState>)
    ensures |r| <= |states|
  {
    Keep(states, Processable)
  }

  /** What `eachProcessable(process)` adds to the expression, and how it ends. */
  function Assemble(states: seq<FilterState>, alias: string): (seq<Condition>, Status) {
    ConcatUntilFail(ProcessableOnly(states), Contributor(alias))
  }

  /** Binding keeps every filter's kind and name, at its position. */
  lemma BindAllKeepsNames(states: seq<FilterState>, params: Entries)
    ensures forall j :: 0 <= j < |states| ==>
      SameKind(BindAll(states, params).0[j], states[j]) && StateName(BindAll(states, params).0[j]) == StateName(states[j])
  {
    MapEach(states, Binder(params));
  }

  /** A filter whose name is not a parameter key is left as it was. */
  lemma BindSkipsUnnamed(states: seq<FilterState>, params: Entries, j: int)
    requires 0 <= j < |states| && !HasKey(params, StateName(states[j]))
    ensures BindAll(states, params).0[j] == states[j]
  {
    MapKeepsFixed(states, Binder(params), j);
  }

  /** When no filter fails, every filter has been bound independently of the others. */
  lemma BindAllPointwise(states: seq<FilterState>, params: Entries)
    requires BindAll(states, params).1 == Ok
    ensures forall j :: 0 <= j < |states| ==> Bind1(states[j], params) == (BindAll(states, params).0[j], Ok)
  {
    MapPointwise(states, Binder(params));
  }

  /** The only error binding raises is a type error. */
  lemma BindAllErrors(states: seq<FilterState>, params: Entries)
    ensures BindAll(states, params).1 in {Ok, Fail(TypeError)}
  {
    if BindAll(states, params).1.Fail? {
      MapFailure(states, Binder(params));
      var j :| 0 <= j < |states| && Bind1(states[j], params).1 == BindAll(states, params).1;
      if HasKey(params, StateName(states[j])) {
        SetValueErrors(states[j], Lookup(params, StateName(states[j])));
      }
    }
  }

  /** A successful binding keeps every filter's invariant. */
  lemma BindAllKeepsOk(states: seq<FilterState>, params: Entries)
    requires forall j :: 0 <= j < |states| ==> StateOk(states[j])
    requires BindAll(states, params).1 == Ok
    ensures forall j :: 0 <= j < |states| ==> StateOk(BindAll(states, params).0[j])
  {
    BindAllPointwise(states, params);
    forall j | 0 <= j < |states|
      ensures StateOk(BindAll(states, params).0[j])
    {
      if HasKey(params, StateName(states[j])) {
        SetValueKeepsOk(states[j], Lookup(params, StateName(states[j])));
      }
    }
  }

  /** Filtering keeps exactly the processable states, in declaration order. */
  lemma ProcessableOnlyExact(states: seq<FilterState>)
    ensures forall s :: s in ProcessableOnly(states) <==> s in states && Processable(s)
    ensures IsSubsequence(ProcessableOnly(states), states)
  {
    forall s
      ensures s in ProcessableOnly(states) <==> s in states && Processable(s)
    {
      KeepExact(states, Processable, s);
    }
    KeepOrdered(states, Processable);
  }

  /** The predicates come out grouped filter by filter, in declaration order. */
  lemma AssembleAppend(a: seq<FilterState>, b: seq<FilterState>, alias: string)
    ensures Assemble(a + b, alias) ==
      if Assemble(a, alias).1.Fail? then Assemble(a, alias)
      else (Assemble(a, alias).0 + Assemble(b, alias).0, Assemble(b, alias).1)
  {
    KeepAppend(a, b, Processable);
    ConcatAppend(ProcessableOnly(a), ProcessableOnly(b), Contributor(alias));
  }

  /** One filter contributes its own conditions when processable, nothing otherwise. */
  lemma AssembleOne(s: FilterState, alias: string)
    ensures Assemble([s], alias) ==
      if !Processable(s) then ([], Ok)
      else if ContributionOf(s, alias).Failure? then ([], Fail(ContributionOf(s, alias).error))
      else (ContributionOf(s, alias).value, Ok)
  {
    assert [s][1..] == [];
    if Processable(s) {
      assert ProcessableOnly([s]) == [s];
      ConcatOne(s, Contributor(alias));
    } else {
      assert ProcessableOnly([s]) == [];
    }
  }

  /**
   * The `each` walk from the `i`-th filter on, as the loop runs it: the
   * states of `states[i..]` afterwards, and how the walk ends.
   */
  function BindFrom(states: seq<FilterState>, params: Entries, i: nat): (r: (seq<FilterState>, Status))
    requires i <= |states|
    ensures |r.0| == |states| - i
    decreases |states| - i
  {
    if i == |states| then ([], Ok)
    else
      var (t, status) := Bind1(states[i], params);
      if status.Fail? then ([t] + states[i + 1..], status)
      else var (rest, status2) := BindFrom(states, params, i + 1); ([t] + rest, status2)
  }

  /** The loop's walk is the mapping over the whole list. */
  lemma {:induction false} BindFromIsBindAll(states: seq<FilterState>, params: Entries, i: nat)
    requires i <= |states|
    ensures BindFrom(states, params, i) == BindAll(states[i..], params)
    decreases |states| - i
  {
    if i < |states| {
      var xs := states[i..];
      assert xs[0] == states[i] && xs[1..] == states[i + 1..];
      BindFromIsBindAll(states, params, i + 1);
    }
  }

  /** One pass of the `each` loop, relative to what the walk has bound so far. */
  lemma BindFromStep(states: seq<FilterState>, params: Entries, i: nat, done: seq<FilterState>)
    requires i < |states| && |done| == i
    requires BindFrom(states, params, 0) == (done + BindFrom(states, params, i).0, BindFrom(states, params, i).1)
    ensures var (t, status) := Bind1(states[i], params);
      && (status.Fail? ==> BindFrom(states, params, 0) == (done + [t] + states[i + 1..], status))
      && (status.Ok? ==>
          BindFrom(states, params, 0) == ((done + [t]) + BindFrom(states, params, i + 1).0, BindFrom(states, params, i + 1).1))
  {
    var (t, status) := Bind1(states[i], params);
    if status.Fail? {
      assert done + ([t] + states[i + 1..]) == done + [t] + states[i + 1..];
    } else {
      assert done + ([t] + BindFrom(states, params, i + 1).0) == (done + [t]) + BindFrom(states, params, i + 1).0;
    }
  }

  /**
   * The `eachProcessable` walk from the `i`-th filter on, as the loop runs
   * it: what it adds and how it ends.
   */
  function AssembleFrom(states: seq<FilterState>, alias: string, i: nat): (seq<Condition>, Status)
    requires i <= |states|
    decreases |states| - i
  {
    if i == |states| then ([], Ok)
    else if !Processable(states[i]) then AssembleFrom(states, alias, i + 1)
    else match ContributionOf(states[i], alias)
      case Failure(err) => ([], Fail(err))
      case Success(cs) => var (rest, status) := AssembleFrom(states, alias, i + 1); (cs + rest, status)
  }

  /** The loop's walk agrees with the declarative reading: filter, then concatenate. */
  lemma {:induction false} AssembleFromIsAssemble(states: seq<FilterState>, alias: string, i: nat)
    requires i <= |states|
    ensures AssembleFrom(states, alias, i) == Assemble(states[i..], alias)
    decreases |states| - i
  {
    if i < |states| {
      var xs := states[i..];
      assert xs == [states[i]] + states[i + 1..];
      AssembleFromIsAssemble(states, alias, i + 1);
      AssembleAppend([states[i]], states[i + 1..], alias);
      AssembleOne(states[i], alias);
      if !Processable(states[i]) {
        assert [] + Assemble(states[i + 1..], alias).0 == Assemble(states[i + 1..], alias).0;
      }
    }
  }

  /** One pass of the `eachProcessable` loop, relative to what has been added so far. */
  lemma AssembleFromStep(states: seq<FilterState>, alias: string, i: nat, acc: seq<Condition>)
    requires i < |states|
    requires AssembleFrom(states, alias, 0) == (acc + AssembleFrom(states, alias, i).0, AssembleFrom(states, alias, i).1)
    ensures !Processable(states[i]) ==>
      AssembleFrom(states, alias, 0) == (acc + AssembleFrom(states, alias, i + 1).0, AssembleFrom(states, alias, i + 1).1)
    ensures Processable(states[i]) && ContributionOf(states[i], alias).Failure? ==>
      AssembleFrom(states, alias, 0) == (acc, Fail(ContributionOf(states[i], alias).error))
    ensures Processable(states[i]) && ContributionOf(states[i], alias).Success? ==>
      AssembleFrom(states, alias, 0) ==
        ((acc + ContributionOf(states[i], alias).value) + AssembleFrom(states, alias, i + 1).0, AssembleFrom(states, alias, i + 1).1)
  {
    if Processable(states[i]) {
      match ContributionOf(states[i], alias)
      case Failure(_) => assert acc + [] == acc;
      case Success(cs) =>
        assert acc + (cs + AssembleFrom(states, alias, i + 1).0) == acc + cs + AssembleFrom(states, alias, i + 1).0;
    }
  }

  /** Filters that keep their invariants are processed without error. */
  lemma AssembleOk(states: seq<FilterState>, alias: string)
    requires forall j :: 0 <= j < |states| ==> StateOk(states[j])
    ensures Assemble(states, alias).1 == Ok
  {
    var p := ProcessableOnly(states);
    ProcessableOnlyExact(states);
    forall j | 0 <= j < |p|
      ensures ContributionOf(p[j], alias).Success?
    {
      assert p[j] in p;
      var k :| 0 <= k < |states| && states[k] == p[j];
      OkContributes(p[j], alias);
    }
    ConcatOk(p, Contributor(alias));
  }

  class FiltersCollection {
    var filters: seq<Filter>

    ghost function Objects(): set<object>
      reads this
    {
      set i | 0 <= i < |filters| :: Obj(filters[i])
    }

    /** No filter object appears twice. */
    ghost predicate Distinct()
      reads this
    {
      forall i, j :: 0 <= i < j < |filters| ==> Obj(filters[i]) != Obj(filters[j])
    }

    /** The states of the filters, in declaration order. */
    function States(): (r: seq<FilterState>)
      reads this, Objects()
      ensures |r| == |filters|
    {
      seq(|filters|, i reads this, Objects() requires 0 <= i < |filters| => StateOf(filters[i]))
    }

    /** The filters are stored in the order given. */
    constructor (filters: seq<Filter>)
      ensures this.filters == filters
    {
      this.filters := filters;
    }

    /** `addFilter`: appends, without checking the name. */
    method AddFilter(f: Filter)
      modifies this
      ensures filters == old(filters) + [f]
      ensures States() == old(States()) + [StateOf(f)]
    {
      filters := filters + [f];
    }

    /** `getFilterNames()`. */
    function GetFilterNames(): (r: seq<string>)
      reads this
      ensures |r| == |filters|
      ensures forall i :: 0 <= i < |filters| ==> r[i] == Name(filters[i])
    {
      seq(|filters|, i reads this requires 0 <= i < |filters| => Name(filters[i]))
    }

    function Count(): (r: nat)
      reads this
      ensures r == |filters|
    {
      |filters|
    }

    function IsEmpty(): (r: bool)
      reads this
      ensures r <==> Count() == 0
    {
      filters == []
    }

    /** The `setFilters` callback on the `i`-th filter; the others keep their state. */
    method BindAt(i: nat, params: Entries) returns (status: Status)
      requires Distinct() && i < |filters|
      modifies Obj(filters[i])
      ensures filters == old(filters)
      ensures States() == old(States())[i := Bind1(old(States())[i], params).0]
      ensures status == Bind1(old(States())[i], params).1
    {
      ghost var S := States();
      assert this !in Objects();
      status := BindOne(filters[i], params);
      forall j | 0 <= j < |filters| && j != i
        ensures StateOf(filters[j]) == S[j]
      {
        assert Obj(filters[j]) != Obj(filters[i]);
      }
    }

    /**
     * `each` with the `setFilters` callback: every filter whose name is a
     * key of `params` gets `setValue(params[name])`, in declaration order.
     */
    method BindEach(params: Entries) returns (status: Status)
      requires Distinct()
      modifies Objects()
      ensures filters == old(filters)
      ensures (States(), status) == BindFrom(old(States()), params, 0)
    {
      ghost var S := States();
      ghost var done: seq<FilterState> := [];
      assert this !in Objects();
      assert S == done + S[0..];
      AppendEmpty(BindFrom(S, params, 0).0);
      var i := 0;
      while i < |filters|
        invariant 0 <= i <= |filters| && filters == old(filters) && |S| == |filters| && |done| == i
        invariant States() == done + S[i..]
        invariant BindFrom(S, params, 0) == (done + BindFrom(S, params, i).0, BindFrom(S, params, i).1)
      {
        ghost var t := Bind1(S[i], params).0;
        SpliceNext(done, S, t);
        BindFromStep(S, params, i, done);
        var st := BindAt(i, params);
        if st.Fail? {
          status := st;
          return;
        }
        done := done + [t];
        i := i + 1;
      }
      AppendEmpty(done);
      status := Ok;
    }

    /** The `process` callback on the `i`-th filter, when it is processable; no filter changes. */
    method ProcessAt(i: nat, e: QueryExpression, alias: string) returns (status: Status)
      requires i < |filters| && e !in Objects()
      modifies e
      ensures States() == old(States())
      ensures var s := old(States())[i];
        if !Processable(s) then status == Ok && e.conditions == old(e.conditions)
        else var r := ContributionOf(s, alias);
          if r.Success? then status == Ok && e.conditions == old(e.conditions) + r.value
          else status == Fail(r.error) && e.conditions == old(e.conditions)
    {
      var f := filters[i];
      assert StateOf(f) == States()[i];
      if IsProcessable(f) {
        status := Process(f, e, alias);
      } else {
        status := Ok;
      }
    }

    /**
     * `eachProcessable` with the `process` callback: the processable
     * filters add their conditions, in declaration order.
     */
    method EachProcessable(e: QueryExpression, alias: string) returns (status: Status)
      modifies e
      ensures (e.conditions, status) == (old(e.conditions) + AssembleFrom(old(States()), alias, 0).0, AssembleFrom(old(States()), alias, 0).1)
    {
      ghost var S := States();
      ghost var acc: seq<Condition> := [];
      assert e !in Objects();
      AppendEmpty(AssembleFrom(S, alias, 0).0);
      var i := 0;
      while i < |filters|
        invariant 0 <= i <= |filters| && S == States() && e !in Objects() && |S| == |filters|
        invariant e.conditions == old(e.conditions) + acc
        invariant AssembleFrom(S, alias, 0) == (acc + AssembleFrom(S, alias, i).0, AssembleFrom(S, alias, i).1)
      {
        AssembleFromStep(S, alias, i, acc);
        var st := ProcessAt(i, e, alias);
        if st.Fail? {
          status := st;
          return;
        }
        if Processable(S[i]) {
          acc := acc + ContributionOf(S[i], alias).value;
        }
        i := i + 1;
      }
      AppendEmpty(acc);
      status := Ok;
    }
  }

  /** The `setFilters` callback on one filter. */
  method BindOne(f: Filter, params: Entries) returns (status: Status)
    modifies Obj(f)
    ensures (StateOf(f), status) == Bind1(old(StateOf(f)), params)
  {
    if HasKey(params, Name(f)) {
      status := SetValue(f, Lookup(params, Name(f)));
    } else {
      status := Ok;
    }
  }

  /** A collection of new filter objects holding the given states, as read back from the cache. */
  method RestoreCollection(states: seq<FilterState>) returns (c: FiltersCollection)
    ensures fresh(c) && c.Distinct() && c.States() == states
    ensures forall i :: 0 <= i < |c.filters| ==> fresh(Obj(c.filters[i]))
  {
    var fs: seq<Filter> := [];
    var i := 0;
    while i < |states|
      invariant 0 <= i <= |states| && |fs| == i
      invariant forall j :: 0 <= j < i ==> fresh(Obj(fs[j])) && StateOf(fs[j]) == states[j]
      invariant forall j, k :: 0 <= j < k < i ==> Obj(fs[j]) != Obj(fs[k])
    {
      var f := Restore(states[i]);
      fs := fs + [f];
      i := i + 1;
    }
    c := new FiltersCollection(fs);
  }
}
