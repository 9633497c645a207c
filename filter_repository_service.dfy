/**
 * `FilterRepositoryService`: applies an `ExpressParams` to a repository
 * query — the selected fields, the two orderings, the nested relations and
 * one `where` holding the predicates of every processable filter.
 */
module FilterRepositoryServices {
  import opened PhpValues
  import opened Expressions
  import opened Filters
  import opened FiltersCollections
  import opened ExpressParamsTypes

  /** The calls made before the filters: `select` only when fields are set, then the orderings and `contain`. */
  function ShapingOps(st: ParamsState): (ops: seq<QueryOp>)
    ensures |ops| == (if st.fields == [] then 3 else 4)
    ensures ops[|ops| - 3..] == [Order(ByDirection(st.orderAsc)), Order(ByNames(st.orderDesc)), Contain(st.nested)]
    ensures forall i :: 0 <= i < |ops| ==> (ops[i].Select? <==> i == 0 && st.fields != [])
  {
    (if st.fields == [] then [] else [Select(st.fields)])
      + [Order(ByDirection(st.orderAsc)), Order(ByNames(st.orderDesc)), Contain(st.nested)]
  }

  /** The filter part: one `where` with the assembled predicates, none when there are none. */
  function FilterOps(states: seq<FilterState>, alias: string): (seq<QueryOp>, Status) {
    var (cs, status) := Assemble(states, alias);
    if status.Fail? then ([], status)
    else if cs == [] then ([], Ok)
    else ([Where(cs)], Ok)
  }

  /**
   * `__invoke($query, $expressParams)` as written: the calls made on the
   * query and how it ends; `getFilters()` raises when no filters are attached.
   */
  function InvokeSpec(st: ParamsState, filters: Option<seq<FilterState>>): (seq<QueryOp>, Status) {
    match filters
    case None => (ShapingOps(st), Fail(TypeError))
    case Some(states) => var (w, status) := FilterOps(states, st.alias); (ShapingOps(st) + w, status)
  }

  /** The intended `__invoke`: with no filters attached there is simply no `where`. */
  function InvokeCorrectedSpec(st: ParamsState, filters: Option<seq<FilterState>>): (seq<QueryOp>, Status) {
    match filters
    case None => (ShapingOps(st), Ok)
    case Some(states) => InvokeSpec(st, filters)
  }

  /** `expressionIsEmpty`: `!(bool)$expression->count()`. */
  function ExpressionIsEmpty(e: QueryExpression): (r: bool)
    reads e
    ensures r <==> |e.conditions| == 0
  {
    e.Count() == 0
  }

  /**
   * The shaping calls always come first; at most one `where` follows, only
   * on success, holding exactly the non-empty list of predicates the
   * processable filters contribute in declaration order.
   */
  lemma InvokeShape(st: ParamsState, states: seq<FilterState>)
    ensures var (ops, status) := InvokeSpec(st, Some(states));
      var (cs, s) := Assemble(states, st.alias);
      status == s &&
      ops == ShapingOps(st) + (if s.Ok? && cs != [] then [Where(cs)] else [])
  {
  }

  /** Filters that keep their invariants never make the service fail. */
  lemma InvokeOk(st: ParamsState, states: seq<FilterState>)
    requires forall j :: 0 <= j < |states| ==> StateOk(states[j])
    ensures InvokeSpec(st, Some(states)).1 == Ok
  {
    AssembleOk(states, st.alias);
  }

  /** As written, a descriptor without filters makes the service raise, after the shaping calls. */
  lemma InvokeWithoutFiltersFails(st: ParamsState)
    ensures InvokeSpec(st, None) == (ShapingOps(st), Fail(TypeError))
  {
  }

  /** Corrected, a descriptor without filters is applied like one whose filters add nothing. */
  lemma InvokeCorrectedWithoutFilters(st: ParamsState)
    ensures InvokeCorrectedSpec(st, None) == InvokeSpec(st, Some([]))
    ensures InvokeCorrectedSpec(st, None).1 == Ok
  {
    assert ProcessableOnly([]) == [];
    assert ShapingOps(st) + [] == ShapingOps(st);
  }

  /** The correction changes nothing when filters are attached. */
  lemma InvokeCorrectedAgrees(st: ParamsState, filters: Option<seq<FilterState>>)
    ensures filters.Some? ==> InvokeCorrectedSpec(st, filters) == InvokeSpec(st, filters)
    ensures InvokeCorrectedSpec(st, filters).0 == InvokeSpec(st, filters).0
  {
  }

  /** The shaping calls, on the query. */
  method Shape(q: Query, p: ExpressParams)
    modifies q
    ensures q.log == old(q.log) + ShapingOps(p.State())
  {
    if p.HasFields() {
      q.Select(p.fields);
    }
    q.Order(ByDirection(p.orderAsc));
    q.Order(ByNames(p.orderDesc));
    q.Contain(p.nested);
  }

  /** `FilterOps` in terms of a known outcome of the walk. */
  lemma FilterOpsOf(states: seq<FilterState>, alias: string, cs: seq<Condition>, s: Status)
    requires Assemble(states, alias) == (cs, s)
    ensures FilterOps(states, alias) == if s.Fail? then ([], s) else if cs == [] then ([], Ok) else ([Where(cs)], Ok)
  {
  }

  /** `eachProcessable(process)` on a new expression, then `where` unless it stayed empty. */
  method ApplyFilters(q: Query, c: FiltersCollection, alias: string) returns (status: Status)
    modifies q
    ensures var (w, s) := FilterOps(old(c.States()), alias); q.log == old(q.log) + w && status == s
  {
    ghost var S := c.States();
    var e := q.NewExpr();
    assert c.States() == S;
    ghost var cs := AssembleFrom(S, alias, 0).0;
    status := c.EachProcessable(e, alias);
    AssembleFromIsAssemble(S, alias, 0);
    assert S[0..] == S;
    FilterOpsOf(S, alias, cs, status);
    if status.Fail? {
      assert old(q.log) + [] == old(q.log);
      return;
    }
    assert e.conditions == cs;
    if ExpressionIsEmpty(e) {
      assert old(q.log) + [] == old(q.log);
      return;
    }
    q.Where(e);
  }

  method Invoke(q: Query, p: ExpressParams) returns (status: Status)
    modifies q
    ensures var (ops, s) := InvokeSpec(old(p.State()), old(p.FilterStates()));
      q.log == old(q.log) + ops && status == s
  {
    Shape(q, p);
    var r := p.GetFilters();
    if r.Failure? {
      status := Fail(r.error);
      return;
    }
    assert p.State() == old(p.State()) && r.value.States() == old(p.FilterStates()).value;
    status := ApplyFilters(q, r.value, p.alias);
    ghost var w := FilterOps(r.value.States(), p.alias).0;
    assert old(q.log) + ShapingOps(p.State()) + w == old(q.log) + (ShapingOps(p.State()) + w);
  }

  method InvokeCorrected(q: Query, p: ExpressParams) returns (status: Status)
    modifies q
    ensures var (ops, s) := InvokeCorrectedSpec(old(p.State()), old(p.FilterStates()));
      q.log == old(q.log) + ops && status == s
  {
    Shape(q, p);
    var r := p.GetFilters();
    if r.Failure? {
      status := Ok;
      return;
    }
    assert p.State() == old(p.State()) && r.value.States() == old(p.FilterStates()).value;
    status := ApplyFilters(q, r.value, p.alias);
    ghost var w := FilterOps(r.value.States(), p.alias).0;
    assert old(q.log) + ShapingOps(p.State()) + w == old(q.log) + (ShapingOps(p.State()) + w);
  }

  /** The corrected service run by a caller that holds a filter collection the query does not share: the collection's states stay as they are. */
  method ApplyParams(query: Query, p: ExpressParams, filterable: FiltersCollection) returns (status: Status)
    requires query !in filterable.Objects()
    modifies query
    ensures filterable.States() == old(filterable.States())
    ensures var (ops, s) := InvokeCorrectedSpec(old(p.State()), old(p.FilterStates()));
      query.log == old(query.log) + ops && status == s
  {
    status := InvokeCorrected(query, p);
  }
}
