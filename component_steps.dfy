/**
 * The request-reading steps both components define identically
 * (`setSelectableFields`, `setSizeOfPage`, `setSortOfItems`, `setPage`,
 * `setNestedData`, `setFilters`): each reads one query parameter into an
 * `ExpressParams`, skipping values of the wrong type.
 */
module ComponentSteps {
  import opened PhpStrings
  import opened PhpValues
  import opened Walks
  import opened FunctionalClosure
  import opened ExpressParamsTypes
  import opened FiltersCollections
  import Filters

  /** The parameter names the component reserves for itself (`reserved` in its configuration). */
  datatype Reserved = Reserved(size: string, page: string, props: string, nested: string, sort: string) {
    /** `getReserved()`: the reserved names, in configuration order. */
    function Names(): (r: seq<string>)
      ensures forall n :: n in r <==> n == size || n == page || n == props || n == nested || n == sort
    {
      [size, page, props, nested, sort]
    }
  }

  /** The reserved names both components are configured with by default. */
  const DefaultReserved := Reserved("size", "page", "props", "nested", "sort")

  function InList(b: seq<string>): string -> bool {
    x => x in b
  }

  /** `array_intersect($a, $b)` on lists of strings: the items of `a` that occur in `b`, in order, repeats kept. */
  function Intersect(a: seq<string>, b: seq<string>): (r: seq<string>)
    ensures |r| <= |a|
  {
    Keep(a, InList(b))
  }

  /** The fields `setSelectableFields` asks for: the requested names that are selectable, lower-cased. */
  function SelectedFields(attributes: string, selectable: seq<string>): seq<string> {
    Intersect(LowerAll(Split(attributes, ",")), LowerAll(selectable))
  }

  lemma LowerIdempotent(s: string)
    ensures Lower(Lower(s)) == Lower(s)
  {
  }

  /**
   * A field is selected exactly when it is the lower-cased form of a
   * requested name and of a selectable name; the selection keeps the
   * request's order, keeps a name requested twice twice, and comes out
   * lower-cased.
   */
  lemma SelectedFieldsExact(attributes: string, selectable: seq<string>, x: string)
    ensures x in SelectedFields(attributes, selectable) <==>
      x in LowerAll(Split(attributes, ",")) && x in LowerAll(selectable)
    ensures IsSubsequence(SelectedFields(attributes, selectable), LowerAll(Split(attributes, ",")))
    ensures multiset(SelectedFields(attributes, selectable))[x] ==
      if x in LowerAll(selectable) then multiset(LowerAll(Split(attributes, ",")))[x] else 0
    ensures x in SelectedFields(attributes, selectable) ==> Lower(x) == x
  {
    var req := LowerAll(Split(attributes, ","));
    KeepExact(req, InList(LowerAll(selectable)), x);
    KeepOrdered(req, InList(LowerAll(selectable)));
    KeepCount(req, InList(LowerAll(selectable)), x);
    if x in SelectedFields(attributes, selectable) {
      var i :| 0 <= i < |req| && req[i] == x;
      LowerIdempotent(Split(attributes, ",")[i]);
    }
  }

  /** `setSelectableFields($attributes, $selectable, $p)`: the new settings and whether it raised. */
  function SelectableFieldsSpec(st: ParamsState, attributes: Raw, selectable: seq<string>): (r: (ParamsState, Status))
    ensures r.1.Fail? <==> attributes.Str? && PhpEmptyString(st.alias)
    ensures r.1.Fail? ==> r == (st, Fail(AliasEmpty))
    ensures r.0 == st.(fields := r.0.fields)
  {
    if !attributes.Str? then (st, Ok)
    else match AliasOnValues(st.alias, SelectedFields(attributes.s, selectable))
      case Failure(err) => (st, Fail(err))
      case Success(fs) => (st.(fields := fs), Ok)
  }

  /** With an alias, the stored fields are the selected fields, each qualified by the alias. */
  lemma SelectableFieldsQualified(st: ParamsState, attributes: string, selectable: seq<string>)
    requires !PhpEmptyString(st.alias)
    ensures var (st2, status) := SelectableFieldsSpec(st, Str(attributes), selectable);
      var sel := SelectedFields(attributes, selectable);
      status == Ok && |st2.fields| == |sel| &&
      forall i :: 0 <= i < |sel| ==> StripAlias(st.alias, st2.fields[i]) == Some(sel[i])
  {
    AliasOnValuesRoundTrip(st.alias, SelectedFields(attributes, selectable));
  }

  /** `setSizeOfPage($limit, $p)`: a numeric limit as an integer; anything else is ignored. */
  function SizeOfPageSpec(st: ParamsState, limit: Raw): (r: ParamsState)
    ensures r == st.(limit := r.limit)
  {
    if IsNumeric(limit) then st.(limit := IntCast(limit)) else st
  }

  /** `setPage($page, $p)`: a numeric page as an integer; anything else is ignored. */
  function PageSpec(st: ParamsState, page: Raw): (r: ParamsState)
    ensures r == st.(page := r.page)
  {
    if IsNumeric(page) then st.(page := IntCast(page)) else st
  }

  /**
   * A limit or page written in decimal is read back as that number, saturated
   * at the integer range; a non-numeric one changes nothing.
   */
  lemma NumericStepsDecimal(st: ParamsState, n: int, v: Raw)
    ensures SizeOfPageSpec(st, Str(IntToString(n))).limit == Saturate(n)
    ensures PageSpec(st, Str(IntToString(n))).page == Saturate(n)
    ensures !IsNumeric(v) ==> SizeOfPageSpec(st, v) == st && PageSpec(st, v) == st
  {
    IntCastOfDecimal(n);
  }

  /** `setSortOfItems($sort, $p)`: the ascending entries, then the alias-qualified descending keys. */
  function SortSpec(st: ParamsState, sort: Raw): (r: (ParamsState, Status))
    ensures r.1.Fail? <==> sort.Arr? && PhpEmptyString(st.alias)
    ensures r.1.Fail? ==> r.1.error == AliasEmpty
    ensures r.0 == st.(orderAsc := r.0.orderAsc, orderDesc := r.0.orderDesc)
  {
    if !sort.Arr? then (st, Ok)
    else
      var st1 := st.(orderAsc := FilterByValue(sort.entries, "asc"));
      match AliasOnKeys(st.alias, FilterByValue(sort.entries, "desc"))
      case Failure(err) => (st1, Fail(err))
      case Success(ks) => (st1.(orderDesc := ks), Ok)
  }

  /**
   * With an alias, the ascending ordering holds exactly the entries whose
   * direction is 'asc', and every field whose direction is 'desc' is in the
   * descending ordering, qualified by the alias; other directions are dropped.
   * The descending ordering is, position by position, the qualified keys of
   * the 'desc' entries, which are those of `sort` in its order.
   */
  lemma SortSplits(st: ParamsState, sort: Entries, e: (string, Raw))
    requires !PhpEmptyString(st.alias)
    ensures var (st2, status) := SortSpec(st, Arr(sort));
      status == Ok &&
      (e in st2.orderAsc <==> e in sort && e.1 == Str("asc")) &&
      (e in sort && e.1 == Str("desc") ==> st.alias + "." + e.0 in st2.orderDesc)
    ensures var st2, desc := SortSpec(st, Arr(sort)).0, FilterByValue(sort, "desc");
      && IsSubsequence(desc, sort)
      && |st2.orderDesc| == |desc|
      && forall i :: 0 <= i < |desc| ==>
           desc[i] in sort && desc[i].1 == Str("desc") && st2.orderDesc[i] == st.alias + "." + desc[i].0
  {
    ByValueExact(sort, "asc", e);
    ByValueExact(sort, "desc", e);
    var desc := FilterByValue(sort, "desc");
    forall i | 0 <= i < |desc|
      ensures desc[i] in sort && desc[i].1 == Str("desc")
    {
      ByValueExact(sort, "desc", desc[i]);
    }
    if e in sort && e.1 == Str("desc") {
      var j :| 0 <= j < |desc| && desc[j] == e;
      assert AliasOnKeys(st.alias, desc).value[j] == st.alias + "." + e.0;
    }
  }

  /** `setNestedData($contain, $p)`: the comma-separated relation names; anything but a string is ignored. */
  function NestedSpec(st: ParamsState, contain: Raw): (r: ParamsState)
    ensures r == st.(nested := r.nested)
    ensures !contain.Str? ==> r == st
  {
    if contain.Str? then st.(nested := Split(contain.s, ",")) else st
  }

  /** The relation names are never empty and join back to the parameter. */
  lemma NestedRoundTrip(st: ParamsState, contain: string)
    ensures NestedSpec(st, Str(contain)).nested != []
    ensures Join(NestedSpec(st, Str(contain)).nested, ",") == contain
  {
    SplitJoin(contain, ",");
  }

  method SetSelectableFields(attributes: Raw, selectable: seq<string>, p: ExpressParams) returns (status: Status)
    modifies p
    ensures (p.State(), status) == SelectableFieldsSpec(old(p.State()), attributes, selectable)
    ensures p.filtersCollection == old(p.filtersCollection)
  {
    if !attributes.Str? {
      return Ok;
    }
    var requested := Split(attributes.s, ",");
    status := p.SetFields(Intersect(LowerAll(requested), LowerAll(selectable)));
  }

  method SetSizeOfPage(limit: Raw, p: ExpressParams)
    modifies p
    ensures p.State() == SizeOfPageSpec(old(p.State()), limit) && p.filtersCollection == old(p.filtersCollection)
  {
    if IsNumeric(limit) {
      p.SetLimit(IntCast(limit));
    }
  }

  method SetSortOfItems(sort: Raw, p: ExpressParams) returns (status: Status)
    modifies p
    ensures (p.State(), status) == SortSpec(old(p.State()), sort)
    ensures p.filtersCollection == old(p.filtersCollection)
  {
    if !sort.Arr? {
      return Ok;
    }
    p.SetOrderAsc(FilterByValue(sort.entries, "asc"));
    status := p.SetOrderDesc(FilterByValue(sort.entries, "desc"));
  }

  method SetPage(page: Raw, p: ExpressParams)
    modifies p
    ensures p.State() == PageSpec(old(p.State()), page) && p.filtersCollection == old(p.filtersCollection)
  {
    if IsNumeric(page) {
      p.SetPage(IntCast(page));
    }
  }

  method SetNestedData(contain: Raw, p: ExpressParams)
    modifies p
    ensures p.State() == NestedSpec(old(p.State()), contain) && p.filtersCollection == old(p.filtersCollection)
  {
    if contain.Str? {
      p.SetNested(Split(contain.s, ","));
    }
  }

  lemma BindEachIsBindAll(S: seq<Filters.FilterState>, fields: Entries, T: seq<Filters.FilterState>, status: Status)
    requires (T, status) == BindFrom(S, fields, 0)
    ensures (T, status) == BindAll(S, fields)
  {
    BindFromIsBindAll(S, fields, 0);
    assert S[0..] == S;
  }

  /**
   * `setFilters($fields, $filters, $p)`: binds every filter to its
   * parameter, then attaches the collection; a binding error escapes
   * before the collection is attached.
   */
  method SetFilters(fields: Entries, c: FiltersCollection, p: ExpressParams) returns (status: Status)
    requires c.Distinct()
    modifies p, c.Objects()
    ensures c.filters == old(c.filters)
    ensures (c.States(), status) == BindAll(old(c.States()), fields)
    ensures p.State() == old(p.State())
    ensures p.filtersCollection == if status.Ok? then c else old(p.filtersCollection)
  {
    ghost var S := c.States();
    assert p !in c.Objects();
    status := c.BindEach(fields);
    ghost var T := c.States();
    BindEachIsBindAll(S, fields, T, status);
    if status.Ok? {
      assert p !in c.Objects();
      p.SetFilters(c);
      assert c.States() == T;
    }
  }
}
