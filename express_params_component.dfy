/**
 * `ExpressParamsComponent`: builds (or reads back) the `ExpressParams`
 * with the paging steps, applies it to the repository query and works out
 * the page request handed to the paginator.
 */
module ExpressParamsComponents {
  import opened PhpStrings
  import opened PhpValues
  import opened Expressions
  import opened Filters
  import opened FiltersCollections
  import opened ExpressParamsTypes
  import opened ComponentSteps
  import opened Composition
  import opened FilterRepositoryServices

  /** The component settings the search reads: `size`, `maxSize`, `cache` and `reserved`. */
  datatype ComponentConfig = ComponentConfig(size: int, maxSize: int, cache: bool, reserved: Reserved)

  /** The arguments of `processPagination`: page, page size, maximum size and whether to skip paging. */
  datatype PageRequest = PageRequest(page: int, limit: int, maxSize: int, noPage: bool)

  /** What a search does: the calls made on the query, the page request or the error, the cache and the filters' states after it. */
  datatype Outcome = Outcome(ops: seq<QueryOp>, request: Result<PageRequest>, cache: map<string, Descriptor>,
                             after: seq<FilterState>)

  /** `noPage`: `(bool)($params['noPage'] ?? false)`. */
  predicate NoPage(params: Entries) {
    PhpBool(Coalesce(params, "noPage", Bool(false)))
  }

  /** The page request after a search: a zero limit falls back to the configured size. */
  function PageRequestOf(st: ParamsState, config: ComponentConfig, params: Entries): (r: PageRequest)
    ensures r.page == st.page && r.maxSize == config.maxSize && r.noPage == NoPage(params)
    ensures st.limit != 0 ==> r.limit == st.limit
    ensures st.limit == 0 ==> r.limit == config.size
  {
    PageRequest(st.page, if st.limit != 0 then st.limit else config.size, config.maxSize, NoPage(params))
  }

  /** The page request of a search without parameters: the first page at the configured size. */
  function EmptySearchRequest(config: ComponentConfig): (r: PageRequest)
    ensures r.page == 1 && r.limit == config.size && r.maxSize == config.maxSize && !r.noPage
  {
    PageRequest(1, config.size, config.maxSize, false)
  }

  /** The parameter handling of `search`, with caching switched off in debug mode. */
  function SearchSpec(config: ComponentConfig, debug: bool, cache: map<string, Descriptor>, urlHash: string,
                      alias: string, selectable: seq<string>, params: Entries, states: seq<FilterState>): (r: Outcome)
    ensures params == [] ==> r == Outcome([], Success(EmptySearchRequest(config)), cache, states)
    ensures !config.cache || debug ==> r.cache == cache
    ensures forall k :: k != CacheKey(urlHash) ==> (k in r.cache <==> k in cache) && (k in cache ==> r.cache[k] == cache[k])
    ensures config.cache && !debug && params != [] && r.request.Success? ==> CacheKey(urlHash) in r.cache
  {
    if params == [] then Outcome([], Success(EmptySearchRequest(config)), cache, states)
    else
      var (c, entries) := ComposeCachedSpec(config.cache && !debug, cache, CacheKey(urlHash), alias, selectable,
                                            params, config.reserved, states, true);
      if c.status.Fail? then Outcome([], Failure(c.status.error), entries, c.after)
      else
        var (ops, s) := InvokeCorrectedSpec(c.descriptor.settings, c.descriptor.filters);
        Outcome(ops, if s.Fail? then Failure(s.error) else Success(PageRequestOf(c.descriptor.settings, config, params)),
                entries, c.after)
  }

  /** Without parameters: the first page at the configured size, and nothing else changes. */
  lemma SearchWithoutParams(config: ComponentConfig, debug: bool, cache: map<string, Descriptor>, urlHash: string,
                            alias: string, selectable: seq<string>, states: seq<FilterState>)
    ensures SearchSpec(config, debug, cache, urlHash, alias, selectable, [], states)
      == Outcome([], Success(PageRequest(1, config.size, config.maxSize, false)), cache, states)
  {
  }

  /** In debug mode the cache is neither read nor written. */
  lemma SearchDebugSkipsCache(config: ComponentConfig, cache: map<string, Descriptor>, urlHash: string,
                              alias: string, selectable: seq<string>, params: Entries, states: seq<FilterState>)
    ensures SearchSpec(config, true, cache, urlHash, alias, selectable, params, states).cache == cache
    ensures SearchSpec(config, true, cache, urlHash, alias, selectable, params, states)
      == SearchSpec(config.(cache := false), false, cache, urlHash, alias, selectable, params, states)
  {
  }

  /**
   * With a usable alias, a search that is not cached and succeeds pages by
   * the decimal size parameter (saturated at the integer range), or by the
   * configured size when it is zero.
   */
  lemma SearchPageSize(config: ComponentConfig, debug: bool, cache: map<string, Descriptor>, urlHash: string,
                       alias: string, selectable: seq<string>, params: Entries, states: seq<FilterState>, n: int)
    requires !(config.cache && !debug && CacheKey(urlHash) in cache) && !PhpEmptyString(alias)
    requires HasKey(params, config.reserved.size) && Lookup(params, config.reserved.size) == Str(IntToString(n))
    ensures var r := SearchSpec(config, debug, cache, urlHash, alias, selectable, params, states).request;
      r.Success? ==> r.value.limit == (if Saturate(n) != 0 then Saturate(n) else config.size) && r.value.noPage == NoPage(params)
  {
    PageSizeFromSettings(alias, selectable, params, config.reserved, n);
    ComposeAttaches(alias, selectable, params, config.reserved, states, true);
  }

  /** The size step, applied after the `props` step, sets the limit from a decimal size parameter. */
  lemma PageSizeFromSettings(alias: string, selectable: seq<string>, params: Entries, reserved: Reserved, n: int)
    requires !PhpEmptyString(alias)
    requires HasKey(params, reserved.size) && Lookup(params, reserved.size) == Str(IntToString(n))
    ensures SettingsSpec(alias, selectable, params, reserved, true).0.limit == Saturate(n)
  {
    var st0 := Defaults.(alias := alias);
    var st1 := if HasKey(params, reserved.props) then SelectableFieldsSpec(st0, Lookup(params, reserved.props), selectable).0 else st0;
    NumericStepsDecimal(st1, n, Null);
  }

  /** `noPage` is read as PHP's boolean conversion: absent, "0" or "" keep paging, "1" skips it. */
  lemma NoPageValues(params: Entries)
    ensures !IsSet(params, "noPage") ==> !NoPage(params)
    ensures IsSet(params, "noPage") && Lookup(params, "noPage") in {Str("0"), Str("")} ==> !NoPage(params)
    ensures IsSet(params, "noPage") && Lookup(params, "noPage") == Str("1") ==> NoPage(params)
  {
  }

  /** `processComposedParams`: caching as configured, and never in debug mode. */
  method ProcessComposedParams(alias: string, selectable: seq<string>, urlHash: string, params: Entries,
                               filterable: FiltersCollection, canCache: bool, debug: bool,
                               cache: map<string, Descriptor>, reserved: Reserved)
    returns (p: ExpressParams, status: Status, cache': map<string, Descriptor>)
    requires filterable.Distinct()
    modifies filterable.Objects()
    ensures fresh(p) && filterable.filters == old(filterable.filters)
    ensures (Composed(p.Snapshot(), filterable.States(), status), cache')
      == ComposeCachedSpec(canCache && !debug, cache, CacheKey(urlHash), alias, selectable, params, reserved,
                           old(filterable.States()), true)
  {
    var useCache := canCache;
    if debug {
      useCache := false;
    }
    p, status, cache' := ComposeCached(useCache, cache, CacheKey(urlHash), alias, selectable, params,
                                       reserved, filterable, true);
  }

  /** `search`: the parameters applied to the query, then the page request. */
  method Search(config: ComponentConfig, debug: bool, query: Query, params: Entries, alias: string,
                selectable: seq<string>, filterable: FiltersCollection, cache: map<string, Descriptor>, urlHash: string)
    returns (r: Result<PageRequest>, cache': map<string, Descriptor>)
    requires filterable.Distinct()
    modifies query, filterable.Objects()
    ensures filterable.filters == old(filterable.filters)
    ensures var o := SearchSpec(config, debug, cache, urlHash, alias, selectable, params, old(filterable.States()));
      query.log == old(query.log) + o.ops && r == o.request && cache' == o.cache && filterable.States() == o.after
  {
    assert query !in filterable.Objects();
    cache' := cache;
    if params == [] {
      assert old(query.log) + [] == old(query.log);
      return Success(EmptySearchRequest(config)), cache;
    }
    var p, status;
    p, status, cache' := ProcessComposedParams(alias, selectable, urlHash, params, filterable, config.cache, debug,
                                               cache, config.reserved);
    if status.Fail? {
      assert old(query.log) + [] == old(query.log);
      return Failure(status.error), cache';
    }
    ghost var st := p.State();
    status := ApplyParams(query, p, filterable);
    assert p.State() == st;
    if status.Fail? {
      return Failure(status.error), cache';
    }
    var sizeOfPage := if p.limit != 0 then p.limit else config.size;
    r := Success(PageRequest(p.page, sizeOfPage, config.maxSize, NoPage(params)));
  }
}
