/**
 * `ExpressRequestComponent`: reconfigures the paging from the request,
 * builds (or reads back) the `ExpressParams` without the paging steps, and
 * applies it to the repository query.
 */
module ExpressRequestComponents {
  import opened PhpValues
  import opened Expressions
  import opened Filters
  import opened FiltersCollections
  import opened ExpressParamsTypes
  import opened ExpressConfigs
  import opened ComponentSteps
  import opened Composition
  import opened FilterRepositoryServices

  /** What a search does: the calls made on the query, how it ends, the cache after it and the filters' states after it. */
  datatype Outcome = Outcome(ops: seq<QueryOp>, status: Status, cache: map<string, Descriptor>, after: seq<FilterState>)

  /**
   * The parameter handling of `search` once the configuration is
   * reconfigured: no parameters leave the query as it is; otherwise the
   * parameters are built, or read back from the cache, and applied.
   */
  function SearchSpec(canCache: bool, cache: map<string, Descriptor>, urlHash: string, alias: string,
                      selectable: seq<string>, params: Entries, reserved: Reserved, states: seq<FilterState>): (r: Outcome)
    ensures params == [] ==> r == Outcome([], Ok, cache, states)
    ensures !canCache ==> r.cache == cache
    ensures forall k :: k != CacheKey(urlHash) ==> (k in r.cache <==> k in cache) && (k in cache ==> r.cache[k] == cache[k])
    ensures canCache && params != [] && r.status.Ok? ==> CacheKey(urlHash) in r.cache
  {
    if params == [] then Outcome([], Ok, cache, states)
    else
      var (c, entries) := ComposeCachedSpec(canCache, cache, CacheKey(urlHash), alias, selectable, params,
                                            reserved, states, false);
      if c.status.Fail? then Outcome([], c.status, entries, c.after)
      else
        var (ops, s) := InvokeCorrectedSpec(c.descriptor.settings, c.descriptor.filters);
        Outcome(ops, s, entries, c.after)
  }

  /** Without parameters the query, the cache and the filters stay as they are. */
  lemma SearchWithoutParams(canCache: bool, cache: map<string, Descriptor>, urlHash: string, alias: string,
                            selectable: seq<string>, reserved: Reserved, states: seq<FilterState>)
    ensures SearchSpec(canCache, cache, urlHash, alias, selectable, [], reserved, states) == Outcome([], Ok, cache, states)
  {
  }

  /** A cached descriptor is applied as it is, and no filter is bound. */
  lemma SearchFromCache(canCache: bool, cache: map<string, Descriptor>, urlHash: string, alias: string,
                        selectable: seq<string>, params: Entries, reserved: Reserved, states: seq<FilterState>)
    requires params != [] && canCache && CacheKey(urlHash) in cache
    ensures var d := cache[CacheKey(urlHash)];
      var (ops, s) := InvokeCorrectedSpec(d.settings, d.filters);
      SearchSpec(canCache, cache, urlHash, alias, selectable, params, reserved, states) == Outcome(ops, s, cache, states)
  {
  }

  /** With an empty alias and a `props` parameter, a search that is not cached raises before any call on the query. */
  lemma SearchAliasEmpty(canCache: bool, cache: map<string, Descriptor>, urlHash: string, alias: string,
                         selectable: seq<string>, params: Entries, reserved: Reserved, states: seq<FilterState>)
    requires params != [] && !(canCache && CacheKey(urlHash) in cache)
    requires PhpEmptyString(alias) && HasKey(params, reserved.props) && Lookup(params, reserved.props).Str?
    ensures SearchSpec(canCache, cache, urlHash, alias, selectable, params, reserved, states)
      == Outcome([], Fail(AliasEmpty), cache, states)
  {
    SettingsAliasEmpty(alias, selectable, params, reserved, false);
  }

  /**
   * Against a repository with no filters, a search with a usable alias
   * that is not cached makes only the shaping calls and ends without error.
   */
  lemma SearchWithoutFilters(canCache: bool, cache: map<string, Descriptor>, urlHash: string, alias: string,
                             selectable: seq<string>, params: Entries, reserved: Reserved)
    requires params != [] && !(canCache && CacheKey(urlHash) in cache) && !PhpEmptyString(alias)
    ensures var st := SettingsSpec(alias, selectable, params, reserved, false).0;
      var r := SearchSpec(canCache, cache, urlHash, alias, selectable, params, reserved, []);
      r.ops == ShapingOps(st) && r.status == Ok && st.limit == 0 && st.page == 1
  {
    SettingsOk(alias, selectable, params, reserved, false);
    SettingsPaging(alias, selectable, params, reserved);
    var st := SettingsSpec(alias, selectable, params, reserved, false).0;
    InvokeCorrectedWithoutFilters(st);
  }

  /**
   * As written, the same search raises a `TypeError`: the composed
   * parameters carry no filter collection, and the service reads it anyway.
   */
  lemma SearchWithoutFiltersAsWritten(canCache: bool, cache: map<string, Descriptor>, urlHash: string, alias: string,
                                      selectable: seq<string>, params: Entries, reserved: Reserved)
    requires params != [] && !(canCache && CacheKey(urlHash) in cache) && !PhpEmptyString(alias)
    ensures var c := ComposeCachedSpec(canCache, cache, CacheKey(urlHash), alias, selectable, params,
                                       reserved, [], false).0;
      && c.status == Ok && c.descriptor.filters.None?
      && InvokeSpec(c.descriptor.settings, c.descriptor.filters) == (ShapingOps(c.descriptor.settings), Fail(TypeError))
  {
    SettingsOk(alias, selectable, params, reserved, false);
    InvokeWithoutFiltersFails(SettingsSpec(alias, selectable, params, reserved, false).0);
  }

  /** `composeExpressParams`: caching follows the configuration's `canCache()`; no paging steps. */
  method ComposeExpressParams(alias: string, selectable: seq<string>, urlHash: string, params: Entries,
                              filterable: FiltersCollection, config: ExpressConfig, cache: map<string, Descriptor>,
                              reserved: Reserved)
    returns (p: ExpressParams, status: Status, cache': map<string, Descriptor>)
    requires filterable.Distinct()
    modifies filterable.Objects()
    ensures fresh(p) && filterable.filters == old(filterable.filters)
    ensures (Composed(p.Snapshot(), filterable.States(), status), cache')
      == ComposeCachedSpec(old(config.cache), cache, CacheKey(urlHash), alias, selectable, params, reserved,
                           old(filterable.States()), false)
  {
    var canCache := config.cache;
    p, status, cache' := ComposeCached(canCache, cache, CacheKey(urlHash), alias, selectable, params,
                                       reserved, filterable, false);
  }

  /** `search` after `reconfigure`: the parameters applied to the query. */
  method SearchParams(config: ExpressConfig, query: Query, params: Entries, alias: string, selectable: seq<string>,
                      filterable: FiltersCollection, cache: map<string, Descriptor>, urlHash: string, reserved: Reserved)
    returns (status: Status, cache': map<string, Descriptor>)
    requires filterable.Distinct()
    modifies query, filterable.Objects()
    ensures filterable.filters == old(filterable.filters)
    ensures var r := SearchSpec(old(config.cache), cache, urlHash, alias, selectable, params, reserved,
                                old(filterable.States()));
      query.log == old(query.log) + r.ops && status == r.status && cache' == r.cache && filterable.States() == r.after
  {
    assert query !in filterable.Objects();
    cache' := cache;
    if params == [] {
      assert old(query.log) + [] == old(query.log);
      return Ok, cache;
    }
    var p;
    p, status, cache' := ComposeExpressParams(alias, selectable, urlHash, params, filterable, config, cache, reserved);
    if status.Fail? {
      assert old(query.log) + [] == old(query.log);
      return;
    }
    status := ApplyParams(query, p, filterable);
  }

  /** `search`: `reconfigure` always runs, then the parameters are applied. */
  method Search(config: ExpressConfig, query: Query, params: Entries, alias: string, selectable: seq<string>,
                filterable: FiltersCollection, cache: map<string, Descriptor>, urlHash: string, reserved: Reserved)
    returns (status: Status, cache': map<string, Descriptor>)
    requires filterable.Distinct()
    modifies config, query, filterable.Objects()
    ensures config.State() == ReconfigureSpec(old(config.State()), params)
    ensures filterable.filters == old(filterable.filters)
    ensures var r := SearchSpec(old(config.cache), cache, urlHash, alias, selectable, params, reserved,
                                old(filterable.States()));
      query.log == old(query.log) + r.ops && status == r.status && cache' == r.cache && filterable.States() == r.after
  {
    ghost var S := filterable.States();
    assert config !in filterable.Objects() && query !in filterable.Objects();
    config.Reconfigure(params);
    ReconfigureFrame(old(config.State()), params);
    assert filterable.States() == S;
    ghost var C := config.State();
    status, cache' := SearchParams(config, query, params, alias, selectable, filterable, cache, urlHash, reserved);
    assert config.State() == C;
  }
}
