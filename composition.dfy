/**
 * How both components build an `ExpressParams` from the query parameters
 * (`composeExpressParams` / `processComposedParams`): read back a cached
 * one when allowed, otherwise run the reserved-parameter steps, bind the
 * filters to the remaining parameters and cache the result.
 */
module Composition {
  import opened PhpValues
  import opened Filters
  import opened FiltersCollections
  import opened FunctionalClosure
  import opened ExpressParamsTypes
  import opened ComponentSteps

  /** The settings steps, in the order the component runs them; paging steps only when the component has them. */
  function SettingsSpec(alias: string, selectable: seq<string>, params: Entries, reserved: Reserved, withPaging: bool)
    : (r: (ParamsState, Status))
    ensures r.0.alias == alias
  {
    var st0 := Defaults.(alias := alias);
    var (st1, s1) := match MatchRun(reserved.props, params)
      case None => (st0, Ok)
      case Some(v) => SelectableFieldsSpec(st0, v, selectable);
    if s1.Fail? then (st1, s1)
    else
      var st2 := if !withPaging then st1 else match MatchRun(reserved.size, params)
        case None => st1
        case Some(v) => SizeOfPageSpec(st1, v);
      var (st3, s3) := match MatchRun(reserved.sort, params)
        case None => (st2, Ok)
        case Some(v) => SortSpec(st2, v);
      if s3.Fail? then (st3, s3)
      else
        var st4 := if !withPaging then st3 else match MatchRun(reserved.page, params)
          case None => st3
          case Some(v) => PageSpec(st3, v);
        var st5 := match MatchRun(reserved.nested, params)
          case None => st4
          case Some(v) => NestedSpec(st4, v);
        (st5, Ok)
  }

  /** The parameters left for the filters: all but the reserved ones. */
  function FilterParams(params: Entries, reserved: Reserved): Entries {
    FilterArrayOutFromKeys(params, reserved.Names())
  }

  /** The outcome of building: the object as the cache would store it, the repository's filters afterwards, and how it ended. */
  datatype Composed = Composed(descriptor: Descriptor, after: seq<FilterState>, status: Status)

  /** Building without the cache: the settings steps, then binding the filters when the repository has any. */
  function ComposeSpec(alias: string, selectable: seq<string>, params: Entries, reserved: Reserved,
                       states: seq<FilterState>, withPaging: bool): Composed
  {
    var (st, s) := SettingsSpec(alias, selectable, params, reserved, withPaging);
    if s.Fail? then Composed(Descriptor(st, None), states, s)
    else if states == [] then Composed(Descriptor(st, None), states, Ok)
    else
      var (bound, bs) := BindAll(states, FilterParams(params, reserved));
      Composed(Descriptor(st, if bs.Ok? then Some(bound) else None), bound, bs)
  }

  /** The key under which a request's `ExpressParams` is cached. */
  function CacheKey(urlHash: string): string {
    "express.queries." + urlHash
  }

  /** Building with the cache: a hit is returned as stored; a successful build is stored when caching is on. */
  function ComposeCachedSpec(canCache: bool, entries: map<string, Descriptor>, key: string, alias: string,
                             selectable: seq<string>, params: Entries, reserved: Reserved,
                             states: seq<FilterState>, withPaging: bool): (Composed, map<string, Descriptor>)
  {
    if canCache && key in entries then (Composed(entries[key], states, Ok), entries)
    else
      var c := ComposeSpec(alias, selectable, params, reserved, states, withPaging);
      (c, if canCache && c.status.Ok? then entries[key := c.descriptor] else entries)
  }

  /** A component without the paging steps leaves the limit at 0 and the page at 1. */
  lemma SettingsPaging(alias: string, selectable: seq<string>, params: Entries, reserved: Reserved)
    ensures var (st, _) := SettingsSpec(alias, selectable, params, reserved, false); st.limit == 0 && st.page == 1
  {
  }

  /** With a usable alias no settings step raises. */
  lemma SettingsOk(alias: string, selectable: seq<string>, params: Entries, reserved: Reserved, withPaging: bool)
    requires !PhpEmptyString(alias)
    ensures SettingsSpec(alias, selectable, params, reserved, withPaging).1 == Ok
  {
  }

  /** With an empty alias, a string `props` parameter raises before anything else is read. */
  lemma SettingsAliasEmpty(alias: string, selectable: seq<string>, params: Entries, reserved: Reserved, withPaging: bool)
    requires PhpEmptyString(alias) && HasKey(params, reserved.props) && Lookup(params, reserved.props).Str?
    ensures SettingsSpec(alias, selectable, params, reserved, withPaging) == (Defaults.(alias := alias), Fail(AliasEmpty))
  {
  }

  /** Without any reserved parameter, the settings are the defaults under the alias. */
  lemma SettingsUntouched(alias: string, selectable: seq<string>, params: Entries, reserved: Reserved, withPaging: bool)
    requires forall n :: n in reserved.Names() ==> !HasKey(params, n)
    ensures SettingsSpec(alias, selectable, params, reserved, withPaging) == (Defaults.(alias := alias), Ok)
  {
    assert !HasKey(params, reserved.props) && !HasKey(params, reserved.sort) && !HasKey(params, reserved.nested);
    assert !HasKey(params, reserved.size) && !HasKey(params, reserved.page);
  }

  /** A filter named like a reserved parameter is never bound, whatever the request holds. */
  lemma ReservedNamesNotBound(alias: string, selectable: seq<string>, params: Entries, reserved: Reserved,
                              states: seq<FilterState>, withPaging: bool, j: int)
    requires 0 <= j < |states| && StateName(states[j]) in reserved.Names()
    ensures var c := ComposeSpec(alias, selectable, params, reserved, states, withPaging);
      |c.after| == |states| && c.after[j] == states[j]
  {
    var fp := FilterParams(params, reserved);
    if HasKey(fp, StateName(states[j])) {
      var i :| 0 <= i < |fp| && fp[i].0 == StateName(states[j]);
      assert fp[i] in fp;
      OutFromKeysExact(params, reserved.Names(), fp[i]);
      assert false;
    }
    BindSkipsUnnamed(states, fp, j);
  }

  /**
   * Filters are attached exactly when the build succeeds and the repository
   * has filters; they are then the repository's filters after binding.
   */
  lemma ComposeAttaches(alias: string, selectable: seq<string>, params: Entries, reserved: Reserved,
                        states: seq<FilterState>, withPaging: bool)
    ensures var c := ComposeSpec(alias, selectable, params, reserved, states, withPaging);
      (c.descriptor.filters.Some? <==> c.status.Ok? && states != []) &&
      (c.descriptor.filters.Some? ==> c.descriptor.filters.value == c.after) &&
      c.descriptor.settings == SettingsSpec(alias, selectable, params, reserved, withPaging).0
  {
  }

  /** A build fails only with an empty alias or a filter value of the wrong type. */
  lemma ComposeErrors(alias: string, selectable: seq<string>, params: Entries, reserved: Reserved,
                      states: seq<FilterState>, withPaging: bool)
    ensures var c := ComposeSpec(alias, selectable, params, reserved, states, withPaging);
      c.status.Fail? ==> c.status.error == AliasEmpty || c.status.error == TypeError
  {
    var (st, s) := SettingsSpec(alias, selectable, params, reserved, withPaging);
    if s.Ok? && states != [] {
      BindAllErrors(states, FilterParams(params, reserved));
    }
  }

  /** A cache hit is returned unchanged and binds nothing; a cached miss stores what was built. */
  lemma CacheRoundTrip(canCache: bool, entries: map<string, Descriptor>, key: string, alias: string,
                       selectable: seq<string>, params: Entries, reserved: Reserved,
                       states: seq<FilterState>, withPaging: bool)
    requires canCache
    ensures var (c, e2) := ComposeCachedSpec(canCache, entries, key, alias, selectable, params, reserved, states, withPaging);
      (key in entries ==> c.descriptor == entries[key] && c.after == states && e2 == entries) &&
      (c.status.Ok? ==> key in e2 && e2[key] == c.descriptor) &&
      (var (c2, e3) := ComposeCachedSpec(canCache, e2, key, alias, selectable, params, reserved, c.after, withPaging);
       c.status.Ok? ==> c2.descriptor == c.descriptor && e3 == e2)
  {
  }

  /** Caching off: every request is built afresh and the cache is left alone. */
  lemma NoCacheBuilds(entries: map<string, Descriptor>, key: string, alias: string, selectable: seq<string>,
                      params: Entries, reserved: Reserved, states: seq<FilterState>, withPaging: bool)
    ensures ComposeCachedSpec(false, entries, key, alias, selectable, params, reserved, states, withPaging)
      == (ComposeSpec(alias, selectable, params, reserved, states, withPaging), entries)
  {
  }

  /** The settings steps on a new `ExpressParams`. */
  method BuildSettings(alias: string, selectable: seq<string>, params: Entries, reserved: Reserved, withPaging: bool)
    returns (p: ExpressParams, status: Status)
    ensures fresh(p) && p.filtersCollection == null
    ensures (p.State(), status) == SettingsSpec(alias, selectable, params, reserved, withPaging)
  {
    p := new ExpressParams();
    p.SetAlias(alias);
    var v := MatchRun(reserved.props, params);
    if v.Some? {
      status := SetSelectableFields(v.value, selectable, p);
      if status.Fail? {
        return;
      }
    }
    if withPaging {
      v := MatchRun(reserved.size, params);
      if v.Some? {
        SetSizeOfPage(v.value, p);
      }
    }
    v := MatchRun(reserved.sort, params);
    if v.Some? {
      status := SetSortOfItems(v.value, p);
      if status.Fail? {
        return;
      }
    }
    if withPaging {
      v := MatchRun(reserved.page, params);
      if v.Some? {
        SetPage(v.value, p);
      }
    }
    v := MatchRun(reserved.nested, params);
    if v.Some? {
      SetNestedData(v.value, p);
    }
    status := Ok;
  }

  /** Building without the cache, binding the repository's own filter objects. */
  method Compose(alias: string, selectable: seq<string>, params: Entries, reserved: Reserved,
                 filterable: FiltersCollection, withPaging: bool) returns (p: ExpressParams, status: Status)
    requires filterable.Distinct()
    modifies filterable.Objects()
    ensures fresh(p) && filterable.filters == old(filterable.filters)
    ensures p.filtersCollection == null || p.filtersCollection == filterable
    ensures Composed(p.Snapshot(), filterable.States(), status)
      == ComposeSpec(alias, selectable, params, reserved, old(filterable.States()), withPaging)
  {
    ghost var S := filterable.States();
    p, status := BuildSettings(alias, selectable, params, reserved, withPaging);
    assert filterable.States() == S;
    if status.Fail? || filterable.IsEmpty() {
      return;
    }
    status := SetFilters(FilterParams(params, reserved), filterable, p);
  }

  /**
   * Building with the cache, whose entries on the cache configuration are
   * passed in and returned: `Cache::read` a stored object when allowed,
   * otherwise build one and `Cache::write` it.
   */
  method ComposeCached(canCache: bool, cache: map<string, Descriptor>, key: string, alias: string, selectable: seq<string>,
                       params: Entries, reserved: Reserved, filterable: FiltersCollection, withPaging: bool)
    returns (p: ExpressParams, status: Status, cache': map<string, Descriptor>)
    requires filterable.Distinct()
    modifies filterable.Objects()
    ensures fresh(p) && filterable.filters == old(filterable.filters)
    ensures (Composed(p.Snapshot(), filterable.States(), status), cache')
      == ComposeCachedSpec(canCache, cache, key, alias, selectable, params, reserved, old(filterable.States()), withPaging)
  {
    cache' := cache;
    if canCache && key in cache {
      p := RestoreParams(cache[key]);
      status := Ok;
      return;
    }
    p, status := Compose(alias, selectable, params, reserved, filterable, withPaging);
    if canCache && status.Ok? {
      cache' := cache[key := p.Snapshot()];
    }
  }
}
