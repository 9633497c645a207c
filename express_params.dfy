/**
 * `ExpressParams`: what a request asks of the repository query (the
 * selected fields, limit, ordering, page, nested relations and the
 * filters), as a class whose setters update its fields in place.
 */
module ExpressParamsTypes {
  import opened PhpValues
  import opened FiltersCollections
  import Filters

  /** The settings of an `ExpressParams`, apart from its filters. */
  datatype ParamsState = ParamsState(
    alias: string,
    fields: seq<string>,
    limit: int,
    orderAsc: Entries,
    orderDesc: seq<string>,
    page: int,
    nested: seq<string>)

  /** The property defaults of a new `ExpressParams`. */
  const Defaults := ParamsState("", [], 0, [], [], 1, [])

  /** An `ExpressParams` as the cache stores it: its settings and, when attached, its filters' states. */
  datatype Descriptor = Descriptor(settings: ParamsState, filters: Option<seq<Filters.FilterState>>)

  /** Each item prefixed with `alias.`. */
  function QualifyAll(alias: string, items: seq<string>): (r: seq<string>)
    ensures |r| == |items|
  {
    seq(|items|, i requires 0 <= i < |items| => alias + "." + items[i])
  }

  /** The part of `q` after the prefix `alias.`, when it has that prefix. */
  function StripAlias(alias: string, q: string): (r: Option<string>) {
    var p := alias + ".";
    if |p| <= |q| && q[..|p|] == p then Some(q[|p|..]) else None
  }

  /** `setAliasOnValues($items)`: raises when the alias is empty, else qualifies each item. */
  function AliasOnValues(alias: string, items: seq<string>): (r: Result<seq<string>>)
    ensures r.Failure? <==> PhpEmptyString(alias)
    ensures r.Failure? ==> r.error == AliasEmpty
    ensures r.Success? ==> |r.value| == |items|
  {
    if PhpEmptyString(alias) then Failure(AliasEmpty) else Success(QualifyAll(alias, items))
  }

  /** The keys of an array, in order (`array_keys`). */
  function Keys(items: Entries): (r: seq<string>)
    ensures |r| == |items|
  {
    seq(|items|, i requires 0 <= i < |items| => items[i].0)
  }

  /** `setAliasOnKeys($items)`: raises when the alias is empty, else qualifies each key. */
  function AliasOnKeys(alias: string, items: Entries): (r: Result<seq<string>>)
    ensures r.Failure? <==> PhpEmptyString(alias)
    ensures r.Failure? ==> r.error == AliasEmpty
    ensures r.Success? ==> |r.value| == |items|
  {
    AliasOnValues(alias, Keys(items))
  }

  /** Stripping the alias off a qualified item gives the item back. */
  lemma StripQualified(alias: string, item: string)
    ensures StripAlias(alias, alias + "." + item) == Some(item)
  {
    var p := alias + ".";
    assert (p + item)[..|p|] == p;
    assert (p + item)[|p|..] == item;
  }

  /** Every qualified value carries the alias and gives back its item, in order. */
  lemma AliasOnValuesRoundTrip(alias: string, items: seq<string>)
    requires !PhpEmptyString(alias)
    ensures AliasOnValues(alias, items).Success?
    ensures forall i :: 0 <= i < |items| ==> StripAlias(alias, AliasOnValues(alias, items).value[i]) == Some(items[i])
  {
    forall i | 0 <= i < |items|
      ensures StripAlias(alias, AliasOnValues(alias, items).value[i]) == Some(items[i])
    {
      StripQualified(alias, items[i]);
    }
  }

  /** Every qualified key carries the alias and gives back its key; the values are dropped. */
  lemma AliasOnKeysRoundTrip(alias: string, items: Entries)
    requires !PhpEmptyString(alias)
    ensures AliasOnKeys(alias, items).Success?
    ensures forall i :: 0 <= i < |items| ==> StripAlias(alias, AliasOnKeys(alias, items).value[i]) == Some(items[i].0)
  {
    AliasOnValuesRoundTrip(alias, Keys(items));
  }

  class ExpressParams {
    var alias: string
    var fields: seq<string>
    var limit: int
    var orderAsc: Entries
    var orderDesc: seq<string>
    var page: int
    var nested: seq<string>
    /** The attached filters; null while `setFilters` has not been called. */
    var filtersCollection: FiltersCollection?

    function State(): ParamsState
      reads this
    {
      ParamsState(alias, fields, limit, orderAsc, orderDesc, page, nested)
    }

    /** The objects behind the attached filters, if any. */
    ghost function FilterFrame(): set<object>
      reads this, filtersCollection
    {
      if filtersCollection == null then {} else {filtersCollection} + filtersCollection.Objects()
    }

    /** The states of the attached filters, if any. */
    function FilterStates(): (r: Option<seq<Filters.FilterState>>)
      reads this, FilterFrame()
      ensures r.Some? <==> filtersCollection != null
    {
      if filtersCollection == null then None else Some(filtersCollection.States())
    }

    /** What the cache stores of this object. */
    function Snapshot(): (d: Descriptor)
      reads this, FilterFrame()
      ensures d.settings == State() && d.filters == FilterStates()
    {
      Descriptor(State(), FilterStates())
    }

    /** A new object holds the property defaults and no filters. */
    constructor ()
      ensures State() == Defaults && filtersCollection == null
    {
      alias, fields, limit, orderAsc, orderDesc, page, nested := "", [], 0, [], [], 1, [];
      filtersCollection := null;
    }

    /** An object as read back from the cache. */
    constructor Restore(st: ParamsState, c: FiltersCollection?)
      ensures State() == st && filtersCollection == c
    {
      alias, fields, limit, orderAsc, orderDesc := st.alias, st.fields, st.limit, st.orderAsc, st.orderDesc;
      page, nested := st.page, st.nested;
      filtersCollection := c;
    }

    method SetAlias(a: string)
      modifies this
      ensures State() == old(State()).(alias := a) && filtersCollection == old(filtersCollection)
    {
      alias := a;
    }

    /** `hasFields()`: `!empty($this->fields)`. */
    function HasFields(): (r: bool)
      reads this
      ensures r <==> |fields| > 0
    {
      fields != []
    }

    /** `setFields`: stores the alias-qualified fields, or raises and leaves them. */
    method SetFields(items: seq<string>) returns (status: Status)
      modifies this
      ensures match AliasOnValues(old(alias), items)
        case Failure(err) => status == Fail(err) && State() == old(State())
        case Success(qs) => status == Ok && State() == old(State()).(fields := qs)
      ensures filtersCollection == old(filtersCollection)
    {
      var r := AliasOnValues(alias, items);
      if r.Failure? {
        status := Fail(r.error);
      } else {
        fields := r.value;
        status := Ok;
      }
    }

    method SetLimit(n: int)
      modifies this
      ensures State() == old(State()).(limit := n) && filtersCollection == old(filtersCollection)
    {
      limit := n;
    }

    /** `setOrderAsc`: stores the entries as given, without the alias. */
    method SetOrderAsc(items: Entries)
      modifies this
      ensures State() == old(State()).(orderAsc := items) && filtersCollection == old(filtersCollection)
    {
      orderAsc := items;
    }

    /** `setOrderDesc`: stores the alias-qualified keys, or raises and leaves them. */
    method SetOrderDesc(items: Entries) returns (status: Status)
      modifies this
      ensures match AliasOnKeys(old(alias), items)
        case Failure(err) => status == Fail(err) && State() == old(State())
        case Success(qs) => status == Ok && State() == old(State()).(orderDesc := qs)
      ensures filtersCollection == old(filtersCollection)
    {
      var r := AliasOnKeys(alias, items);
      if r.Failure? {
        status := Fail(r.error);
      } else {
        orderDesc := r.value;
        status := Ok;
      }
    }

    method SetPage(n: int)
      modifies this
      ensures State() == old(State()).(page := n) && filtersCollection == old(filtersCollection)
    {
      page := n;
    }

    /** `hasNested()`: `!empty($this->nested)`. */
    function HasNested(): (r: bool)
      reads this
      ensures r <==> |nested| > 0
    {
      nested != []
    }

    method SetNested(items: seq<string>)
      modifies this
      ensures State() == old(State()).(nested := items) && filtersCollection == old(filtersCollection)
    {
      nested := items;
    }

    method SetFilters(c: FiltersCollection)
      modifies this
      ensures State() == old(State()) && filtersCollection == c
    {
      filtersCollection := c;
    }

    /**
     * `getFilters()`: the attached collection; with none attached the
     * declared return type rejects the null property with a type error.
     */
    function GetFilters(): (r: Result<FiltersCollection>)
      reads this
      ensures r.Success? <==> filtersCollection != null
      ensures r.Success? ==> r.value == filtersCollection
      ensures r.Failure? ==> r.error == TypeError
    {
      if filtersCollection == null then Failure(TypeError)
      else var c: FiltersCollection := filtersCollection; Success(c)
    }
  }

  /** A new object holding what the cache stored, with new filter objects. */
  method RestoreParams(d: Descriptor) returns (p: ExpressParams)
    ensures fresh(p) && p.Snapshot() == d
    ensures p.filtersCollection != null ==> fresh(p.filtersCollection) && p.filtersCollection.Distinct()
  {
    if d.filters.None? {
      p := new ExpressParams.Restore(d.settings, null);
    } else {
      var c := RestoreCollection(d.filters.value);
      p := new ExpressParams.Restore(d.settings, c);
      assert c.States() == d.filters.value;
      assert p.FilterStates() == Some(c.States());
    }
  }
}
