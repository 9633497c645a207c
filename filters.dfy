/**
 * The six filter kinds behind `FilterTypeInterface`, as one datatype over
 * their classes, with the interface's operations dispatched on the kind.
 */
module Filters {
  import opened PhpValues
  import opened Expressions
  import BooleanFilters
  import NullFilters
  import NumberFilters
  import SearchDateFilters
  import SearchFilters
  import SearchInFilters

  /** A filter object of one of the six kinds. */
  datatype Filter =
    | BooleanF(b: BooleanFilters.BooleanFilter)
    | NullF(n: NullFilters.NullFilter)
    | NumberF(num: NumberFilters.NumberFilter)
    | DateF(d: SearchDateFilters.SearchDateFilter)
    | SearchF(s: SearchFilters.SearchFilter)
    | InF(i: SearchInFilters.SearchInFilter)

  /** The state of a filter of one of the six kinds. */
  datatype FilterState =
    | BooleanS(b: BooleanFilters.BooleanState)
    | NullS(n: NullFilters.NullState)
    | NumberS(num: NumberFilters.NumberState)
    | DateS(d: SearchDateFilters.DateState)
    | SearchS(s: SearchFilters.SearchState)
    | InS(i: SearchInFilters.InState)

  /** The object behind a filter. */
  function Obj(f: Filter): object {
    match f
    case BooleanF(b) => b
    case NullF(n) => n
    case NumberF(num) => num
    case DateF(d) => d
    case SearchF(s) => s
    case InF(i) => i
  }

  /** `getName()`: the name given at construction, which never changes. */
  function Name(f: Filter): string {
    match f
    case BooleanF(b) => b.name
    case NullF(n) => n.name
    case NumberF(num) => num.name
    case DateF(d) => d.name
    case SearchF(s) => s.name
    case InF(i) => i.name
  }

  function StateName(s: FilterState): string {
    match s
    case BooleanS(b) => b.name
    case NullS(n) => n.name
    case NumberS(num) => num.name
    case DateS(d) => d.name
    case SearchS(x) => x.name
    case InS(i) => i.name
  }

  function Processable(s: FilterState): bool {
    match s
    case BooleanS(b) => b.processable
    case NullS(n) => n.processable
    case NumberS(num) => num.processable
    case DateS(d) => d.processable
    case SearchS(x) => x.processable
    case InS(i) => i.processable
  }

  /** Both values are states of the same kind of filter. */
  predicate SameKind(s: FilterState, t: FilterState) {
    (s.BooleanS? && t.BooleanS?) || (s.NullS? && t.NullS?) || (s.NumberS? && t.NumberS?)
    || (s.DateS? && t.DateS?) || (s.SearchS? && t.SearchS?) || (s.InS? && t.InS?)
  }

  function StateOf(f: Filter): (s: FilterState)
    reads Obj(f)
    ensures StateName(s) == Name(f)
  {
    match f
    case BooleanF(b) => BooleanS(b.State())
    case NullF(n) => NullS(n.State())
    case NumberF(num) => NumberS(num.State())
    case DateF(d) => DateS(d.State())
    case SearchF(x) => SearchS(x.State())
    case InF(i) => InS(i.State())
  }

  /** `isProcessable()`. */
  function IsProcessable(f: Filter): (r: bool)
    reads Obj(f)
    ensures r == Processable(StateOf(f))
  {
    match f
    case BooleanF(b) => b.IsProcessable()
    case NullF(n) => n.IsProcessable()
    case NumberF(num) => num.IsProcessable()
    case DateF(d) => d.IsProcessable()
    case SearchF(x) => x.IsProcessable()
    case InF(i) => i.IsProcessable()
  }

  /** `setValue($raw)` of the filter's kind: the new state and whether it raised. */
  function SetValueOf(s: FilterState, raw: Raw): (r: (FilterState, Status))
    ensures SameKind(r.0, s) && StateName(r.0) == StateName(s)
  {
    match s
    case BooleanS(b) => (BooleanS(BooleanFilters.SetValueSpec(b, raw)), Ok)
    case NullS(n) => (NullS(NullFilters.SetValueSpec(n, raw)), Ok)
    case NumberS(num) => var (t, status) := NumberFilters.SetValueSpec(num, raw); (NumberS(t), status)
    case DateS(d) => var (t, status) := SearchDateFilters.SetValueSpec(d, raw); (DateS(t), status)
    case SearchS(x) => (SearchS(SearchFilters.SetValueSpec(x, raw)), Ok)
    case InS(i) => var (t, status) := SearchInFilters.SetValueSpec(i, raw); (InS(t), status)
  }

  /** What `process($expression, $alias)` of the filter's kind adds, or the error it raises. */
  function ContributionOf(s: FilterState, alias: string): (r: Result<seq<Condition>>)
    ensures r.Failure? ==> s.DateS?
  {
    match s
    case BooleanS(b) => Success(BooleanFilters.Contribution(b, alias))
    case NullS(n) => Success(NullFilters.Contribution(n, alias))
    case NumberS(num) => Success(NumberFilters.Contribution(num, alias))
    case DateS(d) => SearchDateFilters.Contribution(d, alias)
    case SearchS(x) => Success(SearchFilters.Contribution(x, alias))
    case InS(i) => Success(SearchInFilters.Contribution(i, alias))
  }

  /** The invariants each kind keeps. */
  predicate StateOk(s: FilterState) {
    match s
    case NumberS(num) => NumberFilters.Consistent(num)
    case DateS(d) => SearchDateFilters.Valid(d)
    case _ => true
  }

  /** A filter just built of each kind. */
  function FreshOf(kind: FilterState, name: string): (s: FilterState)
    ensures SameKind(s, kind) && StateName(s) == name && !Processable(s) && StateOk(s)
  {
    match kind
    case BooleanS(_) => BooleanS(BooleanFilters.Fresh(name))
    case NullS(_) => NullS(NullFilters.Fresh(name))
    case NumberS(_) => NumberS(NumberFilters.Fresh(name))
    case DateS(_) => DateS(SearchDateFilters.Fresh(name))
    case SearchS(x) => SearchS(SearchFilters.Fresh(name, x.mode))
    case InS(_) => InS(SearchInFilters.Fresh(name))
  }

  /** Every successful `setValue` keeps the kind's invariant. */
  lemma SetValueKeepsOk(s: FilterState, raw: Raw)
    requires StateOk(s) && SetValueOf(s, raw).1 == Ok
    ensures StateOk(SetValueOf(s, raw).0)
  {
    match s
    case NumberS(num) => NumberFilters.SetValueKeepsConsistent(num, raw);
    case DateS(d) => SearchDateFilters.SetValueKeepsValid(d, raw);
    case _ =>
  }

  /** A processable filter that keeps its invariant processes without error. */
  lemma OkContributes(s: FilterState, alias: string)
    requires StateOk(s) && Processable(s)
    ensures ContributionOf(s, alias).Success?
  {
    if s.DateS? {
      SearchDateFilters.ValidContributes(s.d, alias);
    }
  }

  /** Only a boolean filter names its field without the alias. */
  lemma ContributionFields(s: FilterState, alias: string)
    requires ContributionOf(s, alias).Success?
    ensures forall c :: c in ContributionOf(s, alias).value ==>
      c.field == (if s.BooleanS? then StateName(s) else alias + "." + StateName(s))
  {
  }

  /** The only errors `setValue` raises are type errors. */
  lemma SetValueErrors(s: FilterState, raw: Raw)
    ensures SetValueOf(s, raw).1.Fail? ==> SetValueOf(s, raw).1.error == TypeError
  {
  }

  method SetValue(f: Filter, raw: Raw) returns (status: Status)
    modifies Obj(f)
    ensures (StateOf(f), status) == SetValueOf(old(StateOf(f)), raw)
  {
    match f
    case BooleanF(b) => b.SetValue(raw); status := Ok;
    case NullF(n) => n.SetValue(raw); status := Ok;
    case NumberF(num) => status := num.SetValue(raw);
    case DateF(d) => status := d.SetValue(raw);
    case SearchF(x) => x.SetValue(raw); status := Ok;
    case InF(i) => status := i.SetValue(raw);
  }

  method Process(f: Filter, e: QueryExpression, alias: string) returns (status: Status)
    modifies e
    ensures var r := ContributionOf(old(StateOf(f)), alias);
      if r.Success? then status == Ok && e.conditions == old(e.conditions) + r.value
      else status == Fail(r.error) && e.conditions == old(e.conditions)
  {
    match f
    case BooleanF(b) => b.Process(e, alias); status := Ok;
    case NullF(n) => n.Process(e, alias); status := Ok;
    case NumberF(num) => num.Process(e, alias); status := Ok;
    case DateF(d) => status := d.Process(e, alias);
    case SearchF(x) => x.Process(e, alias); status := Ok;
    case InF(i) => i.Process(e, alias); status := Ok;
  }

  /** A new filter object holding a state read back from the cache. */
  method Restore(s: FilterState) returns (f: Filter)
    ensures fresh(Obj(f)) && StateOf(f) == s
  {
    if s.BooleanS? {
      var o := new BooleanFilters.BooleanFilter.Restore(s.b); f := BooleanF(o);
    } else if s.NullS? {
      var o := new NullFilters.NullFilter.Restore(s.n); f := NullF(o);
    } else if s.NumberS? {
      var o := new NumberFilters.NumberFilter.Restore(s.num); f := NumberF(o);
    } else if s.DateS? {
      var o := new SearchDateFilters.SearchDateFilter.Restore(s.d); f := DateF(o);
    } else if s.SearchS? {
      var o := new SearchFilters.SearchFilter.Restore(s.s); f := SearchF(o);
    } else {
      var o := new SearchInFilters.SearchInFilter.Restore(s.i); f := InF(o);
    }
  }
}
