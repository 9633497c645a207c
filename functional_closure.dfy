/**
 * The array helpers of `FunctionalClosure`: run a handler when a key is
 * present, and keep the entries of an array by key or by value.
 */
module FunctionalClosure {
  import opened PhpValues
  import opened Walks

  /** The first entry with key `k` holds the value `Lookup` returns. */
  lemma {:induction false} LookupFirst<V>(e: seq<(string, V)>, k: string)
    requires HasKey(e, k)
    ensures exists i :: 0 <= i < |e| && e[i] == (k, Lookup(e, k)) &&
                        forall j :: 0 <= j < i ==> e[j].0 != k
  {
    if e[0].0 != k {
      assert HasKey(e[1..], k) by {
        var i :| 0 <= i < |e| && e[i].0 == k;
        assert e[1..][i - 1].0 == k;
      }
      LookupFirst(e[1..], k);
      var i :| 0 <= i < |e[1..]| && e[1..][i] == (k, Lookup(e[1..], k)) &&
               forall j :: 0 <= j < i ==> e[1..][j].0 != k;
      assert e[i + 1] == (k, Lookup(e, k));
      forall j | 0 <= j < i + 1
        ensures e[j].0 != k
      {
        if j > 0 {
          assert e[j] == e[1..][j - 1];
        }
      }
    }
  }

  /**
   * `matchRun($key, $seeds, $handler)`: the value the handler is called
   * with, or nothing when the key is absent and the handler is not called.
   */
  function MatchRun(key: string, seeds: Entries): (r: Option<Raw>)
    ensures r.Some? <==> HasKey(seeds, key)
  {
    if HasKey(seeds, key) then Some(Lookup(seeds, key)) else None
  }

  /** The handler receives the value of the first entry with the key. */
  lemma MatchRunFirst(key: string, seeds: Entries)
    requires HasKey(seeds, key)
    ensures exists i :: 0 <= i < |seeds| && seeds[i] == (key, MatchRun(key, seeds).value) &&
                        forall j :: 0 <= j < i ==> seeds[j].0 != key
  {
    LookupFirst(seeds, key);
  }

  /** An entry whose key is not one of `keys`. */
  function KeyNotIn(keys: seq<string>): ((string, Raw)) -> bool {
    (e: (string, Raw)) => e.0 !in keys
  }

  /** An entry whose key is one of `keys`. */
  function KeyIn(keys: seq<string>): ((string, Raw)) -> bool {
    (e: (string, Raw)) => e.0 in keys
  }

  /** An entry whose value is identical (`===`) to the string `value`. */
  function ValueIs(value: string): ((string, Raw)) -> bool {
    (e: (string, Raw)) => e.1 == Str(value)
  }

  /**
   * `filterArrayOutFromKeys($items, $possibleKeys)`: the entries whose key is
   * not among the values of `$possibleKeys`, in order.
   */
  function FilterArrayOutFromKeys(items: Entries, possibleKeys: seq<string>): (r: Entries)
    ensures |r| <= |items|
  {
    Keep(items, KeyNotIn(possibleKeys))
  }

  /** `filterArrayByKeys($items, $possibleKeys)`: the entries whose key is among them. */
  function FilterArrayByKeys(items: Entries, possibleKeys: seq<string>): (r: Entries)
    ensures |r| <= |items|
  {
    Keep(items, KeyIn(possibleKeys))
  }

  /** `filterByValue($items, $value)`: the entries whose value is `$value`, keys kept. */
  function FilterByValue(items: Entries, value: string): (r: Entries)
    ensures |r| <= |items|
  {
    Keep(items, ValueIs(value))
  }

  /** An entry survives `filterArrayOutFromKeys` exactly when its key is not a possible key. */
  lemma OutFromKeysExact(items: Entries, possibleKeys: seq<string>, e: (string, Raw))
    ensures e in FilterArrayOutFromKeys(items, possibleKeys) <==> e in items && e.0 !in possibleKeys
  {
    KeepExact(items, KeyNotIn(possibleKeys), e);
  }

  /** An entry survives `filterArrayByKeys` exactly when its key is a possible key. */
  lemma ByKeysExact(items: Entries, possibleKeys: seq<string>, e: (string, Raw))
    ensures e in FilterArrayByKeys(items, possibleKeys) <==> e in items && e.0 in possibleKeys
  {
    KeepExact(items, KeyIn(possibleKeys), e);
  }

  /** Both filters keep the order of the array. */
  lemma KeyFiltersOrdered(items: Entries, possibleKeys: seq<string>)
    ensures IsSubsequence(FilterArrayOutFromKeys(items, possibleKeys), items)
    ensures IsSubsequence(FilterArrayByKeys(items, possibleKeys), items)
  {
    KeepOrdered(items, KeyNotIn(possibleKeys));
    KeepOrdered(items, KeyIn(possibleKeys));
  }

  /** The two key filters split the array between them: every entry lands in exactly one. */
  lemma KeyFiltersPartition(items: Entries, possibleKeys: seq<string>)
    ensures |FilterArrayOutFromKeys(items, possibleKeys)| + |FilterArrayByKeys(items, possibleKeys)| == |items|
    ensures multiset(FilterArrayOutFromKeys(items, possibleKeys)) + multiset(FilterArrayByKeys(items, possibleKeys))
      == multiset(items)
  {
    KeepPartition(items, KeyNotIn(possibleKeys), KeyIn(possibleKeys));
  }

  /** `filterByValue` keeps exactly the entries holding the value, in order. */
  lemma ByValueExact(items: Entries, value: string, e: (string, Raw))
    ensures e in FilterByValue(items, value) <==> e in items && e.1 == Str(value)
    ensures IsSubsequence(FilterByValue(items, value), items)
  {
    KeepExact(items, ValueIs(value), e);
    KeepOrdered(items, ValueIs(value));
  }

  /** Entries kept for different values are disjoint. */
  lemma ByValueDisjoint(items: Entries, v: string, w: string)
    requires v != w
    ensures forall e :: e in FilterByValue(items, v) ==> e !in FilterByValue(items, w)
  {
    forall e | e in FilterByValue(items, v)
      ensures e !in FilterByValue(items, w)
    {
      ByValueExact(items, v, e);
      ByValueExact(items, w, e);
    }
  }
}
