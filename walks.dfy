/**
 * Walks over a list that apply a step to each element in turn and stop at
 * the first step that raises, as `array_walk` and `array_filter` do when
 * their callback throws.
 */
module Walks {
  import opened PhpValues

  /** Replaces each element by its step result, up to and including the first failing one. */
  function MapUntilFail<S>(xs: seq<S>, f: S -> (S, Status)): (r: (seq<S>, Status))
    ensures |r.0| == |xs|
  {
    if xs == [] then ([], Ok)
    else
      var (x1, status) := f(xs[0]);
      if status.Fail? then ([x1] + xs[1..], status)
      else
        var (rest, status2) := MapUntilFail(xs[1..], f);
        ([x1] + rest, status2)
  }

  /** Mapping splits over a concatenation, and stops at the first error. */
  lemma {:induction false} MapAppend<S>(a: seq<S>, b: seq<S>, f: S -> (S, Status))
    ensures MapUntilFail(a + b, f) ==
      if MapUntilFail(a, f).1.Fail? then (MapUntilFail(a, f).0 + b, MapUntilFail(a, f).1)
      else (MapUntilFail(a, f).0 + MapUntilFail(b, f).0, MapUntilFail(b, f).1)
  {
    if a == [] {
      assert a + b == b;
      assert [] + MapUntilFail(b, f).0 == MapUntilFail(b, f).0;
    } else {
      var ab := a + b;
      assert ab[0] == a[0];
      assert ab[1..] == a[1..] + b;
      var (x1, status) := f(a[0]);
      if status.Ok? {
        MapAppend(a[1..], b, f);
        var ra := MapUntilFail(a[1..], f);
        if ra.1.Fail? {
          assert [x1] + (ra.0 + b) == [x1] + ra.0 + b;
        } else {
          assert [x1] + (ra.0 + MapUntilFail(b, f).0) == [x1] + ra.0 + MapUntilFail(b, f).0;
        }
      } else {
        assert [x1] + ab[1..] == [x1] + a[1..] + b;
      }
    }
  }

  /** A single step's result. */
  lemma {:induction false} MapOne<S>(x: S, f: S -> (S, Status))
    ensures MapUntilFail([x], f) == ([f(x).0], f(x).1)
  {
    assert [x][1..] == [];
    assert [f(x).0] + [] == [f(x).0];
  }

  /** One more step after a prefix that mapped without error. */
  lemma {:induction false} MapStep<S>(xs: seq<S>, i: int, f: S -> (S, Status))
    requires 0 <= i < |xs| && MapUntilFail(xs[..i], f).1 == Ok
    ensures MapUntilFail(xs[..i + 1], f) == (MapUntilFail(xs[..i], f).0 + [f(xs[i]).0], f(xs[i]).1)
    ensures f(xs[i]).1.Fail? ==>
      MapUntilFail(xs, f) == (MapUntilFail(xs[..i], f).0 + [f(xs[i]).0] + xs[i + 1..], f(xs[i]).1)
  {
    var pre, next := xs[..i], xs[..i + 1];
    assert next == pre + [xs[i]];
    MapAppend(pre, [xs[i]], f);
    MapOne(xs[i], f);
    if f(xs[i]).1.Fail? {
      MapAppend(next, xs[i + 1..], f);
      assert next + xs[i + 1..] == xs;
    }
  }

  /** When no step fails, each element is its own step result. */
  lemma {:induction false} MapPointwise<S>(xs: seq<S>, f: S -> (S, Status))
    requires MapUntilFail(xs, f).1 == Ok
    ensures forall j :: 0 <= j < |xs| ==> f(xs[j]) == (MapUntilFail(xs, f).0[j], Ok)
  {
    if xs != [] {
      MapPointwise(xs[1..], f);
      var r := MapUntilFail(xs, f).0;
      forall j | 0 <= j < |xs|
        ensures f(xs[j]) == (r[j], Ok)
      {
        if j > 0 {
          assert xs[1..][j - 1] == xs[j];
        }
      }
    }
  }

  /** An element the step leaves as it is stays as it is, wherever the walk stops. */
  lemma {:induction false} MapKeepsFixed<S>(xs: seq<S>, f: S -> (S, Status), j: int)
    requires 0 <= j < |xs| && f(xs[j]) == (xs[j], Ok)
    ensures MapUntilFail(xs, f).0[j] == xs[j]
  {
    if j > 0 {
      var (x1, status) := f(xs[0]);
      if status.Ok? {
        assert xs[1..][j - 1] == xs[j];
        MapKeepsFixed(xs[1..], f, j - 1);
      }
    }
  }

  /** Each element is either untouched or its step result. */
  lemma {:induction false} MapEach<S>(xs: seq<S>, f: S -> (S, Status))
    ensures forall j :: 0 <= j < |xs| ==> MapUntilFail(xs, f).0[j] in {xs[j], f(xs[j]).0}
  {
    if xs != [] {
      MapEach(xs[1..], f);
      forall j | 0 <= j < |xs|
        ensures MapUntilFail(xs, f).0[j] in {xs[j], f(xs[j]).0}
      {
        if j > 0 {
          assert xs[1..][j - 1] == xs[j];
        }
      }
    }
  }

  /** A walk that fails, fails with the error of one of its steps. */
  lemma {:induction false} MapFailure<S>(xs: seq<S>, f: S -> (S, Status))
    requires MapUntilFail(xs, f).1.Fail?
    ensures exists j :: 0 <= j < |xs| && f(xs[j]).1 == MapUntilFail(xs, f).1
  {
    if f(xs[0]).1.Ok? {
      MapFailure(xs[1..], f);
      var j :| 0 <= j < |xs[1..]| && f(xs[1..][j]).1 == MapUntilFail(xs[1..], f).1;
      assert xs[1..][j] == xs[j + 1];
    }
  }

  /** The empty sequence is a unit of concatenation. */
  lemma AppendEmpty<S>(xs: seq<S>)
    ensures xs + [] == xs && [] + xs == xs
  {
  }

  /** Replacing the next element after a finished prefix extends the prefix. */
  lemma SpliceNext<S>(done: seq<S>, xs: seq<S>, t: S)
    requires |done| < |xs|
    ensures (done + xs[|done|..])[|done|] == xs[|done|]
    ensures (done + xs[|done|..])[|done| := t] == (done + [t]) + xs[|done| + 1..]
  {
  }

  /** The elements for which `p` holds, in order. */
  function Keep<S>(xs: seq<S>, p: S -> bool): (r: seq<S>)
    ensures |r| <= |xs|
  {
    if xs == [] then []
    else (if p(xs[0]) then [xs[0]] else []) + Keep(xs[1..], p)
  }

  /** `Keep` holds exactly the elements that satisfy `p`. */
  lemma {:induction false} KeepExact<S>(xs: seq<S>, p: S -> bool, x: S)
    ensures x in Keep(xs, p) <==> x in xs && p(x)
  {
    if xs != [] {
      KeepExact(xs[1..], p, x);
      assert xs == [xs[0]] + xs[1..];
    }
  }

  /** `a` is obtained from `b` by deleting elements, keeping the order of the rest. */
  predicate IsSubsequence<T(==)>(a: seq<T>, b: seq<T>)
    decreases |b|
  {
    if a == [] then true
    else if b == [] then false
    else if a[0] == b[0] then IsSubsequence(a[1..], b[1..])
    else IsSubsequence(a, b[1..])
  }

  /** `Keep` keeps the order. */
  lemma {:induction false} KeepOrdered<S>(xs: seq<S>, p: S -> bool)
    ensures IsSubsequence(Keep(xs, p), xs)
  {
    if xs != [] {
      var k := Keep(xs[1..], p);
      KeepOrdered(xs[1..], p);
      if p(xs[0]) {
        assert Keep(xs, p) == [xs[0]] + k;
        assert ([xs[0]] + k)[1..] == k;
      } else {
        assert Keep(xs, p) == k;
        if k != [] {
          assert k[0] in k;
          KeepExact(xs[1..], p, k[0]);
          assert k[0] != xs[0];
        }
      }
    }
  }

  /** `Keep` splits over a concatenation. */
  lemma {:induction false} KeepAppend<S>(a: seq<S>, b: seq<S>, p: S -> bool)
    ensures Keep(a + b, p) == Keep(a, p) + Keep(b, p)
  {
    if a == [] {
      assert a + b == b;
    } else {
      var ab := a + b;
      assert ab[0] == a[0];
      assert ab[1..] == a[1..] + b;
      KeepAppend(a[1..], b, p);
      var h := if p(a[0]) then [a[0]] else [];
      assert h + (Keep(a[1..], p) + Keep(b, p)) == h + Keep(a[1..], p) + Keep(b, p);
    }
  }

  /** `Keep` keeps every copy of an element that satisfies `p`, and none of one that does not. */
  lemma {:induction false} KeepCount<S>(xs: seq<S>, p: S -> bool, x: S)
    ensures multiset(Keep(xs, p))[x] == if p(x) then multiset(xs)[x] else 0
  {
    if xs != [] {
      KeepCount(xs[1..], p, x);
      assert xs == [xs[0]] + xs[1..];
    }
  }

  /** `Keep` with a predicate and with its negation split the list between them. */
  lemma {:induction false} KeepPartition<S>(xs: seq<S>, p: S -> bool, q: S -> bool)
    requires forall x :: q(x) == !p(x)
    ensures |Keep(xs, p)| + |Keep(xs, q)| == |xs|
    ensures multiset(Keep(xs, p)) + multiset(Keep(xs, q)) == multiset(xs)
  {
    if xs != [] {
      KeepPartition(xs[1..], p, q);
      assert xs == [xs[0]] + xs[1..];
    }
  }

  /** The outputs of the steps in order, up to the first failing step. */
  function ConcatUntilFail<S, C>(xs: seq<S>, f: S -> Result<seq<C>>): (seq<C>, Status) {
    if xs == [] then ([], Ok)
    else
      match f(xs[0])
      case Failure(err) => ([], Fail(err))
      case Success(cs) =>
        var (rest, status) := ConcatUntilFail(xs[1..], f);
        (cs + rest, status)
  }

  /** Concatenating splits over a concatenation, and stops at the first error. */
  lemma {:induction false} ConcatAppend<S, C>(a: seq<S>, b: seq<S>, f: S -> Result<seq<C>>)
    ensures ConcatUntilFail(a + b, f) ==
      if ConcatUntilFail(a, f).1.Fail? then ConcatUntilFail(a, f)
      else (ConcatUntilFail(a, f).0 + ConcatUntilFail(b, f).0, ConcatUntilFail(b, f).1)
  {
    if a == [] {
      assert a + b == b;
      assert [] + ConcatUntilFail(b, f).0 == ConcatUntilFail(b, f).0;
    } else {
      var ab := a + b;
      assert ab[0] == a[0];
      assert ab[1..] == a[1..] + b;
      if f(a[0]).Success? {
        var cs := f(a[0]).value;
        ConcatAppend(a[1..], b, f);
        var ra := ConcatUntilFail(a[1..], f);
        if ra.1.Ok? {
          assert cs + (ra.0 + ConcatUntilFail(b, f).0) == cs + ra.0 + ConcatUntilFail(b, f).0;
        }
      }
    }
  }

  /** A single step's output, or its error. */
  lemma {:induction false} ConcatOne<S, C>(x: S, f: S -> Result<seq<C>>)
    ensures ConcatUntilFail([x], f) ==
      if f(x).Failure? then ([], Fail(f(x).error)) else (f(x).value, Ok)
  {
    assert [x][1..] == [];
    if f(x).Success? {
      assert f(x).value + [] == f(x).value;
    }
  }

  /** When every step succeeds, so does the walk. */
  lemma {:induction false} ConcatOk<S, C>(xs: seq<S>, f: S -> Result<seq<C>>)
    requires forall j :: 0 <= j < |xs| ==> f(xs[j]).Success?
    ensures ConcatUntilFail(xs, f).1 == Ok
  {
    if xs != [] {
      assert forall j :: 0 <= j < |xs[1..]| ==> xs[1..][j] == xs[j + 1];
      ConcatOk(xs[1..], f);
    }
  }
}
