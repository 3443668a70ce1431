/** Shared vocabulary: optional values, results, replies of upstream HTTP
    calls, and the two array combinators the handlers lean on
    (`Array.prototype.filter` and `Array.prototype.find`). */
module Common {

  datatype Option<+T> = None | Some(value: T)

  datatype Result<+T, +E> = Ok(value: T) | Err(error: E)

  /** What an awaited axios call yields: the response body of a 2xx reply, or
      the error it throws (non-2xx status, network failure, unreadable body),
      carried as the text the handler would show. */
  datatype Reply<+T> = Got(body: T) | Failed(error: string)

  /** Why a handler's `try` block ends in its `catch`: an `Error` the handler
      throws itself (no team, space, list, ClickUp configuration or Graph
      scope), a state parameter that cannot be decoded, an upstream call that
      failed, or a `TypeError` from reading a property of `undefined`. */
  datatype Failure =
    | NoTeam
    | SpaceNotFound
    | ListNotFound
    | NoClickUpConfig(tenant: string)
    | ScopeNotFound(name: string)
    | BadState
    | Upstream(error: string)
    | TypeError

  /** `xs.filter(p)`: the elements satisfying `p`, in their original order. */
  function Filter<T>(xs: seq<T>, p: T -> bool): (r: seq<T>)
    ensures |r| <= |xs|
  {
    if xs == [] then []
    else (if p(xs[0]) then [xs[0]] else []) + Filter(xs[1..], p)
  }

  /** Everything kept comes from `xs` and satisfies `p`. */
  lemma {:induction false} FilterSound<T>(xs: seq<T>, p: T -> bool)
    ensures forall i :: 0 <= i < |Filter(xs, p)| ==> Filter(xs, p)[i] in xs && p(Filter(xs, p)[i])
  {
    if xs != [] {
      FilterSound(xs[1..], p);
      var rest := Filter(xs[1..], p);
      if p(xs[0]) {
        assert Filter(xs, p) == [xs[0]] + rest;
      } else {
        assert Filter(xs, p) == rest;
      }
    }
  }

  /** Everything in `xs` that satisfies `p` is kept. */
  lemma {:induction false} FilterComplete<T>(xs: seq<T>, p: T -> bool)
    ensures forall i :: 0 <= i < |xs| && p(xs[i]) ==> xs[i] in Filter(xs, p)
  {
    if xs != [] {
      FilterComplete(xs[1..], p);
      var rest := Filter(xs[1..], p);
      assert forall i :: 1 <= i < |xs| ==> xs[i] == xs[1..][i - 1];
      if p(xs[0]) {
        assert Filter(xs, p) == [xs[0]] + rest;
      } else {
        assert Filter(xs, p) == rest;
      }
    }
  }

  /** Filtering distributes over concatenation: this pins down that the
      kept elements keep their relative order. */
  lemma {:induction false} FilterAppend<T>(a: seq<T>, b: seq<T>, p: T -> bool)
    ensures Filter(a + b, p) == Filter(a, p) + Filter(b, p)
  {
    if a == [] {
      assert a + b == b;
    } else {
      var head := if p(a[0]) then [a[0]] else [];
      assert (a + b)[0] == a[0];
      assert (a + b)[1..] == a[1..] + b;
      assert Filter(a + b, p) == head + Filter(a[1..] + b, p);
      FilterAppend(a[1..], b, p);
      assert Filter(a, p) == head + Filter(a[1..], p);
    }
  }

  /** Filtering a one-element sequence keeps it exactly when it satisfies `p`. */
  lemma FilterSingleton<T>(x: T, p: T -> bool)
    ensures Filter([x], p) == if p(x) then [x] else []
  {
    assert [x][1..] == [];
  }

  /** A filter whose predicate holds everywhere keeps everything. */
  lemma {:induction false} FilterKeepsAll<T>(xs: seq<T>, p: T -> bool)
    requires forall i :: 0 <= i < |xs| ==> p(xs[i])
    ensures Filter(xs, p) == xs
  {
    if xs != [] {
      FilterKeepsAll(xs[1..], p);
    }
  }

  /** A filter whose predicate implies an earlier one makes the earlier one
      redundant: `xs.filter(p).filter(q) == xs.filter(q)` when `q ==> p`. */
  lemma {:induction false} FilterRedundant<T>(xs: seq<T>, p: T -> bool, q: T -> bool)
    requires forall i :: 0 <= i < |xs| && q(xs[i]) ==> p(xs[i])
    ensures Filter(Filter(xs, p), q) == Filter(xs, q)
  {
    if xs != [] {
      var rest := Filter(xs[1..], p);
      if p(xs[0]) {
        assert Filter(xs, p) == [xs[0]] + rest;
        FilterAppend([xs[0]], rest, q);
        FilterSingleton(xs[0], q);
      } else {
        assert Filter(xs, p) == rest;
      }
      FilterRedundant(xs[1..], p, q);
    }
  }

  /** `xs.findIndex(p)`, with `None` for -1: the position of the first
      element satisfying `p`. `xs.find(p)` is `xs[i]` at that position. */
  function FirstIndex<T>(xs: seq<T>, p: T -> bool): (r: Option<nat>)
    ensures r.Some? ==> r.value < |xs| && p(xs[r.value])
    ensures r.Some? ==> forall j :: 0 <= j < r.value ==> !p(xs[j])
    ensures r.None? <==> forall j :: 0 <= j < |xs| ==> !p(xs[j])
  {
    if xs == [] then None
    else if p(xs[0]) then Some(0)
    else match FirstIndex(xs[1..], p)
      case None => None
      case Some(i) => Some(i + 1)
  }

  /** `xs.find(p)`: the first element satisfying `p`, if any. */
  function Find<T>(xs: seq<T>, p: T -> bool): (r: Option<T>)
    ensures r.Some? <==> exists i :: 0 <= i < |xs| && p(xs[i])
    ensures r.Some? ==> r.value in xs && p(r.value)
    ensures r.Some? ==> exists i :: 0 <= i < |xs| && xs[i] == r.value && forall j :: 0 <= j < i ==> !p(xs[j])
  {
    match FirstIndex(xs, p)
    case None => None
    case Some(i) => Some(xs[i])
  }

  /** `find` on a non-empty array looks at the first element, then at the
      rest. */
  lemma FindCons<T>(xs: seq<T>, p: T -> bool)
    requires xs != []
    ensures Find(xs, p) == if p(xs[0]) then Some(xs[0]) else Find(xs[1..], p)
  {
    if !p(xs[0]) {
      match FirstIndex(xs[1..], p)
      case None =>
      case Some(i) =>
        assert xs[1..][i] == xs[i + 1];
    }
  }
}
