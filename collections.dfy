/** The array idioms the record-keeping handlers are written with: `map` to replace, `filter`, `find`. */
module Collections {
  import opened Wrappers

  /**
   * `xs.map(x => matches(x) ? v : x)`: every entry the predicate selects becomes `v`, every
   * other entry stays where it was.
   */
  function ReplaceWhere<T>(xs: seq<T>, matches: T -> bool, v: T): (r: seq<T>)
    ensures |r| == |xs|
    ensures forall i :: 0 <= i < |xs| && matches(xs[i]) ==> r[i] == v
    ensures forall i :: 0 <= i < |xs| && !matches(xs[i]) ==> r[i] == xs[i]
  {
    if xs == [] then []
    else [if matches(xs[0]) then v else xs[0]] + ReplaceWhere(xs[1..], matches, v)
  }

  /** When nothing matches, replacing changes nothing. */
  lemma {:induction false} ReplaceWhereNoMatch<T>(xs: seq<T>, matches: T -> bool, v: T)
    requires forall x :: x in xs ==> !matches(x)
    ensures ReplaceWhere(xs, matches, v) == xs
  {
    if xs != [] {
      ReplaceWhereNoMatch(xs[1..], matches, v);
    }
  }

  /**
   * `xs.map(x => matches(x) ? f(x) : x)`: every selected entry is rewritten by `f`, every other
   * entry stays where it was.
   */
  function UpdateWhere<T>(xs: seq<T>, matches: T -> bool, f: T -> T): (r: seq<T>)
    ensures |r| == |xs|
    ensures forall i :: 0 <= i < |xs| && matches(xs[i]) ==> r[i] == f(xs[i])
    ensures forall i :: 0 <= i < |xs| && !matches(xs[i]) ==> r[i] == xs[i]
  {
    if xs == [] then []
    else [if matches(xs[0]) then f(xs[0]) else xs[0]] + UpdateWhere(xs[1..], matches, f)
  }

  /** `xs.filter(keep)`: exactly the kept elements, in their original order. */
  function Filter<T(!new)>(xs: seq<T>, keep: T -> bool): (r: seq<T>)
    ensures |r| <= |xs|
    ensures forall x :: x in r <==> x in xs && keep(x)
  {
    if xs == [] then []
    else if keep(xs[0]) then [xs[0]] + Filter(xs[1..], keep)
    else Filter(xs[1..], keep)
  }

  /** Filtering a concatenation filters each part: the kept elements keep their relative order. */
  lemma {:induction false} FilterAppend<T(!new)>(a: seq<T>, b: seq<T>, keep: T -> bool)
    ensures Filter(a + b, keep) == Filter(a, keep) + Filter(b, keep)
  {
    if a != [] {
      assert (a + b)[1..] == a[1..] + b;
      FilterAppend(a[1..], b, keep);
    } else {
      assert a + b == b;
    }
  }

  /** A filter that keeps every element is the identity. */
  lemma {:induction false} FilterKeepsAll<T(!new)>(xs: seq<T>, keep: T -> bool)
    requires forall x :: x in xs ==> keep(x)
    ensures Filter(xs, keep) == xs
  {
    if xs != [] {
      assert forall x :: x in xs[1..] ==> x in xs;
      FilterKeepsAll(xs[1..], keep);
      assert [xs[0]] + xs[1..] == xs;
    }
  }

  /** `xs.find(pred)`: the first element the predicate holds of, if any. */
  function Find<T(!new)>(xs: seq<T>, pred: T -> bool): (r: Option<T>)
    ensures r.None? <==> forall x :: x in xs ==> !pred(x)
    ensures r.Some? ==> r.value in xs && pred(r.value)
    ensures r.Some? ==> exists i :: 0 <= i < |xs| && xs[i] == r.value && forall j :: 0 <= j < i ==> !pred(xs[j])
  {
    if xs == [] then None
    else if pred(xs[0]) then Some(xs[0])
    else
      var r := Find(xs[1..], pred);
      assert r.Some? ==> exists i :: 0 <= i < |xs[1..]| && xs[1..][i] == r.value && forall j :: 0 <= j < i ==> !pred(xs[1..][j]);
      assert forall x :: x in xs[1..] ==> x in xs;
      r
  }
}
