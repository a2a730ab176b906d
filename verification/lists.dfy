/**
  List operations the pages perform on arrays: `filter`, `map` with a
  callback that may throw, and the checkbox toggle
  `list.includes(x) ? list.filter(v => v !== x) : [...list, x]`.
 */
module Lists {
  import opened Js

  /** `xs.filter(p)`. */
  function Filter<T>(xs: seq<T>, p: T -> bool): (r: seq<T>)
    ensures |r| <= |xs|
    ensures forall i :: 0 <= i < |r| ==> p(r[i]) && r[i] in xs
    ensures forall i :: 0 <= i < |xs| && p(xs[i]) ==> xs[i] in r
    decreases |xs|
  {
    if xs == [] then []
    else (if p(xs[0]) then [xs[0]] else []) + Filter(xs[1..], p)
  }

  /** Filtering keeps the original order: it distributes over concatenation. */
  lemma {:induction false} FilterAppend<T>(a: seq<T>, b: seq<T>, p: T -> bool)
    ensures Filter(a + b, p) == Filter(a, p) + Filter(b, p)
    decreases |a|
  {
    if a == [] {
      assert a + b == b;
    } else {
      assert (a + b)[1..] == a[1..] + b;
      FilterAppend(a[1..], b, p);
    }
  }

  /** `xs.filter(v => v !== x)`: every occurrence of `x` removed. */
  function Remove<T(==,!new)>(xs: seq<T>, x: T): (r: seq<T>)
    ensures x !in r
    ensures forall y :: y != x ==> multiset(r)[y] == multiset(xs)[y]
    ensures x !in xs ==> r == xs
    decreases |xs|
  {
    if xs == [] then []
    else
      var rest := Remove(xs[1..], x);
      assert xs == [xs[0]] + xs[1..];
      if xs[0] == x then rest else [xs[0]] + rest
  }

  /** Removal keeps the relative order of the remaining elements. */
  lemma {:induction false} RemoveAppend<T(!new)>(a: seq<T>, b: seq<T>, x: T)
    ensures Remove(a + b, x) == Remove(a, x) + Remove(b, x)
    decreases |a|
  {
    if a == [] {
      assert a + b == b;
    } else {
      assert (a + b)[1..] == a[1..] + b;
      RemoveAppend(a[1..], b, x);
    }
  }

  /** The checkbox toggle: drop every copy of `x` when present, otherwise
      append it. */
  function Toggle<T(==,!new)>(xs: seq<T>, x: T): (r: seq<T>)
    ensures x in r <==> x !in xs
    ensures forall y :: y != x ==> multiset(r)[y] == multiset(xs)[y]
    ensures x !in xs ==> r == xs + [x]
  {
    if x in xs then Remove(xs, x) else xs + [x]
  }

  /** Checking and then unchecking a box restores the list. */
  lemma ToggleTwiceRestores<T(!new)>(xs: seq<T>, x: T)
    requires x !in xs
    ensures Toggle(Toggle(xs, x), x) == xs
  {
    RemoveAppend(xs, [x], x);
    assert Remove([x], x) == [];
  }

  /** Unchecking and re-checking moves `x` to the end, as a single copy. */
  lemma ToggleTwiceMovesToEnd<T(!new)>(xs: seq<T>, x: T)
    requires x in xs
    ensures Toggle(Toggle(xs, x), x) == Remove(xs, x) + [x]
  {
  }

  /** `xs.map(f)` where `f` may throw: rejected with the first failure,
      otherwise one result per element, in order. */
  function MapAll<A, B>(xs: seq<A>, f: A -> Result<B>): (r: Result<seq<B>>)
    ensures r.Ok? <==> forall i :: 0 <= i < |xs| ==> f(xs[i]).Ok?
    ensures r.Ok? ==> |r.value| == |xs| && forall i :: 0 <= i < |xs| ==> r.value[i] == f(xs[i]).value
    ensures r.Err? ==> exists i :: 0 <= i < |xs| && f(xs[i]) == Err(r.error) && forall j :: 0 <= j < i ==> f(xs[j]).Ok?
    decreases |xs|
  {
    if xs == [] then Ok([])
    else
      match f(xs[0])
      case Err(e) => Err(e)
      case Ok(y) =>
        match MapAll(xs[1..], f)
        case Err(e) =>
          assert forall i :: 1 <= i < |xs| ==> xs[1..][i - 1] == xs[i];
          Err(e)
        case Ok(ys) =>
          assert forall i :: 1 <= i < |xs| ==> xs[1..][i - 1] == xs[i];
          Ok([y] + ys)
  }
}
