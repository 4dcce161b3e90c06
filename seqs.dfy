/**
 * Sequence operations that stand for the store's query primitives and for the
 * "loop over rows, append when found" shape that recurs in the query code.
 * Every store is an ordered sequence; `.first()` is the first element in that order.
 */
module Seqs {
  import opened Wrappers

  function Min(a: int, b: int): int { if a <= b then a else b }

  /** No element occurs twice. */
  predicate NoDuplicates<T(==)>(xs: seq<T>)
  {
    forall i, j :: 0 <= i < j < |xs| ==> xs[i] != xs[j]
  }

  /** `list.index(x)`: the first position holding `x`, or None where Python raises ValueError. */
  function IndexOf<T(==)>(xs: seq<T>, x: T): (r: Option<nat>)
    ensures r.Some? ==> r.value < |xs| && xs[r.value] == x
    ensures r.Some? ==> forall k :: 0 <= k < r.value ==> xs[k] != x
    ensures r.None? <==> x !in xs
  {
    IndexFrom(xs, x, 0)
  }

  /** The scan behind `IndexOf`, from position `start` on. */
  function IndexFrom<T(==)>(xs: seq<T>, x: T, start: nat): (r: Option<nat>)
    requires start <= |xs|
    ensures r.Some? ==> start <= r.value < |xs| && xs[r.value] == x
    ensures r.Some? ==> forall k :: start <= k < r.value ==> xs[k] != x
    ensures r.None? <==> forall k :: start <= k < |xs| ==> xs[k] != x
    decreases |xs| - start
  {
    if start == |xs| then None
    else if xs[start] == x then Some(start)
    else IndexFrom(xs, x, start + 1)
  }

  /** In a sequence without duplicates the first position of `xs[i]` is `i`. */
  lemma IndexOfDistinct<T>(xs: seq<T>, i: nat)
    requires i < |xs|
    requires NoDuplicates(xs)
    ensures IndexOf(xs, xs[i]) == Some(i)
  {
  }

  /** `query.filter(p).first()`: the first element satisfying `p`. */
  function First<T>(xs: seq<T>, p: T -> bool): (r: Option<T>)
    ensures r.None? <==> forall k :: 0 <= k < |xs| ==> !p(xs[k])
    ensures r.Some? ==> exists i :: 0 <= i < |xs| && xs[i] == r.value && p(xs[i]) && forall k :: 0 <= k < i ==> !p(xs[k])
  {
    FirstFrom(xs, p, 0)
  }

  /** The scan behind `First`, from position `start` on. */
  function FirstFrom<T>(xs: seq<T>, p: T -> bool, start: nat): (r: Option<T>)
    requires start <= |xs|
    ensures r.None? <==> forall k :: start <= k < |xs| ==> !p(xs[k])
    ensures r.Some? ==> exists i :: start <= i < |xs| && xs[i] == r.value && p(xs[i]) && forall k :: start <= k < i ==> !p(xs[k])
    decreases |xs| - start
  {
    if start == |xs| then None
    else if p(xs[start]) then Some(xs[start])
    else FirstFrom(xs, p, start + 1)
  }

  /** `First` returns the element at the first position satisfying `p`. */
  lemma FirstAt<T>(xs: seq<T>, p: T -> bool, i: nat)
    requires i < |xs| && p(xs[i])
    requires forall k :: 0 <= k < i ==> !p(xs[k])
    ensures First(xs, p) == Some(xs[i])
  {
    FirstFromAt(xs, p, 0, i);
  }

  lemma {:induction false} FirstFromAt<T>(xs: seq<T>, p: T -> bool, start: nat, i: nat)
    requires start <= i < |xs| && p(xs[i])
    requires forall k :: start <= k < i ==> !p(xs[k])
    ensures FirstFrom(xs, p, start) == Some(xs[i])
    decreases i - start
  {
    if start < i {
      FirstFromAt(xs, p, start + 1, i);
    }
  }

  /** Two tests that agree on every element find the same first element. */
  lemma FirstCongruent<T>(xs: seq<T>, p: T -> bool, q: T -> bool)
    requires forall k :: 0 <= k < |xs| ==> p(xs[k]) == q(xs[k])
    ensures First(xs, p) == First(xs, q)
  {
    if First(xs, p).Some? {
      var i :| 0 <= i < |xs| && xs[i] == First(xs, p).value && p(xs[i]) && forall k :: 0 <= k < i ==> !p(xs[k]);
      FirstAt(xs, q, i);
    }
  }

  /** `query.filter(p).all()`: the elements satisfying `p`, in store order. */
  function Filter<T(!new)>(xs: seq<T>, p: T -> bool): (r: seq<T>)
    ensures |r| <= |xs|
    ensures forall x :: x in r <==> x in xs && p(x)
  {
    if xs == [] then []
    else
      var init := xs[..|xs| - 1];
      assert xs == init + [xs[|xs| - 1]];
      Filter(init, p) + (if p(xs[|xs| - 1]) then [xs[|xs| - 1]] else [])
  }

  /**
   * The loop `for x in xs: y = f(x); if y: results.append(y)`: every `Some`
   * produced by `f`, in the order of `xs`.
   */
  function FilterMap<A, B>(xs: seq<A>, f: A -> Option<B>): (r: seq<B>)
    ensures |r| <= |xs|
  {
    if xs == [] then []
    else FilterMap(xs[..|xs| - 1], f) + (match f(xs[|xs| - 1]) case Some(y) => [y] case None => [])
  }

  /** The loop collects exactly what `f` finds in some element. */
  lemma {:induction false} FilterMapMembership<A, B>(xs: seq<A>, f: A -> Option<B>, y: B)
    ensures y in FilterMap(xs, f) <==> exists k :: 0 <= k < |xs| && f(xs[k]) == Some(y)
  {
    if xs != [] {
      var n := |xs| - 1;
      var init := xs[..n];
      var tail := match f(xs[n]) case Some(z) => [z] case None => [];
      assert FilterMap(xs, f) == FilterMap(init, f) + tail;
      FilterMapMembership(init, f, y);
      if y in FilterMap(init, f) {
        var k :| 0 <= k < |init| && f(init[k]) == Some(y);
        assert xs[k] == init[k];
      } else if y in tail {
        assert f(xs[n]) == Some(y);
      }
      if exists k :: 0 <= k < |xs| && f(xs[k]) == Some(y) {
        var k :| 0 <= k < |xs| && f(xs[k]) == Some(y);
        if k < n {
          assert init[k] == xs[k];
        } else {
          assert y in tail;
        }
      }
    }
  }

  /** One more loop iteration extends the collected results by what `f` finds in `x`. */
  lemma FilterMapSnoc<A, B>(xs: seq<A>, x: A, f: A -> Option<B>)
    ensures FilterMap(xs + [x], f) == FilterMap(xs, f) + (match f(x) case Some(y) => [y] case None => [])
  {
    assert (xs + [x])[..|xs + [x]| - 1] == xs;
  }

  /** The two loops over `xs` and over its prefix of length `i + 1` differ by one step. */
  lemma FilterMapPrefix<A, B>(xs: seq<A>, i: nat, f: A -> Option<B>)
    requires i < |xs|
    ensures FilterMap(xs[..i + 1], f) == FilterMap(xs[..i], f) + (match f(xs[i]) case Some(y) => [y] case None => [])
  {
    assert xs[..i + 1] == xs[..i] + [xs[i]];
    FilterMapSnoc(xs[..i], xs[i], f);
  }

  /** When `f` finds something in every element the loop keeps one result per element, in order. */
  lemma {:induction false} FilterMapTotal<A, B>(xs: seq<A>, f: A -> Option<B>)
    requires forall k :: 0 <= k < |xs| ==> f(xs[k]).Some?
    ensures |FilterMap(xs, f)| == |xs|
    ensures forall k :: 0 <= k < |xs| ==> FilterMap(xs, f)[k] == f(xs[k]).value
  {
    if xs != [] {
      var init := xs[..|xs| - 1];
      FilterMapTotal(init, f);
      assert forall k :: 0 <= k < |init| ==> init[k] == xs[k];
    }
  }

  /** Results keep the order of the elements they come from. */
  lemma {:induction false} FilterMapOrder<A, B>(xs: seq<A>, f: A -> Option<B>, p: nat, q: nat)
    requires p < q < |xs| && f(xs[p]).Some? && f(xs[q]).Some?
    ensures exists i, j :: 0 <= i < j < |FilterMap(xs, f)|
                           && FilterMap(xs, f)[i] == f(xs[p]).value && FilterMap(xs, f)[j] == f(xs[q]).value
  {
    var init := xs[..|xs| - 1];
    var r0 := FilterMap(init, f);
    assert init[p] == xs[p];
    if q == |xs| - 1 {
      FilterMapMembership(init, f, f(xs[p]).value);
      var i :| 0 <= i < |r0| && r0[i] == f(xs[p]).value by {
        assert f(init[p]) == Some(f(xs[p]).value);
      }
      assert FilterMap(xs, f)[i] == r0[i];
      assert FilterMap(xs, f)[|r0|] == f(xs[q]).value;
    } else {
      assert init[q] == xs[q];
      FilterMapOrder(init, f, p, q);
      var i, j :| 0 <= i < j < |r0| && r0[i] == f(init[p]).value && r0[j] == f(init[q]).value;
      assert FilterMap(xs, f)[i] == r0[i] && FilterMap(xs, f)[j] == r0[j];
    }
  }

  /** Running the loop over `a` and then over `b` is running it over `a + b`. */
  lemma {:induction false} FilterMapAppend<A, B>(a: seq<A>, b: seq<A>, f: A -> Option<B>)
    ensures FilterMap(a + b, f) == FilterMap(a, f) + FilterMap(b, f)
    decreases |b|
  {
    if b == [] {
      assert a + b == a;
    } else {
      var init := b[..|b| - 1];
      var ab := a + b;
      assert ab[..|ab| - 1] == a + init;
      assert ab[|ab| - 1] == b[|b| - 1];
      FilterMapAppend(a, init, f);
    }
  }

  /** Filtering by `p` and mapping each survivor is a FilterMap. */
  lemma FilterThenMap<A(!new), B(!new)>(xs: seq<A>, p: A -> bool, g: A -> B, f: A -> Option<B>)
    requires forall x :: f(x) == (if p(x) then Some(g(x)) else None)
    ensures |FilterMap(xs, f)| == |Filter(xs, p)|
    ensures forall k :: 0 <= k < |Filter(xs, p)| ==> FilterMap(xs, f)[k] == g(Filter(xs, p)[k])
  {
    if xs != [] {
      var init := xs[..|xs| - 1];
      FilterThenMap(init, p, g, f);
    }
  }

  /** Nested loops that append, for each `x` of `xs` in order, everything `f(x)` produces. */
  function FlatMap<A, B>(xs: seq<A>, f: A -> seq<B>): seq<B>
  {
    if xs == [] then [] else FlatMap(xs[..|xs| - 1], f) + f(xs[|xs| - 1])
  }

  /** What the nested loops produce is exactly what some `f(x)` produces. */
  lemma {:induction false} FlatMapMembership<A, B>(xs: seq<A>, f: A -> seq<B>, y: B)
    ensures y in FlatMap(xs, f) <==> exists k :: 0 <= k < |xs| && y in f(xs[k])
  {
    if xs != [] {
      var init := xs[..|xs| - 1];
      FlatMapMembership(init, f, y);
      if y in FlatMap(init, f) {
        var k :| 0 <= k < |init| && y in f(init[k]);
        assert xs[k] == init[k];
      }
      if exists k :: 0 <= k < |xs| && y in f(xs[k]) {
        var k :| 0 <= k < |xs| && y in f(xs[k]);
        if k < |init| { assert init[k] == xs[k]; }
      }
    }
  }

  /** The loops over `xs[..i + 1]` and over `xs[..i]` differ by what `f(xs[i])` appends. */
  lemma FlatMapPrefix<A, B>(xs: seq<A>, i: nat, f: A -> seq<B>)
    requires i < |xs|
    ensures FlatMap(xs[..i + 1], f) == FlatMap(xs[..i], f) + f(xs[i])
  {
    assert xs[..i + 1][..i] == xs[..i];
  }

  /** The values of `f` at 0, 1, ..., n - 1, built one position at a time. */
  function Generate<T>(n: nat, f: nat -> T): (r: seq<T>)
    ensures |r| == n
  {
    if n == 0 then [] else Generate(n - 1, f) + [f(n - 1)]
  }

  lemma {:induction false} GenerateAt<T>(n: nat, f: nat -> T, k: nat)
    requires k < n
    ensures Generate(n, f)[k] == f(k)
  {
    if k < n - 1 {
      GenerateAt(n - 1, f, k);
    }
  }

  /** Appending in two steps is appending once; stated so that loops extending a result need not prove it element by element. */
  lemma AppendAssoc<T>(a: seq<T>, b: seq<T>, c: seq<T>)
    ensures (a + b) + c == a + (b + c)
  {
  }

  /** `query.offset(skip).limit(limit).all()`. */
  function Page<T>(xs: seq<T>, skip: nat, limit: nat): (r: seq<T>)
    ensures |r| == if skip >= |xs| then 0 else Min(limit, |xs| - skip)
    ensures forall k :: 0 <= k < |r| ==> r[k] == xs[skip + k]
  {
    if skip >= |xs| then [] else xs[skip..skip + Min(limit, |xs| - skip)]
  }

  /** `SELECT DISTINCT`: each value once, in order of first occurrence. */
  function Dedup<T(==,!new)>(xs: seq<T>): (r: seq<T>)
    ensures NoDuplicates(r)
    ensures forall x :: x in r <==> x in xs
  {
    if xs == [] then []
    else
      var init := xs[..|xs| - 1];
      var last := xs[|xs| - 1];
      assert xs == init + [last];
      var d := Dedup(init);
      if last in d then d else d + [last]
  }

  /** One more element is kept exactly when it is new. */
  lemma DedupSnoc<T(!new)>(xs: seq<T>, x: T)
    ensures Dedup(xs + [x]) == if x in Dedup(xs) then Dedup(xs) else Dedup(xs) + [x]
  {
    assert (xs + [x])[..|xs|] == xs;
  }

  /**
   * `[t[0] for t in query(column).distinct().all() if t[0]]`: the distinct
   * values of a nullable text column, leaving out NULL and the empty string.
   */
  function DistinctNonEmpty(vals: seq<Option<string>>): (r: seq<string>)
    ensures NoDuplicates(r)
    ensures forall t :: t in r <==> t != "" && Some(t) in vals
  {
    var d := Dedup(vals);
    var r := FilterMap(d, NonEmptyText);
    FilterMapInjective(d, NonEmptyText);
    assert forall t :: t in r <==> t != "" && Some(t) in vals by {
      forall t ensures t in r <==> t != "" && Some(t) in vals {
        FilterMapMembership(d, NonEmptyText, t);
      }
    }
    r
  }

  /** The truth test `if t` applied to a nullable text value. */
  function NonEmptyText(v: Option<string>): Option<string>
  {
    if v.Some? && v.value != "" then v else None
  }

  /** A FilterMap whose function is injective on its `Some` results keeps a duplicate-free input duplicate-free. */
  lemma FilterMapInjective(xs: seq<Option<string>>, f: Option<string> -> Option<string>)
    requires NoDuplicates(xs)
    requires f == NonEmptyText
    ensures NoDuplicates(FilterMap(xs, f))
  {
    if xs != [] {
      var init := xs[..|xs| - 1];
      var last := xs[|xs| - 1];
      assert xs == init + [last];
      FilterMapInjective(init, f);
      var r0 := FilterMap(init, f);
      if f(last).Some? {
        assert last !in init;
        forall y | y in r0 ensures y != f(last).value {
          FilterMapMembership(init, f, y);
          var k :| 0 <= k < |init| && f(init[k]) == Some(y);
          assert init[k] != last;
        }
        var r := FilterMap(xs, f);
        assert r == r0 + [f(last).value];
        forall i, j | 0 <= i < j < |r| ensures r[i] != r[j] {
          if j == |r0| { assert r[i] in r0; }
          else { assert r[i] == r0[i] && r[j] == r0[j]; }
        }
      }
    }
  }
}
