/** The JavaScript array operations the components use (`filter`, `find`),
    as functions on sequences, with the facts about them the rest of the
    model relies on. */
module Seqs {

  datatype Option<+T> = None | Some(value: T)

  /** `a` is `b` with some elements removed and the rest left in order. */
  ghost predicate Subsequence<T>(a: seq<T>, b: seq<T>)
    decreases |b|
  {
    if a == [] then true
    else if b == [] then false
    else if a[|a| - 1] == b[|b| - 1] then Subsequence(a[..|a| - 1], b[..|b| - 1])
    else Subsequence(a, b[..|b| - 1])
  }

  /** `Array.prototype.filter`: the elements of `s` that satisfy `p`, in order. */
  function Filter<T(==)>(s: seq<T>, p: T -> bool): (r: seq<T>)
    ensures |r| <= |s|
    ensures forall i :: 0 <= i < |r| ==> p(r[i])
  {
    if s == [] then []
    else
      var init, last := s[..|s| - 1], s[|s| - 1];
      var r0 := Filter(init, p);
      if p(last) then r0 + [last] else r0
  }

  /** The kept elements are elements of `s`, every element of `s` that
      satisfies `p` is kept, and the kept ones stay in their order. */
  lemma {:induction false} FilterMembers<T>(s: seq<T>, p: T -> bool)
    ensures forall i :: 0 <= i < |Filter(s, p)| ==> Filter(s, p)[i] in s
    ensures forall i :: 0 <= i < |s| && p(s[i]) ==> s[i] in Filter(s, p)
    ensures Subsequence(Filter(s, p), s)
  {
    if s != [] {
      var init, last := s[..|s| - 1], s[|s| - 1];
      FilterMembers(init, p);
      assert s == init + [last];
      var r0 := Filter(init, p);
      if p(last) {
        assert (r0 + [last])[..|r0|] == r0;
      } else {
        assert r0 != [] ==> p(r0[|r0| - 1]);
      }
    }
  }

  /** Filtering keeps everything when every element passes. */
  lemma {:induction false} FilterAll<T>(s: seq<T>, p: T -> bool)
    requires forall i :: 0 <= i < |s| ==> p(s[i])
    ensures Filter(s, p) == s
  {
    if s != [] {
      var init := s[..|s| - 1];
      FilterAll(init, p);
      assert s == init + [s[|s| - 1]];
    }
  }

  /** Filtering keeps nothing when no element passes. */
  lemma FilterNone<T>(s: seq<T>, p: T -> bool)
    requires forall i :: 0 <= i < |s| ==> !p(s[i])
    ensures Filter(s, p) == []
  {
  }

  /** Filtering distributes over concatenation. */
  lemma {:induction false} FilterAppend<T>(a: seq<T>, b: seq<T>, p: T -> bool)
    ensures Filter(a + b, p) == Filter(a, p) + Filter(b, p)
    decreases |b|
  {
    if b == [] {
      assert a + b == a;
    } else {
      var init, last := b[..|b| - 1], b[|b| - 1];
      assert (a + b)[..|a + b| - 1] == a + init;
      assert (a + b)[|a + b| - 1] == last;
      FilterAppend(a, init, p);
    }
  }

  /** A run split in two keeps as many elements as its two parts together. */
  lemma FilterAppendLength<T>(whole: seq<T>, a: seq<T>, b: seq<T>, p: T -> bool)
    requires whole == a + b
    ensures |Filter(whole, p)| == |Filter(a, p)| + |Filter(b, p)|
  {
    FilterAppend(a, b, p);
  }

  /** Two sequences of equal length whose elements pass two predicates at the
      same positions keep equally many elements. */
  lemma {:induction false} FilterLengthPointwise<T, U>(s: seq<T>, p: T -> bool, t: seq<U>, q: U -> bool)
    requires |s| == |t|
    requires forall i :: 0 <= i < |s| ==> (p(s[i]) <==> q(t[i]))
    ensures |Filter(s, p)| == |Filter(t, q)|
  {
    if s != [] {
      var n := |s| - 1;
      FilterLengthPointwise(s[..n], p, t[..n], q);
      assert p(s[n]) <==> q(t[n]);
    }
  }

  /** Filtering with two predicates that agree on every element gives the same result. */
  lemma {:induction false} FilterExtensional<T>(s: seq<T>, p: T -> bool, q: T -> bool)
    requires forall i :: 0 <= i < |s| ==> p(s[i]) == q(s[i])
    ensures Filter(s, p) == Filter(s, q)
  {
    if s != [] {
      FilterExtensional(s[..|s| - 1], p, q);
    }
  }

  /** The lists `f(x)` of the elements `x` of `s`, one after the other. */
  function FlatMap<T, U>(s: seq<T>, f: T -> seq<U>): seq<U> {
    if s == [] then [] else FlatMap(s[..|s| - 1], f) + f(s[|s| - 1])
  }

  /** Flat-mapping two runs gives the results of each, in order. */
  lemma {:induction false} FlatMapAppend<T, U>(a: seq<T>, b: seq<T>, f: T -> seq<U>)
    ensures FlatMap(a + b, f) == FlatMap(a, f) + FlatMap(b, f)
    decreases |b|
  {
    if b == [] {
      assert a + b == a;
    } else {
      var init := b[..|b| - 1];
      assert (a + b)[..|a + b| - 1] == a + init;
      assert (a + b)[|a + b| - 1] == b[|b| - 1];
      FlatMapAppend(a, init, f);
    }
  }

  /** Flat-mapping one element gives its list. */
  lemma FlatMapOne<T, U>(x: T, f: T -> seq<U>)
    ensures FlatMap([x], f) == f(x)
  {
    assert [x][..0] == [];
  }

  /** At most one result per element gives at most |s| results; exactly one
      gives exactly |s|. */
  lemma {:induction false} FlatMapLength<T, U>(s: seq<T>, f: T -> seq<U>)
    ensures (forall i :: 0 <= i < |s| ==> |f(s[i])| <= 1) ==> |FlatMap(s, f)| <= |s|
    ensures (forall i :: 0 <= i < |s| ==> |f(s[i])| == 1) ==> |FlatMap(s, f)| == |s|
  {
    if s != [] {
      var init := s[..|s| - 1];
      FlatMapLength(init, f);
      assert forall i :: 0 <= i < |init| ==> init[i] == s[i];
    }
  }

  /** `y` is one of the results `f` gives for some element of `s`. */
  ghost predicate ResultOf<T, U>(s: seq<T>, f: T -> seq<U>, y: U) {
    exists k, j :: 0 <= k < |s| && 0 <= j < |f(s[k])| && y == f(s[k])[j]
  }

  /** Every result is one of the results of some element. */
  lemma {:induction false} FlatMapElements<T, U>(s: seq<T>, f: T -> seq<U>)
    ensures forall i :: 0 <= i < |FlatMap(s, f)| ==> ResultOf(s, f, FlatMap(s, f)[i])
  {
    if s != [] {
      var init, last := s[..|s| - 1], s[|s| - 1];
      FlatMapElements(init, f);
      var r0 := FlatMap(init, f);
      var r := r0 + f(last);
      assert FlatMap(s, f) == r;
      forall i | 0 <= i < |r| ensures ResultOf(s, f, r[i]) {
        if i < |r0| {
          assert ResultOf(init, f, r0[i]);
          var k, j :| 0 <= k < |init| && 0 <= j < |f(init[k])| && r0[i] == f(init[k])[j];
          assert init[k] == s[k] && r[i] == r0[i];
        } else {
          assert r[i] == f(s[|s| - 1])[i - |r0|];
        }
      }
    }
  }

  /** `Array.prototype.find`: the first element that satisfies `p`, if any. */
  function Find<T(==)>(s: seq<T>, p: T -> bool): (r: Option<T>)
    ensures r.None? <==> forall i :: 0 <= i < |s| ==> !p(s[i])
    ensures r.Some? ==> p(r.value)
    ensures r.Some? ==> exists i :: 0 <= i < |s| && s[i] == r.value && forall j :: 0 <= j < i ==> !p(s[j])
  {
    if s == [] then None
    else if p(s[0]) then
      Some(s[0])
    else
      var r := Find(s[1..], p);
      if r.Some? then
        var i :| 0 <= i < |s[1..]| && s[1..][i] == r.value && forall j :: 0 <= j < i ==> !p(s[1..][j]);
        assert s[i + 1] == r.value && forall j :: 0 <= j < i + 1 ==> !p(s[j]);
        r
      else r
  }
}
