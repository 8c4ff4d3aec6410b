/** The index pairs visited by the nested loops
    `for (i = 0; i < n; i++) for (j = i + 1; j < n; j++)`, which three places of
    the dashboard use to enumerate unordered pairs of exchanges. */
module Pairs {
  import opened Seqs

  type Pair = (nat, nat)

  /** The pairs of row `i`: (i, i+1), ..., (i, n-1). */
  function Row(i: nat, n: nat): seq<Pair> {
    seq(if i < n then n - i - 1 else 0, k => (i, i + 1 + k))
  }

  /** The rows 0 .. i-1 one after the other: what the loops have emitted when
      the outer loop reaches row `i`. */
  function RowsBefore(i: nat, n: nat): (r: seq<Pair>)
    requires i <= n
    ensures forall k :: 0 <= k < |r| ==> r[k].0 < i && r[k].0 < r[k].1 < n
  {
    if i == 0 then [] else RowsBefore(i - 1, n) + Row(i - 1, n)
  }

  /** Row i - 1 follows the rows before it. */
  lemma RowsBeforeSnoc(i: nat, n: nat)
    requires 0 < i <= n
    ensures RowsBefore(i, n) == RowsBefore(i - 1, n) + Row(i - 1, n)
  {
  }

  /** Rows 0 .. i-1 hold (n-1) + (n-2) + ... + (n-i) pairs. */
  lemma {:induction false} RowsBeforeLength(i: nat, n: nat)
    requires i <= n
    ensures 2 * |RowsBefore(i, n)| == i * (2 * n - 1 - i)
  {
    if i > 0 {
      RowsBeforeLength(i - 1, n);
      assert |RowsBefore(i, n)| == |RowsBefore(i - 1, n)| + (n - i);
      CountStep(i - 1, n);
    }
  }

  /** One more row of n - 1 - a pairs: a(2n - 1 - a) + 2(n - 1 - a) = (a + 1)(2n - 2 - a). */
  lemma CountStep(a: int, n: int)
    ensures a * (2 * n - 1 - a) + 2 * (n - 1 - a) == (a + 1) * (2 * n - 2 - a)
  {
    assert (a + 1) * (2 * n - 2 - a) == a * (2 * n - 2 - a) + (2 * n - 2 - a);
    assert a * (2 * n - 2 - a) == a * (2 * n - 1 - a) - a;
  }

  /** Every pair, in the order the loops emit them. */
  function AllPairs(n: nat): (r: seq<Pair>)
    ensures forall k :: 0 <= k < |r| ==> r[k].0 < r[k].1 < n
  {
    RowsBefore(n, n)
  }

  /** The loops emit n(n-1)/2 pairs. */
  lemma AllPairsCount(n: nat)
    ensures |AllPairs(n)| == n * (n - 1) / 2
  {
    RowsBeforeLength(n, n);
  }

  /** Lexicographic order on pairs: row first, then column. */
  predicate Before(p: Pair, q: Pair) {
    p.0 < q.0 || (p.0 == q.0 && p.1 < q.1)
  }

  /** Strictly increasing in the lexicographic order. */
  ghost predicate Sorted(r: seq<Pair>) {
    forall a, b :: 0 <= a < b < |r| ==> Before(r[a], r[b])
  }

  /** The rows come out in strictly increasing lexicographic order. */
  lemma {:induction false} RowsSorted(i: nat, n: nat)
    requires i <= n
    ensures Sorted(RowsBefore(i, n))
  {
    if i > 0 {
      RowsSorted(i - 1, n);
      var r0 := RowsBefore(i - 1, n);
      var r := RowsBefore(i, n);
      assert r == r0 + Row(i - 1, n);
      forall a, b | 0 <= a < b < |r| ensures Before(r[a], r[b]) {
        if b < |r0| {
          assert r[a] == r0[a] && r[b] == r0[b];
        } else if a >= |r0| {
          assert r[a] == (i - 1, i + a - |r0|) && r[b] == (i - 1, i + b - |r0|);
        } else {
          assert r[a] == r0[a] && r[b].0 == i - 1;
        }
      }
    }
  }

  /** The loops emit the pairs in strictly increasing lexicographic order, so
      no pair is emitted twice. */
  lemma AllPairsSorted(n: nat)
    ensures Sorted(AllPairs(n))
    ensures var r := AllPairs(n); forall a, b :: 0 <= a < |r| && 0 <= b < |r| && r[a] == r[b] ==> a == b
  {
    RowsSorted(n, n);
  }

  /** Every pair x < y of rows before `i` is emitted. */
  lemma {:induction false} RowsComplete(i: nat, n: nat, x: nat, y: nat)
    requires i <= n && x < i && x < y < n
    ensures (x, y) in RowsBefore(i, n)
  {
    var r0 := RowsBefore(i - 1, n);
    assert RowsBefore(i, n) == r0 + Row(i - 1, n);
    if x < i - 1 {
      RowsComplete(i - 1, n, x, y);
    } else {
      assert Row(i - 1, n)[y - x - 1] == (x, y);
    }
  }

  /** Every pair x < y < n is emitted, exactly once. */
  lemma AllPairsExactlyOnce(n: nat, x: nat, y: nat)
    requires x < y < n
    ensures exists k :: 0 <= k < |AllPairs(n)| && AllPairs(n)[k] == (x, y)
    ensures forall a, b :: 0 <= a < |AllPairs(n)| && 0 <= b < |AllPairs(n)| && AllPairs(n)[a] == (x, y) && AllPairs(n)[b] == (x, y) ==> a == b
  {
    RowsComplete(n, n, x, y);
    AllPairsSorted(n);
    var r := AllPairs(n);
    assert (x, y) in r;
    var k :| 0 <= k < |r| && r[k] == (x, y);
  }

  /** The pair has index `x` at one end. */
  predicate HasEnd(p: Pair, x: nat) {
    p.0 == x || p.1 == x
  }

  /** How many pairs of row `r` have `x` at one end. */
  lemma RowTouches(r: nat, n: nat, x: nat)
    requires r < n && x < n
    ensures |Filter(Row(r, n), (p: Pair) => HasEnd(p, x))| == if r == x then n - 1 - r else if r < x then 1 else 0
  {
    var row := Row(r, n);
    var p := (q: Pair) => HasEnd(q, x);
    if r == x {
      FilterAll(row, p);
    } else if r > x {
      FilterNone(row, p);
    } else {
      var k := x - r - 1;
      assert row == row[..k] + [row[k]] + row[k + 1..];
      FilterNone(row[..k], p);
      FilterNone(row[k + 1..], p);
      FilterAppend(row[..k] + [row[k]], row[k + 1..], p);
      FilterAppend(row[..k], [row[k]], p);
      assert Filter([row[k]], p) == [row[k]];
    }
  }

  /** How many pairs of the rows before `i` have `x` at one end. */
  lemma {:induction false} RowsTouch(i: nat, n: nat, x: nat)
    requires i <= n && x < n
    ensures |Filter(RowsBefore(i, n), (p: Pair) => HasEnd(p, x))| == if i <= x then i else n - 1
  {
    if i > 0 {
      RowsBeforeSnoc(i, n);
      RowsTouch(i - 1, n, x);
      RowTouches(i - 1, n, x);
      FilterAppendLength(RowsBefore(i, n), RowsBefore(i - 1, n), Row(i - 1, n), (p: Pair) => HasEnd(p, x));
    }
  }

  /** Each index below n is an end of exactly n - 1 of the emitted pairs. */
  lemma AllPairsTouch(n: nat, x: nat)
    requires x < n
    ensures |Filter(AllPairs(n), (p: Pair) => HasEnd(p, x))| == n - 1
  {
    RowsTouch(n, n, x);
  }

  /** With fewer than two items there is no pair. */
  lemma NoPairsBelowTwo(n: nat)
    requires n <= 1
    ensures AllPairs(n) == []
  {
  }
}
