/** Python list semantics that the game engine depends on: indexing with
    negative indices, slicing with clamped bounds, and the two helpers that
    look for a winning run (`get_sublists` and `check_all_equal`, written
    identically in both game files). */
module PyList {
  import opened Base

  /** `s[i]`: a negative index counts from the end; None stands for IndexError. */
  function PyIndex<T>(s: seq<T>, i: int): Option<T>
  {
    if 0 <= i < |s| then Some(s[i])
    else if -|s| <= i < 0 then Some(s[|s| + i])
    else None
  }

  /** Where a bound `i` of a slice with step 1 lands in a sequence of length n. */
  function SliceBound(i: int, n: nat): (b: nat)
    ensures b <= n
    ensures 0 <= i <= n ==> b == i
  {
    if i < 0 then (if i + n < 0 then 0 else i + n)
    else if i > n then n
    else i
  }

  /** `s[i:j]`: never raises; the bounds are clamped first. */
  function PySlice<T>(s: seq<T>, i: int, j: int): (r: seq<T>)
    ensures 0 <= i <= j <= |s| ==> r == s[i..j]
    ensures |r| == Max(0, SliceBound(j, |s|) - SliceBound(i, |s|))
  {
    var a, b := SliceBound(i, |s|), SliceBound(j, |s|);
    if a < b then s[a..b] else []
  }

  /** `get_sublists(vec, length)`: the slices `vec[i:i+length]` for every i in
      `range(len(vec) - length + 1)`. For a length of at least 0 they are the
      contiguous pieces of exactly that length, in order. */
  function Sublists(vec: seq<int>, length: int): (r: seq<seq<int>>)
    ensures |r| == Max(0, |vec| - length + 1)
    ensures length >= 0 ==> forall i :: 0 <= i < |r| ==> r[i] == vec[i..i + length]
  {
    var r := seq(Max(0, |vec| - length + 1), i => PySlice(vec, i, i + length));
    forall i | 0 <= i < |r| && length >= 0
      ensures r[i] == vec[i..i + length]
    {
      assert r[i] == PySlice(vec, i, i + length);
    }
    r
  }

  /** `check_all_equal(vec)` (`check_all_equal_is_winner` in connectz.py):
      `len(set(vec)) <= 1 and 0 not in set(vec)`. */
  function AllEqualNonZero(vec: seq<int>): bool
  {
    var unique := set k | 0 <= k < |vec| :: vec[k];
    |unique| <= 1 && 0 !in unique
  }

  /** The set test means: every element is the same, and none of them is 0.
      In particular the empty slice passes. */
  lemma AllEqualNonZeroIff(vec: seq<int>)
    ensures AllEqualNonZero(vec) <==>
      (forall i, j :: 0 <= i < |vec| && 0 <= j < |vec| ==> vec[i] == vec[j]) &&
      (forall i :: 0 <= i < |vec| ==> vec[i] != 0)
  {
    var unique := set k | 0 <= k < |vec| :: vec[k];
    if forall i, j :: 0 <= i < |vec| && 0 <= j < |vec| ==> vec[i] == vec[j] {
      if |vec| > 0 {
        assert unique == {vec[0]};
      } else {
        assert unique == {};
      }
    } else {
      var i, j :| 0 <= i < |vec| && 0 <= j < |vec| && vec[i] != vec[j];
      assert {vec[i], vec[j]} <= unique;
      assert |{vec[i], vec[j]}| == 2;
      SubsetCard({vec[i], vec[j]}, unique);
    }
  }

  lemma SubsetCard(a: set<int>, b: set<int>)
    requires a <= b
    ensures |a| <= |b|
  {
    assert b == a + (b - a);
    assert a * (b - a) == {};
  }

  /** `sum(len(c) for c in grid)`. */
  function SumLengths(grid: seq<seq<int>>): nat
  {
    if |grid| == 0 then 0 else SumLengths(grid[..|grid| - 1]) + |grid[|grid| - 1]|
  }

  /** With every column at most `height` long, the sum reaches
      `len(grid) * height` exactly when every column is `height` long. */
  lemma {:induction false} SumLengthsFull(grid: seq<seq<int>>, height: nat)
    requires forall c :: 0 <= c < |grid| ==> |grid[c]| <= height
    ensures SumLengths(grid) <= |grid| * height
    ensures SumLengths(grid) == |grid| * height <==> forall c :: 0 <= c < |grid| ==> |grid[c]| == height
  {
    if |grid| > 0 {
      var n := |grid|;
      var front := grid[..n - 1];
      SumLengthsFull(front, height);
      assert n * height == (n - 1) * height + height;
      assert forall c :: 0 <= c < n - 1 ==> front[c] == grid[c];
    }
  }
}
