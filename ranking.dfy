/**
 * The ordering `top_5_transactions` puts the caller's list in:
 * `data.sort(key=amount, reverse=True)`, a stable sort by amount, largest
 * first, in which records of equal amount keep their original order.
 *
 * `SortedByAmount` is the specification (an insertion sort on sequences);
 * `SortByAmount` is the in-place sort on an array proved to produce it.
 */
module Ranking {
  import opened Records

  /** Non-increasing by amount. */
  ghost predicate NonIncreasing(s: seq<Transaction>)
  {
    forall i, j :: 0 <= i < j < |s| ==> s[i].amount >= s[j].amount
  }

  /** The records of `s` whose amount is `v`, in the order of `s`. */
  function WithAmount(s: seq<Transaction>, v: int): seq<Transaction>
  {
    if s == [] then []
    else WithAmount(s[..|s| - 1], v) + (if s[|s| - 1].amount == v then [s[|s| - 1]] else [])
  }

  /**
   * Inserts `x` into `t` just after the last of the trailing run of records
   * whose amount is smaller than `x`'s: seen from the right, `x` moves left
   * past smaller amounts and stops at the first amount at least as large.
   */
  function InsertByAmount(t: seq<Transaction>, x: Transaction): seq<Transaction>
  {
    if t == [] || t[|t| - 1].amount >= x.amount then t + [x]
    else InsertByAmount(t[..|t| - 1], x) + [t[|t| - 1]]
  }

  /** Stable sort of `s` by amount, largest first. */
  function SortedByAmount(s: seq<Transaction>): seq<Transaction>
  {
    if s == [] then [] else InsertByAmount(SortedByAmount(s[..|s| - 1]), s[|s| - 1])
  }

  lemma WithAmountConcat(a: seq<Transaction>, b: seq<Transaction>, v: int)
    ensures WithAmount(a + b, v) == WithAmount(a, v) + WithAmount(b, v)
    decreases |b|
  {
    if b != [] {
      assert (a + b)[..|a + b| - 1] == a + b[..|b| - 1];
      WithAmountConcat(a, b[..|b| - 1], v);
    } else {
      assert a + b == a;
    }
  }

  lemma {:induction false} InsertByAmountMultiset(t: seq<Transaction>, x: Transaction)
    ensures multiset(InsertByAmount(t, x)) == multiset(t) + multiset{x}
    decreases |t|
  {
    if t == [] || t[|t| - 1].amount >= x.amount {
    } else {
      InsertByAmountMultiset(t[..|t| - 1], x);
      assert t == t[..|t| - 1] + [t[|t| - 1]];
    }
  }

  /** Inserting `x` appends it to the records of its own amount and leaves the others' order alone. */
  lemma {:induction false} InsertByAmountStable(t: seq<Transaction>, x: Transaction, v: int)
    ensures WithAmount(InsertByAmount(t, x), v) == WithAmount(t, v) + WithAmount([x], v)
    decreases |t|
  {
    if t == [] || t[|t| - 1].amount >= x.amount {
      WithAmountConcat(t, [x], v);
    } else {
      var t', y := t[..|t| - 1], t[|t| - 1];
      InsertByAmountStable(t', x, v);
      WithAmountConcat(InsertByAmount(t', x), [y], v);
      WithAmountConcat(t', [y], v);
      assert t == t' + [y];
      assert [y][..0] == [] && [x][..0] == [];
    }
  }

  lemma {:induction false} InsertByAmountSorted(t: seq<Transaction>, x: Transaction)
    requires NonIncreasing(t)
    ensures NonIncreasing(InsertByAmount(t, x))
    decreases |t|
  {
    if t == [] || t[|t| - 1].amount >= x.amount {
    } else {
      var t', y := t[..|t| - 1], t[|t| - 1];
      InsertByAmountSorted(t', x);
      InsertByAmountMultiset(t', x);
      var u := InsertByAmount(t', x);
      forall i | 0 <= i < |u| ensures u[i].amount >= y.amount {
        assert u[i] in multiset(u);
        assert u[i] in multiset(t') || u[i] == x;
      }
    }
  }

  /** The sort only reorders: same records, same multiplicities. */
  lemma {:induction false} SortedByAmountPermutation(s: seq<Transaction>)
    ensures multiset(SortedByAmount(s)) == multiset(s)
    ensures |SortedByAmount(s)| == |s|
    decreases |s|
  {
    if s != [] {
      SortedByAmountPermutation(s[..|s| - 1]);
      InsertByAmountMultiset(SortedByAmount(s[..|s| - 1]), s[|s| - 1]);
      assert s == s[..|s| - 1] + [s[|s| - 1]];
    }
    assert |SortedByAmount(s)| == |multiset(SortedByAmount(s))|;
  }

  /** Largest amount first. */
  lemma {:induction false} SortedByAmountNonIncreasing(s: seq<Transaction>)
    ensures NonIncreasing(SortedByAmount(s))
    decreases |s|
  {
    if s != [] {
      SortedByAmountNonIncreasing(s[..|s| - 1]);
      InsertByAmountSorted(SortedByAmount(s[..|s| - 1]), s[|s| - 1]);
    }
  }

  /** Stability: records of equal amount keep their original relative order. */
  lemma {:induction false} SortedByAmountStable(s: seq<Transaction>, v: int)
    ensures WithAmount(SortedByAmount(s), v) == WithAmount(s, v)
    decreases |s|
  {
    if s != [] {
      var s', x := s[..|s| - 1], s[|s| - 1];
      SortedByAmountStable(s', v);
      InsertByAmountStable(SortedByAmount(s'), x, v);
      WithAmountConcat(s', [x], v);
      assert s == s' + [x];
      assert [x][..0] == [];
    }
  }

  /**
   * Sorts `a` in place, by amount, largest first, stably (an insertion
   * sort): the same result as `list.sort(key=..., reverse=True)` for this key.
   */
  method SortByAmount(a: array<Transaction>)
    modifies a
    ensures a[..] == SortedByAmount(old(a[..]))
  {
    ghost var s := a[..];
    var i := 0;
    while i < a.Length
      invariant 0 <= i <= a.Length
      invariant a[..i] == SortedByAmount(s[..i])
      invariant a[i..] == s[i..]
    {
      assert a[i] == a[i..][0] == s[i];
      assert a[i + 1..] == a[i..][1..];
      InsertAt(a, i);
      SortedByAmountPrefix(s, i);
      i := i + 1;
    }
    assert s[..a.Length] == s;
  }

  /** Sorting one more element of `s` inserts it into the sorted shorter prefix. */
  lemma SortedByAmountPrefix(s: seq<Transaction>, i: int)
    requires 0 <= i < |s|
    ensures SortedByAmount(s[..i + 1]) == InsertByAmount(SortedByAmount(s[..i]), s[i])
  {
    assert s[..i + 1][..i] == s[..i];
  }

  /** Moves `a[i]` left into the sorted prefix `a[..i]`. */
  method InsertAt(a: array<Transaction>, i: int)
    requires 0 <= i < a.Length
    modifies a
    ensures a[..i + 1] == InsertByAmount(old(a[..i]), old(a[i]))
    ensures a[i + 1..] == old(a[i + 1..])
  {
    ghost var t := a[..i];
    var x := a[i];
    var j := i;
    while j > 0 && a[j - 1].amount < x.amount
      invariant 0 <= j <= i
      invariant forall k :: 0 <= k < j ==> a[k] == t[k]
      invariant forall k :: j < k <= i ==> a[k] == t[k - 1]
      invariant forall k :: i < k < a.Length ==> a[k] == old(a[k])
      invariant forall k :: j <= k < i ==> t[k].amount < x.amount
    {
      a[j] := a[j - 1];
      j := j - 1;
    }
    a[j] := x;
    InsertByAmountAt(t, x, j);
    assert a[..i + 1] == t[..j] + [x] + t[j..];
  }

  /**
   * `x` lands right after position `j` when every record from `j` on has a
   * smaller amount and the one before `j`, if any, does not.
   */
  lemma {:induction false} InsertByAmountAt(t: seq<Transaction>, x: Transaction, j: int)
    requires 0 <= j <= |t|
    requires j > 0 ==> t[j - 1].amount >= x.amount
    requires forall k :: j <= k < |t| ==> t[k].amount < x.amount
    ensures InsertByAmount(t, x) == t[..j] + [x] + t[j..]
    decreases |t|
  {
    if j == |t| {
      assert t[..j] == t && t[j..] == [];
    } else {
      var t' := t[..|t| - 1];
      InsertByAmountAt(t', x, j);
      assert t'[..j] == t[..j];
      assert t'[j..] + [t[|t| - 1]] == t[j..];
    }
  }
}
