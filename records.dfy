/**
 * One row of the bank-card statement, as the views, the report and the
 * keyword search read it. Only the columns the core looks at are kept:
 *   date        "Дата операции", as seconds since the epoch
 *   amount      "Сумма операции", in whole rubles (negative = spend)
 *   category    "Категория", absent when the cell is empty
 *   description "Описание", absent when the cell is empty
 *   card        "Номер карты", absent when the operation has no card
 */
module Records {
  import opened Wrappers

  datatype Transaction = Transaction(
    date: int,
    amount: int,
    category: Option<string>,
    description: Option<string>,
    card: Option<string>)

  /** Sum of the amounts of `s`, folded from the left as a `for` loop adds them. */
  function SumAmounts(s: seq<Transaction>): int
  {
    if s == [] then 0 else SumAmounts(s[..|s| - 1]) + s[|s| - 1].amount
  }

  /** Appending one record adds its amount to the sum. */
  lemma SumAmountsSnoc(s: seq<Transaction>, x: Transaction)
    ensures SumAmounts(s + [x]) == SumAmounts(s) + x.amount
  {
    assert (s + [x])[..|s|] == s;
  }

  /** The sum depends only on which records there are, not on their order. */
  lemma {:induction false} SumAmountsPermutation(s: seq<Transaction>, t: seq<Transaction>)
    requires multiset(s) == multiset(t)
    ensures SumAmounts(s) == SumAmounts(t)
    decreases |s|
  {
    if s != [] {
      var x := s[|s| - 1];
      assert x in multiset(t);
      var k :| 0 <= k < |t| && t[k] == x;
      var t' := t[..k] + t[k + 1..];
      assert t == t[..k] + [x] + t[k + 1..];
      assert s == s[..|s| - 1] + [x];
      assert multiset(t) == multiset(t[..k]) + multiset{x} + multiset(t[k + 1..]);
      assert multiset(t') == multiset(t[..k]) + multiset(t[k + 1..]);
      assert multiset(s) == multiset(s[..|s| - 1]) + multiset{x};
      assert multiset(s[..|s| - 1]) == multiset(s) - multiset{x} == multiset(t) - multiset{x} == multiset(t');
      SumAmountsPermutation(s[..|s| - 1], t');
      SumAmountsMoveToEnd(t[..k], x, t[k + 1..]);
      assert t' + [x] == t[..k] + t[k + 1..] + [x];
      SumAmountsSnoc(t', x);
    }
  }

  /** Moving one record to the end does not change the sum. */
  lemma {:induction false} SumAmountsMoveToEnd(a: seq<Transaction>, x: Transaction, b: seq<Transaction>)
    ensures SumAmounts(a + [x] + b) == SumAmounts(a + b + [x])
    decreases |b|
  {
    if b == [] {
      assert a + [x] + b == a + b + [x];
    } else {
      var b' := b[..|b| - 1];
      var y := b[|b| - 1];
      assert a + [x] + b == (a + [x] + b') + [y];
      assert a + b + [x] == (a + b' + [y]) + [x];
      SumAmountsSnoc(a + [x] + b', y);
      SumAmountsSnoc(a + b' + [y], x);
      SumAmountsSnoc(a + b', y);
      SumAmountsSnoc(a + b', x);
      SumAmountsMoveToEnd(a, x, b');
      assert (a + b' + [x]) == (a + b') + [x];
    }
  }
}
