/**
 * The category report: the operations of one category in the 90 days up to
 * a reference moment, with their amounts negated (spend shown positive),
 * keyed by row position, and their total. No qualifying row, no report.
 */
module Reports {
  import opened Wrappers
  import opened Records

  /** Seconds in a day; moments are seconds since the epoch. */
  const Day := 86400
  const WindowDays := 90

  /** Both ends inclusive: reference - 90 days <= date <= reference. */
  predicate InWindow(date: int, reference: int)
  {
    reference - WindowDays * Day <= date <= reference
  }

  /** The row mask: inside the window and of exactly this category (an empty cell never matches). */
  predicate Selected(row: Transaction, category: string, reference: int)
  {
    InWindow(row.date, reference) && row.category == Some(category)
  }

  /** The selected rows, in order. */
  function SelectRows(rows: seq<Transaction>, category: string, reference: int): (r: seq<Transaction>)
    ensures forall y :: y in r ==> y in rows && Selected(y, category, reference)
    ensures forall y :: y in rows && Selected(y, category, reference) ==> y in r
    ensures forall y :: multiset(r)[y] == if Selected(y, category, reference) then multiset(rows)[y] else 0
    ensures r == [] <==> forall y :: y in rows ==> !Selected(y, category, reference)
  {
    assert rows != [] ==> rows == rows[..|rows| - 1] + [rows[|rows| - 1]];
    if rows == [] then []
    else SelectRows(rows[..|rows| - 1], category, reference)
         + (if Selected(rows[|rows| - 1], category, reference) then [rows[|rows| - 1]] else [])
  }

  datatype Report = Report(amount: map<nat, int>, category: string, total: int)

  /** The negated amount column restricted to the mask, indexed by row position. */
  function NegatedSelection(rows: seq<Transaction>, category: string, reference: int): map<nat, int>
  {
    map i: nat | i < |rows| && Selected(rows[i], category, reference) :: -rows[i].amount
  }

  /** Sum of the series' values at positions below `n`, as `.sum()` adds them. */
  function SeriesSum(m: map<nat, int>, n: nat): int
  {
    if n == 0 then 0 else SeriesSum(m, n - 1) + (if n - 1 in m then m[n - 1] else 0)
  }

  lemma {:induction false} SeriesSumIsNegatedSum(rows: seq<Transaction>, category: string, reference: int, n: nat)
    requires n <= |rows|
    ensures SeriesSum(NegatedSelection(rows, category, reference), n)
            == -SumAmounts(SelectRows(rows[..n], category, reference))
  {
    if n > 0 {
      var x := rows[n - 1];
      SeriesSumIsNegatedSum(rows, category, reference, n - 1);
      SelectRowsPrefix(rows, category, reference, n);
      SeriesSumStep(rows, category, reference, n);
      var picked := SelectRows(rows[..n - 1], category, reference);
      if Selected(x, category, reference) {
        SumAmountsSnoc(picked, x);
      } else {
        assert picked + [] == picked;
      }
    }
  }

  /** The selection of one more row grows by that row exactly when it is selected. */
  lemma SelectRowsPrefix(rows: seq<Transaction>, category: string, reference: int, n: nat)
    requires 0 < n <= |rows|
    ensures SelectRows(rows[..n], category, reference)
            == SelectRows(rows[..n - 1], category, reference)
               + (if Selected(rows[n - 1], category, reference) then [rows[n - 1]] else [])
  {
    assert rows[..n][..n - 1] == rows[..n - 1];
  }

  /** The series sum over one more position adds the negated amount of a selected row. */
  lemma SeriesSumStep(rows: seq<Transaction>, category: string, reference: int, n: nat)
    requires 0 < n <= |rows|
    ensures var m := NegatedSelection(rows, category, reference);
            SeriesSum(m, n) == SeriesSum(m, n - 1)
              + (if Selected(rows[n - 1], category, reference) then -rows[n - 1].amount else 0)
  {
  }

  function SearchCategory(rows: seq<Transaction>, category: string, reference: int): (r: Option<Report>)
    ensures r.Some? <==> exists i :: 0 <= i < |rows| && Selected(rows[i], category, reference)
    ensures r.Some? ==> r.value.category == category
    ensures r.Some? ==> forall i: nat :: i in r.value.amount <==> i < |rows| && Selected(rows[i], category, reference)
    ensures r.Some? ==> forall i: nat :: i in r.value.amount ==> r.value.amount[i] == -rows[i].amount
    ensures r.Some? ==> r.value.total == -SumAmounts(SelectRows(rows, category, reference))
  {
    var picked := NegatedSelection(rows, category, reference);
    assert forall i :: 0 <= i < |rows| && Selected(rows[i], category, reference) ==> (i as nat) in picked;
    if picked == map[] then None
    else
      SeriesSumIsNegatedSum(rows, category, reference, |rows|);
      assert rows[..|rows|] == rows;
      Some(Report(picked, category, SeriesSum(picked, |rows|)))
  }

  /** The sum of the values of a map, taken key by key in no particular order. */
  ghost function MapSum(m: map<nat, int>): int
    decreases |m|
  {
    if m == map[] then 0 else var k :| k in m; m[k] + MapSum(m - {k})
  }

  /** Any key may be taken first. */
  lemma {:induction false} MapSumRemove(m: map<nat, int>, k: nat)
    requires k in m
    ensures MapSum(m) == m[k] + MapSum(m - {k})
    decreases |m|
  {
    var j :| j in m && MapSum(m) == m[j] + MapSum(m - {j});
    if j != k {
      assert |m - {j}| < |m| by { assert m.Keys - {j} < m.Keys; }
      MapSumRemove(m - {j}, k);
      MapSumRemove(m - {k}, j);
      assert m - {j} - {k} == m - {k} - {j};
    }
  }

  /** Positions at or beyond `n` do not enter the series sum below `n`. */
  lemma {:induction false} SeriesSumBelow(m: map<nat, int>, n: nat, k: nat)
    requires n <= k
    ensures SeriesSum(m - {k}, n) == SeriesSum(m, n)
  {
    if n > 0 { SeriesSumBelow(m, n - 1, k); }
  }

  /** When every key is below `n`, the series sum is the sum of all values. */
  lemma {:induction false} SeriesSumIsMapSum(m: map<nat, int>, n: nat)
    requires forall k :: k in m ==> k < n
    ensures SeriesSum(m, n) == MapSum(m)
  {
    if n == 0 {
      assert m == map[];
    } else if n - 1 in m {
      SeriesSumBelow(m, n - 1, n - 1);
      SeriesSumIsMapSum(m - {n - 1}, n - 1);
      MapSumRemove(m, n - 1);
    } else {
      SeriesSumIsMapSum(m, n - 1);
    }
  }

  /** The total is the sum of the values listed under `amount`, whose keys are row positions. */
  lemma TotalIsSumOfAmounts(rows: seq<Transaction>, category: string, reference: int)
    requires SearchCategory(rows, category, reference).Some?
    ensures var r := SearchCategory(rows, category, reference).value;
            r.total == MapSum(r.amount) && forall i: nat :: i in r.amount ==> i < |rows|
  {
    SeriesSumIsMapSum(NegatedSelection(rows, category, reference), |rows|);
  }

  /** A row outside the window or of another category changes nothing. */
  lemma AppendUnselected(rows: seq<Transaction>, x: Transaction, category: string, reference: int)
    requires !Selected(x, category, reference)
    ensures SearchCategory(rows + [x], category, reference) == SearchCategory(rows, category, reference)
  {
    var rows' := rows + [x];
    assert rows'[..|rows'| - 1] == rows;
    assert NegatedSelection(rows', category, reference) == NegatedSelection(rows, category, reference);
  }

  /** A qualifying row adds its negated amount to the total and produces a report. */
  lemma AppendSelected(rows: seq<Transaction>, x: Transaction, category: string, reference: int)
    requires Selected(x, category, reference)
    ensures var r := SearchCategory(rows + [x], category, reference);
            r.Some? && r.value.amount[|rows|] == -x.amount
            && r.value.total == (match SearchCategory(rows, category, reference)
                                 case None => 0
                                 case Some(before) => before.total) - x.amount
  {
    var rows' := rows + [x];
    assert rows'[..|rows'| - 1] == rows;
    assert rows'[|rows'| - 1] == x;
    SumAmountsSnoc(SelectRows(rows, category, reference), x);
  }

  const Jan1 := 1640995200   // 2022-01-01 00:00
  const Jan10 := 1641772800  // 2022-01-10 00:00
  const Feb1 := 1643673600   // 2022-02-01 00:00
  const Mar1 := 1646092800   // 2022-03-01 00:00
  const Apr10 := 1649548800  // 2022-04-10 00:00

  /** One "еда" row of 100 on 2022-01-01, reference 2022-01-10: category echoed, total -100. */
  lemma ExampleSingleRow()
    ensures var r := SearchCategory([Transaction(Jan1, 100, Some("еда"), None, None)], "еда", Jan10);
            r == Some(Report(map[0 := -100], "еда", -100))
  {
    var rows := [Transaction(Jan1, 100, Some("еда"), None, None)];
    assert Selected(rows[0], "еда", Jan10);
    assert NegatedSelection(rows, "еда", Jan10) == map[0 := -100];
    assert SeriesSum(map[0 := -100], 1) == -100;
  }

  /** Both ends of the window are inclusive, to the second. */
  lemma ExampleWindowEnds()
    ensures SearchCategory([Transaction(Jan10 - 90 * Day, 7, Some("x"), None, None)], "x", Jan10)
            == Some(Report(map[0 := -7], "x", -7))
    ensures SearchCategory([Transaction(Jan10, 7, Some("x"), None, None)], "x", Jan10)
            == Some(Report(map[0 := -7], "x", -7))
    ensures SearchCategory([Transaction(Jan10 - 90 * Day - 1, 7, Some("x"), None, None)], "x", Jan10) == None
    ensures SearchCategory([Transaction(Jan10 + 1, 7, Some("x"), None, None)], "x", Jan10) == None
  {
    var lower := [Transaction(Jan10 - 90 * Day, 7, Some("x"), None, None)];
    assert Selected(lower[0], "x", Jan10);
    assert NegatedSelection(lower, "x", Jan10) == map[0 := -7];
    assert SeriesSum(map[0 := -7], 1) == -7;
    var upper := [Transaction(Jan10, 7, Some("x"), None, None)];
    assert Selected(upper[0], "x", Jan10);
    assert NegatedSelection(upper, "x", Jan10) == map[0 := -7];
    var before := [Transaction(Jan10 - 90 * Day - 1, 7, Some("x"), None, None)];
    assert NegatedSelection(before, "x", Jan10) == map[];
    var after := [Transaction(Jan10 + 1, 7, Some("x"), None, None)];
    assert NegatedSelection(after, "x", Jan10) == map[];
  }

  /** Three rows: reference 2022-04-10 reaches back to 2022-01-10, so only the March "еда" row counts. */
  lemma ExampleThreeRows()
    ensures var rows := [Transaction(Jan1, 100, Some("еда"), None, None),
                         Transaction(Feb1, 200, Some("транспорт"), None, None),
                         Transaction(Mar1, 300, Some("еда"), None, None)];
            && SearchCategory(rows, "еда", Apr10) == Some(Report(map[2 := -300], "еда", -300))
            && SearchCategory(rows, "еда", Jan10) == Some(Report(map[0 := -100], "еда", -100))
            && SearchCategory(rows, "одежда", Apr10) == None
  {
    var rows := [Transaction(Jan1, 100, Some("еда"), None, None),
                 Transaction(Feb1, 200, Some("транспорт"), None, None),
                 Transaction(Mar1, 300, Some("еда"), None, None)];
    assert !Selected(rows[0], "еда", Apr10) && Selected(rows[2], "еда", Apr10);
    assert NegatedSelection(rows, "еда", Apr10) == map[2 := -300];
    assert SeriesSum(map[2 := -300], 2) == 0;
    assert SeriesSum(map[2 := -300], 3) == -300;
    assert Selected(rows[0], "еда", Jan10) && !Selected(rows[2], "еда", Jan10);
    assert NegatedSelection(rows, "еда", Jan10) == map[0 := -100];
    assert SeriesSum(map[0 := -100], 1) == -100;
    assert SeriesSum(map[0 := -100], 3) == -100;
    assert "одежда"[0] != "еда"[0] && "одежда"[0] != "транспорт"[0];
    assert NegatedSelection(rows, "одежда", Apr10) == map[];
  }
}
