/**
 * The dashboard helpers of the "Главная" view: the greeting for the hour,
 * the card of the statement, the card total and its cashback, the five
 * largest operations, and the record that brings them together.
 */
module Views {
  import opened Wrappers
  import opened Records
  import opened Ranking

  const Morning := "Доброе утро!"
  const Afternoon := "Добрый день!"
  const Evening := "Добрый вечер!"
  const Night := "Доброй ночи!"

  /** How many operations the dashboard lists. */
  const TopCount := 5

  /** The greeting for an hour of the day (the hour of the parsed time). */
  function SendGreeting(hour: int): (g: string)
    ensures g == Morning || g == Afternoon || g == Evening || g == Night
  {
    if 5 < hour < 12 then Morning
    else if 12 <= hour < 18 then Afternoon
    else if 18 <= hour < 24 then Evening
    else Night
  }

  /** The 24 hours fall into four runs, each with exactly one greeting; hour 5 is still night. */
  lemma GreetingPartition(hour: int)
    requires 0 <= hour < 24
    ensures SendGreeting(hour) == Morning <==> 6 <= hour <= 11
    ensures SendGreeting(hour) == Afternoon <==> 12 <= hour <= 17
    ensures SendGreeting(hour) == Evening <==> 18 <= hour <= 23
    ensures SendGreeting(hour) == Night <==> 0 <= hour <= 5
  {
    assert Morning[5] != Afternoon[5] && Morning[5] != Evening[5] && Morning[5] != Night[5];
    assert Afternoon[7] != Evening[7] && Afternoon[4] != Night[4] && Evening[4] != Night[4];
  }

  /** The hours of 08:59, 13:30, 21:15 and 00:01. */
  lemma GreetingExamples()
    ensures SendGreeting(8) == Morning
    ensures SendGreeting(13) == Afternoon
    ensures SendGreeting(21) == Evening
    ensures SendGreeting(0) == Night
  {
  }

  /**
   * The card of the first operation. A missing list and an empty list both
   * give no card; so does a first operation without a card.
   */
  method CardInfo(data: Option<seq<Transaction>>) returns (card: Option<string>)
    ensures data.None? ==> card.None?
    ensures data.Some? && data.value == [] ==> card.None?
    ensures data.Some? && data.value != [] ==> card == data.value[0].card
  {
    if data.Some? {
      for i := 0 to |data.value| {
        return data.value[i].card;
      }
    }
    return None;
  }

  /** Python truthiness of the card argument: present and not the empty string. */
  predicate Truthy(card: Option<string>)
  {
    card.Some? && card.value != ""
  }

  /**
   * The total of ALL operations: the card argument only switches the loop
   * on, it does not filter. A falsy card or an empty list reaches the log
   * line with the loop variable unbound, which raises; hence the requires.
   */
  method SumAmountOfCard(data: seq<Transaction>, card: Option<string>) returns (total: int)
    requires Truthy(card) && data != []
    ensures total == SumAmounts(data)
  {
    total := 0;
    for i := 0 to |data|
      invariant total == SumAmounts(data[..i])
    {
      assert data[..i + 1] == data[..i] + [data[i]];
      SumAmountsSnoc(data[..i], data[i]);
      total := total + data[i].amount;
    }
    assert data[..|data|] == data;
  }

  /** Cashback: floor division of the total by 100, also for negative totals. */
  function TotalCashback(sum: int): (c: int)
    ensures c * 100 <= sum < c * 100 + 100
  {
    sum / 100
  }

  lemma CashbackExamples()
    ensures TotalCashback(10000) == 100
    ensures TotalCashback(500) == 5
    ensures TotalCashback(-150) == -2
  {
  }

  /** Two operations of -50 and -86 rubles: a card total of -136 and a cashback of -2. */
  lemma CashbackOfTwoOperations()
    ensures var ops := [Transaction(0, -50, None, None, None), Transaction(0, -86, None, None, Some("*7197"))];
            SumAmounts(ops) == -136 && TotalCashback(SumAmounts(ops)) == -2
  {
    var ops := [Transaction(0, -50, None, None, None), Transaction(0, -86, None, None, Some("*7197"))];
    assert ops[..1] == [ops[0]];
    SumAmountsSnoc([], ops[0]);
  }

  /** One entry of the top list: date, amount, category and description of an operation. */
  datatype Summary = Summary(date: int, amount: int, category: Option<string>, description: Option<string>)

  /** The summary of one operation; the source's `round(amount, 2)` is the identity on whole rubles. */
  function Summarize(t: Transaction): Summary
  {
    Summary(t.date, t.amount, t.category, t.description)
  }

  function Min(a: int, b: int): int { if a <= b then a else b }

  /** Copies out summaries of the leading operations, stopping once `TopCount` are taken. */
  method FirstSummaries(data: array<Transaction>) returns (result: seq<Summary>)
    ensures |result| == Min(TopCount, data.Length)
    ensures forall k :: 0 <= k < |result| ==> result[k] == Summarize(data[k])
  {
    result := [];
    var i := 0;
    while i < data.Length
      invariant 0 <= i <= data.Length
      invariant i <= TopCount
      invariant |result| == i
      invariant forall k :: 0 <= k < i ==> result[k] == Summarize(data[k])
    {
      if |result| < TopCount {
        result := result + [Summarize(data[i])];
        i := i + 1;
      } else {
        break;
      }
    }
  }

  /**
   * Sorts the caller's list in place, stably, largest amount first, and
   * returns summaries of its first (at most) five entries. No list, no
   * result; an empty list gives an empty result.
   */
  method Top5Transactions(data: array?<Transaction>) returns (result: Option<seq<Summary>>)
    modifies data
    ensures data == null <==> result.None?
    ensures data != null ==> data[..] == SortedByAmount(old(data[..]))
    ensures data != null ==> multiset(data[..]) == multiset(old(data[..]))
    ensures data != null ==> NonIncreasing(data[..])
    ensures data != null ==> forall v :: WithAmount(data[..], v) == WithAmount(old(data[..]), v)
    ensures data != null ==> |result.value| == Min(TopCount, data.Length)
    ensures data != null ==> forall k :: 0 <= k < |result.value| ==> result.value[k] == Summarize(data[k])
  {
    if data != null {
      SortByAmount(data);
      SortedByAmountPermutation(old(data[..]));
      SortedByAmountNonIncreasing(old(data[..]));
      forall v ensures WithAmount(data[..], v) == WithAmount(old(data[..]), v) {
        SortedByAmountStable(old(data[..]), v);
      }
      var top := FirstSummaries(data);
      result := Some(top);
    } else {
      result := None;
    }
  }

  /** The per-card entry of the dashboard. */
  datatype CardSummary = CardSummary(lastDigits: string, totalSpent: int, cashback: int)

  /** The part of the dashboard record built from the statement (rates and prices left out). */
  datatype Dashboard = Dashboard(greeting: string, cards: seq<CardSummary>, topTransactions: Option<seq<Summary>>)

  /**
   * Shapes the dashboard. The source tests the card against the last digits
   * already listed, but that list is still empty at that point, so only the
   * presence of a card decides whether one entry is added.
   */
  function CreateOperations(greeting: string, cardNumber: Option<string>, totalSum: int,
                            cashback: int, top: Option<seq<Summary>>): (d: Dashboard)
    ensures d.greeting == greeting && d.topTransactions == top
    ensures cardNumber.None? ==> d.cards == []
    ensures cardNumber.Some? ==> d.cards == [CardSummary(cardNumber.value, totalSum, cashback)]
  {
    var listed: seq<CardSummary> := [];
    var listedDigits: seq<string> := [];  // the last digits of `listed`: none yet
    var cards := if cardNumber.Some? && cardNumber.value !in listedDigits
                 then listed + [CardSummary(cardNumber.value, totalSum, cashback)]
                 else listed;
    Dashboard(greeting, cards, top)
  }
}
