/**
 * The keyword search `filter_state(records, query)`, with exactly the
 * behaviour its test pins down: an empty query finds nothing; otherwise a
 * record is kept when the query occurs, letter for letter, in its category
 * or its description. Kept records are the input's own, no more often than they occur.
 */
module Services {
  import opened Wrappers
  import opened Records

  /** `query` occurs in `text` starting at position `i`. */
  predicate OccursAt(text: string, query: string, i: int)
  {
    0 <= i && i + |query| <= |text| && text[i..i + |query|] == query
  }

  /** `query` occurs in `text` as a contiguous piece (Python's `query in text`). */
  predicate Contains(text: string, query: string)
  {
    exists i | 0 <= i <= |text| - |query| :: OccursAt(text, query, i)
  }

  /** A non-empty query can only occur in a text holding its first letter. */
  lemma ContainsFirstLetter(text: string, query: string)
    requires query != [] && Contains(text, query)
    ensures query[0] in text
  {
    var i :| 0 <= i <= |text| - |query| && OccursAt(text, query, i);
    assert text[i..i + |query|][0] == text[i];
  }

  /** The empty query occurs in every text, which is why the filter must stop it first. */
  lemma EmptyQueryEverywhere(text: string)
    ensures Contains(text, "")
  {
    assert OccursAt(text, "", 0);
  }

  /** A text field matches when present and holding the query. */
  predicate FieldMatches(field: Option<string>, query: string)
  {
    field.Some? && Contains(field.value, query)
  }

  predicate Matches(t: Transaction, query: string)
  {
    FieldMatches(t.category, query) || FieldMatches(t.description, query)
  }

  function FilterState(records: seq<Transaction>, query: string): (r: seq<Transaction>)
    ensures query == [] ==> r == []
    ensures forall t :: t in r ==> t in records && Matches(t, query)
    ensures query != [] ==> forall t :: t in records && Matches(t, query) ==> t in r
    ensures |r| <= |records|
    ensures multiset(r) <= multiset(records)
  {
    assert records != [] ==> records == [records[0]] + records[1..];
    if query == [] || records == [] then []
    else (if Matches(records[0], query) then [records[0]] else []) + FilterState(records[1..], query)
  }

  /**
   * The description of the fixture's second record, "Северо-Западная
   * пригородная пассажирская компания", spelt word by word (the verifier
   * reasons about a concatenation of short literals far more cheaply).
   */
  const TrainCompany := "Северо-Западная" + " пригородная" + " пассажирская" + " компания"

  /** The test fixture: a transfer without a card, and a suburban train fare on card *7197. */
  const SampleOperations: seq<Transaction> := [
    Transaction(1634397376, -50, Some("Переводы"), Some("Азер Г."), None),
    Transaction(1634333117, -86, Some("Местный транспорт"), Some(TrainCompany), Some("*7197"))
  ]

  /** Over two records, the filter keeps each that matches, in order. */
  lemma FilterTwo(a: Transaction, b: Transaction, query: string)
    requires query != []
    ensures FilterState([a, b], query)
            == (if Matches(a, query) then [a] else []) + (if Matches(b, query) then [b] else [])
  {
    assert [a, b][1..] == [b] && [b][1..] == [];
  }

  /** `query` does not occur in `text` when `text` lacks its first letter. */
  lemma Lacks(text: string, query: string)
    requires query != [] && query[0] !in text
    ensures !Contains(text, query)
  {
    if Contains(text, query) {
      ContainsFirstLetter(text, query);
    }
  }

  lemma FilterTransfers()
    ensures var r := FilterState(SampleOperations, "Переводы");
            |r| == 1 && r[0].category == Some("Переводы") && r[0].description == Some("Азер Г.")
  {
    var q := "Переводы";
    var a, b := SampleOperations[0], SampleOperations[1];
    assert OccursAt("Переводы", q, 0);
    Lacks("Местный транспорт", q);
    Lacks(TrainCompany, q);
    FilterTwo(a, b, q);
  }

  lemma FilterNorthWest()
    ensures var r := FilterState(SampleOperations, "Северо-Западная");
            |r| == 1 && r[0].category == Some("Местный транспорт")
            && r[0].description.Some? && Contains(r[0].description.value, "Северо-Западная")
  {
    var q := "Северо-Западная";
    var a, b := SampleOperations[0], SampleOperations[1];
    Lacks("Переводы", q);
    Lacks("Азер Г.", q);
    assert TrainCompany[..15] == q;
    assert OccursAt(TrainCompany, q, 0);
    FilterTwo(a, b, q);
  }

  lemma FilterEmptyQuery()
    ensures |FilterState(SampleOperations, "")| == 0
  {
  }

  lemma FilterNoMatch()
    ensures |FilterState(SampleOperations, "Несуществующий")| == 0
  {
    var q := "Несуществующий";
    var a, b := SampleOperations[0], SampleOperations[1];
    Lacks("Переводы", q);
    Lacks("Азер Г.", q);
    Lacks("Местный транспорт", q);
    Lacks(TrainCompany, q);
    FilterTwo(a, b, q);
  }
}
