/**
 * The sort resolver: a fixed vocabulary of sort keys, each naming one
 * ordering, and the most recent replays first for anything else.
 */
module Sorting {
  import opened Wrappers
  import opened Snuba

  /** `make_sort_ordering`, written as the source's chain of comparisons. */
  function MakeSortOrdering(sort: Option<string>): (r: seq<OrderBy>)
    ensures |r| == 1
    ensures r[0].exp.Column? && r[0].exp.name in {"started_at", "finished_at", "duration"}
    ensures r[0] == OrderBy(Column("started_at"), DESC) <==> sort.None? || sort.value !in SORT_TABLE
  {
    if sort == Some("started_at") then [OrderBy(Column("started_at"), ASC)]
    else if sort == Some("finished_at") then [OrderBy(Column("finished_at"), ASC)]
    else if sort == Some("-finished_at") then [OrderBy(Column("finished_at"), DESC)]
    else if sort == Some("duration") then [OrderBy(Column("duration"), ASC)]
    else if sort == Some("-duration") then [OrderBy(Column("duration"), DESC)]
    else [OrderBy(Column("started_at"), DESC)]
  }

  /** The recognised sort keys as a table: key to (column, direction). */
  const SORT_TABLE: map<string, (string, Direction)> := map[
    "started_at" := ("started_at", ASC),
    "finished_at" := ("finished_at", ASC),
    "-finished_at" := ("finished_at", DESC),
    "duration" := ("duration", ASC),
    "-duration" := ("duration", DESC)
  ]

  const DEFAULT_SORT: (string, Direction) := ("started_at", DESC)

  /** Table lookup with the default for absent and unknown keys. */
  function LookupSort(sort: Option<string>): (string, Direction) {
    if sort.Some? && sort.value in SORT_TABLE then SORT_TABLE[sort.value] else DEFAULT_SORT
  }

  /** The comparison chain and the table agree on every input. */
  lemma SortChainMatchesTable(sort: Option<string>)
    ensures MakeSortOrdering(sort) == [OrderBy(Column(LookupSort(sort).0), LookupSort(sort).1)]
  {
  }

  /**
   * For a recognised key, a leading '-' means descending and the rest of the
   * key names the column.
   */
  lemma {:induction false} RecognisedKeyMeaning(key: string)
    requires key in SORT_TABLE
    ensures var o := MakeSortOrdering(Some(key))[0];
      && (o.direction == DESC <==> key[0] == '-')
      && o.exp == Column(if key[0] == '-' then key[1..] else key)
  {
    SortChainMatchesTable(Some(key));
    assert key in {"started_at", "finished_at", "-finished_at", "duration", "-duration"};
    if key == "-finished_at" {
      assert key[1..] == "finished_at";
    } else if key == "-duration" {
      assert key[1..] == "duration";
    }
  }

  /** Ordering by "-duration" sorts the longest replays first. */
  lemma LongestFirstExample()
    ensures MakeSortOrdering(Some("-duration")) == [OrderBy(Column("duration"), DESC)]
  {
  }
}
