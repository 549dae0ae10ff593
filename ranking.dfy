/**
 * The leaderboard ranking `computeTop10(rows)` (index.js:30-46).
 *
 * Row 0 of a sheet is its header. Every other row is ranked by the score of its
 * cell 1, highest first; rows with equal scores keep their sheet order, because
 * `Array.prototype.sort` is stable (ECMA-262, 2019 edition onward, section
 * "Array.prototype.sort"). The first ten are projected to `{name, points}`.
 * The sort works on the copy made by `rows.slice(1)`, so the input is never
 * changed; here every value is immutable, and the handler's contracts say that
 * the rows it caches and returns are the fetched rows.
 */
module Ranking {
  import opened Wrappers
  import Score
  import StableSort

  type Row = seq<string>
  type Sheet = seq<Row>

  /** A `{name, points}` object; `name` is None when the row has no cell 0 (`undefined`). */
  datatype RankedEntry = RankedEntry(name: Option<string>, points: real)

  /** The number of entries a leaderboard keeps (`slice(0, 10)`). */
  const TopCount: nat := 10

  /** `row[i]`, which is `undefined` past the end of the row. */
  function Cell(row: Row, i: nat): (c: Option<string>)
    ensures c.Some? <==> i < |row|
    ensures c.Some? ==> c.value == row[i]
  {
    if i < |row| then Some(row[i]) else None
  }

  /** `parseFloat(row[1]) || 0`, the key the comparator sorts by. */
  function Points(row: Row): (p: real)
    ensures |row| < 2 ==> p == 0.0
    ensures |row| >= 2 && !Score.HasNumericPrefix(row[1]) ==> p == 0.0
    ensures |row| >= 2 && Score.HasNumericPrefix(row[1]) ==> p == Score.ParseFloat(row[1]).value
  {
    Score.CellScore(Cell(row, 1))
  }

  function ToEntry(row: Row): (e: RankedEntry)
    ensures e.name == Cell(row, 0) && e.points == Points(row)
  {
    RankedEntry(Cell(row, 0), Points(row))
  }

  ghost predicate EntriesSorted(es: seq<RankedEntry>) {
    forall i, j :: 0 <= i < j < |es| ==> es[i].points >= es[j].points
  }

  /** `rows.slice(1)`: every row but the header (none when there is no row at all). */
  function DataRows(rows: Sheet): (d: seq<Row>)
    ensures |d| == if rows == [] then 0 else |rows| - 1
    ensures forall i :: 0 <= i < |d| ==> d[i] == rows[i + 1]
  {
    if rows == [] then [] else rows[1..]
  }

  /** The data rows sorted by points, highest first, ties in sheet order. */
  function SortedRows(rows: Sheet): (r: seq<Row>)
    ensures |r| == |DataRows(rows)| && multiset(r) == multiset(DataRows(rows))
    ensures StableSort.Descending(r, Points)
  {
    StableSort.SortDescending(DataRows(rows), Points);
    StableSort.Sort(DataRows(rows), Points)
  }

  /** The data rows that make the leaderboard, best first (`sortedRows.slice(0, 10)`). */
  function TopRows(rows: Sheet): (r: seq<Row>)
    ensures |rows| < 2 ==> r == []
    ensures |rows| >= 2 ==> |r| == (if |rows| - 1 <= TopCount then |rows| - 1 else TopCount)
    ensures |r| <= |SortedRows(rows)| && r == SortedRows(rows)[..|r|]
    // a cut happens only when ten rows were kept
    ensures |r| < |SortedRows(rows)| ==> |r| == TopCount
  {
    if |rows| < 2 then []
    else
      var sorted := SortedRows(rows);
      if |sorted| <= TopCount then sorted else sorted[..TopCount]
  }

  /** `top10Rows.map(row => ({name: row[0], points: ...}))`. */
  function Project(top: seq<Row>): (r: seq<RankedEntry>)
    ensures |r| == |top|
    ensures forall i :: 0 <= i < |top| ==> r[i] == ToEntry(top[i])
  {
    seq(|top|, i requires 0 <= i < |top| => ToEntry(top[i]))
  }

  /** `computeTop10(rows)`. */
  function ComputeTop10(rows: Sheet): (r: seq<RankedEntry>)
    ensures |rows| < 2 ==> r == []
    ensures |r| == if |rows| < 2 then 0 else if |rows| - 1 <= TopCount then |rows| - 1 else TopCount
  {
    Project(TopRows(rows))
  }

  // ---------------------------------------------------------------------------
  // What computeTop10 promises

  /** The leaderboard is ordered by points, highest first. */
  lemma Top10Sorted(rows: Sheet)
    ensures EntriesSorted(ComputeTop10(rows))
  {
    StableSort.SortDescending(DataRows(rows), Points);
  }

  /**
   * Every entry is the projection of a data row: its name is that row's cell 0
   * and its points the score of its cell 1. The rows used, counted with
   * multiplicity, are among the data rows, so the header never contributes and
   * no data row is used twice.
   */
  lemma Top10Entries(rows: Sheet)
    ensures |ComputeTop10(rows)| == |TopRows(rows)|
    ensures forall i :: 0 <= i < |TopRows(rows)| ==>
      ComputeTop10(rows)[i] == RankedEntry(Cell(TopRows(rows)[i], 0), Points(TopRows(rows)[i]))
    ensures multiset(TopRows(rows)) <= multiset(DataRows(rows))
    ensures forall i :: 0 <= i < |ComputeTop10(rows)| ==>
      exists j :: 1 <= j < |rows| && ComputeTop10(rows)[i] == ToEntry(rows[j])
  {
    var top := TopRows(rows);
    TopRowsAmongData(rows);
    forall i | 0 <= i < |top| ensures exists j :: 1 <= j < |rows| && ComputeTop10(rows)[i] == ToEntry(rows[j]) {
      var j := TopRowSource(rows, i);
      assert ComputeTop10(rows)[i] == ToEntry(top[i]);
    }
  }

  /** The kept rows, with multiplicity, are among the data rows. */
  lemma TopRowsAmongData(rows: Sheet)
    ensures multiset(TopRows(rows)) <= multiset(DataRows(rows))
  {
    var sorted := SortedRows(rows);
    StableSort.PrefixAmong(sorted, |TopRows(rows)|);
  }

  /** Each kept row sits at some index 1 or above of the sheet. */
  lemma TopRowSource(rows: Sheet, i: nat) returns (j: nat)
    requires i < |TopRows(rows)|
    ensures 1 <= j < |rows| && rows[j] == TopRows(rows)[i]
  {
    var data := DataRows(rows);
    TopRowsAmongData(rows);
    assert TopRows(rows)[i] in multiset(data);
    var m :| 0 <= m < |data| && data[m] == TopRows(rows)[i];
    j := m + 1;
  }

  /**
   * The leaderboard is the true top ten: a data row left out scores no more
   * than the last entry, and rows are left out only when there are more than ten.
   */
  lemma Top10IsTop(rows: Sheet)
    ensures forall row :: row in multiset(DataRows(rows)) - multiset(TopRows(rows)) ==>
      |ComputeTop10(rows)| == TopCount && Points(row) <= ComputeTop10(rows)[TopCount - 1].points
  {
    var sorted := SortedRows(rows);
    var top := TopRows(rows);
    StableSort.SortDescending(DataRows(rows), Points);
    StableSort.PrefixIsTop(sorted, Points, |top|);
    if |top| == TopCount {
      assert ComputeTop10(rows)[TopCount - 1].points == Points(sorted[TopCount - 1]);
    }
  }

  /**
   * Ties keep their sheet order: for every score, the rows with that score that
   * make the leaderboard are the FIRST rows of that score among the data rows, in order.
   */
  lemma Top10Stable(rows: Sheet, k: real)
    ensures var ties := StableSort.WithKey(DataRows(rows), Points, k);
      var kept := StableSort.WithKey(TopRows(rows), Points, k);
      |kept| <= |ties| && kept == ties[..|kept|]
  {
    var sorted := SortedRows(rows);
    var top := TopRows(rows);
    assert sorted == top + sorted[|top|..];
    StableSort.WithKeyAppend(top, sorted[|top|..], Points, k);
    StableSort.SortStable(DataRows(rows), Points, k);
  }

  /** A row whose cell 1 holds the decimal digits of `n` scores n. */
  lemma PointsOfDigits(row: Row, n: nat)
    requires |row| >= 2 && row[1] == Score.NatToString(n)
    ensures Points(row) == n as real
  {
    assert Cell(row, 1) == Some(Score.NatToString(n));
    Score.CellScoreOfDigits(n);
  }

  /** A row whose cell 1 starts with something other than white space, a sign, a digit or a point scores 0 ("x", "n/a"). */
  lemma PointsOfWord(row: Row)
    requires |row| >= 2 && row[1] != []
    requires var c := row[1][0]; !Score.IsWhiteSpace(c) && !Score.IsDigit(c) && c != '.' && c != '-' && c != '+'
    ensures Points(row) == 0.0
  {
    Score.CellScoreOfWord(row[1]);
    assert Cell(row, 1) == Some(row[1]);
  }

  lemma ExampleScores(alice: Row, bob: Row, cara: Row)
    requires alice == ["Alice", "10"] && bob == ["Bob", "25"] && cara == ["Cara", "x"]
    ensures Points(alice) == 10.0 && Points(bob) == 25.0 && Points(cara) == 0.0
  {
    ScoreTen(alice);
    ScoreTwentyFive(bob);
    ScoreWord(cara);
  }

  lemma ScoreTen(row: Row)
    requires row == ["Alice", "10"]
    ensures Points(row) == 10.0
  {
    assert Score.NatToString(10) == "10";
    PointsOfDigits(row, 10);
  }

  lemma ScoreTwentyFive(row: Row)
    requires row == ["Bob", "25"]
    ensures Points(row) == 25.0
  {
    assert Score.NatToString(25) == "25";
    PointsOfDigits(row, 25);
  }

  lemma ScoreWord(row: Row)
    requires row == ["Cara", "x"]
    ensures Points(row) == 0.0
  {
    assert row[1] == "x" && row[1][0] == 'x';
    PointsOfWord(row);
  }

  lemma TopRowsOfShortSheet(rows: Sheet)
    requires 2 <= |rows| <= TopCount + 1
    ensures TopRows(rows) == SortedRows(rows)
  {
  }

  /** The order of three data rows scoring 10, 25 and 0, whatever the header and the names. */
  lemma ExampleOrder(header: Row, alice: Row, bob: Row, cara: Row)
    requires Points(alice) == 10.0 && Points(bob) == 25.0 && Points(cara) == 0.0
    ensures TopRows([header, alice, bob, cara]) == [bob, alice, cara]
  {
    var rows := [header, alice, bob, cara];
    TopRowsOfShortSheet(rows);
    assert SortedRows(rows) == StableSort.Sort(DataRows(rows), Points);
    assert DataRows(rows) == [alice, bob, cara];
    StableSort.SortThree(alice, bob, cara, Points);
  }

  lemma ProjectThree(a: Row, b: Row, c: Row)
    ensures Project([a, b, c]) == [ToEntry(a), ToEntry(b), ToEntry(c)]
  {
    var top := [a, b, c];
    var r := Project(top);
    assert r[0] == ToEntry(top[0]) && r[1] == ToEntry(top[1]) && r[2] == ToEntry(top[2]);
  }

  /** A worked example: three players, one with an unreadable score. */
  lemma Example()
    ensures ComputeTop10([["Name", "Score"], ["Alice", "10"], ["Bob", "25"], ["Cara", "x"]])
         == [RankedEntry(Some("Bob"), 25.0), RankedEntry(Some("Alice"), 10.0), RankedEntry(Some("Cara"), 0.0)]
  {
    var header: Row, alice: Row, bob: Row, cara: Row := ["Name", "Score"], ["Alice", "10"], ["Bob", "25"], ["Cara", "x"];
    ExampleScores(alice, bob, cara);
    ExampleOrder(header, alice, bob, cara);
    ProjectThree(bob, alice, cara);
  }
}
