/** The shared time axis (app.py, lines 214-231): the spreadsheet's rows are
    filtered by the selected years and quarters, given a numeric quarter
    index, sorted by (year, quarter index) and labelled "{Jahr}-{Monat}". */
module TimeAxis {
  import opened Seqs
  import opened Strings

  /** An indicator value: a number, or pandas' missing value (NaN). */
  datatype Cell = Missing | Number(value: real)

  /** One spreadsheet row: `Jahr`, `Monat` (a quarter label) and the
      indicator columns. */
  datatype Row = Row(year: int, quarter: string, values: map<string, Cell>)

  /** The spreadsheet: its indicator column names and its rows. */
  datatype Table = Table(columns: set<string>, rows: seq<Row>)

  /** A row with its `Quartal_Sortierung` column. */
  datatype KeyedRow = KeyedRow(row: Row, quarterIndex: int)

  /** A row with its `Quartal_Sortierung` and `Zeitachse` columns. */
  datatype TimeRow = TimeRow(row: Row, quarterIndex: int, timeLabel: string)

  /** The filtered, sorted and labelled table handed to the charts. */
  datatype TimeFrame = TimeFrame(columns: set<string>, rows: seq<TimeRow>)

  /** The quarter options offered by the sidebar. */
  const Quarters: seq<string> := ["Q1", "Q2", "Q3", "Q4"]

  /** `quartal_order`. */
  const QuarterOrder: map<string, int> := map["Q1" := 1, "Q2" := 2, "Q3" := 3, "Q4" := 4]

  // ---------------------------------------------------------------------
  // Filtering (app.py, lines 222-225)

  predicate Selected(r: Row, years: set<int>, quarters: set<string>)
  {
    r.year in years && r.quarter in quarters
  }

  /** The boolean mask of the selection, as a predicate on rows. */
  function SelectedBy(years: set<int>, quarters: set<string>): Row -> bool
  {
    (r: Row) => Selected(r, years, quarters)
  }

  /** `df[df['Jahr'].isin(selected_years) & df['Monat'].isin(selected_quarters)]`. */
  function FilterRows(rows: seq<Row>, years: set<int>, quarters: set<string>): seq<Row>
  {
    Filter(rows, SelectedBy(years, quarters))
  }

  /** The filter keeps exactly the selected rows, each as often as it
      occurs, in their original order. */
  lemma FilterRowsExact(rows: seq<Row>, years: set<int>, quarters: set<string>)
    ensures forall r :: multiset(FilterRows(rows, years, quarters))[r]
                        == if r.year in years && r.quarter in quarters then multiset(rows)[r] else 0
    ensures forall r :: r in FilterRows(rows, years, quarters)
                        <==> r in rows && r.year in years && r.quarter in quarters
    ensures IsSubsequence(FilterRows(rows, years, quarters), rows)
  {
    forall r
      ensures multiset(FilterRows(rows, years, quarters))[r]
              == if r.year in years && r.quarter in quarters then multiset(rows)[r] else 0
      ensures r in FilterRows(rows, years, quarters) <==> r in rows && r.year in years && r.quarter in quarters
    {
      FilterCount(rows, SelectedBy(years, quarters), r);
    }
    FilterSubsequence(rows, SelectedBy(years, quarters));
  }

  /** Every kept row carries a quarter label that `quartal_order` maps. */
  lemma FilteredQuartersMapped(rows: seq<Row>, years: set<int>, quarters: set<string>)
    requires quarters <= QuarterOrder.Keys
    ensures forall i :: 0 <= i < |FilterRows(rows, years, quarters)| ==>
              FilterRows(rows, years, quarters)[i].quarter in QuarterOrder
  {
    FilterSatisfies(rows, SelectedBy(years, quarters));
  }

  // ---------------------------------------------------------------------
  // Sort key and order (app.py, lines 228-230)

  /** `filtered_df['Monat'].map(quartal_order)`. */
  function WithQuarterIndex(rows: seq<Row>): seq<KeyedRow>
    requires forall i :: 0 <= i < |rows| ==> rows[i].quarter in QuarterOrder
  {
    seq(|rows|, i requires 0 <= i < |rows| => KeyedRow(rows[i], QuarterOrder[rows[i].quarter]))
  }

  /** The row data without the derived columns. */
  function Unkeyed(ks: seq<KeyedRow>): seq<Row>
  {
    seq(|ks|, i requires 0 <= i < |ks| => ks[i].row)
  }

  /** `a` may come before `b` in ascending (Jahr, Quartal_Sortierung) order. */
  predicate Before(a: KeyedRow, b: KeyedRow)
  {
    a.row.year < b.row.year || (a.row.year == b.row.year && a.quarterIndex <= b.quarterIndex)
  }

  predicate SortedByTime(s: seq<KeyedRow>)
  {
    forall i, j :: 0 <= i < j < |s| ==> Before(s[i], s[j])
  }

  /** The rows of `s` with sort key (year, quarterIndex), in their order in `s`. */
  function WithKey(s: seq<KeyedRow>, year: int, quarterIndex: int): seq<KeyedRow>
  {
    Filter(s, HasKey(year, quarterIndex))
  }

  function HasKey(year: int, quarterIndex: int): KeyedRow -> bool
  {
    (r: KeyedRow) => r.row.year == year && r.quarterIndex == quarterIndex
  }

  /** Inserting `x` between the rows not after it and the rows strictly
      after it keeps the order. */
  lemma InsertSorted(left: seq<KeyedRow>, x: KeyedRow, right: seq<KeyedRow>)
    requires SortedByTime(left + right)
    requires forall k :: 0 <= k < |left| ==> Before(left[k], x)
    requires forall k :: 0 <= k < |right| ==> !Before(right[k], x)
    ensures SortedByTime(left + [x] + right)
  {
    var s := left + [x] + right;
    forall i, j | 0 <= i < j < |s| ensures Before(s[i], s[j]) {
      if j < |left| {
        assert s[i] == (left + right)[i] && s[j] == (left + right)[j];
      } else if i > |left| {
        assert s[i] == (left + right)[i - 1] && s[j] == (left + right)[j - 1];
      } else if i < |left| && j > |left| {
        assert s[i] == (left + right)[i] && s[j] == (left + right)[j - 1];
      }
    }
  }

  /** Inserting `x` in front of rows strictly after it appends `x` to the
      rows of its own key and leaves every other key's rows alone. */
  lemma InsertStable(left: seq<KeyedRow>, x: KeyedRow, right: seq<KeyedRow>)
    requires forall k :: 0 <= k < |right| ==> !Before(right[k], x)
    ensures forall y, q :: WithKey(left + [x] + right, y, q) == WithKey(left + right, y, q) + WithKey([x], y, q)
  {
    forall y, q ensures WithKey(left + [x] + right, y, q) == WithKey(left + right, y, q) + WithKey([x], y, q) {
      var p := HasKey(y, q);
      FilterAppend(left + [x], right, p);
      FilterAppend(left, [x], p);
      FilterAppend(left, right, p);
      if p(x) {
        FilterNone(right, p);
      } else {
        assert Filter([x], p) == [];
      }
    }
  }

  /** `sort_values(by=['Jahr', 'Quartal_Sortierung'])`: a stable insertion
      sort. The result is ordered, is a permutation of the input, and rows
      with equal keys keep their input order. */
  method SortByTime(rows: seq<KeyedRow>) returns (sorted: seq<KeyedRow>)
    ensures SortedByTime(sorted)
    ensures multiset(sorted) == multiset(rows)
    ensures forall y, q :: WithKey(sorted, y, q) == WithKey(rows, y, q)
  {
    sorted := [];
    for i := 0 to |rows|
      invariant SortedByTime(sorted)
      invariant multiset(sorted) == multiset(rows[..i])
      invariant forall y, q :: WithKey(sorted, y, q) == WithKey(rows[..i], y, q)
    {
      var x := rows[i];
      var j := |sorted|;
      while j > 0 && !Before(sorted[j - 1], x)
        invariant 0 <= j <= |sorted|
        invariant forall k :: j <= k < |sorted| ==> !Before(sorted[k], x)
      {
        j := j - 1;
      }
      assert sorted == sorted[..j] + sorted[j..];
      InsertSorted(sorted[..j], x, sorted[j..]);
      InsertStable(sorted[..j], x, sorted[j..]);
      assert multiset(sorted[..j] + [x] + sorted[j..]) == multiset(sorted) + multiset{x};
      assert rows[..i + 1] == rows[..i] + [x];
      forall y, q ensures WithKey(rows[..i + 1], y, q) == WithKey(rows[..i], y, q) + WithKey([x], y, q) {
        FilterAppend(rows[..i], [x], HasKey(y, q));
      }
      sorted := sorted[..j] + [x] + sorted[j..];
    }
    assert rows[..|rows|] == rows;
  }

  // ---------------------------------------------------------------------
  // Display label (app.py, line 231)

  /** `filtered_df['Jahr'].astype(str) + '-' + filtered_df['Monat']`. */
  function Label(year: int, quarter: string): string
  {
    IntToString(year) + "-" + quarter
  }

  /** The year's digits are followed by the first '-' after the sign. */
  lemma LabelDash(year: int, quarter: string)
    ensures |IntToString(year)| >= 1
    ensures Label(year, quarter)[|IntToString(year)|] == '-'
    ensures forall i :: 0 < i < |IntToString(year)| ==> Label(year, quarter)[i] != '-'
  {
    IntToStringSign(year);
    var a := IntToString(year);
    assert forall i :: 0 <= i < |a| ==> Label(year, quarter)[i] == a[i];
  }

  /** Distinct (year, quarter) pairs get distinct labels, so the label can be
      read back into the pair it was built from. */
  lemma LabelInjective(y1: int, q1: string, y2: int, q2: string)
    requires Label(y1, q1) == Label(y2, q2)
    ensures y1 == y2 && q1 == q2
  {
    LabelDash(y1, q1);
    LabelDash(y2, q2);
    var a, b := IntToString(y1), IntToString(y2);
    var l := Label(y1, q1);
    assert |a| == |b|;
    assert a == l[..|a|] && b == l[..|b|];
    IntToStringInjective(y1, y2);
    assert q1 == l[|a| + 1..] == q2;
  }

  /** The `Zeitachse` column, added after sorting. */
  function WithLabels(ks: seq<KeyedRow>): seq<TimeRow>
  {
    seq(|ks|, i requires 0 <= i < |ks| =>
      TimeRow(ks[i].row, ks[i].quarterIndex, Label(ks[i].row.year, ks[i].row.quarter)))
  }

  /** The row data of a time frame. */
  function RowsOf(ts: seq<TimeRow>): seq<Row>
  {
    seq(|ts|, i requires 0 <= i < |ts| => ts[i].row)
  }

  /** The rows of `rows` for one year and quarter label, in order. */
  function AtTime(rows: seq<Row>, year: int, quarter: string): seq<Row>
  {
    Filter(rows, (r: Row) => r.year == year && r.quarter == quarter)
  }

  predicate KeysAgree(ks: seq<KeyedRow>)
  {
    forall i :: 0 <= i < |ks| ==> ks[i].row.quarter in QuarterOrder && ks[i].quarterIndex == QuarterOrder[ks[i].row.quarter]
  }

  lemma QuarterOrderInjective(a: string, b: string)
    requires a in QuarterOrder && b in QuarterOrder && QuarterOrder[a] == QuarterOrder[b]
    ensures a == b
  {
  }

  /** Selecting by (year, quarter index) is selecting by (year, quarter
      label), once the index is the one `quartal_order` gives. */
  lemma {:induction false} WithKeyAtTime(ks: seq<KeyedRow>, y: int, q: string)
    requires KeysAgree(ks) && q in QuarterOrder
    ensures Unkeyed(WithKey(ks, y, QuarterOrder[q])) == AtTime(Unkeyed(ks), y, q)
    decreases |ks|
  {
    if ks != [] {
      WithKeyAtTime(ks[1..], y, q);
      assert Unkeyed(ks)[1..] == Unkeyed(ks[1..]);
      if ks[0].row.quarter != q {
        if ks[0].quarterIndex == QuarterOrder[q] {
          QuarterOrderInjective(ks[0].row.quarter, q);
        }
      }
      var p := HasKey(y, QuarterOrder[q]);
      assert WithKey(ks, y, QuarterOrder[q]) == Filter(ks, p);
      assert Filter(ks, p) == (if p(ks[0]) then [ks[0]] else []) + Filter(ks[1..], p);
      assert Unkeyed((if p(ks[0]) then [ks[0]] else []) + Filter(ks[1..], p))
             == (if p(ks[0]) then [ks[0].row] else []) + Unkeyed(Filter(ks[1..], p));
    }
  }

  /** Projecting two permutations of each other gives two permutations of
      each other. */
  lemma {:induction false} UnkeyedPermutation(a: seq<KeyedRow>, b: seq<KeyedRow>)
    requires multiset(a) == multiset(b)
    ensures multiset(Unkeyed(a)) == multiset(Unkeyed(b))
    decreases |a|
  {
    if a == [] {
      assert |multiset(b)| == 0;
    } else {
      assert a[0] in multiset(b);
      var k :| 0 <= k < |b| && b[k] == a[0];
      var rest := b[..k] + b[k + 1..];
      RemoveMatching(a, b, k);
      UnkeyedPermutation(a[1..], rest);
      UnkeyedSplit(a, 0);
      UnkeyedSplit(b, k);
      assert multiset(Unkeyed(rest)) == multiset(Unkeyed(b[..k])) + multiset(Unkeyed(b[k + 1..])) by {
        assert Unkeyed(rest) == Unkeyed(b[..k]) + Unkeyed(b[k + 1..]);
      }
    }
  }

  /** Removing the same element from two permutations of each other leaves
      two permutations of each other. */
  lemma RemoveMatching(a: seq<KeyedRow>, b: seq<KeyedRow>, k: nat)
    requires multiset(a) == multiset(b) && a != [] && k < |b| && b[k] == a[0]
    ensures multiset(a[1..]) == multiset(b[..k] + b[k + 1..])
  {
    var rest := b[..k] + b[k + 1..];
    assert b == b[..k] + [b[k]] + b[k + 1..];
    assert a == [a[0]] + a[1..];
    assert multiset(b) == multiset(rest) + multiset{a[0]};
    assert multiset(a) == multiset(a[1..]) + multiset{a[0]};
    forall r ensures multiset(a[1..])[r] == multiset(rest)[r] {
      assert multiset(a)[r] == multiset(a[1..])[r] + multiset{a[0]}[r];
      assert multiset(b)[r] == multiset(rest)[r] + multiset{a[0]}[r];
    }
  }

  /** The projection of a sequence around its `k`-th element. */
  lemma UnkeyedSplit(ks: seq<KeyedRow>, k: nat)
    requires k < |ks|
    ensures multiset(Unkeyed(ks))
            == multiset(Unkeyed(ks[..k])) + multiset{ks[k].row} + multiset(Unkeyed(ks[k + 1..]))
  {
    assert ks == ks[..k] + [ks[k]] + ks[k + 1..];
    assert Unkeyed(ks) == Unkeyed(ks[..k]) + [ks[k].row] + Unkeyed(ks[k + 1..]);
  }

  /** The table rows are ordered by (year, quarter index). */
  predicate Chronological(ts: seq<TimeRow>)
  {
    forall i, j :: 0 <= i < j < |ts| ==>
      ts[i].row.year < ts[j].row.year
      || (ts[i].row.year == ts[j].row.year && ts[i].quarterIndex <= ts[j].quarterIndex)
  }

  /** Lines 222-231 together: filter, add the sort key, sort, add the label.
      The result holds exactly the selected rows (as a multiset), each with
      its quarter index and its label, in chronological order, and rows of
      the same year and quarter keep their spreadsheet order. */
  method PrepareTimeAxis(df: Table, selectedYears: set<int>, selectedQuarters: set<string>)
    returns (frame: TimeFrame)
    requires selectedQuarters <= QuarterOrder.Keys
    ensures frame.columns == df.columns
    ensures multiset(RowsOf(frame.rows)) == multiset(FilterRows(df.rows, selectedYears, selectedQuarters))
    ensures forall i :: 0 <= i < |frame.rows| ==>
              && frame.rows[i].row.year in selectedYears
              && frame.rows[i].row.quarter in selectedQuarters
              && frame.rows[i].quarterIndex == QuarterOrder[frame.rows[i].row.quarter]
              && frame.rows[i].timeLabel == Label(frame.rows[i].row.year, frame.rows[i].row.quarter)
    ensures Chronological(frame.rows)
    ensures forall y, q :: q in QuarterOrder ==>
              AtTime(RowsOf(frame.rows), y, q) == AtTime(FilterRows(df.rows, selectedYears, selectedQuarters), y, q)
  {
    var filtered := FilterRows(df.rows, selectedYears, selectedQuarters);
    FilteredQuartersMapped(df.rows, selectedYears, selectedQuarters);
    FilterSatisfies(df.rows, SelectedBy(selectedYears, selectedQuarters));
    var keyed := WithQuarterIndex(filtered);
    var sorted := SortByTime(keyed);
    frame := TimeFrame(df.columns, WithLabels(sorted));

    assert Unkeyed(keyed) == filtered;
    assert RowsOf(frame.rows) == Unkeyed(sorted);
    UnkeyedPermutation(sorted, keyed);
    forall i | 0 <= i < |sorted|
      ensures sorted[i].row in filtered
      ensures sorted[i].row.quarter in QuarterOrder && sorted[i].quarterIndex == QuarterOrder[sorted[i].row.quarter]
    {
      assert sorted[i] in multiset(keyed);
      var j :| 0 <= j < |keyed| && keyed[j] == sorted[i];
      assert keyed[j].row == filtered[j];
    }
    assert KeysAgree(keyed);
    forall y, q | q in QuarterOrder
      ensures AtTime(RowsOf(frame.rows), y, q) == AtTime(filtered, y, q)
    {
      WithKeyAtTime(sorted, y, q);
      WithKeyAtTime(keyed, y, q);
    }
  }
}
