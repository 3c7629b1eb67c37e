/**
 * The price history file `tracker_data.csv` that `TrendTracker.save_data`
 * writes and that `check_for_alerts` and `visualize_trends` read back.
 *
 * The file is a sequence of lines: a header line naming the columns, then
 * one data line per saved observation. A missing file and a zero-byte file
 * are the same state here, the empty sequence, because every reader and
 * writer in the tracker tests existence and non-zero size together.
 */
module Store {
  import opened Wrappers

  /** Prices are only ever compared, never computed with, so a whole
      number of pence stands in for the float the tracker stores. */
  type Price = int

  /** The two columns of the CSV header, in order. */
  const Columns: seq<string> := ["Timestamp", "Price"]

  /** One sample: an opaque `HH:MM:SS` time of day and a price. */
  datatype Observation = Observation(timestamp: string, price: Price)

  datatype Line = HeaderLine(columns: seq<string>) | DataLine(obs: Observation)

  /** The file's contents; `[]` is both "missing" and "zero bytes". */
  type File = seq<Line>

  /** A store as the tracker lays it out: empty, or the header at index 0
      and data lines everywhere after it. */
  predicate WellFormed(f: File) {
    f == [] || (f[0] == HeaderLine(Columns) && forall i :: 1 <= i < |f| ==> f[i].DataLine?)
  }

  /** The data lines of a sequence of observations, in order. */
  function Rows(obs: seq<Observation>): (lines: File)
    ensures |lines| == |obs|
    ensures forall i :: 0 <= i < |obs| ==> lines[i] == DataLine(obs[i])
  {
    if obs == [] then [] else [DataLine(obs[0])] + Rows(obs[1..])
  }

  lemma RowsCons(o: Observation, obs: seq<Observation>)
    ensures Rows([o] + obs) == [DataLine(o)] + Rows(obs)
  {
    assert ([o] + obs)[1..] == obs;
  }

  /** Distinct observation sequences give distinct data lines. */
  lemma RowsInjective(a: seq<Observation>, b: seq<Observation>)
    requires Rows(a) == Rows(b)
    ensures a == b
  {
    forall i | 0 <= i < |a| ensures a[i] == b[i] {
      assert Rows(a)[i] == Rows(b)[i];
    }
  }

  // ---------------------------------------------------------------------
  // save_data
  // ---------------------------------------------------------------------

  /** The file after one `save_data`: an empty file gets the header and the
      row, a non-empty one gets the row appended and nothing else touched. */
  function Saved(f: File, o: Observation): (g: File)
    ensures |g| == |f| + (if f == [] then 2 else 1)
    ensures g[|g| - 1] == DataLine(o)
    ensures g[..|g| - 1] == if f == [] then [HeaderLine(Columns)] else f
    ensures WellFormed(g) <==> WellFormed(f)
  {
    if f == [] then [HeaderLine(Columns), DataLine(o)] else f + [DataLine(o)]
  }

  /** The file after saving `obs` one after the other, first to last: it
      grows by at least one line per save and ends with the last one. */
  function SavedAll(f: File, obs: seq<Observation>): (g: File)
    ensures |g| >= |f| + |obs|
    ensures obs != [] ==> g[|g| - 1] == DataLine(obs[|obs| - 1])
    decreases |obs|
  {
    if obs == [] then f else SavedAll(Saved(f, obs[0]), obs[1..])
  }

  lemma ConcatAssoc(a: File, b: File, c: File)
    ensures (a + b) + c == a + (b + c)
  {
  }

  /** Saving to a non-empty file appends one data line per observation. */
  lemma {:induction false} SavedAllAppends(f: File, obs: seq<Observation>)
    requires f != []
    ensures SavedAll(f, obs) == f + Rows(obs)
    decreases |obs|
  {
    if obs == [] {
      assert f + Rows(obs) == f;
    } else {
      var first, rest := obs[0], obs[1..];
      SavedAllAppends(f + [DataLine(first)], rest);
      assert obs == [first] + rest;
      RowsCons(first, rest);
      ConcatAssoc(f, [DataLine(first)], Rows(rest));
    }
  }

  /** Saves only ever append: whatever the file held is kept, the header
      is added once if the file was empty, and the rows follow in order. */
  lemma SavedAllShape(f: File, obs: seq<Observation>)
    ensures SavedAll(f, obs) == (if f == [] && obs != [] then [HeaderLine(Columns)] else f) + Rows(obs)
  {
    if f != [] {
      SavedAllAppends(f, obs);
    } else if obs != [] {
      var first, rest := obs[0], obs[1..];
      SavedAllAppends([HeaderLine(Columns), DataLine(first)], rest);
      assert obs == [first] + rest;
      RowsCons(first, rest);
      assert [HeaderLine(Columns), DataLine(first)] == [HeaderLine(Columns)] + [DataLine(first)];
      ConcatAssoc([HeaderLine(Columns)], [DataLine(first)], Rows(rest));
    }
  }

  /** From an empty file, N saves give the header followed by the N rows in
      call order, and the header appears at index 0 and nowhere else. */
  lemma SavesFromEmpty(obs: seq<Observation>)
    requires obs != []
    ensures |SavedAll([], obs)| == |obs| + 1
    ensures SavedAll([], obs)[0] == HeaderLine(Columns)
    ensures forall i :: 1 <= i < |obs| + 1 ==> SavedAll([], obs)[i] == DataLine(obs[i - 1])
    ensures WellFormed(SavedAll([], obs))
  {
    SavedAllShape([], obs);
  }

  /** Saving keeps a well-formed store well-formed and a damaged one damaged. */
  lemma {:induction false} SavedAllWellFormed(f: File, obs: seq<Observation>)
    ensures WellFormed(SavedAll(f, obs)) <==> WellFormed(f)
    ensures SavedAll(f, obs) == [] <==> f == [] && obs == []
    decreases |obs|
  {
    if obs != [] {
      SavedAllWellFormed(Saved(f, obs[0]), obs[1..]);
    }
  }

  // ---------------------------------------------------------------------
  // Reading the file back (pd.read_csv)
  // ---------------------------------------------------------------------

  datatype ReadOutcome = Missing | Unreadable | Table(rows: seq<Observation>)

  /** What reading the whole file yields: nothing for a missing or empty
      file, a failure for a file not laid out as the tracker writes it,
      otherwise the observations below the header, in file order. */
  function ReadAll(f: File): (t: ReadOutcome)
    ensures t.Missing? <==> f == []
    ensures t.Unreadable? <==> f != [] && !WellFormed(f)
    ensures t.Table? ==> Rows(t.rows) == f[1..]
  {
    if f == [] then Missing
    else if !WellFormed(f) then Unreadable
    else Table(seq(|f| - 1, i requires 0 <= i < |f| - 1 => f[i + 1].obs))
  }

  /** Round trip: the observations saved into an empty file read back
      exactly, in order. */
  lemma ReadAfterSaves(obs: seq<Observation>)
    ensures ReadAll(SavedAll([], obs)) == if obs == [] then Missing else Table(obs)
  {
    if obs != [] {
      var g := SavedAll([], obs);
      SavedAllShape([], obs);
      SavesFromEmpty(obs);
      assert g[1..] == Rows(obs);
      RowsInjective(ReadAll(g).rows, obs);
    }
  }

  /** Round trip of one save on a readable store: the rows read back are
      the old rows plus the new observation at the end. */
  lemma ReadAfterSave(f: File, o: Observation)
    requires !ReadAll(f).Unreadable?
    ensures ReadAll(Saved(f, o)) == Table((if f == [] then [] else ReadAll(f).rows) + [o])
  {
    var old_rows := if f == [] then [] else ReadAll(f).rows;
    var t := ReadAll(Saved(f, o));
    assert Rows(old_rows + [o]) == Rows(old_rows) + [DataLine(o)];
    assert Rows(t.rows) == Rows(old_rows + [o]);
    RowsInjective(t.rows, old_rows + [o]);
  }

  // ---------------------------------------------------------------------
  // check_for_alerts
  // ---------------------------------------------------------------------

  datatype Change = Dropped | Increased | NoChange

  /** The three-way comparison of the current price with the last stored one. */
  function Classify(current: Price, previous: Price): (c: Change)
    ensures c == Dropped <==> current < previous
    ensures c == Increased <==> current > previous
    ensures c == NoChange <==> current == previous
  {
    if current < previous then Dropped
    else if current > previous then Increased
    else NoChange
  }

  /** The verdict `check_for_alerts` prints, if any: none for a missing or
      empty file, for a header with no rows, or when reading fails;
      otherwise the comparison with the price on the file's last line. */
  function AlertFor(f: File, current: Price): (alert: Option<Change>)
    ensures alert.None? <==> f == [] || !WellFormed(f) || |f| == 1
    ensures alert.Some? ==> f[|f| - 1].DataLine? && alert.value == Classify(current, f[|f| - 1].obs.price)
  {
    if f == [] then None
    else
      match ReadAll(f)
      case Table(rows) =>
        if rows == [] then None
        else Some(Classify(current, rows[|rows| - 1].price))
      case _ => None
  }

  /** Comparing against a store built by saves alone: no verdict before the
      first save, otherwise against the most recently saved price. */
  lemma AlertAfterSaves(obs: seq<Observation>, current: Price)
    ensures AlertFor(SavedAll([], obs), current)
         == if obs == [] then None else Some(Classify(current, obs[|obs| - 1].price))
  {
    if obs != [] {
      SavesFromEmpty(obs);
    }
  }

  // ---------------------------------------------------------------------
  // visualize_trends (its guard only)
  // ---------------------------------------------------------------------

  datatype Chart = NoDataFile | WrongColumns | Plot(title: string, points: File)

  /** What `visualize_trends` does with the file: report a missing file,
      report columns that lack `Timestamp` or `Price`, or plot every line
      below the header under the given title. */
  function ChartOf(f: File, title: string): (c: Chart)
    ensures c.NoDataFile? <==> f == []
    ensures c.Plot? <==> f != [] && f[0].HeaderLine? && "Timestamp" in f[0].columns && "Price" in f[0].columns
    ensures c.WrongColumns? <==> f != [] && !(f[0].HeaderLine? && "Timestamp" in f[0].columns && "Price" in f[0].columns)
    ensures c.Plot? ==> c.title == title && c.points == f[1..]
    ensures WellFormed(f) && f != [] ==> c.Plot?
  {
    if f == [] then NoDataFile
    else if f[0].HeaderLine? && "Timestamp" in f[0].columns && "Price" in f[0].columns then Plot(title, f[1..])
    else WrongColumns
  }

  /** The chart drawn from a store built by saves alone plots exactly the
      saved observations in order. */
  lemma ChartAfterSaves(obs: seq<Observation>, title: string)
    ensures ChartOf(SavedAll([], obs), title) == if obs == [] then NoDataFile else Plot(title, Rows(obs))
  {
    SavedAllShape([], obs);
  }
}
