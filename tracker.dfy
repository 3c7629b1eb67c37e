/**
 * `TrendTracker`: the object that owns the history file, and the sampling
 * loop of its `run` method, one tick at a time.
 *
 * The wall clock, the HTTP fetch and `time.sleep` are outside the model:
 * each tick receives the `HH:MM:SS` timestamp `save_data` would take and
 * the price `fetch_price` returned (or `None`).
 */
module Tracker {
  import opened Wrappers
  import opened Store

  /** The inputs of one tick: the timestamp taken at save time and the
      outcome of `fetch_price`. */
  datatype Sample = Sample(timestamp: string, fetched: Option<Price>)

  /** The observations a run of ticks saves: one per successful fetch, in
      tick order; ticks whose fetch gave `None` contribute nothing. */
  function Successes(samples: seq<Sample>): (obs: seq<Observation>)
    ensures |obs| <= |samples|
  {
    if samples == [] then []
    else
      var s := samples[0];
      (if s.fetched.Some? then [Observation(s.timestamp, s.fetched.value)] else [])
        + Successes(samples[1..])
  }

  /** Every saved observation comes from a tick whose fetch gave that
      price, at that tick's timestamp; a run in which every fetch succeeds
      saves once per tick, and one in which every fetch fails saves nothing. */
  lemma {:induction false} SuccessesAreFetched(samples: seq<Sample>)
    ensures forall o :: o in Successes(samples) ==> Sample(o.timestamp, Some(o.price)) in samples
    ensures (forall i :: 0 <= i < |samples| ==> samples[i].fetched.Some?) ==> |Successes(samples)| == |samples|
    ensures (forall i :: 0 <= i < |samples| ==> samples[i].fetched.None?) ==> Successes(samples) == []
    decreases |samples|
  {
    if samples != [] {
      var s, rest := samples[0], samples[1..];
      SuccessesAreFetched(rest);
      assert samples == [s] + rest;
      if forall i :: 0 <= i < |samples| ==> samples[i].fetched.Some? {
        assert forall i :: 0 <= i < |rest| ==> rest[i].fetched.Some? by {
          forall i | 0 <= i < |rest| ensures rest[i].fetched.Some? { assert rest[i] == samples[i + 1]; }
        }
      }
      if forall i :: 0 <= i < |samples| ==> samples[i].fetched.None? {
        assert forall i :: 0 <= i < |rest| ==> rest[i].fetched.None? by {
          forall i | 0 <= i < |rest| ensures rest[i].fetched.None? { assert rest[i] == samples[i + 1]; }
        }
      }
    }
  }

  /** The file after one tick of `run`: saved to on a price, untouched on `None`. */
  function AfterTick(f: File, s: Sample): (g: File)
    ensures s.fetched.None? ==> g == f
    ensures s.fetched.Some? ==> |g| == |f| + (if f == [] then 2 else 1)
    ensures s.fetched.Some? ==> g[|g| - 1] == DataLine(Observation(s.timestamp, s.fetched.value))
                                && g[..|g| - 1] == if f == [] then [HeaderLine(Columns)] else f
  {
    match s.fetched
    case None => f
    case Some(p) => Saved(f, Observation(s.timestamp, p))
  }

  /** The first tick of a run performs its save, and the rest of the run
      performs the remaining ones. */
  lemma TickThenRest(f: File, samples: seq<Sample>)
    requires samples != []
    ensures SavedAll(f, Successes(samples)) == SavedAll(AfterTick(f, samples[0]), Successes(samples[1..]))
  {
    var s := samples[0];
    if s.fetched.Some? {
      var o, rest := Observation(s.timestamp, s.fetched.value), Successes(samples[1..]);
      assert Successes(samples) == [o] + rest;
      assert ([o] + rest)[0] == o && ([o] + rest)[1..] == rest;
    } else {
      assert Successes(samples) == Successes(samples[1..]);
    }
  }

  /** The two orders of the calls in the loop body of `run`: the code as
      written saves and then checks; the other order reads the previous
      price before the save. */
  datatype Order = SaveThenCheck | CheckThenSave

  /** The verdict one tick prints. */
  function TickAlert(order: Order, f: File, s: Sample): (alert: Option<Change>)
    ensures s.fetched.None? ==> alert.None?
    ensures order == SaveThenCheck && alert.Some? ==> alert.value == Classify(s.fetched.value, s.fetched.value)
    ensures order == CheckThenSave && alert.Some? ==>
      |f| > 1 && f[|f| - 1].DataLine? && alert.value == Classify(s.fetched.value, f[|f| - 1].obs.price)
  {
    match s.fetched
    case None => None
    case Some(p) =>
      match order
      case SaveThenCheck => AlertFor(Saved(f, Observation(s.timestamp, p)), p)
      case CheckThenSave => AlertFor(f, p)
  }

  /** The verdicts a run of ticks prints, one per tick. */
  function Alerts(order: Order, f: File, samples: seq<Sample>): (alerts: seq<Option<Change>>)
    ensures |alerts| == |samples|
    decreases |samples|
  {
    if samples == [] then []
    else [TickAlert(order, f, samples[0])] + Alerts(order, AfterTick(f, samples[0]), samples[1..])
  }

  /** Tick `i` of a run prints the verdict of a tick made on the file that
      the first `i` ticks left behind. */
  lemma {:induction false} AlertAt(order: Order, f: File, samples: seq<Sample>, i: nat)
    requires i < |samples|
    ensures Alerts(order, f, samples)[i] == TickAlert(order, SavedAll(f, Successes(samples[..i])), samples[i])
    decreases i
  {
    if i > 0 {
      var rest, g := samples[1..], AfterTick(f, samples[0]);
      assert Alerts(order, f, samples)[i] == Alerts(order, g, rest)[i - 1];
      AlertAt(order, g, rest, i - 1);
      assert rest[i - 1] == samples[i];
      assert samples[..i][0] == samples[0] && samples[..i][1..] == rest[..i - 1];
      TickThenRest(f, samples[..i]);
    }
  }

  /** The bookkeeping of one pass of the loop in `run`: what is left of the
      run after tick `i` is that tick followed by the remaining ticks. */
  lemma RunStep(start: File, f: File, samples: seq<Sample>, i: nat, alerts: seq<Option<Change>>)
    requires i < |samples|
    requires SavedAll(start, Successes(samples)) == SavedAll(f, Successes(samples[i..]))
    requires Alerts(SaveThenCheck, start, samples) == alerts + Alerts(SaveThenCheck, f, samples[i..])
    ensures SavedAll(start, Successes(samples)) == SavedAll(AfterTick(f, samples[i]), Successes(samples[i + 1..]))
    ensures Alerts(SaveThenCheck, start, samples)
         == (alerts + [TickAlert(SaveThenCheck, f, samples[i])]) + Alerts(SaveThenCheck, AfterTick(f, samples[i]), samples[i + 1..])
  {
    var rest := samples[i..];
    assert rest[0] == samples[i] && rest[1..] == samples[i + 1..];
    TickThenRest(f, rest);
    var now, later := TickAlert(SaveThenCheck, f, samples[i]), Alerts(SaveThenCheck, AfterTick(f, samples[i]), samples[i + 1..]);
    assert Alerts(SaveThenCheck, f, rest) == [now] + later;
    assert alerts + ([now] + later) == (alerts + [now]) + later;
  }

  /** Saving first means the comparison is made against the row just
      written: a tick with a price prints "no change" whenever the store is
      readable, and no verdict otherwise; it never reports a drop or a rise. */
  lemma TickVerdictIsNoChange(f: File, s: Sample)
    ensures TickAlert(SaveThenCheck, f, s) == if s.fetched.None? || ReadAll(f).Unreadable? then None else Some(NoChange)
  {
  }

  /** The same over a whole run: whatever the prices fetched, every verdict
      is "no change" or none. */
  lemma {:induction false} RunVerdictsAreNoChange(f: File, samples: seq<Sample>)
    ensures forall i :: 0 <= i < |samples| ==>
      Alerts(SaveThenCheck, f, samples)[i] == if samples[i].fetched.None? || ReadAll(f).Unreadable? then None else Some(NoChange)
    decreases |samples|
  {
    if samples != [] {
      var g := AfterTick(f, samples[0]);
      assert ReadAll(g).Unreadable? == ReadAll(f).Unreadable?;
      RunVerdictsAreNoChange(g, samples[1..]);
      TickVerdictIsNoChange(f, samples[0]);
    }
  }

  /** With the previous price read before saving, a run that starts from an
      empty file reports nothing until the first price has been saved, and
      from then on compares each price with the last one saved before it. */
  lemma CheckingFirstComparesWithPrior(samples: seq<Sample>, i: nat)
    requires i < |samples|
    ensures var prior := Successes(samples[..i]);
            Alerts(CheckThenSave, [], samples)[i]
            == match samples[i].fetched
               case None => None
               case Some(p) => if prior == [] then None else Some(Classify(p, prior[|prior| - 1].price))
  {
    AlertAt(CheckThenSave, [], samples, i);
    if samples[i].fetched.Some? {
      AlertAfterSaves(Successes(samples[..i]), samples[i].fetched.value);
    }
  }

  /** Three ticks fetching 10.00, 9.50 and 9.50 (in pence) from an empty
      file: as written, all three print "no change". */
  lemma ThreeTicksAsWritten()
    ensures Alerts(SaveThenCheck, [], [Sample("10:00:00", Some(1000)), Sample("10:00:10", Some(950)), Sample("10:00:20", Some(950))])
         == [Some(NoChange), Some(NoChange), Some(NoChange)]
  {
    RunVerdictsAreNoChange([], [Sample("10:00:00", Some(1000)), Sample("10:00:10", Some(950)), Sample("10:00:20", Some(950))]);
  }

  /** The same ticks with the previous price read first: no prior data, a
      drop, then no change. */
  lemma ThreeTicksCheckingFirst()
    ensures Alerts(CheckThenSave, [], [Sample("10:00:00", Some(1000)), Sample("10:00:10", Some(950)), Sample("10:00:20", Some(950))])
         == [None, Some(Dropped), Some(NoChange)]
  {
    var samples := [Sample("10:00:00", Some(1000)), Sample("10:00:10", Some(950)), Sample("10:00:20", Some(950))];
    var o1, o2 := Observation("10:00:00", 1000), Observation("10:00:10", 950);
    assert samples[..1] == [samples[0]] && samples[..2] == [samples[0], samples[1]];
    assert samples[..1][1..] == [] && samples[..2][1..] == [samples[1]] && [samples[1]][1..] == [];
    assert Successes(samples[..1]) == [o1];
    assert Successes(samples[..2]) == [o1, o2];
    CheckingFirstComparesWithPrior(samples, 0);
    CheckingFirstComparesWithPrior(samples, 1);
    CheckingFirstComparesWithPrior(samples, 2);
  }

  class TrendTracker {
    const url: string
    const productName: string
    /** The contents of `storage_file`, which may hold rows from earlier runs. */
    var storage: File

    constructor (url: string, productName: string, existing: File)
      ensures this.url == url && this.productName == productName
      ensures storage == existing
    {
      this.url := url;
      this.productName := productName;
      storage := existing;
    }

    /** `save_data`: write the header and the row to an empty file, or
        append the row to a non-empty one. */
    method SaveData(timestamp: string, price: Price)
      modifies this
      ensures storage == Saved(old(storage), Observation(timestamp, price))
    {
      var row := DataLine(Observation(timestamp, price));
      if storage == [] {
        storage := [HeaderLine(Columns), row];
      } else {
        storage := storage + [row];
      }
    }

    /** `check_for_alerts`: compare with the last stored row when the file
        is non-empty, reads back and has data rows; otherwise say nothing. */
    method CheckForAlerts(current: Price) returns (alert: Option<Change>)
      ensures alert == AlertFor(storage, current)
    {
      alert := None;
      if storage != [] {
        var table := ReadAll(storage);
        if table.Table? && table.rows != [] {
          var previous := table.rows[|table.rows| - 1].price;
          if current < previous {
            alert := Some(Dropped);
          } else if current > previous {
            alert := Some(Increased);
          } else {
            alert := Some(NoChange);
          }
        }
      }
    }

    /** `visualize_trends`, up to the point where it hands over to the
        plotting library. */
    function VisualizeTrends(): (chart: Chart)
      reads this
      ensures chart.NoDataFile? <==> storage == []
      ensures chart.Plot? <==> storage != [] && storage[0].HeaderLine?
                               && "Timestamp" in storage[0].columns && "Price" in storage[0].columns
      ensures chart.Plot? ==> chart.title == "Price Trend: " + productName && chart.points == storage[1..]
    {
      ChartOf(storage, "Price Trend: " + productName)
    }

    /** One pass of the loop in `run`, as written: on a price, save it and
        then check for alerts; on `None`, do nothing. */
    method Tick(s: Sample) returns (alert: Option<Change>)
      modifies this
      ensures storage == AfterTick(old(storage), s)
      ensures alert == TickAlert(SaveThenCheck, old(storage), s)
      ensures alert == if s.fetched.None? || ReadAll(old(storage)).Unreadable? then None else Some(NoChange)
    {
      TickVerdictIsNoChange(storage, s);
      alert := None;
      match s.fetched {
        case None =>
        case Some(price) =>
          SaveData(s.timestamp, price);
          alert := CheckForAlerts(price);
      }
    }

    /** One pass of the loop with the previous price read before saving,
        so that the verdict compares the new price with the old one. */
    method TickComparingPrevious(s: Sample) returns (alert: Option<Change>)
      modifies this
      ensures storage == AfterTick(old(storage), s)
      ensures alert == TickAlert(CheckThenSave, old(storage), s)
    {
      alert := None;
      match s.fetched {
        case None =>
        case Some(price) =>
          alert := CheckForAlerts(price);
          SaveData(s.timestamp, price);
      }
    }

    /** `run` over a finite series of ticks, followed by the visualisation
        that the interrupt handler performs. */
    method Run(samples: seq<Sample>) returns (alerts: seq<Option<Change>>, chart: Chart)
      modifies this
      ensures storage == SavedAll(old(storage), Successes(samples))
      ensures alerts == Alerts(SaveThenCheck, old(storage), samples)
      ensures forall i :: 0 <= i < |samples| ==>
        alerts[i] == if samples[i].fetched.None? || ReadAll(old(storage)).Unreadable? then None else Some(NoChange)
      ensures chart == ChartOf(storage, "Price Trend: " + productName)
    {
      ghost var start := storage;
      alerts := [];
      var i := 0;
      while i < |samples|
        invariant 0 <= i <= |samples|
        invariant SavedAll(start, Successes(samples)) == SavedAll(storage, Successes(samples[i..]))
        invariant Alerts(SaveThenCheck, start, samples) == alerts + Alerts(SaveThenCheck, storage, samples[i..])
      {
        RunStep(start, storage, samples, i, alerts);
        var alert := Tick(samples[i]);
        alerts := alerts + [alert];
        i := i + 1;
      }
      RunVerdictsAreNoChange(start, samples);
      chart := VisualizeTrends();
    }
  }
}
