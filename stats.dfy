/**
 * The statistics command's computation: select the stored records whose
 * timestamp lies in the trailing window [now - days, now] (SQL BETWEEN is
 * inclusive at both ends), and report minimum, maximum and mean of each
 * of the three measured quantities, or "no data" when the window is empty.
 */
module Stats {
  import opened Readings

  /** The three measured quantities, the columns after the timestamp. */
  datatype Field = Temperature | Humidity | Pressure

  /** Minimum, maximum and arithmetic mean of one column. */
  datatype Agg = Agg(lo: real, hi: real, mean: real)

  /** What `get_stats` reports: nothing in the window, or one Agg per column. */
  datatype StatsResult =
    | NoData
    | Summary(days: int, temperature: Agg, humidity: Agg, pressure: Agg)

  function Value(r: Record, f: Field): real {
    match f
    case Temperature => r.temperature
    case Humidity => r.humidity
    case Pressure => r.pressure
  }

  predicate InWindow(r: Record, start: int, end: int) {
    start <= r.ts <= end
  }

  /** The rows `SELECT ... WHERE timestamp BETWEEN start AND end` returns, listed in insertion order (SQLite promises no order without ORDER BY). */
  function Window(rows: seq<Record>, start: int, end: int): (w: seq<Record>)
    ensures |w| <= |rows|
    ensures forall r :: r in w <==> r in rows && InWindow(r, start, end)
  {
    if rows == [] then []
    else
      var last := rows[|rows| - 1];
      Window(rows[..|rows| - 1], start, end) + (if InWindow(last, start, end) then [last] else [])
  }

  /** One column of a result set, like `[row[1] for row in data]`. */
  function Column(rows: seq<Record>, f: Field): (c: seq<real>)
    ensures |c| == |rows|
    ensures forall i :: 0 <= i < |rows| ==> c[i] == Value(rows[i], f)
  {
    seq(|rows|, i requires 0 <= i < |rows| => Value(rows[i], f))
  }

  /** Python's `sum`: a left fold from 0. */
  function Sum(s: seq<real>): real {
    if s == [] then 0.0 else Sum(s[..|s| - 1]) + s[|s| - 1]
  }

  /** Python's `min`: keep the running minimum, replace it by a strictly smaller element. */
  function Min(s: seq<real>): (m: real)
    requires |s| > 0
    ensures m in s
    ensures forall i :: 0 <= i < |s| ==> m <= s[i]
  {
    if |s| == 1 then s[0]
    else
      var m := Min(s[..|s| - 1]);
      if s[|s| - 1] < m then s[|s| - 1] else m
  }

  /** Python's `max`: keep the running maximum, replace it by a strictly larger element. */
  function Max(s: seq<real>): (m: real)
    requires |s| > 0
    ensures m in s
    ensures forall i :: 0 <= i < |s| ==> s[i] <= m
  {
    if |s| == 1 then s[0]
    else
      var m := Max(s[..|s| - 1]);
      if s[|s| - 1] > m then s[|s| - 1] else m
  }

  /** `sum(s) / len(s)`; only defined on a non-empty column, so it never divides by zero. */
  function Mean(s: seq<real>): real
    requires |s| > 0
  {
    Sum(s) / (|s| as real)
  }

  /** What a correct summary of a non-empty column is. */
  ghost predicate Summarises(a: Agg, col: seq<real>) {
    |col| > 0 &&
    a.lo in col && a.hi in col &&
    (forall i :: 0 <= i < |col| ==> a.lo <= col[i] <= a.hi) &&
    a.mean == Sum(col) / (|col| as real) &&
    a.lo <= a.mean <= a.hi
  }

  function Aggregate(col: seq<real>): (a: Agg)
    requires |col| > 0
    ensures Summarises(a, col)
  {
    MeanBetween(col);
    Agg(Min(col), Max(col), Mean(col))
  }

  /** `get_stats(days)` at time `now` over the whole store. */
  function GetStats(store: seq<Record>, now: int, days: int): (s: StatsResult)
    ensures s.NoData? <==> forall r :: r in store ==> !InWindow(r, now - days * DaySeconds, now)
    ensures s.Summary? ==>
      var rows := Window(store, now - days * DaySeconds, now);
      s.days == days &&
      Summarises(s.temperature, Column(rows, Temperature)) &&
      Summarises(s.humidity, Column(rows, Humidity)) &&
      Summarises(s.pressure, Column(rows, Pressure))
  {
    var rows := Window(store, now - days * DaySeconds, now);
    if rows == [] then NoData
    else
      assert rows[0] in rows;
      Summary(days,
              Aggregate(Column(rows, Temperature)),
              Aggregate(Column(rows, Humidity)),
              Aggregate(Column(rows, Pressure)))
  }

  /** Every element at or above `lo` and at or below `hi` bounds the sum by the length. */
  lemma {:induction false} SumBounds(s: seq<real>, lo: real, hi: real)
    requires forall i :: 0 <= i < |s| ==> lo <= s[i] <= hi
    ensures (|s| as real) * lo <= Sum(s) <= (|s| as real) * hi
  {
    if s != [] {
      var init := s[..|s| - 1];
      SumBounds(init, lo, hi);
      assert (|s| as real) * lo == (|init| as real) * lo + lo;
      assert (|s| as real) * hi == (|init| as real) * hi + hi;
    }
  }

  /** Dividing by a positive count keeps bounds that hold of the count times them. */
  lemma DivideBounds(x: real, n: real, lo: real, hi: real)
    requires n > 0.0 && n * lo <= x <= n * hi
    ensures lo <= x / n <= hi
  {
    assert x / n * n == x;
  }

  /** The mean of a non-empty column lies between its minimum and maximum. */
  lemma {:induction false} MeanBetween(s: seq<real>)
    requires |s| > 0
    ensures Min(s) <= Mean(s) <= Max(s)
  {
    var lo, hi, n := Min(s), Max(s), |s| as real;
    SumBounds(s, lo, hi);
    DivideBounds(Sum(s), n, lo, hi);
    assert Mean(s) == Sum(s) / n;
  }

  /**
   * The window keeps exactly the stored records whose timestamp is in
   * range, each as many times as it is stored, and no others.
   */
  lemma {:induction false} WindowCounts(rows: seq<Record>, start: int, end: int, r: Record)
    ensures multiset(Window(rows, start, end))[r] ==
            if InWindow(r, start, end) then multiset(rows)[r] else 0
  {
    if rows != [] {
      var init, last := rows[..|rows| - 1], rows[|rows| - 1];
      WindowCounts(init, start, end, r);
      assert rows == init + [last];
    }
  }

  /**
   * Right after a record is appended, a query whose range covers its
   * timestamp selects what it selected before plus that record, with all
   * four fields as stored; a query that does not cover it is unaffected.
   */
  lemma AppendThenQuery(rows: seq<Record>, rec: Record, start: int, end: int)
    ensures Window(rows + [rec], start, end) ==
            Window(rows, start, end) + (if InWindow(rec, start, end) then [rec] else [])
  {
    assert (rows + [rec])[..|rows|] == rows;
  }

  /** An empty store, or one with nothing in range, gives the "no data" reply. */
  lemma NoDataWhenWindowEmpty(store: seq<Record>, now: int, days: int)
    requires Window(store, now - days * DaySeconds, now) == []
    ensures GetStats(store, now, days) == NoData
  {
  }

  lemma TwoColumnStats()
    ensures Min([20.0, 25.0]) == 20.0 && Max([20.0, 25.0]) == 25.0
    ensures Mean([20.0, 25.0]) == 22.5
  {
    assert [20.0, 25.0][..1] == [20.0] && [20.0][..0] == [];
    assert Sum([20.0]) == 20.0;
  }

  lemma ThreeColumnStats()
    ensures Min([20.0, 25.0, 32.0]) == 20.0 && Max([20.0, 25.0, 32.0]) == 32.0
    ensures Mean([20.0, 25.0, 32.0]) == 77.0 / 3.0
  {
    assert [20.0, 25.0, 32.0][..2] == [20.0, 25.0];
    TwoColumnStats();
    assert Sum([20.0, 25.0]) == 45.0;
  }

  lemma WindowOfTwo(a: Record, b: Record, start: int, end: int)
    requires InWindow(a, start, end) && InWindow(b, start, end)
    ensures Window([a, b], start, end) == [a, b]
  {
    assert [a][..0] == [];
    assert Window([a], start, end) == [a];
    assert [a, b][..1] == [a];
  }

  /** Of three readings two, five and ten days old, the week keeps the first two. */
  lemma ScenarioWindows(a: Record, b: Record, c: Record, now: int)
    requires a.ts == now - 2 * DaySeconds && b.ts == now - 5 * DaySeconds && c.ts == now - 10 * DaySeconds
    ensures Window([a, b, c], now - WeekDays * DaySeconds, now) == [a, b]
    ensures Window([a, b, c], now - MonthDays * DaySeconds, now) == [a, b, c]
  {
    var week, month := now - WeekDays * DaySeconds, now - MonthDays * DaySeconds;
    assert [a, b, c][..2] == [a, b];
    WindowOfTwo(a, b, week, now);
    assert !InWindow(c, week, now);
    WindowOfTwo(a, b, month, now);
    assert InWindow(c, month, now);
  }

  /**
   * Three readings two, five and ten days old at 20, 25 and 32 degrees:
   * the week leaves out the oldest, the month takes all three.
   */
  lemma {:induction false} ThreeReadingScenario(now: int, h: real, p: real)
    ensures
      var store := [Record(now - 2 * DaySeconds, 20.0, h, p),
                    Record(now - 5 * DaySeconds, 25.0, h, p),
                    Record(now - 10 * DaySeconds, 32.0, h, p)];
      GetStats(store, now, WeekDays).Summary? &&
      GetStats(store, now, WeekDays).temperature == Agg(20.0, 25.0, 22.5) &&
      GetStats(store, now, MonthDays).Summary? &&
      GetStats(store, now, MonthDays).temperature == Agg(20.0, 32.0, 77.0 / 3.0)
  {
    var a := Record(now - 2 * DaySeconds, 20.0, h, p);
    var b := Record(now - 5 * DaySeconds, 25.0, h, p);
    var c := Record(now - 10 * DaySeconds, 32.0, h, p);
    ScenarioWindows(a, b, c, now);
    assert Column([a, b], Temperature) == [20.0, 25.0];
    assert Column([a, b, c], Temperature) == [20.0, 25.0, 32.0];
    TwoColumnStats();
    ThreeColumnStats();
  }
}
