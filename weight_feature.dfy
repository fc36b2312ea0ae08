/**
 * The weight feature (packages/feature-weight/src/feature.tsx): the trailing moving
 * average drawn as the trend line, the insights computed from the displayed series,
 * the form that logs a bodyweight measurement, and the goal bodyweight field.
 * Timestamps are integers; weights, averages and rates are reals.
 */
module WeightFeature {
  import opened Wrappers
  import opened Db
  import Sorting
  import Text
  import AppContext

  // ----- Moving average -----

  /** The window `smoothTrend` uses when none is given. */
  const DEFAULT_WINDOW: int := 3

  /** `reduce((sum, item) => sum + item, 0)`: the left-to-right sum. */
  function Sum(xs: seq<real>): real {
    if xs == [] then 0.0 else Sum(xs[..|xs| - 1]) + xs[|xs| - 1]
  }

  /** The arithmetic mean of a non-empty run of values. */
  function Mean(xs: seq<real>): real
    requires |xs| > 0
  {
    Sum(xs) / (|xs| as real)
  }

  /** The first index of the window that ends at `i`: `max(0, i - w + 1)`. */
  function WindowStart(i: int, w: int): (r: int)
    ensures r >= 0 && r >= i - w + 1
    ensures r == 0 || r == i - w + 1
  {
    if i - w + 1 > 0 then i - w + 1 else 0
  }

  /**
   * `smoothTrend(values, windowSize)`: element `i` is the mean of the values from
   * `WindowStart(i, windowSize)` up to and including `i`.
   */
  function SmoothTrend(values: seq<real>, windowSize: int): (r: seq<real>)
    requires windowSize >= 1
    ensures |r| == |values|
  {
    seq(|values|, i requires 0 <= i < |values| => Mean(values[WindowStart(i, windowSize)..i + 1]))
  }

  /** Element `i` of the trend is the mean of the at most `windowSize` values ending at `i`. */
  lemma SmoothTrendWindow(values: seq<real>, windowSize: int, i: int)
    requires windowSize >= 1 && 0 <= i < |values|
    ensures var w := values[WindowStart(i, windowSize)..i + 1];
      0 < |w| <= windowSize && w[|w| - 1] == values[i]
      && SmoothTrend(values, windowSize)[i] == Sum(w) / (|w| as real)
    ensures i >= windowSize - 1 ==>
      SmoothTrend(values, windowSize)[i] == Sum(values[i - windowSize + 1..i + 1]) / (windowSize as real)
  {
  }

  /** Each trend value depends only on the values up to it: the trend of a prefix is a prefix of the trend. */
  lemma SmoothTrendCausal(values: seq<real>, windowSize: int, n: int)
    requires windowSize >= 1 && 0 <= n <= |values|
    ensures SmoothTrend(values[..n], windowSize) == SmoothTrend(values, windowSize)[..n]
  {
    forall i | 0 <= i < n
      ensures SmoothTrend(values[..n], windowSize)[i] == SmoothTrend(values, windowSize)[i]
    {
      assert values[..n][WindowStart(i, windowSize)..i + 1] == values[WindowStart(i, windowSize)..i + 1];
    }
  }

  /** The sum of `n` copies of `c` is `n * c`. */
  lemma {:induction false} SumConstant(xs: seq<real>, c: real)
    requires forall k :: 0 <= k < |xs| ==> xs[k] == c
    ensures Sum(xs) == (|xs| as real) * c
  {
    if xs != [] {
      SumConstant(xs[..|xs| - 1], c);
    }
  }

  /** A sum of values between `lo` and `hi` lies between `n * lo` and `n * hi`. */
  lemma {:induction false} SumBounds(xs: seq<real>, lo: real, hi: real)
    requires forall k :: 0 <= k < |xs| ==> lo <= xs[k] <= hi
    ensures (|xs| as real) * lo <= Sum(xs) <= (|xs| as real) * hi
  {
    if xs != [] {
      var n := |xs| - 1;
      SumBounds(xs[..n], lo, hi);
      assert (n as real) * lo + lo == (|xs| as real) * lo;
      assert (n as real) * hi + hi == (|xs| as real) * hi;
    }
  }

  /** A mean of values between `lo` and `hi` lies between them. */
  lemma MeanBounds(xs: seq<real>, lo: real, hi: real)
    requires |xs| > 0
    requires forall k :: 0 <= k < |xs| ==> lo <= xs[k] <= hi
    ensures lo <= Mean(xs) <= hi
  {
    SumBounds(xs, lo, hi);
    var n := |xs| as real;
    assert Sum(xs) / n >= (n * lo) / n;
    assert Sum(xs) / n <= (n * hi) / n;
  }

  /** The first trend value is the first measurement. */
  lemma SmoothTrendFirst(values: seq<real>, windowSize: int)
    requires windowSize >= 1 && |values| > 0
    ensures SmoothTrend(values, windowSize)[0] == values[0]
  {
    var w := values[WindowStart(0, windowSize)..1];
    assert w == [values[0]];
    assert Sum(w) == Sum([]) + values[0];
  }

  /** The mean of a run of equal values is that value. */
  lemma MeanConstant(xs: seq<real>, c: real)
    requires |xs| > 0
    requires forall k :: 0 <= k < |xs| ==> xs[k] == c
    ensures Mean(xs) == c
  {
    SumConstant(xs, c);
    var n := |xs| as real;
    assert n * c / n == c;
  }

  /** A constant series is its own trend. */
  lemma SmoothTrendConstant(values: seq<real>, windowSize: int, c: real)
    requires windowSize >= 1
    requires forall k :: 0 <= k < |values| ==> values[k] == c
    ensures SmoothTrend(values, windowSize) == values
  {
    forall i | 0 <= i < |values|
      ensures SmoothTrend(values, windowSize)[i] == values[i]
    {
      MeanConstant(values[WindowStart(i, windowSize)..i + 1], c);
    }
  }

  /** With a window of one the trend is the series itself. */
  lemma SmoothTrendWindowOne(values: seq<real>)
    ensures SmoothTrend(values, 1) == values
  {
    forall i | 0 <= i < |values|
      ensures SmoothTrend(values, 1)[i] == values[i]
    {
      var w := values[i..i + 1];
      assert w == [values[i]];
      assert Sum(w) == Sum([]) + values[i];
    }
  }

  /** The trend never leaves the range of the series. */
  lemma SmoothTrendBounded(values: seq<real>, windowSize: int, lo: real, hi: real)
    requires windowSize >= 1
    requires forall k :: 0 <= k < |values| ==> lo <= values[k] <= hi
    ensures forall i :: 0 <= i < |values| ==> lo <= SmoothTrend(values, windowSize)[i] <= hi
  {
    forall i | 0 <= i < |values|
      ensures lo <= SmoothTrend(values, windowSize)[i] <= hi
    {
      MeanBounds(values[WindowStart(i, windowSize)..i + 1], lo, hi);
    }
  }

  // ----- The displayed series -----

  function MeasuredAt(m: Measurement): int { m.measuredAt }

  /** The series as drawn: sorted by time, oldest first (ties keep their order). */
  function ChronologicalOrder(ms: seq<Measurement>): (r: seq<Measurement>)
    ensures Sorting.SortedBy(r, MeasuredAt)
    ensures multiset(r) == multiset(ms)
  {
    Sorting.SortBy(ms, MeasuredAt)
  }

  /** `chartData`: every measurement of the sorted series, converted to the display unit. */
  function ChartData(unit: WeightUnit, ms: seq<Measurement>): (r: seq<real>)
    ensures |r| == |ms|
    ensures forall i :: 0 <= i < |r| ==>
      r[i] == AppContext.ToDisplayWeight(unit, ChronologicalOrder(ms)[i].valueKg)
  {
    var sorted := ChronologicalOrder(ms);
    seq(|sorted|, i requires 0 <= i < |sorted| => AppContext.ToDisplayWeight(unit, sorted[i].valueKg))
  }

  /** In kilograms the chart shows exactly the stored values, in time order. */
  lemma ChartDataInKg(ms: seq<Measurement>)
    ensures forall i :: 0 <= i < |ms| ==> ChartData(Kg, ms)[i] == ChronologicalOrder(ms)[i].valueKg
  {
  }

  /** The trend line: the default three-point moving average of the chart data. */
  function TrendData(unit: WeightUnit, ms: seq<Measurement>): (r: seq<real>)
    ensures |r| == |ms|
    ensures |ms| > 0 ==> r[0] == ChartData(unit, ms)[0]
  {
    var data := ChartData(unit, ms);
    if |data| > 0 then SmoothTrendFirst(data, DEFAULT_WINDOW); SmoothTrend(data, DEFAULT_WINDOW)
    else SmoothTrend(data, DEFAULT_WINDOW)
  }

  // ----- Insights -----

  datatype Insights = Insights(
    delta7: real,
    delta30: real,
    delta90: real,
    min7: real,
    max7: real,
    rateWeek: real)

  /** `data[Math.max(0, data.length - k)]`: the value `k - 1` places before the last one, or the first. */
  function Lookback(data: seq<real>, k: nat): (r: real)
    requires |data| > 0 && k > 0
    ensures |data| >= k ==> r == data[|data| - k]
    ensures |data| <= k ==> r == data[0]
  {
    data[if |data| - k > 0 then |data| - k else 0]
  }

  /** `data.slice(-7)`: the last seven values, or all of them when there are fewer. */
  function LastSeven(data: seq<real>): (r: seq<real>)
    ensures |r| == if |data| < 7 then |data| else 7
    ensures r == data[|data| - |r|..]
  {
    data[if |data| < 7 then 0 else |data| - 7..]
  }

  /** `Math.min(...xs)` of a non-empty sequence. */
  function SeqMin(xs: seq<real>): (r: real)
    requires |xs| > 0
    ensures forall k :: 0 <= k < |xs| ==> r <= xs[k]
    ensures exists k :: 0 <= k < |xs| && r == xs[k]
  {
    if |xs| == 1 then xs[0]
    else
      var m := SeqMin(xs[..|xs| - 1]);
      var x := xs[|xs| - 1];
      if x < m then x else m
  }

  /** `Math.max(...xs)` of a non-empty sequence. */
  function SeqMax(xs: seq<real>): (r: real)
    requires |xs| > 0
    ensures forall k :: 0 <= k < |xs| ==> xs[k] <= r
    ensures exists k :: 0 <= k < |xs| && r == xs[k]
  {
    if |xs| == 1 then xs[0]
    else
      var m := SeqMax(xs[..|xs| - 1]);
      var x := xs[|xs| - 1];
      if x > m then x else m
  }

  /** The number of points the weekly rate spans, `min(30, n)`. */
  function RateSpan(data: seq<real>): (r: nat)
    ensures 0 < |data| ==> 0 < r
    ensures r <= 30 && r <= |data|
    ensures r == 30 || r == |data|
  {
    if |data| < 30 then |data| else 30
  }

  /** `delta / (span / 7)`: a change over `span` daily points, per week; it keeps the change's sign. */
  function WeeklyRate(delta: real, span: nat): (rate: real)
    requires span > 0
    ensures rate * (span as real) == 7.0 * delta
    ensures rate > 0.0 <==> delta > 0.0
    ensures rate < 0.0 <==> delta < 0.0
  {
    var r := delta / (span as real / 7.0);
    assert r == 7.0 * delta / (span as real);
    r
  }

  /**
   * The `insights` memo over the displayed series: nothing for an empty series;
   * otherwise the change from the value `k - 1` places back to the last value for
   * k = 7, 30 and 90, the range of the last seven values, and the 30-point change
   * spread over `min(30, n) / 7` weeks.
   */
  function ComputeInsights(data: seq<real>): (r: Option<Insights>)
    ensures r.None? <==> data == []
    ensures r.Some? ==>
      var last := data[|data| - 1];
      && r.value.delta7 == last - Lookback(data, 7)
      && r.value.delta30 == last - Lookback(data, 30)
      && r.value.delta90 == last - Lookback(data, 90)
      && r.value.rateWeek == WeeklyRate(r.value.delta30, RateSpan(data))
      && r.value.min7 <= last <= r.value.max7
      && (forall k :: |data| - |LastSeven(data)| <= k < |data| ==> r.value.min7 <= data[k] <= r.value.max7)
  {
    if data == [] then None
    else
      var n := |data|;
      var last := data[n - 1];
      var start30 := Lookback(data, 30);
      var lastSeven := LastSeven(data);
      assert lastSeven[|lastSeven| - 1] == last;
      assert forall k :: n - |lastSeven| <= k < n ==> data[k] == lastSeven[k - (n - |lastSeven|)];
      Some(Insights(
        last - Lookback(data, 7),
        last - start30,
        last - Lookback(data, 90),
        SeqMin(lastSeven),
        SeqMax(lastSeven),
        WeeklyRate(last - start30, RateSpan(data))))
  }

  /** The weekly rate has the 30-point change's sign, and over a full 30 points it is 7/30 of that change. */
  lemma RateWeekScaling(data: seq<real>)
    requires data != []
    ensures var i := ComputeInsights(data).value;
      && (i.rateWeek > 0.0 <==> i.delta30 > 0.0)
      && (i.rateWeek < 0.0 <==> i.delta30 < 0.0)
      && (|data| >= 30 ==> i.rateWeek == i.delta30 * 7.0 / 30.0)
  {
    var i := ComputeInsights(data).value;
    OverThirty(i.delta30, RateSpan(data));
  }

  /** A rate that spans 30 points is 7/30 of the change. */
  lemma OverThirty(delta: real, span: nat)
    requires span > 0
    ensures span == 30 ==> WeeklyRate(delta, span) == delta * 7.0 / 30.0
  {
    var rate := WeeklyRate(delta, span);
    if span == 30 {
      assert rate * 30.0 == 7.0 * delta;
    }
  }

  /** The minimum and maximum of the last week are values of it. */
  lemma RangeAttained(data: seq<real>)
    requires data != []
    ensures var i := ComputeInsights(data).value;
      i.min7 in LastSeven(data) && i.max7 in LastSeven(data)
  {
  }

  /** With fewer than `k` points, the `k`-point change is measured from the first value. */
  lemma ShortSeriesDeltas(data: seq<real>)
    requires data != []
    ensures var i := ComputeInsights(data).value;
      var last := data[|data| - 1];
      && (|data| <= 7 ==> i.delta7 == last - data[0])
      && (|data| <= 30 ==> i.delta30 == last - data[0])
      && (|data| <= 90 ==> i.delta90 == last - data[0])
      && (|data| == 1 ==> i.delta7 == 0.0 && i.delta30 == 0.0 && i.delta90 == 0.0 && i.rateWeek == 0.0)
  {
  }

  /** A steady weight has an empty range over the last week. */
  lemma SteadyRange(data: seq<real>, c: real)
    requires data != []
    requires forall k :: 0 <= k < |data| ==> data[k] == c
    ensures ComputeInsights(data).value.min7 == c && ComputeInsights(data).value.max7 == c
  {
    var w := LastSeven(data);
    RangeAttained(data);
    assert forall k :: 0 <= k < |w| ==> w[k] == data[|data| - |w| + k];
  }

  /** A steady weight shows no change, no rate and an empty range. */
  lemma SteadyInsights(data: seq<real>, c: real)
    requires data != []
    requires forall k :: 0 <= k < |data| ==> data[k] == c
    ensures ComputeInsights(data) == Some(Insights(0.0, 0.0, 0.0, c, c, 0.0))
  {
    SteadyRange(data, c);
    assert Lookback(data, 7) == c && Lookback(data, 30) == c && Lookback(data, 90) == c;
  }

  /** The insights over the stored measurements, shown in `unit`; none exactly when nothing is logged. */
  function MeasurementInsights(unit: WeightUnit, ms: seq<Measurement>): (r: Option<Insights>)
    ensures r.None? <==> ms == []
  {
    ComputeInsights(ChartData(unit, ms))
  }

  // ----- The page -----

  /** `orderBy("measuredAt").reverse()`: the log shown under the chart, newest first. */
  function NewestFirst(ms: seq<Measurement>): (r: seq<Measurement>)
    ensures |r| == |ms| && multiset(r) == multiset(ms)
    ensures forall i, j :: 0 <= i < j < |r| ==> r[i].measuredAt >= r[j].measuredAt
  {
    var s := ChronologicalOrder(ms);
    var r := seq(|s|, i requires 0 <= i < |s| => s[|s| - 1 - i]);
    ReverseMultiset(s, r);
    r
  }

  lemma ReverseMultiset(s: seq<Measurement>, r: seq<Measurement>)
    requires |r| == |s| && forall i :: 0 <= i < |r| ==> r[i] == s[|s| - 1 - i]
    ensures multiset(r) == multiset(s)
    decreases |s|
  {
    if s != [] {
      var n := |s| - 1;
      ReverseMultiset(s[1..], r[..n]);
      assert s == [s[0]] + s[1..];
      assert r == r[..n] + [s[0]];
    }
  }

  /** `!numericValue`: zero and an unparseable entry (`NaN`, here `None`) log nothing. */
  predicate Entered(parsed: Option<real>) {
    parsed.Some? && parsed.value != 0.0
  }

  /** The measurement a save creates: bodyweight, stored in kilograms, notes trimmed or absent. */
  function NewMeasurement(unit: WeightUnit, id: string, now: int, value: real, notes: string): (m: Measurement)
    ensures m.kind == Bodyweight && m.id == id && m.measuredAt == now
    ensures AppContext.ToDisplayWeight(unit, m.valueKg) == value
    ensures m.notes == Text.TrimmedOrAbsent(notes)
  {
    AppContext.ConversionRoundTrip(unit, value);
    Measurement(id, now, Bodyweight, AppContext.ToStorageWeight(unit, value), Text.TrimmedOrAbsent(notes))
  }

  /** `measurements.add(m)` for a fresh key. */
  method AddMeasurementRecord(db: AppDb, m: Measurement)
    requires db.Valid() && m.id !in Ids(db.measurements, MeasurementId)
    modifies db`measurements
    ensures db.measurements == old(db.measurements) + [m] && db.Valid()
  {
    AddKeepsDistinct(db.measurements, m, MeasurementId);
    db.measurements := db.measurements + [m];
  }

  /**
   * `WeightHome`'s state: the log it shows and the two text fields of the form.
   * `Number(value)` is done by the caller and passed in as `parsed`.
   */
  class WeightHome {
    var measurements: seq<Measurement>
    var value: string
    var notes: string

    constructor ()
      ensures measurements == [] && value == "" && notes == ""
    {
      measurements, value, notes := [], "", "";
    }

    /** The weight field's change: the text as typed. */
    method SetValue(text: string)
      modifies this`value
      ensures value == text
    {
      value := text;
    }

    /** The notes field's change: the text as typed. */
    method SetNotes(text: string)
      modifies this`notes
      ensures notes == text
    {
      notes := text;
    }

    /** The effect that loads the log: the whole table, newest first. */
    method Load(db: AppDb)
      modifies this`measurements
      ensures measurements == NewestFirst(db.measurements)
    {
      measurements := NewestFirst(db.measurements);
    }

    /**
     * "Save entry": ignored when nothing usable was entered; otherwise one measurement
     * is added, both fields are cleared and the log is reloaded.
     */
    method AddMeasurement(db: AppDb, unit: WeightUnit, parsed: Option<real>, freshId: string, now: int)
      requires db.Valid() && freshId !in Ids(db.measurements, MeasurementId)
      modifies db`measurements, this
      ensures db.Valid()
      ensures !Entered(parsed) ==>
        db.measurements == old(db.measurements) && measurements == old(measurements)
        && value == old(value) && notes == old(notes)
      ensures Entered(parsed) ==>
        && db.measurements == old(db.measurements) + [NewMeasurement(unit, freshId, now, parsed.value, old(notes))]
        && value == "" && notes == ""
        && measurements == NewestFirst(db.measurements)
    {
      if !Entered(parsed) {
        return;
      }
      AddMeasurementRecord(db, NewMeasurement(unit, freshId, now, parsed.value, notes));
      value, notes := "", "";
      measurements := NewestFirst(db.measurements);
    }
  }

  // ----- Goal bodyweight -----

  /** The goal field's text: the goal in the display unit, or blank when there is none or it is 0. */
  function GoalShown(unit: WeightUnit, goalKg: Option<real>): (r: Option<real>)
    ensures r.None? <==> goalKg.None? || goalKg.value == 0.0
    ensures r.Some? ==> AppContext.ToStorageWeight(unit, r.value) == goalKg.value
  {
    if goalKg.None? || goalKg.value == 0.0 then None
    else
      AppContext.ConversionRoundTrip(unit, goalKg.value);
      Some(AppContext.ToDisplayWeight(unit, goalKg.value))
  }

  /** Editing the goal field: an empty field clears the goal, anything else stores `Number(text)` in kilograms. */
  function WithGoal(settings: Settings, unit: WeightUnit, text: string, parsed: real): (r: Settings)
    ensures r.goalBodyweightKg.None? <==> text == ""
    ensures r == settings.(goalBodyweightKg := r.goalBodyweightKg)
  {
    settings.(goalBodyweightKg := if text == "" then None else Some(AppContext.ToStorageWeight(unit, parsed)))
  }

  /** The field shows back what was typed, unless it was 0, which shows as blank. */
  lemma GoalRoundTrip(settings: Settings, unit: WeightUnit, text: string, parsed: real)
    requires text != ""
    ensures GoalShown(unit, WithGoal(settings, unit, text, parsed).goalBodyweightKg)
      == if parsed == 0.0 then None else Some(parsed)
  {
    AppContext.ConversionRoundTrip(unit, parsed);
  }
}
