/** The mood-trend view (src/components/MoodChart.tsx): the stored moods are
    bucketed by calendar day over a window of 7 or 30 days ending today, each
    bucket averaging its day's values; the non-empty buckets give an overall
    average and a three-way trend. Averages are exact `real`s. */
module MoodChart {
  import opened Builtins
  import opened DataStore

  datatype TimeRange = Week | Month

  function WindowLength(range: TimeRange): nat
  {
    if range == Week then 7 else 30
  }

  /** `getDaysInRange()`: the day numbers of the window, oldest first.
      (The labels are date formatting and are not modelled.) */
  function DaysInRange(range: TimeRange, today: int): (days: seq<int>)
    ensures |days| == WindowLength(range)
    ensures days[|days| - 1] == today
    ensures forall i :: 0 <= i < |days| - 1 ==> days[i + 1] == days[i] + 1
    ensures forall i :: 0 <= i < |days| ==> today - |days| < days[i] <= today
  {
    var n := WindowLength(range);
    seq(n, i requires 0 <= i < n => today - (n - 1 - i))
  }

  /** One bar or point of the chart. */
  datatype Bucket = Bucket(day: int, value: Option<real>, entries: nat)

  /** The moods logged on `day`, in storage order. */
  function DayEntries(moods: seq<MoodEntry>, day: int): seq<MoodEntry>
  {
    Filter(moods, (m: MoodEntry) => m.timestamp.day == day)
  }

  function BucketFor(moods: seq<MoodEntry>, day: int): Bucket
  {
    var dayEntries := DayEntries(moods, day);
    Bucket(day, if |dayEntries| > 0 then Some(AverageMood(dayEntries)) else None, |dayEntries|)
  }

  /** `processChartData()`: one bucket per window day, holding the number of
      that day's moods and, when there is at least one, their mean value. */
  function ProcessChartData(moods: seq<MoodEntry>, days: seq<int>): (chart: seq<Bucket>)
    ensures |chart| == |days|
    ensures forall i :: 0 <= i < |days| ==>
      && chart[i].day == days[i]
      && chart[i].entries == |DayEntries(moods, days[i])|
      && (chart[i].value.None? <==> chart[i].entries == 0)
      && (chart[i].entries > 0 ==> chart[i].value == Some(AverageMood(DayEntries(moods, days[i]))))
  {
    seq(|days|, i requires 0 <= i < |days| => BucketFor(moods, days[i]))
  }

  /** A bucket's count is the number of moods of its day, and every mood of that
      day is among the ones it averages. */
  lemma DayEntriesFacts(moods: seq<MoodEntry>, day: int)
    ensures forall i :: 0 <= i < |DayEntries(moods, day)| ==>
      DayEntries(moods, day)[i] in moods && DayEntries(moods, day)[i].timestamp.day == day
    ensures forall i :: 0 <= i < |moods| && moods[i].timestamp.day == day ==> moods[i] in DayEntries(moods, day)
    ensures |DayEntries(moods, day)| == 0 <==> !HasEntryOn(moods, day)
  {
    var p := (m: MoodEntry) => m.timestamp.day == day;
    FilterSubset(moods, p);
    FilterKeeps(moods, p);
    if |DayEntries(moods, day)| > 0 {
      var m := DayEntries(moods, day)[0];
      assert m in moods && m.timestamp.day == day;
    }
    if HasEntryOn(moods, day) {
      var m :| m in moods && m.timestamp.day == day;
      var i :| 0 <= i < |moods| && moods[i] == m;
      assert p(moods[i]);
      assert moods[i] in DayEntries(moods, day);
    }
  }

  /** With every mood value in 1..5, every bucket value lies in 1..5. */
  lemma BucketValuesInRange(moods: seq<MoodEntry>, days: seq<int>)
    requires forall i :: 0 <= i < |moods| ==> 1 <= moods[i].value <= 5
    ensures forall i :: 0 <= i < |days| && ProcessChartData(moods, days)[i].value.Some? ==>
      1.0 <= ProcessChartData(moods, days)[i].value.value <= 5.0
  {
    var chart := ProcessChartData(moods, days);
    forall i | 0 <= i < |days| && chart[i].value.Some?
      ensures 1.0 <= chart[i].value.value <= 5.0
    {
      var es := DayEntries(moods, days[i]);
      DayEntriesFacts(moods, days[i]);
      forall k | 0 <= k < |es| ensures 1 <= es[k].value <= 5 {
        assert es[k] in moods;
      }
      AverageMoodInRange(es);
    }
  }

  predicate HasValue(b: Bucket)
  {
    b.value.Some?
  }

  /** `validData`: the buckets with a value, in chronological order. */
  function ValidData(chart: seq<Bucket>): (valid: seq<Bucket>)
    ensures forall i :: 0 <= i < |valid| ==> valid[i].value.Some?
  {
    Filter(chart, HasValue)
  }

  /** The valid buckets are exactly the chart's buckets that carry a value. */
  lemma ValidDataMembers(chart: seq<Bucket>)
    ensures forall i :: 0 <= i < |ValidData(chart)| ==> ValidData(chart)[i] in chart
    ensures forall i :: 0 <= i < |chart| && chart[i].value.Some? ==> chart[i] in ValidData(chart)
    ensures |ValidData(chart)| == |chart| <==> forall i :: 0 <= i < |chart| ==> chart[i].value.Some?
  {
    FilterSubset(chart, HasValue);
    FilterKeeps(chart, HasValue);
  }

  predicate Chronological(buckets: seq<Bucket>)
  {
    forall i, j :: 0 <= i < j < |buckets| ==> buckets[i].day < buckets[j].day
  }

  /** The window's buckets are chronological, and so are the valid ones. */
  lemma {:induction false} ValidDataChronological(chart: seq<Bucket>)
    requires Chronological(chart)
    ensures Chronological(ValidData(chart))
  {
    if chart != [] {
      ValidDataChronological(chart[1..]);
      ValidDataMembers(chart[1..]);
      var rest := ValidData(chart[1..]);
      forall k | 0 <= k < |rest| ensures chart[0].day < rest[k].day {
        var j :| 0 <= j < |chart[1..]| && chart[1..][j] == rest[k];
        assert chart[j + 1] == rest[k];
      }
    }
  }

  lemma ChartChronological(moods: seq<MoodEntry>, range: TimeRange, today: int)
    ensures Chronological(ProcessChartData(moods, DaysInRange(range, today)))
  {
    var days := DaysInRange(range, today);
    assert forall i, j :: 0 <= i < j < |days| ==> days[i] < days[j] by {
      forall i, j | 0 <= i < j < |days| ensures days[i] < days[j] {
        assert days[i] == today - (|days| - 1 - i) && days[j] == today - (|days| - 1 - j);
      }
    }
  }

  predicate AllValued(valid: seq<Bucket>)
  {
    forall i :: 0 <= i < |valid| ==> valid[i].value.Some?
  }

  /** `d.value!` summed over the buckets. */
  function SumBucketValues(valid: seq<Bucket>): real
    requires AllValued(valid)
  {
    if valid == [] then 0.0 else SumBucketValues(valid[..|valid| - 1]) + valid[|valid| - 1].value.value
  }

  function MeanBucketValue(valid: seq<Bucket>): real
    requires AllValued(valid) && |valid| > 0
  {
    SumBucketValues(valid) / |valid| as real
  }

  /** `getAverageMood()`: none without valid buckets, otherwise the mean of the
      bucket averages, so each day weighs the same whatever its entry count. */
  function GetAverageMood(valid: seq<Bucket>): (r: Option<real>)
    requires AllValued(valid)
    ensures r.None? <==> |valid| == 0
  {
    if |valid| == 0 then None else Some(MeanBucketValue(valid))
  }

  lemma {:induction false} SumBucketValuesBounds(valid: seq<Bucket>, lo: real, hi: real)
    requires AllValued(valid)
    requires forall i :: 0 <= i < |valid| ==> lo <= valid[i].value.value <= hi
    ensures lo * |valid| as real <= SumBucketValues(valid) <= hi * |valid| as real
  {
    if valid != [] {
      SumBucketValuesBounds(valid[..|valid| - 1], lo, hi);
    }
  }

  /** The mean of the bucket values lies between the smallest and largest bound
      of the values; with mood values 1..5 the average is in 1..5. */
  lemma MeanBucketValueBounds(valid: seq<Bucket>, lo: real, hi: real)
    requires AllValued(valid) && |valid| > 0
    requires forall i :: 0 <= i < |valid| ==> lo <= valid[i].value.value <= hi
    ensures lo <= MeanBucketValue(valid) <= hi
  {
    SumBucketValuesBounds(valid, lo, hi);
    RealQuotientBounds(SumBucketValues(valid), |valid| as real, lo, hi);
  }

  /** The moods of a day that has three entries followed by a day with one. */
  lemma {:induction false} TwoDayEntries(a: MoodEntry, b: MoodEntry, c: MoodEntry, d: MoodEntry, day: int)
    requires a.timestamp.day == day && b.timestamp.day == day && c.timestamp.day == day
    requires d.timestamp.day == day + 1
    ensures DayEntries([a, b, c, d], day) == [a, b, c]
    ensures DayEntries([a, b, c, d], day + 1) == [d]
  {
    var p0 := (m: MoodEntry) => m.timestamp.day == day;
    var p1 := (m: MoodEntry) => m.timestamp.day == day + 1;
    assert [a, b, c, d] == [a, b, c] + [d];
    FilterAppend([a, b, c], [d], p0);
    FilterAll([a, b, c], p0);
    FilterNone([d], p0);
    FilterAppend([a, b, c], [d], p1);
    FilterNone([a, b, c], p1);
    FilterAll([d], p1);
  }

  /** Three moods of 5 on one day and one mood of 1 on the next average to 3 on
      the chart, while the average over entries is 4: days weigh equally. */
  lemma DaysWeighEqually(a: MoodEntry, b: MoodEntry, c: MoodEntry, d: MoodEntry, day: int)
    requires a.value == 5 && b.value == 5 && c.value == 5 && d.value == 1
    requires a.timestamp.day == day && b.timestamp.day == day && c.timestamp.day == day
    requires d.timestamp.day == day + 1
    ensures GetAverageMood(ValidData(ProcessChartData([a, b, c, d], [day, day + 1]))) == Some(3.0)
    ensures AverageMood([a, b, c, d]) == 4.0
  {
    var moods := [a, b, c, d];
    TwoDayEntries(a, b, c, d, day);
    assert [a][..0] == [];
    assert SumValues([a]) == 5;
    assert [a, b][..1] == [a];
    assert SumValues([a, b]) == 10;
    assert [a, b, c][..2] == [a, b];
    assert SumValues([a, b, c]) == 15;
    assert [d][..0] == [];
    assert SumValues([d]) == 1;
    var b0 := Bucket(day, Some(5.0), 3);
    var b1 := Bucket(day + 1, Some(1.0), 1);
    var chart := ProcessChartData(moods, [day, day + 1]);
    assert chart == [b0, b1];
    FilterAll(chart, HasValue);
    assert [b0][..0] == [];
    assert SumBucketValues([b0]) == 5.0;
    assert [b0, b1][..1] == [b0];
    assert SumBucketValues([b0, b1]) == 6.0;
    assert moods[..3] == [a, b, c];
    assert SumValues(moods) == 16;
  }

  datatype Trend = Improving | Declining | Stable

  /** `validData.slice(-3)`: the last min(3, n) buckets. */
  function Recent(valid: seq<Bucket>): seq<Bucket>
  {
    valid[if |valid| >= 3 then |valid| - 3 else 0..]
  }

  /** `validData.slice(0, Math.max(1, n - 3))`: the first max(1, n - 3) buckets. */
  function Earlier(valid: seq<Bucket>): seq<Bucket>
    requires |valid| >= 1
  {
    valid[..if |valid| - 3 > 1 then |valid| - 3 else 1]
  }

  /** For n >= 4 the earlier and recent slices split the valid buckets in two;
      for n = 2 or 3 the earlier slice is the first bucket, which is also the
      first recent one. */
  lemma TrendSlices(valid: seq<Bucket>)
    requires |valid| >= 2
    ensures |Recent(valid)| == (if |valid| < 3 then |valid| else 3)
    ensures |Earlier(valid)| == (if |valid| - 3 > 1 then |valid| - 3 else 1)
    ensures |valid| >= 4 ==> Earlier(valid) + Recent(valid) == valid
    ensures |valid| <= 3 ==> Earlier(valid) == [valid[0]] && Recent(valid) == valid && Recent(valid)[0] == valid[0]
  {
    if |valid| >= 4 {
      assert Earlier(valid) == valid[..|valid| - 3];
    }
  }

  /** The classification of a difference of averages. */
  function Classify(diff: real): Trend
  {
    if diff > 0.2 then Improving else if diff < -0.2 then Declining else Stable
  }

  /** The three outcomes are the three ranges of the difference. */
  lemma ClassifyRanges(diff: real)
    ensures Classify(diff) == Improving <==> diff > 0.2
    ensures Classify(diff) == Declining <==> diff < -0.2
    ensures Classify(diff) == Stable <==> -0.2 <= diff <= 0.2
  {
  }

  /** `getTrend()`: none with fewer than two valid buckets, otherwise the
      classification of recent average minus earlier average. */
  function GetTrend(valid: seq<Bucket>): (r: Option<Trend>)
    requires AllValued(valid)
    ensures r.None? <==> |valid| < 2
  {
    if |valid| < 2 then None
    else
      var diff := MeanBucketValue(Recent(valid)) - MeanBucketValue(Earlier(valid));
      Some(Classify(diff))
  }

  /** The valid buckets of the week of day values [_, 3, 3, _, 4, 5, 5]
      starting at day `d`. */
  lemma {:induction false} ScenarioWeekValid(d: int)
    ensures ValidData([Bucket(d, None, 0), Bucket(d + 1, Some(3.0), 1), Bucket(d + 2, Some(3.0), 1),
                       Bucket(d + 3, None, 0), Bucket(d + 4, Some(4.0), 1), Bucket(d + 5, Some(5.0), 1),
                       Bucket(d + 6, Some(5.0), 2)])
         == [Bucket(d + 1, Some(3.0), 1), Bucket(d + 2, Some(3.0), 1), Bucket(d + 4, Some(4.0), 1),
             Bucket(d + 5, Some(5.0), 1), Bucket(d + 6, Some(5.0), 2)]
  {
    var b0, b1, b2, b3 := Bucket(d, None, 0), Bucket(d + 1, Some(3.0), 1), Bucket(d + 2, Some(3.0), 1), Bucket(d + 3, None, 0);
    var b4, b5, b6 := Bucket(d + 4, Some(4.0), 1), Bucket(d + 5, Some(5.0), 1), Bucket(d + 6, Some(5.0), 2);
    var r := [b4, b5, b6];
    FilterAll(r, HasValue);
    FilterCons(b3, r, HasValue);
    FilterCons(b2, [b3] + r, HasValue);
    FilterCons(b1, [b2] + ([b3] + r), HasValue);
    FilterCons(b0, [b1] + ([b2] + ([b3] + r)), HasValue);
    assert [b0] + ([b1] + ([b2] + ([b3] + r))) == [b0, b1, b2, b3, b4, b5, b6];
    assert [b1] + ([b2] + r) == [b1, b2, b4, b5, b6];
  }

  /** Day values [_, 3, 3, _, 4, 5, 5] over a week: the recent mean 14/3 beats
      the earlier mean 3 by more than 0.2, so the trend is improving. */
  lemma TrendScenario(d: int)
    ensures GetTrend(ValidData([Bucket(d, None, 0), Bucket(d + 1, Some(3.0), 1), Bucket(d + 2, Some(3.0), 1),
                                Bucket(d + 3, None, 0), Bucket(d + 4, Some(4.0), 1), Bucket(d + 5, Some(5.0), 1),
                                Bucket(d + 6, Some(5.0), 2)])) == Some(Improving)
  {
    ScenarioWeekValid(d);
    var b1, b2 := Bucket(d + 1, Some(3.0), 1), Bucket(d + 2, Some(3.0), 1);
    var b4, b5, b6 := Bucket(d + 4, Some(4.0), 1), Bucket(d + 5, Some(5.0), 1), Bucket(d + 6, Some(5.0), 2);
    var valid := [b1, b2, b4, b5, b6];
    assert Recent(valid) == [b4, b5, b6];
    assert [b4][..0] == [] && [b4, b5][..1] == [b4] && [b4, b5, b6][..2] == [b4, b5];
    assert SumBucketValues([b4]) == 4.0;
    assert SumBucketValues([b4, b5]) == 9.0;
    assert SumBucketValues([b4, b5, b6]) == 14.0;
    assert Earlier(valid) == [b1, b2];
    assert [b1][..0] == [] && [b1, b2][..1] == [b1];
    assert SumBucketValues([b1]) == 3.0;
    assert SumBucketValues([b1, b2]) == 6.0;
  }

  /** Colour band of a bar. */
  datatype Band = NoData | Amazing | Good | Okay | NotGreat | Difficult

  /** The band of a bucket value, as the bar colours choose it. */
  function BandOf(value: Option<real>): Band
  {
    if value.None? then NoData
    else if value.value >= 4.5 then Amazing
    else if value.value >= 3.5 then Good
    else if value.value >= 2.5 then Okay
    else if value.value >= 1.5 then NotGreat
    else Difficult
  }

  function BackgroundColor(b: Band): string
  {
    match b
    case NoData => "rgba(229, 231, 235, 0.5)"
    case Amazing => "rgba(34, 197, 94, 0.8)"
    case Good => "rgba(163, 230, 53, 0.8)"
    case Okay => "rgba(251, 191, 36, 0.8)"
    case NotGreat => "rgba(251, 146, 60, 0.8)"
    case Difficult => "rgba(239, 68, 68, 0.8)"
  }

  function BorderColor(b: Band): string
  {
    match b
    case NoData => "rgba(229, 231, 235, 1)"
    case Amazing => "rgba(34, 197, 94, 1)"
    case Good => "rgba(163, 230, 53, 1)"
    case Okay => "rgba(251, 191, 36, 1)"
    case NotGreat => "rgba(251, 146, 60, 1)"
    case Difficult => "rgba(239, 68, 68, 1)"
  }

  /** How high a band sits: 0 for no data, then 1 (red) up to 5 (green). */
  function Rank(b: Band): nat
  {
    match b
    case NoData => 0
    case Difficult => 1
    case NotGreat => 2
    case Okay => 3
    case Good => 4
    case Amazing => 5
  }

  /** Missing values are grey; every value falls in exactly the band of its
      interval; a higher value never gets a lower band; distinct bands get
      distinct colours. */
  lemma BandFacts(v: real, w: real, b1: Band, b2: Band)
    ensures BandOf(None) == NoData && BandOf(Some(v)) != NoData
    ensures BandOf(Some(v)) == Amazing <==> v >= 4.5
    ensures BandOf(Some(v)) == Good <==> 3.5 <= v < 4.5
    ensures BandOf(Some(v)) == Okay <==> 2.5 <= v < 3.5
    ensures BandOf(Some(v)) == NotGreat <==> 1.5 <= v < 2.5
    ensures BandOf(Some(v)) == Difficult <==> v < 1.5
    ensures v <= w ==> Rank(BandOf(Some(v))) <= Rank(BandOf(Some(w)))
    ensures b1 != b2 ==> BackgroundColor(b1) != BackgroundColor(b2) && BorderColor(b1) != BorderColor(b2)
  {
  }

  /** The chart as the view computes it from the stored moods. */
  function ChartFor(moods: seq<MoodEntry>, range: TimeRange, today: int): seq<Bucket>
  {
    ProcessChartData(moods, DaysInRange(range, today))
  }

  /** The valid buckets of the chart carry values, so the average and trend are defined;
      the average exists iff some window day has a mood. */
  lemma ChartSummaryDefined(moods: seq<MoodEntry>, range: TimeRange, today: int)
    ensures AllValued(ValidData(ChartFor(moods, range, today)))
    ensures GetAverageMood(ValidData(ChartFor(moods, range, today))).Some? <==>
      exists i :: 0 <= i < WindowLength(range) && HasEntryOn(moods, DaysInRange(range, today)[i])
  {
    var days := DaysInRange(range, today);
    var chart := ChartFor(moods, range, today);
    var valid := ValidData(chart);
    ValidDataMembers(chart);
    if exists i :: 0 <= i < WindowLength(range) && HasEntryOn(moods, days[i]) {
      var i :| 0 <= i < WindowLength(range) && HasEntryOn(moods, days[i]);
      DayEntriesFacts(moods, days[i]);
      assert chart[i] in valid;
    } else if |valid| > 0 {
      var b := valid[0];
      var i :| 0 <= i < |chart| && chart[i] == b;
      DayEntriesFacts(moods, days[i]);
    }
  }
}
