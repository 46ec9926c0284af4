/** Per-storm track metrics: the strongest wind and when it first blew, the
    landfall count, the distance and propagation speed of every segment of the
    track, and the summary report built from them. */
module Track {
  import opened Common
  import opened Geodesy
  import opened Hurdat

  /** A row carries at least the maximum-wind column (`row[6]`). */
  predicate HasWind(o: Observation) {
    |o.numbers| >= 1
  }

  predicate AllHaveWind(storm: Storm) {
    forall k :: 0 <= k < |storm| ==> HasWind(storm[k])
  }

  /** The maximum sustained wind of a row, in knots. */
  function Wind(o: Observation): int
    requires HasWind(o)
  {
    o.numbers[0]
  }

  /** The number of segments between consecutive rows: `range(len(storm) - 1)`. */
  function Segments(storm: Storm): (n: nat)
    ensures |storm| > 0 ==> n + 1 == |storm|
    ensures |storm| == 0 ==> n == 0
  {
    if |storm| == 0 then 0 else |storm| - 1
  }

  /** `hours_elapsed`: the absolute time between two timestamps, in hours. */
  function HoursElapsed(t1: int, t2: int): (h: real)
    ensures 0.0 <= h
    ensures h == 0.0 <==> t1 == t2
    ensures t1 <= t2 ==> h * 60.0 == (t2 - t1) as real
  {
    (if t1 <= t2 then t2 - t1 else t1 - t2) as real / 60.0
  }

  /** The order of the two timestamps does not matter, and spans add up. */
  lemma HoursElapsedSymmetric(t1: int, t2: int, t3: int)
    ensures HoursElapsed(t1, t2) == HoursElapsed(t2, t1)
    ensures t1 <= t2 <= t3 ==> HoursElapsed(t1, t3) == HoursElapsed(t1, t2) + HoursElapsed(t2, t3)
  {
  }

  /** The doc-string example: from 1864-08-26 00:00 to 1864-09-01 06:00 is six
      days and six hours, 9000 minutes, 150 hours. */
  lemma HoursElapsedDocExample(start: int)
    ensures HoursElapsed(start, start + 9000) == 150.0
  {
  }

  /** The highest wind over the rows, starting from zero as the script does. */
  function PeakWind(storm: Storm): (m: int)
    requires AllHaveWind(storm)
    ensures m >= 0
    decreases |storm|
  {
    if |storm| == 0 then 0
    else
      var m := PeakWind(storm[..|storm| - 1]);
      if Wind(storm[|storm| - 1]) > m then Wind(storm[|storm| - 1]) else m
  }

  /** The peak is at least every row's wind, and is some row's wind unless it
      is the starting zero. */
  lemma {:induction false} PeakWindBounds(storm: Storm)
    requires AllHaveWind(storm)
    ensures forall k :: 0 <= k < |storm| ==> Wind(storm[k]) <= PeakWind(storm)
    ensures PeakWind(storm) > 0 ==> exists k :: 0 <= k < |storm| && Wind(storm[k]) == PeakWind(storm)
    decreases |storm|
  {
    if |storm| > 0 {
      var prefix := storm[..|storm| - 1];
      PeakWindBounds(prefix);
      assert forall k :: 0 <= k < |prefix| ==> prefix[k] == storm[k];
    }
  }

  /** When the peak first occurred: the time of the row that last raised the
      running maximum, None when no wind ever exceeded zero. */
  function PeakTime(storm: Storm): (w: Option<int>)
    requires AllHaveWind(storm)
    ensures w.None? <==> PeakWind(storm) == 0
    decreases |storm|
  {
    if |storm| == 0 then None
    else
      var prefix := storm[..|storm| - 1];
      if Wind(storm[|storm| - 1]) > PeakWind(prefix) then Some(storm[|storm| - 1].time)
      else PeakTime(prefix)
  }

  /** The time reported is that of the FIRST row whose wind equals the peak:
      a later row with the same wind does not replace it (strict `>`). */
  lemma {:induction false} PeakTimeIsFirst(storm: Storm, k: nat)
    requires AllHaveWind(storm) && k < |storm|
    requires Wind(storm[k]) == PeakWind(storm) > 0
    requires forall j :: 0 <= j < k ==> Wind(storm[j]) < PeakWind(storm)
    ensures PeakTime(storm) == Some(storm[k].time)
    decreases |storm|
  {
    var prefix := storm[..|storm| - 1];
    assert forall j :: 0 <= j < |prefix| ==> prefix[j] == storm[j];
    if k == |storm| - 1 {
      PeakWindBounds(prefix);
      if PeakWind(prefix) > 0 {
        var j :| 0 <= j < |prefix| && Wind(prefix[j]) == PeakWind(prefix);
        assert Wind(storm[j]) < PeakWind(storm);
      }
    } else {
      PeakWindBounds(prefix);
      assert Wind(prefix[k]) <= PeakWind(prefix);
      PeakTimeIsFirst(prefix, k);
    }
  }

  /** `get_max_wind_and_datetime`: the running maximum over the rows and the
      time it was last raised, 'NA' (None) when it stayed at zero. */
  method GetMaxWindAndDatetime(storm: Storm) returns (highest: int, when: Option<int>)
    requires AllHaveWind(storm)
    ensures highest == PeakWind(storm) && when == PeakTime(storm)
    ensures highest >= 0 && forall k :: 0 <= k < |storm| ==> Wind(storm[k]) <= highest
    ensures when.None? <==> highest == 0
  {
    highest := 0;
    when := None;
    var i := 0;
    while i < |storm|
      invariant 0 <= i <= |storm|
      invariant highest == PeakWind(storm[..i])
      invariant highest > 0 ==> when == PeakTime(storm[..i])
    {
      assert storm[..i + 1][..i] == storm[..i];
      if Wind(storm[i]) > highest {
        highest := Wind(storm[i]);
        when := Some(storm[i].time);
      }
      i := i + 1;
    }
    if highest == 0 {
      when := None;
    }
    assert storm[..|storm|] == storm;
    PeakWindBounds(storm);
  }

  /** The number of rows whose record identifier is "L" (a landfall). */
  function LandfallsIn(storm: Storm): (n: nat)
    ensures n <= |storm|
    decreases |storm|
  {
    if |storm| == 0 then 0
    else LandfallsIn(storm[..|storm| - 1]) + (if storm[|storm| - 1].recordId == "L" then 1 else 0)
  }

  /** Landfalls of two stretches of track add up. */
  lemma {:induction false} LandfallsAppend(a: Storm, b: Storm)
    ensures LandfallsIn(a + b) == LandfallsIn(a) + LandfallsIn(b)
    decreases |b|
  {
    if |b| == 0 {
      assert a + b == a;
    } else {
      assert (a + b)[..|a + b| - 1] == a + b[..|b| - 1];
      LandfallsAppend(a, b[..|b| - 1]);
    }
  }

  /** No landfall is counted exactly when no row is flagged "L", and every row
      is counted exactly when every row is. */
  lemma {:induction false} LandfallsExtremes(storm: Storm)
    ensures LandfallsIn(storm) == 0 <==> forall k :: 0 <= k < |storm| ==> storm[k].recordId != "L"
    ensures LandfallsIn(storm) == |storm| <==> forall k :: 0 <= k < |storm| ==> storm[k].recordId == "L"
    decreases |storm|
  {
    if |storm| > 0 {
      var prefix := storm[..|storm| - 1];
      LandfallsExtremes(prefix);
      assert forall k :: 0 <= k < |prefix| ==> prefix[k] == storm[k];
    }
  }

  /** `get_count_landfall`: a counter over the rows. */
  method GetCountLandfall(storm: Storm) returns (count: nat)
    ensures count == LandfallsIn(storm)
  {
    count := 0;
    var i := 0;
    while i < |storm|
      invariant 0 <= i <= |storm|
      invariant count == LandfallsIn(storm[..i])
    {
      assert storm[..i + 1][..i] == storm[..i];
      if storm[i].recordId == "L" {
        count := count + 1;
      }
      i := i + 1;
    }
    assert storm[..|storm|] == storm;
  }

  /** `get_positions`. */
  function Positions(storm: Storm): (r: seq<Position>)
    ensures |r| == |storm| && forall k :: 0 <= k < |r| ==> r[k] == storm[k].pos
  {
    seq(|storm|, k requires 0 <= k < |storm| => storm[k].pos)
  }

  /** The length of one segment in nautical miles (1852 metres each), or 0
      where the geodesy fails. */
  function SegmentDistance(earth: Earth, a: Position, b: Position): (d: real)
    ensures d >= 0.0
    ensures earth.distance(a, b).None? ==> d == 0.0
    ensures earth.distance(a, b).Some? ==> d * 1852.0 == earth.distance(a, b).value
  {
    match earth.distance(a, b)
    case None => 0.0
    case Some(metres) => metres / 1852.0
  }

  /** The segment lengths along the track. */
  function Distances(earth: Earth, storm: Storm): (r: seq<real>)
    ensures |r| == Segments(storm)
    ensures forall i :: 0 <= i < |r| ==> r[i] == SegmentDistance(earth, storm[i].pos, storm[i + 1].pos)
  {
    var n := Segments(storm);
    assert n < |storm| || n == 0;
    seq(n, i requires 0 <= i < n => SegmentDistance(earth, storm[i].pos, storm[i + 1].pos))
  }

  /** `path_distance`: one distance per segment, appended in order. */
  method PathDistance(earth: Earth, storm: Storm) returns (distances: seq<real>)
    ensures |distances| == Segments(storm)
    ensures distances == Distances(earth, storm)
    ensures forall i :: 0 <= i < |distances| ==> distances[i] >= 0.0
  {
    distances := [];
    var positions := Positions(storm);
    var i := 0;
    while i < |positions| - 1
      invariant 0 <= i <= Segments(storm) && |distances| == i
      invariant forall j :: 0 <= j < i ==> distances[j] == SegmentDistance(earth, storm[j].pos, storm[j + 1].pos)
    {
      var distance := match earth.distance(positions[i], positions[i + 1])
        case None => 0.0
        case Some(metres) => metres / 1852.0;
      distances := distances + [distance];
      i := i + 1;
    }
  }

  /** Distance over time, 0 where the time span is zero (the script catches the
      ZeroDivisionError). */
  function Speed(distance: real, hours: real): (v: real)
    requires distance >= 0.0 && hours >= 0.0
    ensures v >= 0.0
    ensures hours == 0.0 ==> v == 0.0
    ensures hours > 0.0 ==> v * hours == distance
  {
    if hours == 0.0 then 0.0 else distance / hours
  }

  /** The propagation speed over segment i, in knots. */
  function SegmentSpeed(earth: Earth, storm: Storm, i: nat): (v: real)
    requires i + 1 < |storm|
    ensures v >= 0.0
    ensures v == Speed(SegmentDistance(earth, storm[i].pos, storm[i + 1].pos), HoursElapsed(storm[i].time, storm[i + 1].time))
  {
    Speed(SegmentDistance(earth, storm[i].pos, storm[i + 1].pos), HoursElapsed(storm[i].time, storm[i + 1].time))
  }

  /** The speeds along the track. */
  function Speeds(earth: Earth, storm: Storm): (r: seq<real>)
    ensures |r| == Segments(storm)
    ensures forall i :: 0 <= i < |r| ==> r[i] == SegmentSpeed(earth, storm, i)
  {
    seq(Segments(storm), i requires 0 <= i < Segments(storm) => SegmentSpeed(earth, storm, i))
  }

  /** `path_propagation_speed`: the timestamps collected first, then one speed
      per segment, the distances recomputed for each. */
  method PathPropagationSpeed(earth: Earth, storm: Storm) returns (speeds: seq<real>)
    ensures |speeds| == Segments(storm)
    ensures speeds == Speeds(earth, storm)
    ensures forall i :: 0 <= i < |speeds| ==> speeds[i] >= 0.0
  {
    var timepoints: seq<int> := [];
    var k := 0;
    while k < |storm|
      invariant 0 <= k <= |storm| && |timepoints| == k
      invariant forall j :: 0 <= j < k ==> timepoints[j] == storm[j].time
    {
      timepoints := timepoints + [storm[k].time];
      k := k + 1;
    }
    speeds := [];
    var i := 0;
    while i < |timepoints| - 1
      invariant 0 <= i <= Segments(storm) && |speeds| == i
      invariant forall j :: 0 <= j < i ==> speeds[j] == SegmentSpeed(earth, storm, j)
    {
      var timeSpan := HoursElapsed(timepoints[i], timepoints[i + 1]);
      var distances := PathDistance(earth, storm);
      var speed := if timeSpan == 0.0 then 0.0 else distances[i] / timeSpan;
      assert distances[i] == SegmentDistance(earth, storm[i].pos, storm[i + 1].pos);
      assert speed == SegmentSpeed(earth, storm, i);
      speeds := speeds + [speed];
      i := i + 1;
    }
    SpeedsAgree(earth, storm, speeds);
  }

  lemma SpeedsAgree(earth: Earth, storm: Storm, speeds: seq<real>)
    requires |speeds| == Segments(storm)
    requires forall j :: 0 <= j < |speeds| ==> speeds[j] == SegmentSpeed(earth, storm, j)
    ensures speeds == Speeds(earth, storm)
  {
  }

  /** `sum(xs)`. */
  function SumOf(xs: seq<real>): real
    decreases |xs|
  {
    if |xs| == 0 then 0.0 else SumOf(xs[..|xs| - 1]) + xs[|xs| - 1]
  }

  /** `max(xs)` of a non-empty list. */
  function MaxOf(xs: seq<real>): (m: real)
    requires |xs| > 0
    ensures m in xs
    ensures forall k :: 0 <= k < |xs| ==> xs[k] <= m
    decreases |xs|
  {
    if |xs| == 1 then xs[0]
    else
      var m := MaxOf(xs[..|xs| - 1]);
      assert forall k :: 0 <= k < |xs| - 1 ==> xs[..|xs| - 1][k] == xs[k];
      if xs[|xs| - 1] > m then xs[|xs| - 1] else m
  }

  /** A sum of values between 0 and a bound lies between 0 and the count
      times the bound. */
  lemma {:induction false} SumBetween(xs: seq<real>, bound: real)
    requires forall k :: 0 <= k < |xs| ==> 0.0 <= xs[k] <= bound
    ensures 0.0 <= SumOf(xs) <= |xs| as real * bound
    decreases |xs|
  {
    if |xs| > 0 {
      var prefix := xs[..|xs| - 1];
      assert forall k :: 0 <= k < |prefix| ==> prefix[k] == xs[k];
      SumBetween(prefix, bound);
      assert |prefix| as real * bound + bound == |xs| as real * bound;
    }
  }

  /** The mean of values between 0 and a bound lies between 0 and the bound. */
  lemma MeanBetween(xs: seq<real>, bound: real)
    requires |xs| > 0 && forall k :: 0 <= k < |xs| ==> 0.0 <= xs[k] <= bound
    ensures 0.0 <= SumOf(xs) / |xs| as real <= bound
  {
    SumBetween(xs, bound);
    QuotientBelow(SumOf(xs), |xs| as real, bound);
  }

  lemma QuotientBelow(s: real, n: real, m: real)
    requires n > 0.0 && 0.0 <= s <= n * m
    ensures 0.0 <= s / n <= m
  {
    var q := s / n;
    assert q * n == s;
    if q > m {
      assert q * n > m * n;
    }
  }

  /** The summary of one storm. The date fields are the raw timestamps;
      `strftime` formatting is not part of the model. */
  datatype Report = Report(
    id: string,
    name: string,
    start: int,
    end: int,
    maxWind: int,
    when: Option<int>,
    landfalls: nat,
    totalDistance: real,
    maxSpeed: Option<real>,
    meanSpeed: Option<real>)

  /** The accumulator loop of `storm_report` over the segment distances. */
  method AddUp(xs: seq<real>) returns (total: real)
    ensures total == SumOf(xs)
  {
    total := 0.0;
    var i := 0;
    while i < |xs|
      invariant 0 <= i <= |xs|
      invariant total == SumOf(xs[..i])
    {
      assert xs[..i + 1][..i] == xs[..i];
      total := total + xs[i];
      i := i + 1;
    }
    assert xs[..|xs|] == xs;
  }

  /** `max(speeds)` and `sum(speeds) / len(speeds)`, each 'NA' (None) when the
      list is empty: `max` raises ValueError and the mean ZeroDivisionError. */
  function SpeedSummary(speeds: seq<real>): (r: (Option<real>, Option<real>))
    requires forall k :: 0 <= k < |speeds| ==> speeds[k] >= 0.0
    ensures r.0.None? <==> |speeds| == 0
    ensures r.1.None? <==> |speeds| == 0
    ensures r.0.Some? ==> r.0.value in speeds && forall k :: 0 <= k < |speeds| ==> speeds[k] <= r.0.value
    ensures r.1.Some? ==> r.1.value * |speeds| as real == SumOf(speeds)
    ensures r.0.Some? ==> 0.0 <= r.1.value <= r.0.value
  {
    if |speeds| == 0 then (None, None)
    else
      MeanBetween(speeds, MaxOf(speeds));
      (Some(MaxOf(speeds)), Some(SumOf(speeds) / |speeds| as real))
  }

  /** `storm_report`: the first and last rows give ID, name and the date range;
      the speeds are 'NA' (None) exactly when the storm has a single row. */
  method StormReport(earth: Earth, storm: Storm) returns (report: Report)
    requires |storm| >= 1 && AllHaveWind(storm)
    ensures report.id == storm[0].id && report.name == storm[0].name
    ensures report.start == storm[0].time && report.end == storm[|storm| - 1].time
    ensures report.maxWind == PeakWind(storm) && report.when == PeakTime(storm)
    ensures report.landfalls == LandfallsIn(storm)
    ensures report.totalDistance == SumOf(Distances(earth, storm))
    ensures (report.maxSpeed, report.meanSpeed) == SpeedSummary(Speeds(earth, storm))
    ensures report.maxSpeed.None? <==> |storm| == 1
    ensures report.meanSpeed.None? <==> |storm| == 1
  {
    var maxWind, when := GetMaxWindAndDatetime(storm);
    var landfallCount := GetCountLandfall(storm);
    var distances := PathDistance(earth, storm);
    var totalDistance := AddUp(distances);
    var speeds := PathPropagationSpeed(earth, storm);
    var summary := SpeedSummary(speeds);
    report := Report(storm[0].id, storm[0].name, storm[0].time, storm[|storm| - 1].time,
                     maxWind, when, landfallCount, totalDistance, summary.0, summary.1);
  }

  /** The total distance is never negative. */
  lemma TotalDistanceNonNegative(earth: Earth, storm: Storm)
    ensures SumOf(Distances(earth, storm)) >= 0.0
  {
    var d := Distances(earth, storm);
    if |d| > 0 {
      SumBetween(d, MaxOf(d));
    }
  }
}
