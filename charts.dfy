/** The data preparation of render_charts.py: what each chart is drawn from. Drawing, histograms and
    percentiles are not modelled. */
module Charts {
  import opened Wrappers
  import opened Sequences
  import opened Text
  import opened Telemetry
  import opened Collectors

  /** One entry of a plotted series: a number, or the `""` placeholder the charts skip. */
  datatype Cell = Blank | Num(value: real)

  predicate IsNumber(c: Cell)
  {
    c.Num?
  }

  function Nums(xs: seq<real>): (r: seq<Cell>)
    ensures |r| == |xs| && forall i :: 0 <= i < |xs| ==> r[i] == Num(xs[i])
  {
    seq(|xs|, (i: int) requires 0 <= i < |xs| => Num(xs[i]))
  }

  // ---- render_time_chart (lines 15-46) ----

  /** The positions of `ser` that hold a number: all of them, and only them, in increasing order. */
  function NumberPositions(ser: seq<Cell>): (r: seq<nat>)
    ensures forall k :: 0 <= k < |r| ==> r[k] < |ser| && ser[r[k]].Num?
    ensures forall k, l :: 0 <= k < l < |r| ==> r[k] < r[l]
    ensures forall i :: 0 <= i < |ser| && ser[i].Num? ==> i in r
  {
    if ser == [] then []
    else
      var n := |ser| - 1;
      var front := NumberPositions(ser[..n]);
      assert forall k :: 0 <= k < |front| ==> ser[front[k]] == ser[..n][front[k]];
      front + (if ser[n].Num? then [n] else [])
  }

  /** Lines 31-34: the loop that collects the indices of the entries that are not `""`. */
  method NumberIndices(ser: seq<Cell>) returns (indices: seq<nat>)
    ensures indices == NumberPositions(ser)
  {
    indices := [];
    for i := 0 to |ser|
      invariant indices == NumberPositions(ser[..i])
    {
      assert ser[..i + 1][..i] == ser[..i];
      if ser[i] != Blank {
        indices := indices + [i];
      }
    }
    assert ser[..|ser|] == ser;
  }

  /** `[xs[i] for i in idx]`. */
  function Pick(xs: seq<real>, idx: seq<nat>): (r: seq<real>)
    requires forall k :: 0 <= k < |idx| ==> idx[k] < |xs|
    ensures |r| == |idx| && forall k :: 0 <= k < |idx| ==> r[k] == xs[idx[k]]
  {
    seq(|idx|, (k: int) requires 0 <= k < |idx| => xs[idx[k]])
  }

  /** `[ser[i] for i in idx]`, at positions that hold numbers. */
  function PickValues(ser: seq<Cell>, idx: seq<nat>): (r: seq<real>)
    requires forall k :: 0 <= k < |idx| ==> idx[k] < |ser| && ser[idx[k]].Num?
    ensures |r| == |idx| && forall k :: 0 <= k < |idx| ==> Num(r[k]) == ser[idx[k]]
  {
    seq(|idx|, (k: int) requires 0 <= k < |idx| => ser[idx[k]].value)
  }

  /** One plotted line: its x and y values and its legend label. */
  datatype Line = Line(x: seq<real>, y: seq<real>, name: string)

  /** The `AssertionError`s of lines 26 and 28. */
  datatype ChartError = LegendMismatch | LengthMismatch(series: nat)

  /** The line drawn for one series: the time and the value of every entry that is a number. */
  function PlotLine(times: seq<real>, ser: seq<Cell>, name: string): (l: Line)
    requires |ser| == |times|
    ensures |l.x| == |l.y| && l.name == name
  {
    var idx := NumberPositions(ser);
    Line(Pick(times, idx), PickValues(ser, idx), name)
  }

  /** Each plotted point is an entry that is a number, with its own time: the k-th point is the k-th such
      entry (the positions are increasing and cover every number), so the values are the series with its
      blanks removed, in order. */
  lemma PlotLineSkipsBlanks(times: seq<real>, ser: seq<Cell>, name: string)
    requires |ser| == |times|
    ensures var l := PlotLine(times, ser, name);
            var idx := NumberPositions(ser);
            && |l.x| == |l.y| == |idx|
            && (forall k :: 0 <= k < |idx| ==> l.x[k] == times[idx[k]] && Num(l.y[k]) == ser[idx[k]])
            && Nums(l.y) == Filter(IsNumber, ser)
  {
    PickedNumbers(ser);
  }

  lemma {:induction false} PickedNumbers(ser: seq<Cell>)
    ensures Nums(PickValues(ser, NumberPositions(ser))) == Filter(IsNumber, ser)
  {
    if ser != [] {
      var n := |ser| - 1;
      var init := ser[..n];
      PickedNumbers(init);
      var last := if ser[n].Num? then [ser[n]] else [];
      assert ser == init + [ser[n]];
      FilterAppend(IsNumber, init, [ser[n]]);
      FilterSingleton(IsNumber, ser[n]);
      PickedSnoc(ser);
      SnocEqual(Nums(PickValues(ser, NumberPositions(ser))), Nums(PickValues(init, NumberPositions(init))),
                Filter(IsNumber, ser), Filter(IsNumber, init), last);
    }
  }

  lemma SnocEqual(a: seq<Cell>, a0: seq<Cell>, b: seq<Cell>, b0: seq<Cell>, t: seq<Cell>)
    requires a == a0 + t && b == b0 + t && a0 == b0
    ensures a == b
  {
  }

  /** A number at the end of the series adds one picked value; a blank adds none. */
  lemma PickedSnoc(ser: seq<Cell>)
    requires ser != []
    ensures var n := |ser| - 1;
            Nums(PickValues(ser, NumberPositions(ser)))
            == Nums(PickValues(ser[..n], NumberPositions(ser[..n]))) + (if ser[n].Num? then [ser[n]] else [])
  {
    var n := |ser| - 1;
    var front := NumberPositions(ser[..n]);
    NumberPositionsSnoc(ser);
    PickValuesSnoc(ser, ser[..n], front);
  }

  lemma NumberPositionsSnoc(ser: seq<Cell>)
    requires ser != []
    ensures var n := |ser| - 1;
            NumberPositions(ser) == NumberPositions(ser[..n]) + (if ser[n].Num? then [n] else [])
  {
  }

  lemma PickValuesSnoc(ser: seq<Cell>, init: seq<Cell>, front: seq<nat>)
    requires ser != [] && init == ser[..|ser| - 1]
    requires forall k :: 0 <= k < |front| ==> front[k] < |init| && init[front[k]].Num?
    ensures var n := |ser| - 1;
            var idx := front + (if ser[n].Num? then [n] else []);
            && (forall k :: 0 <= k < |idx| ==> idx[k] < |ser| && ser[idx[k]].Num?)
            && Nums(PickValues(ser, idx)) == Nums(PickValues(init, front)) + (if ser[n].Num? then [ser[n]] else [])
  {
    var n := |ser| - 1;
    var idx := front + (if ser[n].Num? then [n] else []);
    assert forall k :: 0 <= k < |front| ==> ser[front[k]] == init[front[k]];
    var a := Nums(PickValues(ser, idx));
    var b := Nums(PickValues(init, front)) + (if ser[n].Num? then [ser[n]] else []);
    forall k | 0 <= k < |a| ensures a[k] == b[k] {
      if k < |front| {
        assert idx[k] == front[k];
      }
    }
  }

  lemma {:induction false} PositionsCount(ser: seq<Cell>)
    ensures |NumberPositions(ser)| == |Filter(IsNumber, ser)|
  {
    if ser != [] {
      var n := |ser| - 1;
      PositionsCount(ser[..n]);
      assert ser == ser[..n] + [ser[n]];
      FilterAppend(IsNumber, ser[..n], [ser[n]]);
    }
  }

  /** Lines 26-37: the lines drawn for the series zipped with their timestamps and labels. The label is the
      legend entry on the last chart and empty on the others. */
  method RenderTimeChart(timestamps: seq<seq<real>>, series: seq<seq<Cell>>, legend: seq<string>, isLast: bool)
    returns (r: Result<seq<Line>, ChartError>)
    ensures |legend| != |series| ==> r == Failure(LegendMismatch)
    ensures r.Success? <==>
              |legend| == |series| && forall k :: 0 <= k < |series| && k < |timestamps| ==> |series[k]| == |timestamps[k]|
    ensures r.Failure? && |legend| == |series| ==>
              && r.error.LengthMismatch?
              && var k := r.error.series;
                 k < |series| && k < |timestamps| && |series[k]| != |timestamps[k]|
                 && forall j :: 0 <= j < k ==> |series[j]| == |timestamps[j]|
    ensures r.Success? ==>
              && |r.value| == Min(|series|, |timestamps|)
              && forall k :: 0 <= k < |r.value| ==>
                   r.value[k] == PlotLine(timestamps[k], series[k], if isLast then legend[k] else "")
  {
    if |legend| != |series| {
      return Failure(LegendMismatch);
    }
    var lines: seq<Line> := [];
    var n := Min(|series|, |timestamps|);
    for k := 0 to n
      invariant |lines| == k
      invariant forall j :: 0 <= j < k ==> |series[j]| == |timestamps[j]|
      invariant forall j :: 0 <= j < k ==> lines[j] == PlotLine(timestamps[j], series[j], if isLast then legend[j] else "")
    {
      var ser, times, leg := series[k], timestamps[k], legend[k];
      if |ser| != |times| {
        return Failure(LengthMismatch(k));
      }
      var indices := NumberIndices(ser);
      var x := seq(|indices|, (i: int) requires 0 <= i < |indices| => times[indices[i]]);
      var y := seq(|indices|, (i: int) requires 0 <= i < |indices| => ser[indices[i]].value);
      lines := lines + [Line(x, y, if isLast then leg else "")];
    }
    r := Success(lines);
  }

  // ---- parse_branch (lines 60-137) ----

  /** The containers whose charts are drawn, in legend order. */
  const CONTAINERS: seq<string> := ["jwt-client", "jwt-creator", "jwt-verifier", "cert-auth", "swan-carol", "swan-moon"]

  function IsFrom(cont: string): Sample -> bool
  {
    (x: Sample) => x.container == cont
  }

  /** Line 80: the records of one container, in the order they were collected. */
  function ContainerData(stats: seq<Sample>, cont: string): seq<Sample>
  {
    Filter(IsFrom(cont), stats)
  }

  /** The grouping keeps exactly the container's records, each as often as it was collected. */
  lemma ContainerDataSpec(stats: seq<Sample>, cont: string)
    ensures forall x :: x in ContainerData(stats, cont) <==> x in stats && x.container == cont
    ensures forall x :: multiset(ContainerData(stats, cont))[x] == if x.container == cont then multiset(stats)[x] else 0
  {
    FilterSpec(IsFrom(cont), stats);
  }

  /** The per-container records of the different containers add up to no more than all records. */
  lemma {:induction false} ContainerDataDisjoint(stats: seq<Sample>, a: string, b: string)
    requires a != b
    ensures |ContainerData(stats, a)| + |ContainerData(stats, b)| <= |stats|
  {
    if stats != [] {
      ContainerDataDisjoint(stats[1..], a, b);
    }
  }

  function CpuOf(data: seq<Sample>): (r: seq<real>)
    ensures |r| == |data| && forall i :: 0 <= i < |data| ==> r[i] == data[i].cpuUsage
  {
    seq(|data|, (i: int) requires 0 <= i < |data| => data[i].cpuUsage)
  }

  function RamOf(data: seq<Sample>): (r: seq<real>)
    ensures |r| == |data| && forall i :: 0 <= i < |data| ==> r[i] == data[i].memoryUsage
  {
    seq(|data|, (i: int) requires 0 <= i < |data| => data[i].memoryUsage)
  }

  function NetOf(data: seq<Sample>): (r: seq<int>)
    ensures |r| == |data| && forall i :: 0 <= i < |data| ==> r[i] == data[i].totalNetTraffic
  {
    seq(|data|, (i: int) requires 0 <= i < |data| => data[i].totalNetTraffic)
  }

  /** No two consecutive records share a timestamp, so every rate has a non-zero divisor. */
  predicate DistinctSteps(times: seq<real>)
  {
    forall i :: 0 < i < |times| ==> times[i] != times[i - 1]
  }

  /** The traffic rate: 0 first, then the change in traffic over the change in time since the previous
      record. */
  function Rates(nets: seq<int>, times: seq<real>): (r: seq<real>)
    requires |nets| == |times| > 0 && DistinctSteps(times)
    ensures |r| == |nets| && r[0] == 0.0
  {
    seq(|nets|, (i: int) requires 0 <= i < |nets| =>
                  if i == 0 then 0.0 else (nets[i] - nets[i - 1]) as real / (times[i] - times[i - 1]))
  }

  /** Each later rate, times its time step, is the traffic step: the rate is the traffic per second. */
  lemma RatesStep(nets: seq<int>, times: seq<real>)
    requires |nets| == |times| > 0 && DistinctSteps(times)
    ensures var r := Rates(nets, times);
            forall i :: 0 < i < |r| ==> r[i] * (times[i] - times[i - 1]) == (nets[i] - nets[i - 1]) as real
  {
    forall i | 0 < i < |nets| {
      RateAt(nets, times, i);
    }
  }

  lemma RateAt(nets: seq<int>, times: seq<real>, i: nat)
    requires |nets| == |times| > 0 && DistinctSteps(times) && 0 < i < |nets|
    ensures Rates(nets, times)[i] * (times[i] - times[i - 1]) == (nets[i] - nets[i - 1]) as real
  {
    var a, b := (nets[i] - nets[i - 1]) as real, times[i] - times[i - 1];
    assert Rates(nets, times)[i] == a / b;
    DivMul(a, b);
  }

  lemma DivMul(a: real, b: real)
    requires b != 0.0
    ensures a / b * b == a
  {
  }

  /** Lines 87-94: the rate loop, carrying the previous traffic counter and time. Indexing `cont_data[0]`
      needs a record, and each division a time step. */
  method TrafficRate(data: seq<Sample>) returns (rate: seq<real>)
    requires |data| > 0 && DistinctSteps(TimesOf(data))
    ensures rate == Rates(NetOf(data), TimesOf(data))
  {
    ghost var spec := Rates(NetOf(data), TimesOf(data));
    rate := [0.0];
    var prevTotNet := data[0].totalNetTraffic;
    var prevTime := data[0].time;
    var i := 1;
    while i < |data|
      invariant 1 <= i <= |data|
      invariant rate == spec[..i]
      invariant prevTotNet == data[i - 1].totalNetTraffic && prevTime == data[i - 1].time
    {
      var entry := data[i];
      var r := (entry.totalNetTraffic - prevTotNet) as real / (entry.time - prevTime);
      prevTotNet := entry.totalNetTraffic;
      prevTime := entry.time;
      rate := rate + [r];
      i := i + 1;
    }
    assert spec[..|data|] == spec;
  }

  /** The traffic the rates account for over the first `n` records: each rate times its time step. */
  function Transferred(rate: seq<real>, times: seq<real>, n: nat): real
    requires n <= |rate| == |times|
  {
    if n <= 1 then 0.0 else Transferred(rate, times, n - 1) + rate[n - 1] * (times[n - 1] - times[n - 2])
  }

  /** The rates telescope: together they account for exactly the traffic counted between the first and
      the n-th record. */
  lemma {:induction false} RatesTelescope(nets: seq<int>, times: seq<real>, n: nat)
    requires |nets| == |times| > 0 && DistinctSteps(times)
    requires 1 <= n <= |nets|
    ensures Transferred(Rates(nets, times), times, n) == (nets[n - 1] - nets[0]) as real
  {
    if n > 1 {
      RatesTelescope(nets, times, n - 1);
    }
  }

  /** Lines 97-102: `[0, 0]`, then 8/1000 (bytes to kilobits) times the mean of each window of three rates. */
  function MovingAverage(rate: seq<real>): seq<real>
  {
    [0.0, 0.0] + seq(Max(0, |rate| - 2), (k: int) requires 0 <= k < |rate| - 2 =>
                                           8.0 / 1000.0 * ((rate[k] + rate[k + 1] + rate[k + 2]) / 3.0))
  }

  /** Lines 97-102 as the loop that appends the averages. */
  method MovingAverageLoop(rate: seq<real>) returns (average: seq<real>)
    ensures average == MovingAverage(rate)
  {
    var window := 3;
    average := [0.0, 0.0];
    var ind := 0;
    while ind < |rate| - window + 1
      invariant 0 <= ind <= Max(0, |rate| - 2)
      invariant average == MovingAverage(rate)[..ind + 2]
    {
      var w := rate[ind..ind + window];
      average := average + [8.0 / 1000.0 * ((w[0] + w[1] + w[2]) / 3.0)];
      ind := ind + 1;
    }
    assert MovingAverage(rate)[..ind + 2] == MovingAverage(rate);
  }

  /** The averaged series is as long as the rate series once it has two entries; a single rate still gives
      the two leading zeros, one more point than there are timestamps. */
  lemma MovingAverageLength(rate: seq<real>)
    ensures MovingAverage(rate)[..2] == [0.0, 0.0]
    ensures |rate| >= 2 ==> |MovingAverage(rate)| == |rate|
    ensures |rate| == 1 ==> |MovingAverage(rate)| == 2
  {
  }

  /** Every average lies between 8/1000 of the smallest and of the largest rate, and so does 0 when the
      rates are not negative. */
  lemma MovingAverageBounds(rate: seq<real>, lo: real, hi: real)
    requires forall i :: 0 <= i < |rate| ==> lo <= rate[i] <= hi
    ensures forall k :: 2 <= k < |MovingAverage(rate)| ==> 8.0 / 1000.0 * lo <= MovingAverage(rate)[k] <= 8.0 / 1000.0 * hi
  {
    forall k | 2 <= k < |MovingAverage(rate)| ensures 8.0 / 1000.0 * lo <= MovingAverage(rate)[k] <= 8.0 / 1000.0 * hi {
      AverageAt(rate, k - 2, lo, hi);
    }
  }

  lemma AverageAt(rate: seq<real>, j: nat, lo: real, hi: real)
    requires j + 2 < |rate|
    requires lo <= rate[j] <= hi && lo <= rate[j + 1] <= hi && lo <= rate[j + 2] <= hi
    ensures 8.0 / 1000.0 * lo <= MovingAverage(rate)[j + 2] <= 8.0 / 1000.0 * hi
  {
    WindowBounds(rate[j], rate[j + 1], rate[j + 2], lo, hi);
  }

  lemma WindowBounds(a: real, b: real, c: real, lo: real, hi: real)
    requires lo <= a <= hi && lo <= b <= hi && lo <= c <= hi
    ensures 8.0 / 1000.0 * lo <= 8.0 / 1000.0 * ((a + b + c) / 3.0) <= 8.0 / 1000.0 * hi
  {
    assert lo <= (a + b + c) / 3.0 <= hi;
  }

  /** `m` is the running maximum of lines 104-121 over `ss`: at least 0 and every number, and either 0 or one
      of the numbers. */
  predicate IsSeriesMax(m: real, ss: seq<seq<Cell>>)
  {
    && m >= 0.0
    && (forall i, j :: 0 <= i < |ss| && 0 <= j < |ss[i]| && ss[i][j].Num? ==> ss[i][j].value <= m)
    && (m == 0.0 || exists i, j :: 0 <= i < |ss| && 0 <= j < |ss[i]| && ss[i][j] == Num(m))
  }

  /** The maximum is well defined: two values that both qualify are equal. */
  lemma SeriesMaxUnique(a: real, b: real, ss: seq<seq<Cell>>)
    requires IsSeriesMax(a, ss) && IsSeriesMax(b, ss)
    ensures a == b
  {
    if a != 0.0 {
      var i, j :| 0 <= i < |ss| && 0 <= j < |ss[i]| && ss[i][j] == Num(a);
    }
    if b != 0.0 {
      var i, j :| 0 <= i < |ss| && 0 <= j < |ss[i]| && ss[i][j] == Num(b);
    }
  }

  /** Lines 104-121: the largest number over all series, starting from 0 and skipping `""` entries. */
  method SeriesMax(ss: seq<seq<Cell>>) returns (m: real)
    ensures IsSeriesMax(m, ss)
  {
    m := 0.0;
    for i := 0 to |ss|
      invariant m >= 0.0
      invariant forall i', j :: 0 <= i' < i && 0 <= j < |ss[i']| && ss[i'][j].Num? ==> ss[i'][j].value <= m
      invariant m == 0.0 || exists i', j :: 0 <= i' < i && 0 <= j < |ss[i']| && ss[i'][j] == Num(m)
    {
      var l := ss[i];
      for j := 0 to |l|
        invariant m >= 0.0
        invariant forall i', j' :: 0 <= i' < i && 0 <= j' < |ss[i']| && ss[i'][j'].Num? ==> ss[i'][j'].value <= m
        invariant forall j' :: 0 <= j' < j && l[j'].Num? ==> l[j'].value <= m
        invariant m == 0.0 || (exists i', j' :: 0 <= i' < i && 0 <= j' < |ss[i']| && ss[i'][j'] == Num(m))
                            || (exists j' :: 0 <= j' < j && l[j'] == Num(m))
      {
        var x := l[j];
        if x == Blank {
          continue;
        }
        if m < x.value {
          m := x.value;
        }
      }
    }
  }

  /** Lines 124-125: every timestamp minus the earliest one over all containers. */
  function Rebase(ts: seq<seq<real>>): (r: seq<seq<real>>)
    requires TotalLength(ts) > 0
    ensures |r| == |ts| && forall i :: 0 <= i < |ts| ==> |r[i]| == |ts[i]|
  {
    ConcatLength(ts);
    var least := MinOf(Concat(ts));
    seq(|ts|, (i: int) requires 0 <= i < |ts| => seq(|ts[i]|, (j: int) requires 0 <= j < |ts[i]| => ts[i][j] - least))
  }

  lemma {:induction false} InConcat<T>(ss: seq<seq<T>>, i: nat, j: nat)
    requires i < |ss| && j < |ss[i]|
    ensures ss[i][j] in Concat(ss)
  {
    if i > 0 {
      InConcat(ss[1..], i - 1, j);
    }
  }

  lemma {:induction false} FromConcat<T>(ss: seq<seq<T>>, x: T) returns (i: nat, j: nat)
    requires x in Concat(ss)
    ensures i < |ss| && j < |ss[i]| && ss[i][j] == x
  {
    if x in ss[0] {
      i := 0;
      j :| 0 <= j < |ss[0]| && ss[0][j] == x;
    } else {
      var i', j' := FromConcat(ss[1..], x);
      i, j := i' + 1, j';
    }
  }

  /** The rebased timestamps start at 0: none is negative, one is 0, and the gaps between any two stay
      as they were. */
  lemma RebaseStartsAtZero(ts: seq<seq<real>>)
    requires TotalLength(ts) > 0
    ensures var r := Rebase(ts);
            && (forall i, j :: 0 <= i < |r| && 0 <= j < |r[i]| ==> r[i][j] >= 0.0)
            && (exists i, j :: 0 <= i < |r| && 0 <= j < |r[i]| && r[i][j] == 0.0)
            && (forall i, j, i', j' :: 0 <= i < |r| && 0 <= j < |r[i]| && 0 <= i' < |r| && 0 <= j' < |r[i']| ==>
                  r[i][j] - r[i'][j'] == ts[i][j] - ts[i'][j'])
  {
    ConcatLength(ts);
    var all := Concat(ts);
    var least := MinOf(all);
    var r := Rebase(ts);
    forall i, j | 0 <= i < |r| && 0 <= j < |r[i]| ensures r[i][j] >= 0.0 {
      InConcat(ts, i, j);
    }
    var i, j := FromConcat(ts, least);
    assert r[i][j] == 0.0;
  }

  /** `max` over the branches' maxima (lines 233-235), a `ValueError` when there is no data file. */
  datatype EmptyError = EmptySequence

  function GlobalMax(maxima: seq<real>): (r: Result<real, EmptyError>)
    ensures r.Failure? <==> maxima == []
    ensures r.Success? ==> r.value in maxima && forall i :: 0 <= i < |maxima| ==> maxima[i] <= r.value
  {
    if maxima == [] then Failure(EmptySequence) else Success(MaxOf(maxima))
  }

  // ---- render_folder (lines 225-294) ----

  /** A data file's branch: its name up to the first `".json"` (lines 228-229). */
  function BranchName(filename: string): (r: string)
    ensures r <= filename
    ensures forall i :: 0 <= i < |r| ==> !OccursAt(filename, ".json", i)
    ensures r == filename || OccursAt(filename, ".json", |r|)
  {
    BeforeFirst(filename, ".json")
  }

  /** The file analysis.py writes a branch's results to. */
  function DataFile(branch: string): string
  {
    branch + ".json"
  }

  /** `".json"` cannot start inside a name that does not contain it and still end in the suffix, since its
      only `.` is its first character. */
  lemma NoEarlySuffix(branch: string)
    requires forall i :: !OccursAt(branch, ".json", i)
    ensures forall i :: 0 <= i < |branch| ==> !OccursAt(DataFile(branch), ".json", i)
  {
    var s := DataFile(branch);
    forall i | 0 <= i < |branch| ensures !OccursAt(s, ".json", i) {
      if i + 5 <= |branch| {
        assert s[i..i + 5] == branch[i..i + 5];
        assert !OccursAt(branch, ".json", i);
      } else {
        var k := |branch| - i;
        assert s[i..i + 5][k] == s[|branch|] == '.';
        assert ".json"[k] != '.' by {
          assert ".json"[1] == 'j' && ".json"[2] == 's' && ".json"[3] == 'o' && ".json"[4] == 'n';
        }
      }
    }
  }

  /** Reading the branch back from its data file gives the branch, unless its name itself contains `".json"`. */
  lemma BranchNameOfDataFile(branch: string)
    requires forall i :: !OccursAt(branch, ".json", i)
    ensures BranchName(DataFile(branch)) == branch
  {
    var s := DataFile(branch);
    var r := BranchName(s);
    assert OccursAt(s, ".json", |branch|) by {
      assert s[|branch|..|branch| + 5] == ".json";
    }
    NoEarlySuffix(branch);
    assert |r| == |branch|;
    assert r == s[..|r|] == branch;
  }

  /** The cpu, memory and network value of one zipped tuple. */
  datatype Usage = Usage(cpu: real, ram: real, net: real)

  function Add(a: Usage, b: Usage): Usage
  {
    Usage(a.cpu + b.cpu, a.ram + b.ram, a.net + b.net)
  }

  /** `zip(times, cpus, rams, nets)`: one tuple per position of the shortest list. */
  function ZipUsage(times: seq<real>, cpus: seq<real>, rams: seq<real>, nets: seq<real>): (r: seq<Usage>)
    ensures |r| == Min(Min(|times|, |cpus|), Min(|rams|, |nets|))
    ensures forall j :: 0 <= j < |r| ==> r[j] == Usage(cpus[j], rams[j], nets[j])
  {
    var n := Min(Min(|times|, |cpus|), Min(|rams|, |nets|));
    seq(n, (j: int) requires 0 <= j < n => Usage(cpus[j], rams[j], nets[j]))
  }

  /** The number of containers the outer `zip` of line 281 walks over. */
  function Rows(containers: seq<string>, timestamps: seq<seq<real>>, cpu: seq<seq<real>>, ram: seq<seq<real>>, net: seq<seq<real>>): nat
  {
    Min(Min(Min(|containers|, |timestamps|), Min(|cpu|, |ram|)), |net|)
  }

  /** Every tuple the nested loops of lines 281-286 visit, for the first `n` containers, in order. */
  function Zipped(timestamps: seq<seq<real>>, cpu: seq<seq<real>>, ram: seq<seq<real>>, net: seq<seq<real>>, n: nat): seq<Usage>
    requires n <= |timestamps| && n <= |cpu| && n <= |ram| && n <= |net|
  {
    if n == 0 then []
    else Zipped(timestamps, cpu, ram, net, n - 1) + ZipUsage(timestamps[n - 1], cpu[n - 1], ram[n - 1], net[n - 1])
  }

  function Total(us: seq<Usage>): Usage
  {
    if us == [] then Usage(0.0, 0.0, 0.0) else Add(Total(us[..|us| - 1]), us[|us| - 1])
  }

  lemma TotalSnoc(us: seq<Usage>, u: Usage)
    ensures Total(us + [u]) == Add(Total(us), u)
  {
    assert (us + [u])[..|us|] == us;
  }

  lemma {:induction false} TotalAppend(a: seq<Usage>, b: seq<Usage>)
    ensures Total(a + b) == Add(Total(a), Total(b))
    decreases |b|
  {
    if b == [] {
      assert a + b == a;
    } else {
      var n := |b| - 1;
      assert a + b == (a + b[..n]) + [b[n]];
      assert b == b[..n] + [b[n]];
      TotalAppend(a, b[..n]);
      TotalSnoc(a + b[..n], b[n]);
      TotalSnoc(b[..n], b[n]);
    }
  }

  /** Lines 276-286: the running sums and the tuple count of one branch. */
  method Aggregate(containers: seq<string>, timestamps: seq<seq<real>>, cpu: seq<seq<real>>, ram: seq<seq<real>>, net: seq<seq<real>>)
    returns (sum: Usage, count: nat)
    ensures var n := Rows(containers, timestamps, cpu, ram, net);
            sum == Total(Zipped(timestamps, cpu, ram, net, n)) && count == |Zipped(timestamps, cpu, ram, net, n)|
  {
    var n := Rows(containers, timestamps, cpu, ram, net);
    sum := Usage(0.0, 0.0, 0.0);
    count := 0;
    for k := 0 to n
      invariant sum == Total(Zipped(timestamps, cpu, ram, net, k)) && count == |Zipped(timestamps, cpu, ram, net, k)|
    {
      sum, count := AddRow(Zipped(timestamps, cpu, ram, net, k), sum, count, timestamps[k], cpu[k], ram[k], net[k]);
    }
  }

  /** Lines 282-286: the inner loop over one container's tuples, continuing the sums of the tuples `done`. */
  method AddRow(ghost done: seq<Usage>, sum0: Usage, count0: nat, times: seq<real>, cpus: seq<real>, rams: seq<real>, nets: seq<real>)
    returns (sum: Usage, count: nat)
    requires sum0 == Total(done) && count0 == |done|
    ensures var all := done + ZipUsage(times, cpus, rams, nets);
            sum == Total(all) && count == |all|
  {
    ghost var row := ZipUsage(times, cpus, rams, nets);
    var m := Min(Min(|times|, |cpus|), Min(|rams|, |nets|));
    sum, count := sum0, count0;
    assert done + row[..0] == done;
    for j := 0 to m
      invariant sum == Total(done + row[..j]) && count == |done| + j
    {
      assert done + row[..j + 1] == (done + row[..j]) + [row[j]];
      TotalSnoc(done + row[..j], row[j]);
      sum := Add(sum, Usage(cpus[j], rams[j], nets[j]));
      count := count + 1;
    }
    assert row[..m] == row;
  }

  /** Lines 288-290: each sum divided by the count, a `ZeroDivisionError` when no tuple was visited. */
  function Averages(sum: Usage, count: nat): (r: Result<Usage, Exception>)
    ensures r.Failure? <==> count == 0
    ensures r.Failure? ==> r.error == ZeroDivisionError("count")
    ensures r.Success? ==> && r.value.cpu * count as real == sum.cpu
                           && r.value.ram * count as real == sum.ram
                           && r.value.net * count as real == sum.net
  {
    if count == 0 then Failure(ZeroDivisionError("count"))
    else
      var c := count as real;
      DivMul(sum.cpu, c);
      DivMul(sum.ram, c);
      DivMul(sum.net, c);
      Success(Usage(sum.cpu / c, sum.ram / c, sum.net / c))
  }

  /** `lo` is below and `hi` above every tuple, component by component. */
  predicate Within(u: Usage, lo: Usage, hi: Usage)
  {
    lo.cpu <= u.cpu <= hi.cpu && lo.ram <= u.ram <= hi.ram && lo.net <= u.net <= hi.net
  }

  /** `n` copies of `x` added up. */
  function RepeatedSum(n: nat, x: real): real
  {
    if n == 0 then 0.0 else RepeatedSum(n - 1, x) + x
  }

  lemma {:induction false} RepeatedSumIsProduct(n: nat, x: real)
    ensures RepeatedSum(n, x) == n as real * x
  {
    if n > 0 {
      RepeatedSumIsProduct(n - 1, x);
      assert n as real * x == (n - 1) as real * x + x;
    }
  }

  lemma {:induction false} TotalWithin(us: seq<Usage>, lo: Usage, hi: Usage)
    requires forall k :: 0 <= k < |us| ==> Within(us[k], lo, hi)
    ensures var t := Total(us);
            && RepeatedSum(|us|, lo.cpu) <= t.cpu <= RepeatedSum(|us|, hi.cpu)
            && RepeatedSum(|us|, lo.ram) <= t.ram <= RepeatedSum(|us|, hi.ram)
            && RepeatedSum(|us|, lo.net) <= t.net <= RepeatedSum(|us|, hi.net)
  {
    if us != [] {
      var n := |us| - 1;
      TotalWithin(us[..n], lo, hi);
      assert Total(us) == Add(Total(us[..n]), us[n]);
      assert Within(us[n], lo, hi);
    }
  }

  lemma QuotientWithin(t: real, n: real, lo: real, hi: real, q: real)
    requires n > 0.0 && n * lo <= t <= n * hi && q * n == t
    ensures lo <= q <= hi
  {
    assert (q - lo) * n == t - n * lo;
    assert (hi - q) * n == n * hi - t;
  }

  lemma MeanWithin(t: real, n: nat, lo: real, hi: real, q: real)
    requires n > 0 && RepeatedSum(n, lo) <= t <= RepeatedSum(n, hi) && q * n as real == t
    ensures lo <= q <= hi
  {
    RepeatedSumIsProduct(n, lo);
    RepeatedSumIsProduct(n, hi);
    QuotientWithin(t, n as real, lo, hi, q);
  }

  /** Sums bounded by `count` copies of the bounds give averages within the bounds. */
  lemma AveragesOfBoundedSums(t: Usage, n: nat, lo: Usage, hi: Usage)
    requires n > 0
    requires RepeatedSum(n, lo.cpu) <= t.cpu <= RepeatedSum(n, hi.cpu)
    requires RepeatedSum(n, lo.ram) <= t.ram <= RepeatedSum(n, hi.ram)
    requires RepeatedSum(n, lo.net) <= t.net <= RepeatedSum(n, hi.net)
    ensures Averages(t, n).Success? && Within(Averages(t, n).value, lo, hi)
  {
    var a := Averages(t, n).value;
    assert lo.cpu <= a.cpu <= hi.cpu by {
      MeanWithin(t.cpu, n, lo.cpu, hi.cpu, a.cpu);
    }
    assert lo.ram <= a.ram <= hi.ram by {
      MeanWithin(t.ram, n, lo.ram, hi.ram, a.ram);
    }
    assert lo.net <= a.net <= hi.net by {
      MeanWithin(t.net, n, lo.net, hi.net, a.net);
    }
  }

  /** The branch averages lie within the bounds of the values averaged. */
  lemma AveragesWithin(us: seq<Usage>, lo: Usage, hi: Usage)
    requires us != [] && forall k :: 0 <= k < |us| ==> Within(us[k], lo, hi)
    ensures Averages(Total(us), |us|).Success? && Within(Averages(Total(us), |us|).value, lo, hi)
  {
    TotalWithin(us, lo, hi);
    AveragesOfBoundedSums(Total(us), |us|, lo, hi);
  }

  // ---- the in-memory part of parse_branch (lines 69-137) ----

  /** What `parse_branch` returns besides the drawing inputs it reads from disk. */
  datatype Parsed = Parsed(
    containers: seq<string>,
    latencies: seq<real>,
    timestamps: seq<seq<real>>,
    cpu: seq<seq<real>>,
    cpuMax: real,
    ram: seq<seq<real>>,
    ramMax: real,
    net: seq<seq<real>>,
    netMax: real)

  /** Every charted container has a record, and no two consecutive records of one share a timestamp: what
      lines 88-91 need to index and to divide. */
  predicate Parsable(stats: seq<Sample>)
  {
    forall k :: 0 <= k < |CONTAINERS| ==>
      |ContainerData(stats, CONTAINERS[k])| > 0 && DistinctSteps(TimesOf(ContainerData(stats, CONTAINERS[k])))
  }

  function Latencies(perf: seq<LatencyRecord>): (r: seq<real>)
    ensures |r| == |perf| && forall i :: 0 <= i < |perf| ==> r[i] == perf[i].latency
  {
    seq(|perf|, (i: int) requires 0 <= i < |perf| => perf[i].latency)
  }

  function NumSeries(ss: seq<seq<real>>): (r: seq<seq<Cell>>)
    ensures |r| == |ss| && forall i :: 0 <= i < |ss| ==> r[i] == Nums(ss[i])
  {
    seq(|ss|, (i: int) requires 0 <= i < |ss| => Nums(ss[i]))
  }

  /** Lines 81-82: the times of each container's records, before rebasing. */
  function RawTimes(stats: seq<Sample>): (r: seq<seq<real>>)
    requires Parsable(stats)
    ensures |r| == |CONTAINERS| && TotalLength(r) > 0
    ensures forall k :: 0 <= k < |CONTAINERS| ==> r[k] == TimesOf(ContainerData(stats, CONTAINERS[k]))
  {
    var r := seq(|CONTAINERS|, (k: int) requires 0 <= k < |CONTAINERS| => TimesOf(ContainerData(stats, CONTAINERS[k])));
    TotalLengthPositive(r, 0);
    r
  }

  /** Lines 80-102 for one container's records: its times, cpu and memory series and averaged traffic rate. */
  method ParseContainer(contData: seq<Sample>) returns (times: seq<real>, cpu: seq<real>, ram: seq<real>, net: seq<real>)
    requires |contData| > 0 && DistinctSteps(TimesOf(contData))
    ensures times == TimesOf(contData) && cpu == CpuOf(contData) && ram == RamOf(contData)
    ensures net == MovingAverage(Rates(NetOf(contData), TimesOf(contData)))
  {
    times, cpu, ram := TimesOf(contData), CpuOf(contData), RamOf(contData);
    var rate := TrafficRate(contData);
    net := MovingAverageLoop(rate);
  }

  /** Lines 104-121: the three running maxima. */
  method Maxima(cpu: seq<seq<real>>, ram: seq<seq<real>>, net: seq<seq<real>>) returns (cpuMax: real, ramMax: real, netMax: real)
    ensures IsSeriesMax(cpuMax, NumSeries(cpu)) && IsSeriesMax(ramMax, NumSeries(ram)) && IsSeriesMax(netMax, NumSeries(net))
  {
    cpuMax := SeriesMax(NumSeries(cpu));
    ramMax := SeriesMax(NumSeries(ram));
    netMax := SeriesMax(NumSeries(net));
  }

  /** Lines 69-137 on records already loaded: per container its times, cpu and memory series and its
      averaged traffic rate; the three maxima; and the times rebased to the earliest one. */
  method ParseBranch(stats: seq<Sample>, perf: seq<LatencyRecord>) returns (p: Parsed)
    requires Parsable(stats)
    ensures p.containers == CONTAINERS && p.latencies == Latencies(perf)
    ensures |p.timestamps| == |p.cpu| == |p.ram| == |p.net| == |CONTAINERS|
    ensures forall k :: 0 <= k < |CONTAINERS| ==>
              var d := ContainerData(stats, CONTAINERS[k]);
              && p.cpu[k] == CpuOf(d) && p.ram[k] == RamOf(d)
              && p.net[k] == MovingAverage(Rates(NetOf(d), TimesOf(d)))
    ensures p.timestamps == Rebase(RawTimes(stats))
    ensures IsSeriesMax(p.cpuMax, NumSeries(p.cpu))
    ensures IsSeriesMax(p.ramMax, NumSeries(p.ram))
    ensures IsSeriesMax(p.netMax, NumSeries(p.net))
  {
    var timestamps, cpu, ram, net := ParseContainers(stats);
    var cpuMax, ramMax, netMax := Maxima(cpu, ram, net);
    assert timestamps == RawTimes(stats);
    p := Parsed(CONTAINERS, Latencies(perf), Rebase(timestamps), cpu, cpuMax, ram, ramMax, net, netMax);
  }

  /** Lines 79-102: the loop over the containers, each parsed from its own records. */
  method ParseContainers(stats: seq<Sample>) returns (timestamps: seq<seq<real>>, cpu: seq<seq<real>>, ram: seq<seq<real>>, net: seq<seq<real>>)
    requires Parsable(stats)
    ensures |timestamps| == |cpu| == |ram| == |net| == |CONTAINERS|
    ensures forall k :: 0 <= k < |CONTAINERS| ==>
              var d := ContainerData(stats, CONTAINERS[k]);
              && timestamps[k] == TimesOf(d) && cpu[k] == CpuOf(d) && ram[k] == RamOf(d)
              && net[k] == MovingAverage(Rates(NetOf(d), TimesOf(d)))
  {
    timestamps, cpu, ram, net := [], [], [], [];
    for k := 0 to |CONTAINERS|
      invariant |cpu| == |ram| == |net| == |timestamps| == k
      invariant forall j :: 0 <= j < k ==>
                  var d := ContainerData(stats, CONTAINERS[j]);
                  && timestamps[j] == TimesOf(d) && cpu[j] == CpuOf(d) && ram[j] == RamOf(d)
                  && net[j] == MovingAverage(Rates(NetOf(d), TimesOf(d)))
    {
      var t, c, r, n := ParseContainer(ContainerData(stats, CONTAINERS[k]));
      timestamps, cpu, ram, net := timestamps + [t], cpu + [c], ram + [r], net + [n];
    }
  }

  lemma {:induction false} TotalLengthPositive<T>(ss: seq<seq<T>>, i: nat)
    requires i < |ss| && |ss[i]| > 0
    ensures TotalLength(ss) > 0
  {
    if i > 0 {
      TotalLengthPositive(ss[1..], i - 1);
    }
  }
}
