/** The measurement summaries of the benchmark runner
    (scripts/benchmarks/x11_shm_screenshot_runner.py): what the scripts in the sandbox emit, and the
    checks that decide whether it is retained.

    The daemon-local and the scheduling diagnostic share one shape.  The first has no CPU metrics and
    interpolates its percentiles; the second takes nearest ranks and has both kinds of metric. */
module Summaries {
  import opened Outcomes
  import opened Statistics

  const CAPTURES: nat := 1_000
  const THRESHOLDS: seq<int> := [50, 100, 500]

  datatype Metric = Metric(name: string)

  /** The metrics with tail counts, and those without. */
  datatype Layout = Layout(timing: seq<Metric>, cpu: seq<Metric>)

  predicate Listed(layout: Layout, m: Metric) {
    m in layout.timing + layout.cpu
  }

  datatype Lane = Full | Region

  datatype MetricSummary = MetricSummary(p50: real, p95: real, p99: real, max: real, over: seq<int>)

  datatype LaneSummary = LaneSummary(sampleCount: int, metrics: map<Metric, MetricSummary>)

  datatype Summaries = Summaries(combined: LaneSummary, full: LaneSummary, region: LaneSummary)

  datatype TailEntry = TailEntry(index: int, timing: real)

  type Tails = map<Metric, seq<TailEntry>>

  // ---------------------------------------------------------------- the producer

  datatype Sample = Sample(index: nat, lane: Lane, values: Metric -> real)

  function LaneOf(index: nat): Lane {
    if index % 2 == 1 then Region else Full
  }

  /** The capture schedule: full and region captures alternate. */
  function Scheduled(readings: seq<Metric -> real>): seq<Sample> {
    if readings == [] then []
    else
      var n := |readings| - 1;
      Scheduled(readings[..n]) + [Sample(n, LaneOf(n), readings[n])]
  }

  /** The capture loop. */
  method Capture(readings: seq<Metric -> real>) returns (samples: seq<Sample>, fullCaptures: nat, regionCaptures: nat)
    ensures samples == Scheduled(readings)
    ensures fullCaptures == |InLane(samples, Full)| && regionCaptures == |InLane(samples, Region)|
  {
    samples, fullCaptures, regionCaptures := [], 0, 0;
    for index := 0 to |readings|
      invariant samples == Scheduled(readings[..index])
      invariant fullCaptures == |InLane(samples, Full)| && regionCaptures == |InLane(samples, Region)|
    {
      assert readings[..index + 1][..index] == readings[..index];
      var lane;
      if index % 2 == 1 {
        lane := Region;
        regionCaptures := regionCaptures + 1;
      } else {
        lane := Full;
        fullCaptures := fullCaptures + 1;
      }
      InLaneAppend(samples, Sample(index, lane, readings[index]), Full);
      InLaneAppend(samples, Sample(index, lane, readings[index]), Region);
      samples := samples + [Sample(index, lane, readings[index])];
    }
    assert readings[..|readings|] == readings;
  }

  function InLane(samples: seq<Sample>, lane: Lane): seq<Sample> {
    if samples == [] then []
    else (if samples[0].lane == lane then [samples[0]] else []) + InLane(samples[1..], lane)
  }

  lemma {:induction false} InLaneAppend(samples: seq<Sample>, s: Sample, lane: Lane)
    ensures InLane(samples + [s], lane) == InLane(samples, lane) + if s.lane == lane then [s] else []
  {
    var added := if s.lane == lane then [s] else [];
    if samples == [] {
      assert samples + [s] == [s];
    } else {
      var head := if samples[0].lane == lane then [samples[0]] else [];
      InLaneAppend(samples[1..], s, lane);
      assert (samples + [s])[1..] == samples[1..] + [s] && (samples + [s])[0] == samples[0];
      assert head + (InLane(samples[1..], lane) + added) == (head + InLane(samples[1..], lane)) + added;
    }
  }

  function Column(samples: seq<Sample>, m: Metric): seq<real> {
    if samples == [] then [] else [samples[0].values(m)] + Column(samples[1..], m)
  }

  /** A metric's column: its value in every sample, in order. */
  lemma {:induction false} ColumnAt(samples: seq<Sample>, m: Metric)
    ensures |Column(samples, m)| == |samples|
    ensures forall k :: 0 <= k < |samples| ==> Column(samples, m)[k] == samples[k].values(m)
  {
    if samples != [] {
      ColumnAt(samples[1..], m);
    }
  }

  /** Which script: its percentiles are interpolated, or nearest ranks. */
  datatype Script = DaemonLocal | Scheduling

  function Percentile(script: Script, xs: seq<real>, percent: nat): Outcome<real>
    requires percent <= 100
  {
    match script
    case DaemonLocal => Interpolated(xs, percent as real / 100.0)
    case Scheduling => NearestRank(xs, percent)
  }

  function SummarizeMetric(script: Script, xs: seq<real>, tails: bool): Outcome<MetricSummary> {
    var p50 :- Percentile(script, xs, 50);
    var p95 :- Percentile(script, xs, 95);
    var p99 :- Percentile(script, xs, 99);
    var max :- Maximum(xs);
    Returns(MetricSummary(p50, p95, p99, max, if tails then Counts(xs) else []))
  }

  function Counts(xs: seq<real>): seq<int> {
    [CountOver(xs, THRESHOLDS[0] as real), CountOver(xs, THRESHOLDS[1] as real), CountOver(xs, THRESHOLDS[2] as real)]
  }

  /** `summarize`. */
  function Summarize(script: Script, layout: Layout, samples: seq<Sample>): Outcome<LaneSummary> {
    if forall m | m in layout.timing + layout.cpu :: SummarizeMetric(script, Column(samples, m),
          m in layout.timing).Returns? then
      Returns(LaneSummary(|samples|,
        map m | m in layout.timing + layout.cpu ::
            SummarizeMetric(script, Column(samples, m), m in layout.timing).value))
    else Raises
  }

  function SummarizeLanes(script: Script, layout: Layout, samples: seq<Sample>): Outcome<Summaries> {
    var combined :- Summarize(script, layout, samples);
    var full :- Summarize(script, layout, InLane(samples, Full));
    var region :- Summarize(script, layout, InLane(samples, Region));
    Returns(Summaries(combined, full, region))
  }

  function TailOf(samples: seq<Sample>, m: Metric): seq<TailEntry> {
    if samples == [] then []
    else
      (if samples[0].values(m) > THRESHOLDS[0] as real then [TailEntry(samples[0].index, samples[0].values(m))] else [])
      + TailOf(samples[1..], m)
  }

  function TailSchedule(layout: Layout, samples: seq<Sample>): Tails {
    map m | m in layout.timing :: TailOf(samples, m)
  }

  /** The tail of a metric holds the index and the value of exactly the samples over the floor. */
  lemma {:induction false} TailHolds(samples: seq<Sample>, m: Metric, e: TailEntry)
    ensures e in TailOf(samples, m) <==>
              e.timing > 50.0
              && exists k :: 0 <= k < |samples| && e == TailEntry(samples[k].index, samples[k].values(m))
  {
    if samples != [] {
      var rest := samples[1..];
      TailHolds(rest, m, e);
      assert forall k :: 0 <= k < |rest| ==> rest[k] == samples[k + 1];
      if k :| 0 <= k < |rest| && e == TailEntry(rest[k].index, rest[k].values(m)) {
        assert e == TailEntry(samples[k + 1].index, samples[k + 1].values(m));
      }
      if k :| 0 <= k < |samples| && e == TailEntry(samples[k].index, samples[k].values(m)) {
        if k > 0 {
          assert e == TailEntry(rest[k - 1].index, rest[k - 1].values(m));
        }
      }
    }
  }

  // ---------------------------------------------------------------- what the validators demand

  predicate ValidMetric(s: MetricSummary, tails: bool, n: int) {
    && 0.0 <= s.p50 <= s.p95 <= s.p99 <= s.max
    && (if tails then |s.over| == 3 && n >= s.over[0] >= s.over[1] >= s.over[2] >= 0 else s.over == [])
  }

  ghost predicate MetricOk(s: LaneSummary, layout: Layout, n: int, m: Metric) {
    && (m in s.metrics <==> Listed(layout, m))
    && (m in s.metrics ==> ValidMetric(s.metrics[m], m in layout.timing, n))
  }

  ghost predicate ValidLane(s: LaneSummary, layout: Layout, n: int) {
    s.sampleCount == n && forall m {:trigger MetricOk(s, layout, n, m)} :: MetricOk(s, layout, n, m)
  }

  /** The lanes of one metric fit together. */
  predicate LanesAgree(combined: MetricSummary, full: MetricSummary, region: MetricSummary) {
    && combined.max == Larger(full.max, region.max)
    && |combined.over| == |full.over| == |region.over|
    && forall k :: 0 <= k < |combined.over| ==> combined.over[k] == full.over[k] + region.over[k]
  }

  ghost predicate LanesOk(s: Summaries, layout: Layout, m: Metric) {
    Listed(layout, m) ==>
      && m in s.combined.metrics && m in s.full.metrics && m in s.region.metrics
      && LanesAgree(s.combined.metrics[m], s.full.metrics[m], s.region.metrics[m])
  }

  ghost predicate ValidSummaries(s: Summaries, layout: Layout) {
    && ValidLane(s.combined, layout, CAPTURES)
    && ValidLane(s.full, layout, CAPTURES / 2)
    && ValidLane(s.region, layout, CAPTURES / 2)
    && forall m {:trigger LanesOk(s, layout, m)} :: LanesOk(s, layout, m)
  }

  function EntriesOver(entries: seq<TailEntry>, t: real): nat {
    if entries == [] then 0 else (if entries[0].timing > t then 1 else 0) + EntriesOver(entries[1..], t)
  }

  function EntriesOverAt(entries: seq<TailEntry>, t: real, parity: int): nat {
    if entries == [] then 0
    else (if entries[0].timing > t && entries[0].index % 2 == parity then 1 else 0)
         + EntriesOverAt(entries[1..], t, parity)
  }

  /** Entries are counted one by one, those of a lane by the parity of their index. */
  lemma {:induction false} EntriesAppend(a: seq<TailEntry>, b: seq<TailEntry>, t: real, parity: int)
    ensures EntriesOver(a + b, t) == EntriesOver(a, t) + EntriesOver(b, t)
    ensures EntriesOverAt(a + b, t, parity) == EntriesOverAt(a, t, parity) + EntriesOverAt(b, t, parity)
    ensures forall e: TailEntry :: EntriesOver([e], t) == (if e.timing > t then 1 else 0)
    ensures forall e: TailEntry ::
              EntriesOverAt([e], t, parity) == (if e.timing > t && e.index % 2 == parity then 1 else 0)
  {
    if a == [] {
      assert a + b == b;
    } else {
      assert (a + b)[1..] == a[1..] + b;
      EntriesAppend(a[1..], b, t, parity);
    }
  }

  function LargestTiming(entries: seq<TailEntry>): real
    requires entries != []
  {
    if |entries| == 1 then entries[0].timing else Larger(entries[0].timing, LargestTiming(entries[1..]))
  }

  /** Indices rise within the schedule, and every entry crosses the floor. */
  ghost predicate ValidEntries(entries: seq<TailEntry>, from: int, to: int) {
    && (forall k :: 0 <= k < |entries| ==> from <= entries[k].index < to && entries[k].timing > THRESHOLDS[0] as real)
    && (forall j, k :: 0 <= j < k < |entries| ==> entries[j].index < entries[k].index)
  }

  predicate TailAgrees(entries: seq<TailEntry>, combined: MetricSummary, full: MetricSummary, region: MetricSummary)
    requires |combined.over| == |full.over| == |region.over| == 3
  {
    && (forall k :: 0 <= k < 3 ==> EntriesOver(entries, THRESHOLDS[k] as real) == combined.over[k])
    && (forall k :: 0 <= k < 3 ==> EntriesOverAt(entries, THRESHOLDS[k] as real, 0) == full.over[k])
    && (forall k :: 0 <= k < 3 ==> EntriesOverAt(entries, THRESHOLDS[k] as real, 1) == region.over[k])
    && (if entries != [] then LargestTiming(entries) == combined.max else combined.max <= THRESHOLDS[0] as real)
  }

  predicate HasCounts(s: Summaries, m: Metric) {
    && m in s.combined.metrics && m in s.full.metrics && m in s.region.metrics
    && |s.combined.metrics[m].over| == |s.full.metrics[m].over| == |s.region.metrics[m].over| == 3
  }

  /** A metric's entries are the ones its summaries describe. */
  ghost predicate ValidTail(entries: seq<TailEntry>, s: Summaries, m: Metric) {
    && HasCounts(s, m) && ValidEntries(entries, 0, CAPTURES)
    && TailAgrees(entries, s.combined.metrics[m], s.full.metrics[m], s.region.metrics[m])
  }

  ghost predicate ValidTails(t: Tails, layout: Layout, s: Summaries) {
    && (forall m :: m in t <==> m in layout.timing)
    && forall m {:trigger t[m]} :: m in t ==> ValidTail(t[m], s, m)
  }

  lemma TimingHasCounts(s: Summaries, layout: Layout, m: Metric)
    requires ValidSummaries(s, layout) && m in layout.timing
    ensures HasCounts(s, m)
  {
    assert Listed(layout, m);
    assert MetricOk(s.combined, layout, CAPTURES, m);
    assert MetricOk(s.full, layout, CAPTURES / 2, m) && MetricOk(s.region, layout, CAPTURES / 2, m);
  }

  // ---------------------------------------------------------------- what is emitted is valid

  /** Readings are timings and counter deltas: none is negative. */
  ghost predicate NotNegative(xs: seq<real>) {
    forall k :: 0 <= k < |xs| ==> xs[k] >= 0.0
  }

  lemma PercentilesOrdered(script: Script, xs: seq<real>, p: nat, q: nat)
    requires xs != [] && 1 <= p <= q <= 100 && NotNegative(xs)
    ensures Percentile(script, xs, p).Returns? && Percentile(script, xs, q).Returns?
    ensures 0.0 <= Percentile(script, xs, p).value <= Percentile(script, xs, q).value <= Max(xs)
  {
    match script
    case DaemonLocal => InterpolatedMonotone(xs, p as real / 100.0, q as real / 100.0);
    case Scheduling => NearestRankMonotone(xs, p, q);
  }

  lemma SummarizeMetricIsValid(script: Script, xs: seq<real>, tails: bool)
    requires xs != [] && NotNegative(xs)
    ensures SummarizeMetric(script, xs, tails).Returns?
    ensures var s := SummarizeMetric(script, xs, tails).value;
            ValidMetric(s, tails, |xs|) && s.max == Max(xs) && s.over == if tails then Counts(xs) else []
  {
    PercentilesOrdered(script, xs, 50, 95);
    PercentilesOrdered(script, xs, 95, 99);
    CountOverShrinks(xs, THRESHOLDS[0] as real, THRESHOLDS[1] as real);
    CountOverShrinks(xs, THRESHOLDS[1] as real, THRESHOLDS[2] as real);
  }

  /** What a metric's summary says about its samples. */
  lemma SummaryMeans(script: Script, xs: seq<real>, tails: bool, s: MetricSummary)
    requires SummarizeMetric(script, xs, tails) == Returns(s)
    ensures xs != [] && s.max in xs && (forall x :: x in xs ==> x <= s.max)
    ensures script.Scheduling? ==>
              IsPercentile(xs, 50, s.p50) && IsPercentile(xs, 95, s.p95) && IsPercentile(xs, 99, s.p99)
    ensures script.DaemonLocal? ==>
              Interpolated(xs, 0.5) == Returns(s.p50) && Interpolated(xs, 0.95) == Returns(s.p95)
              && Interpolated(xs, 0.99) == Returns(s.p99)
    ensures tails ==> |s.over| == 3 && forall k :: 0 <= k < 3 ==> s.over[k] == CountOver(xs, THRESHOLDS[k] as real)
  {
    if script.Scheduling? {
      NearestRankIsPercentile(xs, 50);
      NearestRankIsPercentile(xs, 95);
      NearestRankIsPercentile(xs, 99);
    }
  }

  /** Positions and indices agree, and the lane follows from the index. */
  ghost predicate InOrder(samples: seq<Sample>, from: nat) {
    forall k {:trigger samples[k]} :: 0 <= k < |samples| ==>
             samples[k].index == from + k && samples[k].lane == LaneOf(from + k)
  }

  ghost predicate Readings(samples: seq<Sample>) {
    forall k, m {:trigger samples[k].values(m)} :: 0 <= k < |samples| ==> samples[k].values(m) >= 0.0
  }

  lemma {:induction false} ScheduledInOrder(readings: seq<Metric -> real>)
    ensures InOrder(Scheduled(readings), 0) && |Scheduled(readings)| == |readings|
    ensures forall k :: 0 <= k < |readings| ==> Scheduled(readings)[k].values == readings[k]
    ensures |InLane(Scheduled(readings), Region)| == |readings| / 2
    ensures |InLane(Scheduled(readings), Full)| == (|readings| + 1) / 2
  {
    if readings != [] {
      var n := |readings| - 1;
      var s := Sample(n, LaneOf(n), readings[n]);
      ScheduledInOrder(readings[..n]);
      InLaneAppend(Scheduled(readings[..n]), s, Full);
      InLaneAppend(Scheduled(readings[..n]), s, Region);
    }
  }

  function Position(lane: Lane, k: nat): nat {
    if lane.Full? then 2 * k else 2 * k + 1
  }

  /** The full lane holds every other reading from the first one on, the region lane those between. */
  lemma {:induction false} LanesAlternate(readings: seq<Metric -> real>, lane: Lane, k: nat)
    requires k < |InLane(Scheduled(readings), lane)|
    ensures var i := Position(lane, k);
            i < |readings| && InLane(Scheduled(readings), lane)[k] == Sample(i, lane, readings[i])
  {
    var n := |readings| - 1;
    var before := InLane(Scheduled(readings[..n]), lane);
    ScheduledInOrder(readings[..n]);
    InLaneAppend(Scheduled(readings[..n]), Sample(n, LaneOf(n), readings[n]), lane);
    if k < |before| {
      LanesAlternate(readings[..n], lane, k);
    } else {
      hide InLane, Scheduled, InOrder;
      LastPosition(n, |before|, lane);
    }
  }

  lemma LastPosition(n: nat, count: nat, lane: Lane)
    requires lane == LaneOf(n) && count == if lane.Full? then (n + 1) / 2 else n / 2
    ensures Position(lane, count) == n
  {
  }

  lemma LaneMeans(script: Script, layout: Layout, samples: seq<Sample>, m: Metric, xs: seq<real>, s: LaneSummary)
    requires Summarize(script, layout, samples) == Returns(s) && Listed(layout, m)
    requires |xs| == |samples| && forall k :: 0 <= k < |xs| ==> xs[k] == samples[k].values(m)
    ensures s.sampleCount == |xs|
    ensures m in s.metrics && SummarizeMetric(script, xs, m in layout.timing) == Returns(s.metrics[m])
  {
    hide SummarizeMetric;
    ColumnAt(samples, m);
    assert xs == Column(samples, m);
  }

  /** What the emitted summaries of a metric are about: its readings, those at even positions, and those at
      odd positions. */
  lemma EmittedMeans(script: Script, layout: Layout, readings: seq<Metric -> real>, m: Metric,
                     all: seq<real>, full: seq<real>, region: seq<real>, s: Summaries)
    requires SummarizeLanes(script, layout, Scheduled(readings)) == Returns(s) && Listed(layout, m)
    requires |all| == |readings| && forall k :: 0 <= k < |all| ==> all[k] == readings[k](m)
    requires |full| == (|readings| + 1) / 2 && forall k :: 0 <= k < |full| ==> full[k] == readings[2 * k](m)
    requires |region| == |readings| / 2 && forall k :: 0 <= k < |region| ==> region[k] == readings[2 * k + 1](m)
    ensures var timing := m in layout.timing;
      && m in s.combined.metrics && SummarizeMetric(script, all, timing) == Returns(s.combined.metrics[m])
      && m in s.full.metrics && SummarizeMetric(script, full, timing) == Returns(s.full.metrics[m])
      && m in s.region.metrics && SummarizeMetric(script, region, timing) == Returns(s.region.metrics[m])
      && s.combined.sampleCount == |all| && s.full.sampleCount == |full| && s.region.sampleCount == |region|
  {
    hide SummarizeMetric, Summarize, Scheduled, InLane, LaneOf;
    var samples := Scheduled(readings);
    var fulls, regions := InLane(samples, Full), InLane(samples, Region);
    ScheduledInOrder(readings);
    forall k | 0 <= k < |fulls| ensures full[k] == fulls[k].values(m) {
      LanesAlternate(readings, Full, k);
    }
    forall k | 0 <= k < |regions| ensures region[k] == regions[k].values(m) {
      LanesAlternate(readings, Region, k);
    }
    LaneMeans(script, layout, samples, m, all, s.combined);
    LaneMeans(script, layout, fulls, m, full, s.full);
    LaneMeans(script, layout, regions, m, region, s.region);
  }

  lemma {:induction false} ColumnReads(samples: seq<Sample>, m: Metric)
    requires Readings(samples)
    ensures |Column(samples, m)| == |samples| && NotNegative(Column(samples, m))
  {
    if samples != [] {
      assert forall k, m {:trigger samples[1..][k].values(m)} :: 0 <= k < |samples| - 1 ==>
          samples[1..][k].values(m) == samples[k + 1].values(m);
      ColumnReads(samples[1..], m);
    }
  }

  lemma {:induction false} LaneReads(samples: seq<Sample>, lane: Lane)
    requires Readings(samples)
    ensures Readings(InLane(samples, lane))
  {
    if samples != [] {
      assert forall k, m {:trigger samples[1..][k].values(m)} :: 0 <= k < |samples| - 1 ==>
          samples[1..][k].values(m) == samples[k + 1].values(m);
      LaneReads(samples[1..], lane);
    }
  }

  lemma LaneHead(samples: seq<Sample>, m: Metric, t: real, lane: Lane)
    requires samples != []
    ensures CountOver(Column(InLane(samples, lane), m), t) ==
            (if samples[0].lane == lane
                  && samples[0].values(m) > t then 1 else 0) + CountOver(Column(InLane(samples[1..], lane), m), t)
  {
    if samples[0].lane == lane {
      assert InLane(samples, lane)[1..] == InLane(samples[1..], lane);
    } else {
      assert InLane(samples, lane) == InLane(samples[1..], lane);
    }
  }

  /** Every sample is in exactly one lane: tail counts add up and the larger lane maximum is the
      maximum. */
  lemma {:induction false} LaneCounts(samples: seq<Sample>, m: Metric, t: real)
    ensures CountOver(Column(samples, m), t) ==
            CountOver(Column(InLane(samples, Full), m), t) + CountOver(Column(InLane(samples, Region), m), t)
  {
    if samples != [] {
      LaneCounts(samples[1..], m, t);
      LaneHead(samples, m, t, Full);
      LaneHead(samples, m, t, Region);
    }
  }

  lemma {:induction false} ColumnMembers(samples: seq<Sample>, m: Metric, x: real)
    ensures x in Column(samples, m) <==>
              x in Column(InLane(samples, Full), m) || x in Column(InLane(samples, Region), m)
  {
    if samples != [] {
      ColumnMembers(samples[1..], m, x);
      forall lane ensures x in Column(InLane(samples, lane), m) <==>
                          (samples[0].lane == lane && samples[0].values(m) == x)
                          || x in Column(InLane(samples[1..], lane), m)
      {
        if samples[0].lane == lane {
          assert InLane(samples, lane)[1..] == InLane(samples[1..], lane);
        } else {
          assert InLane(samples, lane) == InLane(samples[1..], lane);
        }
      }
    }
  }

  lemma LaneMaxima(samples: seq<Sample>, m: Metric)
    requires Column(InLane(samples, Full), m) != [] && Column(InLane(samples, Region), m) != []
    ensures Column(samples, m) != []
    ensures Max(Column(samples, m)) ==
              Larger(Max(Column(InLane(samples, Full), m)), Max(Column(InLane(samples, Region), m)))
  {
    var full, region := Column(InLane(samples, Full), m), Column(InLane(samples, Region), m);
    ColumnMembers(samples, m, full[0]);
    ColumnMembers(samples, m, Max(full));
    ColumnMembers(samples, m, Max(region));
    ColumnMembers(samples, m, Max(Column(samples, m)));
  }

  lemma TailHead(samples: seq<Sample>, m: Metric, t: real)
    requires samples != [] && t >= THRESHOLDS[0] as real
    ensures var over := samples[0].values(m) > t;
            && EntriesOver(TailOf(samples, m), t) == (if over then 1 else 0) + EntriesOver(TailOf(samples[1..], m), t)
            && (forall parity :: EntriesOverAt(TailOf(samples, m), t, parity) ==
                  (if over && samples[0].index % 2 == parity then 1 else 0)
                  + EntriesOverAt(TailOf(samples[1..], m), t, parity))
  {
    if samples[0].values(m) > THRESHOLDS[0] as real {
      assert TailOf(samples, m)[1..] == TailOf(samples[1..], m);
    } else {
      assert TailOf(samples, m) == TailOf(samples[1..], m);
    }
  }

  lemma InOrderRest(samples: seq<Sample>, from: nat)
    requires InOrder(samples, from) && samples != []
    ensures InOrder(samples[1..], from + 1)
    ensures samples[0].index == from && samples[0].lane == LaneOf(from)
  {
    assert forall k {:trigger samples[1..][k]} :: 0 <= k < |samples| - 1 ==> samples[1..][k] == samples[k + 1];
  }

  /** The tail entries of a metric hold exactly what its summaries count, lane by lane. */
  lemma {:induction false} TailCounts(samples: seq<Sample>, m: Metric, t: real, from: nat)
    requires InOrder(samples, from) && t >= THRESHOLDS[0] as real
    ensures EntriesOver(TailOf(samples, m), t) == CountOver(Column(samples, m), t)
    ensures EntriesOverAt(TailOf(samples, m), t, 0) == CountOver(Column(InLane(samples, Full), m), t)
    ensures EntriesOverAt(TailOf(samples, m), t, 1) == CountOver(Column(InLane(samples, Region), m), t)
  {
    if samples != [] {
      InOrderRest(samples, from);
      TailCounts(samples[1..], m, t, from + 1);
      TailHead(samples, m, t);
      LaneHead(samples, m, t, Full);
      LaneHead(samples, m, t, Region);
    }
  }

  lemma {:induction false} TailInOrder(samples: seq<Sample>, m: Metric, from: nat)
    requires InOrder(samples, from)
    ensures ValidEntries(TailOf(samples, m), from, from + |samples|)
  {
    if samples != [] {
      hide InOrder, ValidEntries;
      InOrderRest(samples, from);
      TailInOrder(samples[1..], m, from + 1);
      var s, rest, to := samples[0], TailOf(samples[1..], m), from + |samples|;
      var e := TailEntry(s.index, s.values(m));
      FirstTail(samples, m);
      assert from + 1 + |samples[1..]| == to;
      hide TailOf;
      if s.values(m) > THRESHOLDS[0] as real {
        FirstEntry(e, rest, from, to);
      } else {
        assert [] + rest == rest;
        LaterEntries(rest, from, to);
      }
    }
  }

  lemma FirstTail(samples: seq<Sample>, m: Metric)
    requires samples != []
    ensures var s := samples[0];
            TailOf(samples, m) ==
            (if s.values(m) > THRESHOLDS[0] as real then [TailEntry(s.index, s.values(m))] else [])
            + TailOf(samples[1..], m)
  {
  }

  lemma LaterEntries(entries: seq<TailEntry>, from: int, to: int)
    requires ValidEntries(entries, from + 1, to)
    ensures ValidEntries(entries, from, to)
  {
  }

  lemma FirstEntry(e: TailEntry, rest: seq<TailEntry>, from: int, to: int)
    requires from == e.index < to && e.timing > THRESHOLDS[0] as real && ValidEntries(rest, from + 1, to)
    ensures ValidEntries([e] + rest, from, to)
  {
    var entries := [e] + rest;
    assert forall k :: 1 <= k < |entries| ==> entries[k] == rest[k - 1];
  }

  /** The largest tail entry is the maximum, and without entries the maximum is under the floor. */
  lemma {:induction false} TailMaximum(samples: seq<Sample>, m: Metric)
    requires samples != []
    ensures Column(samples, m) != []
    ensures if TailOf(samples, m) != [] then LargestTiming(TailOf(samples, m)) == Max(Column(samples, m))
            else Max(Column(samples, m)) <= THRESHOLDS[0] as real
  {
    var s, rest := samples[0], samples[1..];
    assert Column(samples, m)[1..] == Column(rest, m);
    if rest != [] {
      TailMaximum(rest, m);
      assert Max(Column(samples, m)) == Larger(s.values(m), Max(Column(rest, m)));
    } else {
      assert Column(samples, m) == [s.values(m)];
    }
    if s.values(m) > THRESHOLDS[0] as real {
      assert TailOf(samples, m)[1..] == TailOf(rest, m);
      TailEntriesOverFloor(rest, m);
    } else {
      assert TailOf(samples, m) == TailOf(rest, m);
      TailEntriesOverFloor(rest, m);
    }
  }

  lemma {:induction false} TailEntriesOverFloor(samples: seq<Sample>, m: Metric)
    ensures TailOf(samples, m) != [] ==> LargestTiming(TailOf(samples, m)) > THRESHOLDS[0] as real
  {
    if samples != [] {
      TailEntriesOverFloor(samples[1..], m);
      if samples[0].values(m) > THRESHOLDS[0] as real {
        assert TailOf(samples, m)[1..] == TailOf(samples[1..], m);
      } else {
        assert TailOf(samples, m) == TailOf(samples[1..], m);
      }
    }
  }

  /** What a lane summary says about its samples. */
  ghost predicate Describes(s: LaneSummary, layout: Layout, samples: seq<Sample>, m: Metric) {
    && m in s.metrics && Column(samples, m) != []
    && s.metrics[m].max == Max(Column(samples, m))
    && s.metrics[m].over == if m in layout.timing then Counts(Column(samples, m)) else []
  }

  ghost predicate DescribesAll(s: LaneSummary, layout: Layout, samples: seq<Sample>) {
    forall m {:trigger Describes(s, layout, samples, m)} :: Listed(layout, m) ==> Describes(s, layout, samples, m)
  }

  ghost predicate Summarized(script: Script, layout: Layout, samples: seq<Sample>, m: Metric) {
    var s := SummarizeMetric(script, Column(samples, m), m in layout.timing);
    && Column(samples, m) != []
    && s.Returns? && ValidMetric(s.value, m in layout.timing, |samples|)
    && s.value.max == Max(Column(samples, m))
    && s.value.over == if m in layout.timing then Counts(Column(samples, m)) else []
  }

  lemma MetricIsSummarized(script: Script, layout: Layout, samples: seq<Sample>, m: Metric)
    requires samples != [] && Readings(samples)
    ensures Summarized(script, layout, samples, m)
  {
    ColumnReads(samples, m);
    SummarizeMetricIsValid(script, Column(samples, m), m in layout.timing);
  }

  lemma SummarizeIsValid(script: Script, layout: Layout, samples: seq<Sample>)
    requires samples != [] && Readings(samples)
    ensures Summarize(script, layout, samples).Returns?
    ensures ValidLane(Summarize(script, layout, samples).value, layout, |samples|)
    ensures DescribesAll(Summarize(script, layout, samples).value, layout, samples)
  {
    forall m ensures Summarized(script, layout, samples, m) {
      MetricIsSummarized(script, layout, samples, m);
    }
    assert forall m :: Summarized(script, layout, samples, m) ==>
                         SummarizeMetric(script, Column(samples, m), m in layout.timing).Returns?;
    var s := Summarize(script, layout, samples).value;
    forall m ensures MetricOk(s, layout, |samples|, m) && (Listed(layout, m) ==> Describes(s, layout, samples, m)) {
      assert Summarized(script, layout, samples, m);
    }
  }

  lemma CountsAdd(samples: seq<Sample>, m: Metric)
    ensures forall k :: 0 <= k < 3 ==>
      Counts(Column(samples, m))[k] ==
          Counts(Column(InLane(samples, Full), m))[k] + Counts(Column(InLane(samples, Region), m))[k]
  {
    LaneCounts(samples, m, THRESHOLDS[0] as real);
    LaneCounts(samples, m, THRESHOLDS[1] as real);
    LaneCounts(samples, m, THRESHOLDS[2] as real);
  }

  lemma LanesOfMetricAgree(layout: Layout, samples: seq<Sample>, s: Summaries, m: Metric)
    requires Describes(s.combined, layout, samples, m)
    requires Describes(s.full, layout, InLane(samples, Full), m)
             && Describes(s.region, layout, InLane(samples, Region), m)
    ensures LanesAgree(s.combined.metrics[m], s.full.metrics[m], s.region.metrics[m])
  {
    LaneMaxima(samples, m);
    CountsAdd(samples, m);
  }

  lemma TailFitsCounts(samples: seq<Sample>, m: Metric, k: nat)
    requires InOrder(samples, 0) && k < 3
    ensures EntriesOver(TailOf(samples, m), THRESHOLDS[k] as real) == Counts(Column(samples, m))[k]
    ensures EntriesOverAt(TailOf(samples, m), THRESHOLDS[k] as real, 0) == Counts(Column(InLane(samples, Full), m))[k]
    ensures EntriesOverAt(TailOf(samples, m), THRESHOLDS[k] as real, 1) == Counts(Column(InLane(samples, Region), m))[k]
  {
    TailCounts(samples, m, THRESHOLDS[k] as real, 0);
  }

  /** Entries that hold what three columns count agree with any summaries that say so too. */
  lemma TailAgreesWith(entries: seq<TailEntry>, all: seq<int>, full: seq<int>,
                       region: seq<int>, s: Summaries, m: Metric)
    requires HasCounts(s, m) && |all| == |full| == |region| == 3
    requires s.combined.metrics[m].over == all && s.full.metrics[m].over == full && s.region.metrics[m].over == region
    requires forall k :: 0 <= k < 3 ==>
      && EntriesOver(entries, THRESHOLDS[k] as real) == all[k]
      && EntriesOverAt(entries, THRESHOLDS[k] as real, 0) == full[k]
      && EntriesOverAt(entries, THRESHOLDS[k] as real, 1) == region[k]
    requires if entries != [] then LargestTiming(entries) == s.combined.metrics[m].max
        else s.combined.metrics[m].max <= THRESHOLDS[0] as real
    ensures TailAgrees(entries, s.combined.metrics[m], s.full.metrics[m], s.region.metrics[m])
  {
  }

  lemma TailOfMetricAgrees(layout: Layout, samples: seq<Sample>, s: Summaries, m: Metric)
    requires m in layout.timing && InOrder(samples, 0) && samples != []
    requires Describes(s.combined, layout, samples, m)
    requires Describes(s.full, layout, InLane(samples, Full), m)
             && Describes(s.region, layout, InLane(samples, Region), m)
    ensures HasCounts(s, m)
    ensures TailAgrees(TailOf(samples, m), s.combined.metrics[m], s.full.metrics[m], s.region.metrics[m])
  {
    forall k | 0 <= k < 3
      ensures EntriesOver(TailOf(samples, m), THRESHOLDS[k] as real) == Counts(Column(samples, m))[k]
      ensures EntriesOverAt(TailOf(samples, m), THRESHOLDS[k] as real, 0) == Counts(Column(InLane(samples, Full), m))[k]
      ensures EntriesOverAt(TailOf(samples, m), THRESHOLDS[k] as real, 1) ==
                Counts(Column(InLane(samples, Region), m))[k]
    {
      TailFitsCounts(samples, m, k);
    }
    TailMaximum(samples, m);
    TailAgreesWith(TailOf(samples, m), Counts(Column(samples, m)), Counts(Column(InLane(samples, Full), m)),
                   Counts(Column(InLane(samples, Region), m)), s, m);
  }

  ghost predicate DescribesLanes(s: Summaries, layout: Layout, samples: seq<Sample>) {
    && DescribesAll(s.combined, layout, samples)
    && DescribesAll(s.full, layout, InLane(samples, Full))
    && DescribesAll(s.region, layout, InLane(samples, Region))
  }

  lemma LanesAreValid(script: Script, layout: Layout, samples: seq<Sample>)
    requires Readings(samples) && |samples| == CAPTURES
    requires |InLane(samples, Full)| == |InLane(samples, Region)| == CAPTURES / 2
    ensures SummarizeLanes(script, layout, samples).Returns?
    ensures DescribesLanes(SummarizeLanes(script, layout, samples).value, layout, samples)
    ensures ValidSummaries(SummarizeLanes(script, layout, samples).value, layout)
  {
    LaneReads(samples, Full);
    LaneReads(samples, Region);
    SummarizeIsValid(script, layout, samples);
    SummarizeIsValid(script, layout, InLane(samples, Full));
    SummarizeIsValid(script, layout, InLane(samples, Region));
    AllLanesAgree(layout, samples, SummarizeLanes(script, layout, samples).value);
  }

  lemma AllLanesAgree(layout: Layout, samples: seq<Sample>, s: Summaries)
    requires DescribesLanes(s, layout, samples)
    ensures forall m {:trigger LanesOk(s, layout, m)} :: LanesOk(s, layout, m)
  {
    forall m | Listed(layout, m) ensures LanesOk(s, layout, m) {
      assert Describes(s.combined, layout, samples, m);
      assert Describes(s.full, layout, InLane(samples, Full), m)
             && Describes(s.region, layout, InLane(samples, Region), m);
      LanesOfMetricAgree(layout, samples, s, m);
    }
  }

  lemma TailsAreValid(layout: Layout, samples: seq<Sample>, s: Summaries)
    requires InOrder(samples, 0) && |samples| == CAPTURES && DescribesLanes(s, layout, samples)
    ensures ValidTails(TailSchedule(layout, samples), layout, s)
  {
    forall m | m in layout.timing ensures ValidTail(TailOf(samples, m), s, m) {
      assert Listed(layout, m);
      assert Describes(s.combined, layout, samples, m);
      assert Describes(s.full, layout, InLane(samples, Full), m)
             && Describes(s.region, layout, InLane(samples, Region), m);
      TailInOrder(samples, m, 0);
      TailOfMetricAgrees(layout, samples, s, m);
    }
  }

  /** Timings and counter deltas: none is negative. */
  ghost predicate Measured(readings: seq<Metric -> real>) {
    forall k, m {:trigger readings[k](m)} :: 0 <= k < |readings| ==> readings[k](m) >= 0.0
  }

  lemma ScheduledReads(readings: seq<Metric -> real>)
    requires Measured(readings)
    ensures Readings(Scheduled(readings))
  {
    var samples := Scheduled(readings);
    ScheduledInOrder(readings);
    forall k, m {:trigger samples[k].values(m)} | 0 <= k < |samples| ensures samples[k].values(m) >= 0.0 {
      assert samples[k].values == readings[k];
      assert readings[k](m) >= 0.0;
    }
  }

  ghost predicate FullSchedule(samples: seq<Sample>) {
    && Readings(samples) && InOrder(samples, 0) && |samples| == CAPTURES
    && |InLane(samples, Full)| == |InLane(samples, Region)| == CAPTURES / 2
  }

  lemma ScheduledIsFull(readings: seq<Metric -> real>)
    requires |readings| == CAPTURES && Measured(readings)
    ensures FullSchedule(Scheduled(readings))
  {
    ScheduledInOrder(readings);
    ScheduledReads(readings);
  }

  lemma FullScheduleIsValid(script: Script, layout: Layout, samples: seq<Sample>)
    requires FullSchedule(samples)
    ensures SummarizeLanes(script, layout, samples).Returns?
    ensures ValidSummaries(SummarizeLanes(script, layout, samples).value, layout)
    ensures ValidTails(TailSchedule(layout, samples), layout, SummarizeLanes(script, layout, samples).value)
  {
    LanesAreValid(script, layout, samples);
    TailsAreValid(layout, samples, SummarizeLanes(script, layout, samples).value);
  }

  /** The producer meets the validator: whatever a full schedule measured, its summaries and its tail
      schedule pass every check. */
  lemma ProducedIsValid(script: Script, layout: Layout, readings: seq<Metric -> real>)
    requires |readings| == CAPTURES && Measured(readings)
    ensures SummarizeLanes(script, layout, Scheduled(readings)).Returns?
    ensures ValidSummaries(SummarizeLanes(script, layout, Scheduled(readings)).value, layout)
    ensures ValidTails(TailSchedule(layout, Scheduled(readings)), layout,
                       SummarizeLanes(script, layout, Scheduled(readings)).value)
  {
    ScheduledIsFull(readings);
    FullScheduleIsValid(script, layout, Scheduled(readings));
  }
}
