/** The retaining checks of the benchmark runner: from the JSON a sandbox script printed to the
    summaries that are kept (scripts/benchmarks/x11_shm_screenshot_runner.py). */
module Retention {
  import opened Outcomes
  import opened Statistics
  import opened Summaries

  // ---------------------------------------------------------------- JSON values

  datatype Counter = Counter(name: string)

  datatype Kind = P50 | P95 | P99 | Maximal

  /** The keys of the report's objects; `milliseconds` tells `p50_ms` from `p50`. */
  datatype Key =
    | CombinedKey | FullKey | RegionKey
    | SampleCountKey | MetricsKey
    | MetricKey(metric: Metric)
    | StatisticKey(kind: Kind, milliseconds: bool)
    | OverKey(threshold: int)
    | ScheduleIndexKey | TimingKey
    | CoefficientKey
    | CounterKey(counter: Counter)
    | OtherKey(name: string)

  datatype Json =
    | Null
    | Boolean(flag: bool)
    | Integer(number: int)
    | Float(decimal: real)
    | NotFinite
    | Text(text: string)
    | List(items: seq<Json>)
    | Object(fields: map<Key, Json>)

  predicate HasKeys(j: Json, keys: set<Key>) {
    j.Object? && j.fields.Keys == keys
  }

  /** `_daemon_local_nonnegative_float`. */
  function NonnegativeFloat(j: Json): Outcome<real> {
    match j
    case Integer(i) => if i < 0 then Raises else Returns(i as real)
    case Float(r) => if r < 0.0 then Raises else Returns(r)
    case _ => Raises
  }

  /** A number, as Python's `json` prints either kind. */
  predicate WritesNumber(j: Json, r: real) {
    (j.Integer? && j.number as real == r) || (j.Float? && j.decimal == r)
  }

  // ---------------------------------------------------------------- which JSON says what

  function StatisticKeys(timing: bool): set<Key> {
    {StatisticKey(P50, timing), StatisticKey(P95, timing), StatisticKey(P99, timing), StatisticKey(Maximal, timing)}
  }

  function SummaryKeys(timing: bool): set<Key> {
    StatisticKeys(timing)
    + if timing then {OverKey(THRESHOLDS[0]), OverKey(THRESHOLDS[1]), OverKey(THRESHOLDS[2])} else {}
  }

  predicate WritesMetric(j: Json, timing: bool, s: MetricSummary) {
    && HasKeys(j, SummaryKeys(timing))
    && WritesNumber(j.fields[StatisticKey(P50, timing)], s.p50)
    && WritesNumber(j.fields[StatisticKey(P95, timing)], s.p95)
    && WritesNumber(j.fields[StatisticKey(P99, timing)], s.p99)
    && WritesNumber(j.fields[StatisticKey(Maximal, timing)], s.max)
    && (if timing then
          && |s.over| == 3
          && j.fields[OverKey(THRESHOLDS[0])] == Integer(s.over[0])
          && j.fields[OverKey(THRESHOLDS[1])] == Integer(s.over[1])
          && j.fields[OverKey(THRESHOLDS[2])] == Integer(s.over[2])
        else s.over == [])
  }

  function MetricKeys(metrics: seq<Metric>): set<Key> {
    set m | m in metrics :: MetricKey(m)
  }

  ghost predicate WritesLane(j: Json, layout: Layout, s: LaneSummary) {
    && HasKeys(j, {SampleCountKey, MetricsKey})
    && WritesNumber(j.fields[SampleCountKey], s.sampleCount as real)
    && HasKeys(j.fields[MetricsKey], MetricKeys(layout.timing + layout.cpu))
    && (forall m :: m in s.metrics <==> Listed(layout, m))
    && forall m {:trigger s.metrics[m]} :: Listed(layout, m) ==>
         MetricKey(m) in j.fields[MetricsKey].fields
             && WritesMetric(j.fields[MetricsKey].fields[MetricKey(m)], m in layout.timing, s.metrics[m])
  }

  ghost predicate WritesSummaries(j: Json, layout: Layout, s: Summaries) {
    && HasKeys(j, {CombinedKey, FullKey, RegionKey})
    && WritesLane(j.fields[CombinedKey], layout, s.combined)
    && WritesLane(j.fields[FullKey], layout, s.full)
    && WritesLane(j.fields[RegionKey], layout, s.region)
  }

  predicate WritesEntry(j: Json, e: TailEntry) {
    && HasKeys(j, {ScheduleIndexKey, TimingKey})
    && j.fields[ScheduleIndexKey] == Integer(e.index)
    && WritesNumber(j.fields[TimingKey], e.timing)
  }

  predicate WritesEntries(items: seq<Json>, entries: seq<TailEntry>) {
    |items| == |entries| && forall k :: 0 <= k < |items| ==> WritesEntry(items[k], entries[k])
  }

  ghost predicate WritesTails(j: Json, layout: Layout, t: Tails) {
    && HasKeys(j, MetricKeys(layout.timing))
    && (forall m :: m in t <==> m in layout.timing)
    && forall m {:trigger t[m]} :: m in layout.timing ==>
         MetricKey(m) in j.fields && j.fields[MetricKey(m)].List? && WritesEntries(j.fields[MetricKey(m)].items, t[m])
  }

  datatype Report = Report(summaries: Summaries, tails: Tails)

  ghost predicate WritesReport(summaries: Json, tails: Json, layout: Layout, report: Report) {
    WritesSummaries(summaries, layout, report.summaries) && WritesTails(tails, layout, report.tails)
  }

  ghost predicate ValidReport(layout: Layout, report: Report) {
    ValidSummaries(report.summaries, layout) && ValidTails(report.tails, layout, report.summaries)
  }

  /** What a reader of a retained lane may rely on, metric by metric. */
  predicate Plausible(s: MetricSummary, timing: bool, n: int) {
    && 0.0 <= s.p50 && s.p50 <= s.p95 && s.p95 <= s.p99 && s.p99 <= s.max
    && (if timing then |s.over| == 3 && 0 <= s.over[2] <= s.over[1] <= s.over[0] <= n else s.over == [])
  }

  /** The entries rise within the schedule, each over the first threshold; the largest is the maximum; over
      each threshold they are as many as were counted, those at even indices in the full lane, those at
      odd indices in the region lane. */
  ghost predicate EntriesFit(entries: seq<TailEntry>, all: MetricSummary, full: MetricSummary, region: MetricSummary)
    requires |all.over| == |full.over| == |region.over| == 3
  {
    && (forall k :: 0 <= k < 3 ==>
          && all.over[k] == EntriesOver(entries, [50, 100, 500][k] as real)
          && full.over[k] == EntriesOverAt(entries, [50, 100, 500][k] as real, 0)
          && region.over[k] == EntriesOverAt(entries, [50, 100, 500][k] as real, 1))
    && (forall k :: 0 <= k < |entries| ==> 0 <= entries[k].index < 1000 && 50.0 < entries[k].timing <= all.max)
    && (forall j, k :: 0 <= j < k < |entries| ==> entries[j].index < entries[k].index)
    && (if entries == [] then all.max <= 50.0 else exists k :: 0 <= k < |entries| && entries[k].timing == all.max)
  }

  /** Ranks in order, counts falling with the thresholds; the larger lane maximum is the maximum; the lanes'
      counts add up; and the entries of a timing fit. */
  ghost predicate MetricFits(layout: Layout, report: Report, m: Metric) {
    var s := report.summaries;
    && m in s.combined.metrics && m in s.full.metrics && m in s.region.metrics
    && var all, full, region := s.combined.metrics[m], s.full.metrics[m], s.region.metrics[m];
       && Plausible(all, m in layout.timing, 1000)
       && Plausible(full, m in layout.timing, 500) && Plausible(region, m in layout.timing, 500)
       && all.max >= full.max && all.max >= region.max && (all.max == full.max || all.max == region.max)
       && (m in layout.timing ==>
             && m in report.tails && (forall k :: 0 <= k < 3 ==> all.over[k] == full.over[k] + region.over[k])
             && EntriesFit(report.tails[m], all, full, region))
  }

  /** Exactly the metrics of the layout, and a thousand samples, half of them in each lane. */
  ghost predicate HasLayout(layout: Layout, report: Report) {
    var s := report.summaries;
    && s.combined.sampleCount == 1000 && s.full.sampleCount == 500 && s.region.sampleCount == 500
    && s.combined.metrics.Keys == s.full.metrics.Keys == s.region.metrics.Keys
    && (forall m :: m in s.combined.metrics.Keys <==> m in layout.timing || m in layout.cpu)
    && (forall m :: m in report.tails <==> m in layout.timing)
  }

  /** What makes a report valid. */
  lemma ValidExactly(layout: Layout, report: Report)
    ensures ValidReport(layout, report) <==>
              HasLayout(layout, report)
              && forall m {:trigger MetricFits(layout, report, m)} ::
                   m in layout.timing || m in layout.cpu ==> MetricFits(layout, report, m)
  {
    hide MetricFits;
    if ValidReport(layout, report) {
      ValidHasLayout(layout, report);
      forall m | m in layout.timing || m in layout.cpu ensures MetricFits(layout, report, m) {
        ValidFits(layout, report, m);
      }
    }
    if HasLayout(layout, report) && forall m {:trigger MetricFits(layout, report, m)} ::
         m in layout.timing || m in layout.cpu ==> MetricFits(layout, report, m)
    {
      FitsIsValid(layout, report);
    }
  }

  lemma ValidHasLayout(layout: Layout, report: Report)
    requires ValidReport(layout, report)
    ensures HasLayout(layout, report)
  {
    hide ValidMetric, LanesAgree, ValidTail;
    var s := report.summaries;
    forall m
      ensures m in s.combined.metrics <==> Listed(layout, m)
      ensures m in s.full.metrics <==> Listed(layout, m)
      ensures m in s.region.metrics <==> Listed(layout, m)
    {
      assert MetricOk(s.combined, layout, 1000, m) && MetricOk(s.full, layout, 500, m)
             && MetricOk(s.region, layout, 500, m);
    }
  }

  lemma LaneIsPlausible(s: LaneSummary, layout: Layout, n: int, m: Metric)
    requires ValidLane(s, layout, n) && Listed(layout, m)
    ensures m in s.metrics && Plausible(s.metrics[m], m in layout.timing, n)
  {
    assert MetricOk(s, layout, n, m);
  }

  lemma ValidFits(layout: Layout, report: Report, m: Metric)
    requires ValidReport(layout, report) && (m in layout.timing || m in layout.cpu)
    ensures MetricFits(layout, report, m)
  {
    hide MetricOk, ValidLane, ValidMetric;
    LaneIsPlausible(report.summaries.combined, layout, 1000, m);
    LaneIsPlausible(report.summaries.full, layout, 500, m);
    LaneIsPlausible(report.summaries.region, layout, 500, m);
    assert LanesOk(report.summaries, layout, m);
    if m in layout.timing && report.tails[m] != [] {
      LargestIsLargest(report.tails[m]);
    }
  }

  lemma {:induction false} LargestIsLargest(entries: seq<TailEntry>)
    requires entries != []
    ensures forall k :: 0 <= k < |entries| ==> entries[k].timing <= LargestTiming(entries)
    ensures exists k :: 0 <= k < |entries| && entries[k].timing == LargestTiming(entries)
  {
    if |entries| > 1 {
      var rest := entries[1..];
      LargestIsLargest(rest);
      assert forall k :: 1 <= k < |entries| ==> entries[k] == rest[k - 1];
      var k :| 0 <= k < |rest| && rest[k].timing == LargestTiming(rest);
      assert entries[k + 1].timing == LargestTiming(rest);
    }
    assert entries[0] == entries[0];
  }

  lemma FitsIsValid(layout: Layout, report: Report)
    requires HasLayout(layout, report)
    requires forall m {:trigger MetricFits(layout, report, m)} ::
               m in layout.timing || m in layout.cpu ==> MetricFits(layout, report, m)
    ensures ValidReport(layout, report)
  {
    hide MetricFits, ValidMetric, LanesAgree, ValidTail;
    var s := report.summaries;
    forall m
      ensures MetricOk(s.combined, layout, 1000, m)
      ensures MetricOk(s.full, layout, 500, m)
      ensures MetricOk(s.region, layout, 500, m)
      ensures LanesOk(s, layout, m)
      ensures m in report.tails ==> ValidTail(report.tails[m], s, m)
    {
      if m in layout.timing || m in layout.cpu {
        assert MetricFits(layout, report, m);
        MetricIsValid(layout, report, m);
      }
    }
  }

  lemma MetricIsValid(layout: Layout, report: Report, m: Metric)
    requires HasLayout(layout, report) && (m in layout.timing || m in layout.cpu) && MetricFits(layout, report, m)
    ensures var s := report.summaries;
      && ValidMetric(s.combined.metrics[m], m in layout.timing, 1000)
      && ValidMetric(s.full.metrics[m], m in layout.timing, 500)
      && ValidMetric(s.region.metrics[m], m in layout.timing, 500)
      && LanesAgree(s.combined.metrics[m], s.full.metrics[m], s.region.metrics[m])
      && (m in layout.timing ==> ValidTail(report.tails[m], s, m))
  {
    hide HasLayout;
    if m in layout.timing && report.tails[m] != [] {
      LargestIsLargest(report.tails[m]);
    }
  }

  // ---------------------------------------------------------------- printing a report

  function PrintMetric(s: MetricSummary, timing: bool): Json
    requires timing ==> |s.over| == 3
  {
    var statistics := map[
      StatisticKey(P50, timing) := Float(s.p50), StatisticKey(P95, timing) := Float(s.p95),
      StatisticKey(P99, timing) := Float(s.p99), StatisticKey(Maximal, timing) := Float(s.max)];
    Object(if timing then statistics + map[
        OverKey(THRESHOLDS[0]) := Integer(s.over[0]), OverKey(THRESHOLDS[1]) := Integer(s.over[1]),
        OverKey(THRESHOLDS[2]) := Integer(s.over[2])]
      else statistics)
  }

  ghost function PrintLane(s: LaneSummary, layout: Layout, n: int): Json
    requires ValidLane(s, layout, n)
  {
    assert forall m {:trigger MetricOk(s, layout, n, m)} :: Listed(layout, m) ==> MetricOk(s, layout, n, m);
    Object(map[
      SampleCountKey := Integer(s.sampleCount),
      MetricsKey := Object(map key | key in MetricKeys(layout.timing + layout.cpu) ::
        PrintListed(s, layout, n, key.metric))])
  }

  ghost function PrintListed(s: LaneSummary, layout: Layout, n: int, m: Metric): Json
    requires ValidLane(s, layout, n) && Listed(layout, m)
  {
    assert MetricOk(s, layout, n, m);
    PrintMetric(s.metrics[m], m in layout.timing)
  }

  ghost function PrintSummaries(s: Summaries, layout: Layout): Json
    requires ValidSummaries(s, layout)
  {
    Object(map[
      CombinedKey := PrintLane(s.combined, layout, CAPTURES),
      FullKey := PrintLane(s.full, layout, CAPTURES / 2),
      RegionKey := PrintLane(s.region, layout, CAPTURES / 2)])
  }

  function PrintEntry(e: TailEntry): Json {
    Object(map[ScheduleIndexKey := Integer(e.index), TimingKey := Float(e.timing)])
  }

  function PrintEntries(entries: seq<TailEntry>): Json {
    List(seq(|entries|, k requires 0 <= k < |entries| => PrintEntry(entries[k])))
  }

  ghost function PrintTails(t: Tails, layout: Layout): Json
    requires forall m :: m in t <==> m in layout.timing
  {
    Object(map key | key in MetricKeys(layout.timing) :: PrintEntries(t[key.metric]))
  }

  lemma PrintedMetric(s: LaneSummary, layout: Layout, n: int, m: Metric)
    requires ValidLane(s, layout, n) && Listed(layout, m)
    ensures m in s.metrics && MetricKey(m) in MetricKeys(layout.timing + layout.cpu)
    ensures WritesMetric(PrintListed(s, layout, n, m), m in layout.timing, s.metrics[m])
  {
    assert MetricOk(s, layout, n, m);
  }

  lemma PrintedLane(s: LaneSummary, layout: Layout, n: int)
    requires ValidLane(s, layout, n)
    ensures WritesLane(PrintLane(s, layout, n), layout, s)
  {
    forall m ensures m in s.metrics <==> Listed(layout, m) {
      assert MetricOk(s, layout, n, m);
    }
    forall m {:trigger s.metrics[m]} | Listed(layout, m)
      ensures m in s.metrics && MetricKey(m) in MetricKeys(layout.timing + layout.cpu)
      ensures WritesMetric(PrintListed(s, layout, n, m), m in layout.timing, s.metrics[m])
    {
      PrintedMetric(s, layout, n, m);
    }
  }

  lemma PrintedSummaries(s: Summaries, layout: Layout)
    requires ValidSummaries(s, layout)
    ensures WritesSummaries(PrintSummaries(s, layout), layout, s)
  {
    hide PrintLane, WritesLane, ValidLane;
    PrintedLane(s.combined, layout, CAPTURES);
    PrintedLane(s.full, layout, CAPTURES / 2);
    PrintedLane(s.region, layout, CAPTURES / 2);
  }

  lemma PrintedTails(t: Tails, layout: Layout)
    requires forall m :: m in t <==> m in layout.timing
    ensures WritesTails(PrintTails(t, layout), layout, t)
  {
    forall m | m in layout.timing
      ensures MetricKey(m) in MetricKeys(layout.timing) && WritesEntries(PrintEntries(t[m]).items, t[m])
    {
    }
  }

  /** Every valid report can be printed so that it reads back as itself. */
  lemma PrintedReport(layout: Layout, report: Report)
    requires ValidReport(layout, report)
    ensures WritesReport(PrintSummaries(report.summaries, layout), PrintTails(report.tails, layout), layout, report)
  {
    PrintedSummaries(report.summaries, layout);
    PrintedTails(report.tails, layout);
  }

  // ---------------------------------------------------------------- one metric

  /** The checks of one metric's summary: it returns what the JSON says, when that is valid. */
  method RetainMetric(j: Json, timing: bool, n: int) returns (r: Outcome<MetricSummary>)
    ensures r.Returns? ==> WritesMetric(j, timing, r.value) && ValidMetric(r.value, timing, n)
    ensures r.Raises? ==> forall s :: WritesMetric(j, timing, s) ==> !ValidMetric(s, timing, n)
  {
    if !HasKeys(j, SummaryKeys(timing)) {
      return Raises;
    }
    var p50 :- NonnegativeFloat(j.fields[StatisticKey(P50, timing)]);
    var p95 :- NonnegativeFloat(j.fields[StatisticKey(P95, timing)]);
    var p99 :- NonnegativeFloat(j.fields[StatisticKey(P99, timing)]);
    var maximum :- NonnegativeFloat(j.fields[StatisticKey(Maximal, timing)]);
    if p50 > p95 || p95 > p99 || p99 > maximum {
      return Raises;
    }
    var counts: seq<int> := [];
    if timing {
      counts :- RetainCounts(j, n);
    }
    return Returns(MetricSummary(p50, p95, p99, maximum, counts));
  }

  method RetainCounts(j: Json, n: int) returns (r: Outcome<seq<int>>)
    requires HasKeys(j, SummaryKeys(true))
    ensures r.Returns? ==>
      && |r.value| == 3 && n >= r.value[0] >= r.value[1] >= r.value[2] >= 0
      && forall k :: 0 <= k < 3 ==> j.fields[OverKey(THRESHOLDS[k])] == Integer(r.value[k])
    ensures r.Raises? ==> forall a, b, c :: n >= a >= b >= c >= 0 ==>
      j.fields[OverKey(THRESHOLDS[0])] != Integer(a) || j.fields[OverKey(THRESHOLDS[1])] != Integer(b)
          || j.fields[OverKey(THRESHOLDS[2])] != Integer(c)
  {
    var counts: seq<int> := [];
    for k := 0 to |THRESHOLDS|
      invariant |counts| == k
      invariant forall i :: 0 <= i < k ==> j.fields[OverKey(THRESHOLDS[i])] == Integer(counts[i]) && 0 <= counts[i] <= n
    {
      var count := j.fields[OverKey(THRESHOLDS[k])];
      if !count.Integer? || count.number < 0 || count.number > n {
        return Raises;
      }
      counts := counts + [count.number];
    }
    if counts[0] < counts[1] || counts[1] < counts[2] {
      return Raises;
    }
    return Returns(counts);
  }

  // ---------------------------------------------------------------- lanes

  method RetainLane(j: Json, layout: Layout, n: int) returns (r: Outcome<LaneSummary>)
    ensures r.Returns? ==> WritesLane(j, layout, r.value) && ValidLane(r.value, layout, n)
    ensures r.Raises? ==> forall s :: WritesLane(j, layout, s) ==> !ValidLane(s, layout, n)
  {
    hide WritesMetric, ValidMetric;
    if !HasKeys(j, {SampleCountKey, MetricsKey}) || !WritesNumber(j.fields[SampleCountKey], n as real) {
      return Raises;
    }
    var metrics := j.fields[MetricsKey];
    if !HasKeys(metrics, MetricKeys(layout.timing + layout.cpu)) {
      return Raises;
    }
    var retained: map<Metric, MetricSummary> := map[];
    var all := layout.timing + layout.cpu;
    for i := 0 to |all|
      invariant forall m :: m in retained <==> m in all[..i]
      invariant forall m {:trigger retained[m]} :: m in retained ==>
        && MetricKey(m) in metrics.fields
        && WritesMetric(metrics.fields[MetricKey(m)], m in layout.timing, retained[m])
        && ValidMetric(retained[m], m in layout.timing, n)
    {
      var m := all[i];
      assert Listed(layout, m) && MetricKey(m) in MetricKeys(all);
      var summary := RetainMetric(metrics.fields[MetricKey(m)], m in layout.timing, n);
      if summary.Raises? {
        forall s | WritesLane(j, layout, s) ensures !ValidLane(s, layout, n) {
          assert m in s.metrics && WritesMetric(metrics.fields[MetricKey(m)], m in layout.timing, s.metrics[m]);
          assert !MetricOk(s, layout, n, m);
        }
        return Raises;
      }
      retained := retained[m := summary.value];
    }
    assert all[..|all|] == all;
    return Returns(LaneSummary(n, retained));
  }

  /** The loop over the metrics, across lanes. */
  method AllLanesAgree(s: Summaries, layout: Layout) returns (agree: bool)
    requires ValidLane(s.combined, layout, CAPTURES)
    requires ValidLane(s.full, layout, CAPTURES / 2) && ValidLane(s.region, layout, CAPTURES / 2)
    ensures agree <==> ValidSummaries(s, layout)
  {
    var all := layout.timing + layout.cpu;
    for i := 0 to |all|
      invariant forall k :: 0 <= k < i ==> LanesOk(s, layout, all[k])
    {
      var m := all[i];
      assert Listed(layout, m);
      assert MetricOk(s.combined, layout, CAPTURES, m);
      assert MetricOk(s.full, layout, CAPTURES / 2, m) && MetricOk(s.region, layout, CAPTURES / 2, m);
      var fits := MetricLanesAgree(s.combined.metrics[m], s.full.metrics[m], s.region.metrics[m], m in layout.timing);
      if !fits {
        assert !LanesOk(s, layout, m);
        return false;
      }
    }
    forall m | Listed(layout, m) ensures LanesOk(s, layout, m) {
      var k :| 0 <= k < |all| && all[k] == m;
    }
    return true;
  }

  /** `_retain_daemon_local_tail_summaries` and `_retain_scheduling_summaries`: a report is retained,
      as the summaries it writes, if and only if those are valid. */
  method RetainSummaries(j: Json, layout: Layout) returns (r: Outcome<Summaries>)
    ensures r.Returns? ==> WritesSummaries(j, layout, r.value) && ValidSummaries(r.value, layout)
    ensures r.Raises? ==> forall s :: WritesSummaries(j, layout, s) ==> !ValidSummaries(s, layout)
  {
    if !HasKeys(j, {CombinedKey, FullKey, RegionKey}) {
      return Raises;
    }
    var combined :- RetainLane(j.fields[CombinedKey], layout, CAPTURES);
    var full :- RetainLane(j.fields[FullKey], layout, CAPTURES / 2);
    var region :- RetainLane(j.fields[RegionKey], layout, CAPTURES / 2);
    var retained := Summaries(combined, full, region);
    var agree := AllLanesAgree(retained, layout);
    if !agree {
      forall s | WritesSummaries(j, layout, s) ensures !ValidSummaries(s, layout) {
        SummariesWrittenOnce(j, layout, s, retained);
      }
      return Raises;
    }
    return Returns(retained);
  }

  method MetricLanesAgree(combined: MetricSummary, full: MetricSummary, region: MetricSummary, tails: bool)
      returns (agree: bool)
    requires |combined.over| == |full.over| == |region.over| == if tails then 3 else 0
    ensures agree <==> LanesAgree(combined, full, region)
  {
    if combined.max != Larger(full.max, region.max) {
      return false;
    }
    if tails {
      for k := 0 to |THRESHOLDS|
        invariant forall i :: 0 <= i < k ==> combined.over[i] == full.over[i] + region.over[i]
      {
        if combined.over[k] != full.over[k] + region.over[k] {
          return false;
        }
      }
    }
    return true;
  }

  lemma MetricWrittenOnce(j: Json, timing: bool, s: MetricSummary, t: MetricSummary)
    requires WritesMetric(j, timing, s) && WritesMetric(j, timing, t)
    ensures s == t
  {
  }

  lemma LaneWrittenOnce(j: Json, layout: Layout, s: LaneSummary, t: LaneSummary)
    requires WritesLane(j, layout, s) && WritesLane(j, layout, t)
    ensures s == t
  {
    forall m | m in s.metrics ensures m in t.metrics && s.metrics[m] == t.metrics[m] {
      MetricWrittenOnce(j.fields[MetricsKey].fields[MetricKey(m)], m in layout.timing, s.metrics[m], t.metrics[m]);
    }
    assert s.metrics == t.metrics;
  }

  /** JSON writes one report only. */
  lemma SummariesWrittenOnce(j: Json, layout: Layout, s: Summaries, t: Summaries)
    requires WritesSummaries(j, layout, s) && WritesSummaries(j, layout, t)
    ensures s == t
  {
    LaneWrittenOnce(j.fields[CombinedKey], layout, s.combined, t.combined);
    LaneWrittenOnce(j.fields[FullKey], layout, s.full, t.full);
    LaneWrittenOnce(j.fields[RegionKey], layout, s.region, t.region);
  }

  // ---------------------------------------------------------------- tail schedules

  /** The entries of one metric. */
  method RetainEntries(items: seq<Json>) returns (r: Outcome<seq<TailEntry>>)
    ensures r.Returns? ==> WritesEntries(items, r.value) && ValidEntries(r.value, 0, CAPTURES)
    ensures r.Raises? ==> forall entries :: WritesEntries(items, entries) ==> !ValidEntries(entries, 0, CAPTURES)
  {
    var retained: seq<TailEntry> := [];
    var previousIndex := -1;
    for k := 0 to |items|
      invariant WritesEntries(items[..k], retained) && ValidEntries(retained, 0, CAPTURES)
      invariant previousIndex == if k == 0 then -1 else retained[k - 1].index
    {
      var entry := RetainEntry(items[k], previousIndex);
      if entry.Raises? {
        EntryRefused(items, retained, k, previousIndex);
        return Raises;
      }
      EntryTaken(items, retained, k, entry.value);
      retained := retained + [entry.value];
      previousIndex := entry.value.index;
    }
    assert items[..|items|] == items;
    return Returns(retained);
  }

  lemma EntryRefused(items: seq<Json>, retained: seq<TailEntry>, k: nat, previousIndex: int)
    requires k < |items| && WritesEntries(items[..k], retained)
    requires previousIndex == if k == 0 then -1 else retained[k - 1].index
    requires forall e: TailEntry :: WritesEntry(items[k], e) ==> !Follows(e, previousIndex)
    ensures forall entries: seq<TailEntry> :: WritesEntries(items, entries) ==> !ValidEntries(entries, 0, CAPTURES)
  {
    forall entries: seq<TailEntry> | WritesEntries(items, entries) ensures !ValidEntries(entries, 0, CAPTURES) {
      assert WritesEntry(items[k], entries[k]);
      if k > 0 {
        assert WritesEntry(items[k - 1], entries[k - 1]) && WritesEntry(items[..k][k - 1], retained[k - 1]);
        assert entries[k - 1].index == previousIndex;
      }
    }
  }

  lemma EntryTaken(items: seq<Json>, retained: seq<TailEntry>, k: nat, e: TailEntry)
    requires k < |items| && WritesEntries(items[..k], retained) && ValidEntries(retained, 0, CAPTURES)
    requires WritesEntry(items[k], e) && Follows(e, if k == 0 then -1 else retained[k - 1].index)
    ensures WritesEntries(items[..k + 1], retained + [e]) && ValidEntries(retained + [e], 0, CAPTURES)
  {
    assert items[..k + 1] == items[..k] + [items[k]];
    if k > 0 {
      assert forall j :: 0 <= j < k - 1 ==> retained[j].index < retained[k - 1].index;
    }
  }

  predicate Follows(e: TailEntry, previousIndex: int) {
    0 <= e.index < CAPTURES && previousIndex < e.index && e.timing > THRESHOLDS[0] as real
  }

  method RetainEntry(j: Json, previousIndex: int) returns (r: Outcome<TailEntry>)
    requires previousIndex >= -1
    ensures r.Returns? ==> WritesEntry(j, r.value) && Follows(r.value, previousIndex)
    ensures r.Raises? ==> forall e :: WritesEntry(j, e) ==> !Follows(e, previousIndex)
  {
    if !HasKeys(j, {ScheduleIndexKey, TimingKey}) {
      return Raises;
    }
    var index := j.fields[ScheduleIndexKey];
    if !index.Integer? || index.number <= previousIndex || index.number >= CAPTURES {
      return Raises;
    }
    var timing :- NonnegativeFloat(j.fields[TimingKey]);
    if timing <= THRESHOLDS[0] as real {
      return Raises;
    }
    return Returns(TailEntry(index.number, timing));
  }

  /** The comparison of one metric's entries with its summaries. */
  method TailFits(entries: seq<TailEntry>, combined: MetricSummary, full: MetricSummary, region: MetricSummary)
      returns (fits: bool)
    requires |combined.over| == |full.over| == |region.over| == 3
    ensures fits <==> TailAgrees(entries, combined, full, region)
  {
    for k := 0 to |THRESHOLDS|
      invariant forall i :: 0 <= i < k ==> EntriesOver(entries, THRESHOLDS[i] as real) == combined.over[i]
      invariant forall i :: 0 <= i < k ==> EntriesOverAt(entries, THRESHOLDS[i] as real, 0) == full.over[i]
      invariant forall i :: 0 <= i < k ==> EntriesOverAt(entries, THRESHOLDS[i] as real, 1) == region.over[i]
    {
      var threshold := THRESHOLDS[k] as real;
      if EntriesOver(entries, threshold) != combined.over[k]
         || EntriesOverAt(entries, threshold, 0) != full.over[k]
         || EntriesOverAt(entries, threshold, 1) != region.over[k] {
        return false;
      }
    }
    if entries != [] {
      return LargestTiming(entries) == combined.max;
    }
    return combined.max <= THRESHOLDS[0] as real;
  }

  lemma EntriesWrittenOnce(items: seq<Json>, a: seq<TailEntry>, b: seq<TailEntry>)
    requires WritesEntries(items, a) && WritesEntries(items, b)
    ensures a == b
  {
    forall k | 0 <= k < |a| ensures a[k] == b[k] {
      assert WritesEntry(items[k], a[k]) && WritesEntry(items[k], b[k]);
    }
  }

  method RetainMetricTail(j: Json, s: Summaries, m: Metric) returns (r: Outcome<seq<TailEntry>>)
    requires HasCounts(s, m)
    ensures r.Returns? ==> j.List? && WritesEntries(j.items, r.value) && ValidTail(r.value, s, m)
    ensures r.Raises? && j.List? ==> forall entries :: WritesEntries(j.items, entries) ==> !ValidTail(entries, s, m)
  {
    if !j.List? {
      return Raises;
    }
    var entries :- RetainEntries(j.items);
    var fits := TailFits(entries, s.combined.metrics[m], s.full.metrics[m], s.region.metrics[m]);
    if !fits {
      forall other | WritesEntries(j.items, other) ensures !ValidTail(other, s, m) {
        EntriesWrittenOnce(j.items, entries, other);
      }
      return Raises;
    }
    return Returns(entries);
  }

  /** A metric whose entries are retained. */
  ghost predicate TailRetained(j: Json, layout: Layout, s: Summaries, m: Metric, entries: seq<TailEntry>) {
    && j.Object? && MetricKey(m) in j.fields && j.fields[MetricKey(m)].List?
    && WritesEntries(j.fields[MetricKey(m)].items, entries) && ValidTail(entries, s, m)
  }

  method RetainNextTail(j: Json, layout: Layout, s: Summaries, m: Metric) returns (r: Outcome<seq<TailEntry>>)
    requires ValidSummaries(s, layout) && m in layout.timing && HasKeys(j, MetricKeys(layout.timing))
    ensures r.Returns? ==> TailRetained(j, layout, s, m, r.value)
    ensures r.Raises? ==> forall t :: WritesTails(j, layout, t) ==> !ValidTails(t, layout, s)
  {
    TimingHasCounts(s, layout, m);
    assert MetricKey(m) in MetricKeys(layout.timing);
    r := RetainMetricTail(j.fields[MetricKey(m)], s, m);
    if r.Raises? {
      forall t | WritesTails(j, layout, t) ensures !ValidTails(t, layout, s) {
        assert m in t && WritesEntries(j.fields[MetricKey(m)].items, t[m]);
      }
    }
  }

  /** `_retain_daemon_local_tail_schedule` and `_retain_scheduling_tail_schedule`: a schedule is
      retained, as it is written, if and only if it is the one the summaries describe. */
  method RetainTails(j: Json, layout: Layout, s: Summaries) returns (r: Outcome<Tails>)
    requires ValidSummaries(s, layout)
    ensures r.Returns? ==> WritesTails(j, layout, r.value) && ValidTails(r.value, layout, s)
    ensures r.Raises? ==> forall t :: WritesTails(j, layout, t) ==> !ValidTails(t, layout, s)
  {
    if !HasKeys(j, MetricKeys(layout.timing)) {
      return Raises;
    }
    var retained: Tails := map[];
    for i := 0 to |layout.timing|
      invariant forall m :: m in retained <==> m in layout.timing[..i]
      invariant forall m {:trigger retained[m]} :: m in retained ==> TailRetained(j, layout, s, m, retained[m])
    {
      var m := layout.timing[i];
      var entries :- RetainNextTail(j, layout, s, m);
      retained := retained[m := entries];
    }
    assert layout.timing[..|layout.timing|] == layout.timing;
    return Returns(retained);
  }

  lemma TailsWrittenOnce(j: Json, layout: Layout, t: Tails, u: Tails)
    requires WritesTails(j, layout, t) && WritesTails(j, layout, u)
    ensures t == u
  {
    forall m | m in t ensures m in u && t[m] == u[m] {
      EntriesWrittenOnce(j.fields[MetricKey(m)].items, t[m], u[m]);
    }
  }

  /** Both checks, as the diagnostics run them: what is written is retained unchanged if and only if
      it is valid. */
  method RetainReport(summaries: Json, tails: Json, layout: Layout) returns (r: Outcome<Report>)
    ensures forall report :: WritesReport(summaries, tails, layout, report) ==>
              (r == Returns(report) <==> ValidReport(layout, report))
    ensures r.Returns? ==> WritesReport(summaries, tails, layout, r.value) && ValidReport(layout, r.value)
  {
    var retained := RetainSummaries(summaries, layout);
    if retained.Raises? {
      return Raises;
    }
    var schedule := RetainTails(tails, layout, retained.value);
    forall report | WritesReport(summaries, tails, layout, report) ensures report.summaries == retained.value {
      SummariesWrittenOnce(summaries, layout, report.summaries, retained.value);
    }
    if schedule.Raises? {
      return Raises;
    }
    forall report | WritesReport(summaries, tails, layout, report) ensures report.tails == schedule.value {
      TailsWrittenOnce(tails, layout, report.tails, schedule.value);
    }
    return Returns(Report(retained.value, schedule.value));
  }

  /** Whatever a full schedule of captures measured, the report a script makes of it is retained, and
      unchanged. */
  method RetainEmitted(script: Script, layout: Layout, readings: seq<Metric -> real>,
                       emitted: Report, summaries: Json, tails: Json)
    returns (r: Outcome<Report>)
    requires |readings| == CAPTURES && Measured(readings)
    requires SummarizeLanes(script, layout, Scheduled(readings)) == Returns(emitted.summaries)
    requires emitted.tails == TailSchedule(layout, Scheduled(readings))
    requires WritesReport(summaries, tails, layout, emitted)
    ensures r == Returns(emitted)
  {
    ProducedIsValid(script, layout, readings);
    r := RetainReport(summaries, tails, layout);
  }
}
