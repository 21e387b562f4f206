/** The cgroup counters of the scheduling diagnostic
    (scripts/benchmarks/x11_shm_screenshot_runner.py): deltas around every request against the delta
    around the whole loop, on the measuring and on the retaining side. */
module Counters {
  import opened Outcomes
  import opened Retention

  type Snapshot = map<Counter, int>

  /** `cpu_stat`: a reading may be unavailable. */
  datatype Stat = Available(counters: Snapshot) | Unavailable

  /** A usable reading has every field, and no negative one. */
  predicate Readable(stat: Stat, fields: set<Counter>) {
    stat.Available? ==> stat.counters.Keys == fields && forall f :: f in fields ==> stat.counters[f] >= 0
  }

  datatype Around = Around(before: Stat, after: Stat)

  function Delta(before: Snapshot, after: Snapshot): Snapshot
    requires before.Keys == after.Keys
  {
    map f | f in before :: after[f] - before[f]
  }

  predicate NoneNegative(s: Snapshot) {
    forall f :: f in s ==> s[f] >= 0
  }

  /** `_scheduling_counter_delta`. */
  function CounterDelta(before: Snapshot, after: Snapshot): Outcome<Snapshot>
    requires before.Keys == after.Keys
  {
    if NoneNegative(Delta(before, after)) then Returns(Delta(before, after)) else Raises
  }

  datatype Measured = Measured(overall: Snapshot, sums: Snapshot)

  // ---------------------------------------------------------------- the measuring side

  ghost predicate AllReadable(before: Stat, requests: seq<Around>, after: Stat, fields: set<Counter>) {
    && Readable(before, fields) && Readable(after, fields)
    && forall k {:trigger requests[k]} :: 0 <= k < |requests| ==>
        Readable(requests[k].before, fields) && Readable(requests[k].after, fields)
  }

  /** A request that yields a delta. */
  predicate Sampled(r: Around) {
    && r.before.Available? && r.after.Available? && r.before.counters.Keys == r.after.counters.Keys
    && NoneNegative(Delta(r.before.counters, r.after.counters))
  }

  /** One request's delta. */
  method RequestDelta(r: Around, fields: set<Counter>) returns (delta: Outcome<Snapshot>)
    requires Readable(r.before, fields) && Readable(r.after, fields)
    ensures delta.Returns? <==> Sampled(r)
    ensures delta.Returns? ==> delta.value == Delta(r.before.counters, r.after.counters)
  {
    if r.before.Unavailable? || r.after.Unavailable? {
      return Raises;
    }
    delta := CounterDelta(r.before.counters, r.after.counters);
  }

  function RequestGrowth(r: Around, f: Counter): int {
    if r.before.Available? && r.after.Available? && f in r.before.counters && f in r.after.counters
    then r.after.counters[f] - r.before.counters[f] else 0
  }

  /** What one counter grew by, during the requests. */
  function RequestSum(requests: seq<Around>, f: Counter): int {
    if requests == [] then 0
    else RequestSum(requests[..|requests| - 1], f) + RequestGrowth(requests[|requests| - 1], f)
  }

  ghost predicate AllSampled(requests: seq<Around>) {
    forall k {:trigger requests[k]} :: 0 <= k < |requests| ==> Sampled(requests[k])
  }

  function SumOf(deltas: seq<Snapshot>, f: Counter): int {
    if deltas == [] then 0
    else
      var last := deltas[|deltas| - 1];
      SumOf(deltas[..|deltas| - 1], f) + if f in last then last[f] else 0
  }

  /** The capture loop: one delta a request, in order. */
  method SampleRequests(requests: seq<Around>, fields: set<Counter>) returns (r: Outcome<seq<Snapshot>>)
    requires forall k {:trigger requests[k]} :: 0 <= k < |requests| ==>
               Readable(requests[k].before, fields) && Readable(requests[k].after, fields)
    ensures r.Returns? <==> AllSampled(requests)
    ensures r.Returns? ==> |r.value| == |requests| && forall f :: SumOf(r.value, f) == RequestSum(requests, f)
  {
    var samples: seq<Snapshot> := [];
    for k := 0 to |requests|
      invariant |samples| == k && AllSampled(requests[..k])
      invariant forall f :: SumOf(samples, f) == RequestSum(requests[..k], f)
    {
      assert requests[..k + 1][..k] == requests[..k];
      var delta := RequestDelta(requests[k], fields);
      if delta.Raises? {
        assert !Sampled(requests[k]);
        return Raises;
      }
      assert (samples + [delta.value])[..k] == samples;
      samples := samples + [delta.value];
    }
    assert requests[..|requests|] == requests;
    return Returns(samples);
  }

  /** What the measuring side accepts. */
  ghost predicate Consistent(before: Stat, requests: seq<Around>, after: Stat, fields: set<Counter>)
    requires Readable(before, fields) && Readable(after, fields)
  {
    && before.Available? && after.Available? && AllSampled(requests)
    && forall f :: f in fields ==> RequestSum(requests, f) <= after.counters[f] - before.counters[f]
  }

  /** The measurement: the loop, and the aggregate check after it. */
  method Measure(before: Stat, requests: seq<Around>, after: Stat, fields: set<Counter>) returns (r: Outcome<Measured>)
    requires AllReadable(before, requests, after, fields)
    ensures r.Returns? <==> Consistent(before, requests, after, fields)
    ensures r.Returns? ==>
      && r.value.overall == Delta(before.counters, after.counters)
      && r.value.sums == map f | f in fields :: RequestSum(requests, f)
  {
    if before.Unavailable? {
      return Raises;
    }
    var samples :- SampleRequests(requests, fields);
    if after.Unavailable? {
      return Raises;
    }
    var sums := map f | f in fields :: SumOf(samples, f);
    var overall := Delta(before.counters, after.counters);
    SumsNotNegative(requests);
    if !NoneNegative(overall) || exists f :: f in fields && sums[f] > overall[f] {
      return Raises;
    }
    return Returns(Measured(overall, sums));
  }

  lemma SumsNotNegative(requests: seq<Around>)
    requires AllSampled(requests)
    ensures forall f :: RequestSum(requests, f) >= 0
  {
    forall f ensures RequestSum(requests, f) >= 0 {
      SumNotNegative(requests, f);
    }
  }

  lemma {:induction false} SumNotNegative(requests: seq<Around>, f: Counter)
    requires AllSampled(requests)
    ensures RequestSum(requests, f) >= 0
  {
    if requests != [] {
      var r := requests[|requests| - 1];
      SumNotNegative(requests[..|requests| - 1], f);
      assert Sampled(r);
      if f in r.before.counters {
        assert Delta(r.before.counters, r.after.counters)[f] >= 0;
      }
    }
  }

  // ---------------------------------------------------------------- telescoping

  ghost predicate AllAvailable(before: Stat, requests: seq<Around>, after: Stat) {
    && before.Available? && after.Available?
    && forall k {:trigger requests[k]} :: 0 <= k < |requests| ==>
        requests[k].before.Available? && requests[k].after.Available?
  }

  function Value(stat: Stat, f: Counter): int {
    if stat.Available? && f in stat.counters then stat.counters[f] else 0
  }

  /** The latest reading after a number of requests. */
  function Latest(before: Stat, requests: seq<Around>): Stat {
    if requests == [] then before else requests[|requests| - 1].after
  }

  /** What a counter grew by between the requests. */
  function GapSum(before: Stat, requests: seq<Around>, f: Counter): int {
    if requests == [] then 0
    else
      var earlier := requests[..|requests| - 1];
      GapSum(before, earlier, f) + Value(requests[|requests| - 1].before, f) - Value(Latest(before, earlier), f)
  }

  /** Growth is conserved: during the requests and between them, the parts make the whole. */
  lemma {:induction false} GrowthAddsUp(before: Stat, requests: seq<Around>, fields: set<Counter>, f: Counter)
    requires f in fields && AllReadable(before, requests, before, fields) && AllAvailable(before, requests, before)
    ensures Value(Latest(before, requests), f) - Value(before, f) ==
              RequestSum(requests, f) + GapSum(before, requests, f)
  {
    if requests != [] {
      GrowthAddsUp(before, requests[..|requests| - 1], fields, f);
      var r := requests[|requests| - 1];
      assert Readable(r.before, fields) && Readable(r.after, fields);
    }
  }

  /** The reading taken before the loop, around each request in order, and after it never falls. */
  ghost predicate NeverFalls(before: Stat, requests: seq<Around>, after: Stat, f: Counter) {
    && (forall k {:trigger requests[k]} :: 0 <= k < |requests| ==>
          Value(Latest(before, requests[..k]), f) <= Value(requests[k].before, f) <= Value(requests[k].after, f))
    && Value(Latest(before, requests), f) <= Value(after, f)
  }

  lemma {:induction false} GapsNotNegative(before: Stat, requests: seq<Around>, f: Counter, n: nat)
    requires n <= |requests|
    requires forall k {:trigger requests[k]} :: 0 <= k < |requests| ==>
        Value(Latest(before, requests[..k]), f) <= Value(requests[k].before, f)
    ensures GapSum(before, requests[..n], f) >= 0
  {
    if n > 0 {
      GapsNotNegative(before, requests, f, n - 1);
      assert requests[..n][..n - 1] == requests[..n - 1];
      assert requests[..n][n - 1] == requests[n - 1];
    }
  }

  /** Exactly when the aggregate check passes: every request was sampled, and no counter lost more
      between the requests than it gained there. */
  lemma ConsistentExactly(before: Stat, requests: seq<Around>, after: Stat, fields: set<Counter>)
    requires AllReadable(before, requests, after, fields) && AllAvailable(before, requests, after)
    ensures Consistent(before, requests, after, fields) <==>
      && AllSampled(requests)
      && forall f :: f in fields ==>
          GapSum(before, requests, f) + Value(after, f) - Value(Latest(before, requests), f) >= 0
  {
    forall f | f in fields
      ensures Value(Latest(before, requests), f) - Value(before, f) ==
                RequestSum(requests, f) + GapSum(before, requests, f)
    {
      GrowthAddsUp(before, requests, fields, f);
    }
  }

  /** Telescoping: with counters that never fall, the requests' deltas never exceed the whole, so the
      measurement never raises. */
  lemma NondecreasingIsConsistent(before: Stat, requests: seq<Around>, after: Stat, fields: set<Counter>)
    requires AllReadable(before, requests, after, fields) && AllAvailable(before, requests, after)
    requires forall f :: f in fields ==> NeverFalls(before, requests, after, f)
    ensures Consistent(before, requests, after, fields)
  {
    forall k | 0 <= k < |requests| ensures Sampled(requests[k]) {
      forall f | f in fields ensures requests[k].before.counters[f] <= requests[k].after.counters[f] {
        assert NeverFalls(before, requests, after, f);
      }
    }
    forall f | f in fields ensures GapSum(before, requests, f) >= 0 {
      GapsNotNegative(before, requests, f, |requests|);
      assert requests[..|requests|] == requests;
    }
    ConsistentExactly(before, requests, after, fields);
  }

  // ---------------------------------------------------------------- the retaining side

  function CounterKeys(fields: set<Counter>): set<Key> {
    set f | f in fields :: CounterKey(f)
  }

  ghost predicate WritesSnapshot(j: Json, fields: set<Counter>, s: Snapshot) {
    && HasKeys(j, CounterKeys(fields)) && s.Keys == fields
    && forall f {:trigger s[f]} :: f in fields ==> CounterKey(f) in j.fields && j.fields[CounterKey(f)] == Integer(s[f])
  }

  lemma SnapshotWrittenOnce(j: Json, fields: set<Counter>, s: Snapshot, t: Snapshot)
    requires WritesSnapshot(j, fields, s) && WritesSnapshot(j, fields, t)
    ensures s == t
  {
    forall f | f in s ensures f in t && s[f] == t[f] {
      assert j.fields[CounterKey(f)] == Integer(s[f]);
    }
  }

  predicate IsCount(j: Json) {
    j.Integer? && j.number >= 0
  }

  /** `_retain_scheduling_counter_snapshot`. */
  function RetainSnapshot(j: Json, fields: set<Counter>): Outcome<Snapshot> {
    if HasKeys(j, CounterKeys(fields)) && forall f :: f in fields ==>
         CounterKey(f) in j.fields && IsCount(j.fields[CounterKey(f)]) then
      Returns(map f | f in fields :: j.fields[CounterKey(f)].number)
    else Raises
  }

  lemma RetainsSnapshotExactly(j: Json, fields: set<Counter>, s: Snapshot)
    ensures RetainSnapshot(j, fields) == Returns(s) <==> WritesSnapshot(j, fields, s) && NoneNegative(s)
  {
    if WritesSnapshot(j, fields, s) && NoneNegative(s) {
      assert forall f {:trigger s[f]} :: f in fields ==> j.fields[CounterKey(f)] == Integer(s[f]) && s[f] >= 0;
      SnapshotWrittenOnce(j, fields, s, RetainSnapshot(j, fields).value);
    }
  }

  /** The counter checks of `_build_x11_shm_scheduling_diagnostic`. */
  function RetainCounters(before: Json, after: Json, deltas: Json, sums: Json, fields: set<Counter>)
    : Outcome<Measured>
  {
    var first :- RetainSnapshot(before, fields);
    var last :- RetainSnapshot(after, fields);
    RetainsSnapshotExactly(before, fields, first);
    RetainsSnapshotExactly(after, fields, last);
    var overall :- CounterDelta(first, last);
    var supplied :- RetainSnapshot(deltas, fields);
    if supplied != overall then Raises
    else
      var sampled :- RetainSnapshot(sums, fields);
      RetainsSnapshotExactly(sums, fields, sampled);
      if exists f :: f in overall && sampled[f] > overall[f] then Raises
      else Returns(Measured(overall, sampled))
  }

  /** The four snapshots of a report, and that they fit together counter by counter: no reading is
      negative, the deltas are the differences of the readings, and what the requests add up to is not
      negative and does not exceed them. */
  ghost predicate Accounts(before: Json, after: Json, deltas: Json, sums: Json, fields: set<Counter>,
                           first: Snapshot, last: Snapshot, m: Measured)
  {
    && WritesSnapshot(before, fields, first) && WritesSnapshot(after, fields, last)
    && WritesSnapshot(deltas, fields, m.overall) && WritesSnapshot(sums, fields, m.sums)
    && forall f {:trigger m.sums[f]} :: f in fields ==>
         && 0 <= first[f] && 0 <= last[f] && m.overall[f] == last[f] - first[f]
         && 0 <= m.sums[f] <= m.overall[f]
  }

  /** The counters of a report are retained, as written, if and only if they fit together. */
  lemma RetainCountersExactly(before: Json, after: Json, deltas: Json, sums: Json, fields: set<Counter>, m: Measured)
    ensures RetainCounters(before, after, deltas, sums, fields) == Returns(m) <==>
              exists first, last :: Accounts(before, after, deltas, sums, fields, first, last, m)
  {
    if first, last :| Accounts(before, after, deltas, sums, fields, first, last, m) {
      AccountedIsRetained(before, after, deltas, sums, fields, first, last, m);
    }
    if RetainCounters(before, after, deltas, sums, fields) == Returns(m) {
      RetainedAccounts(before, after, deltas, sums, fields, m);
    }
  }

  lemma AccountedIsRetained(before: Json, after: Json, deltas: Json, sums: Json, fields: set<Counter>,
                            first: Snapshot, last: Snapshot, m: Measured)
    requires Accounts(before, after, deltas, sums, fields, first, last, m)
    ensures RetainCounters(before, after, deltas, sums, fields) == Returns(m)
  {
    hide WritesSnapshot, RetainSnapshot;
    SnapshotFields(before, fields, first);
    SnapshotFields(after, fields, last);
    SnapshotFields(deltas, fields, m.overall);
    SnapshotFields(sums, fields, m.sums);
    forall f | f in fields
      ensures 0 <= first[f] && 0 <= last[f] && m.overall[f] == last[f] - first[f] && 0 <= m.sums[f] <= m.overall[f]
    {
      assert m.sums[f] >= 0;
    }
    RetainsSnapshotExactly(before, fields, first);
    RetainsSnapshotExactly(after, fields, last);
    RetainsSnapshotExactly(deltas, fields, m.overall);
    RetainsSnapshotExactly(sums, fields, m.sums);
    assert Delta(first, last) == m.overall;
  }

  lemma SnapshotFields(j: Json, fields: set<Counter>, s: Snapshot)
    requires WritesSnapshot(j, fields, s)
    ensures s.Keys == fields
  {
  }

  lemma RetainedAccounts(before: Json, after: Json, deltas: Json, sums: Json, fields: set<Counter>, m: Measured)
    requires RetainCounters(before, after, deltas, sums, fields) == Returns(m)
    ensures exists first, last :: Accounts(before, after, deltas, sums, fields, first, last, m)
  {
    hide WritesSnapshot, RetainSnapshot;
    var first, last := RetainSnapshot(before, fields).value, RetainSnapshot(after, fields).value;
    RetainsSnapshotExactly(before, fields, first);
    RetainsSnapshotExactly(after, fields, last);
    RetainsSnapshotExactly(deltas, fields, m.overall);
    RetainsSnapshotExactly(sums, fields, m.sums);
    SnapshotFields(before, fields, first);
    SnapshotFields(after, fields, last);
    SnapshotFields(sums, fields, m.sums);
    assert Accounts(before, after, deltas, sums, fields, first, last, m);
  }

  /** What was measured consistently is retained, unchanged. */
  lemma MeasuredIsRetained(first: Stat, requests: seq<Around>, last: Stat, fields: set<Counter>,
                           measured: Measured, before: Json, after: Json, deltas: Json, sums: Json)
    requires AllReadable(first, requests, last, fields) && Consistent(first, requests, last, fields)
    requires measured.overall == Delta(first.counters, last.counters)
    requires measured.sums == map f | f in fields :: RequestSum(requests, f)
    requires WritesSnapshot(before, fields, first.counters) && WritesSnapshot(after, fields, last.counters)
    requires WritesSnapshot(deltas, fields, measured.overall) && WritesSnapshot(sums, fields, measured.sums)
    ensures RetainCounters(before, after, deltas, sums, fields) == Returns(measured)
  {
    SumsNotNegative(requests);
    RetainsSnapshotExactly(before, fields, first.counters);
    RetainsSnapshotExactly(after, fields, last.counters);
    RetainsSnapshotExactly(deltas, fields, measured.overall);
    RetainsSnapshotExactly(sums, fields, measured.sums);
  }
}
