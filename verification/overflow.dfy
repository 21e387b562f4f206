/** When a pass raises by itself, over whole histories: some history makes one raise OverflowError if
    and only if the policy's backoff can leave the range of delays.

    In the histories built here the provider keeps failing one run, at its polls or at its cancels, and
    the reconciler goes on until the error count whose delay overflows. */
module Overflow {
  import opened Outcomes
  import opened Domain
  import opened Identity
  import opened Store
  import opened Recovery
  import opened System
  import opened Invariant
  import opened Safety
  import opened Clocks
  import opened Witness

  ghost predicate Overflows(p: Params, history: seq<Label>, i: nat)
    requires ValidParams(p)
  {
    var procs := WorldAfter(p, history).procs;
    i < |procs| && procs[i].Reconciling? && procs[i].at == Raised(OverflowError)
  }

  // ---------------------------------------------------------------- the two backoffs of a policy

  datatype Failure = OfPolls | OfCancels

  function Initial(p: RecoveryPolicy, f: Failure): Time {
    if f.OfPolls? then p.providerBackoffInitial else p.cancelBackoffInitial
  }

  function Maximum(p: RecoveryPolicy, f: Failure): Time {
    if f.OfPolls? then p.providerBackoffMax else p.cancelBackoffMax
  }

  function Cap(p: RecoveryPolicy, f: Failure): int {
    if f.OfPolls? then p.maxProviderErrors else p.maxCancelErrors
  }

  /** How long the run has, from its creation or from the request to cancel it. */
  function Room(p: Params, f: Failure): Time {
    if f.OfPolls? then p.runTimeout else p.policy.cancellationGrace
  }

  /** The delay after the last error count below the cap overflows. */
  predicate LeavesRange(p: RecoveryPolicy, f: Failure) {
    Cap(p, f) >= 2 && Backoff(Initial(p, f), Maximum(p, f), Cap(p, f) - 1).Err?
  }

  /** The delays after the first `n` errors, added up. */
  function Waits(p: RecoveryPolicy, f: Failure, n: nat): Time {
    if n == 0 then 0 else Waits(p, f, n - 1) + Min(Maximum(p, f), Initial(p, f) * Power2(n - 1))
  }

  lemma WaitsGrow(p: RecoveryPolicy, f: Failure, n: nat)
    requires ValidPolicy(p) && n > 0
    ensures Waits(p, f, n - 1) < Waits(p, f, n)
  {
    Power2Monotone(0, n - 1);
    ProductMonotone(Initial(p, f), 1, Power2(n - 1));
  }

  // ---------------------------------------------------------------- the clock

  /** Either any clock will do, or one that does not go back and has not passed `t`. */
  predicate OnClock(forward: bool, history: seq<Label>, t: Time) {
    forward ==> NeverBack(0, history) && ClockAfter(0, history) <= t
  }

  /** A clock that may go back is always read as 0. */
  function Reading(forward: bool, t: Time): Time {
    if forward then t else 0
  }

  lemma Go(p: Params, forward: bool, history: seq<Label>, l: Label, t: Time)
    requires ValidParams(p) && OnClock(forward, history, t) && (forward ==> Ticks(t, l) && Clock(t, l) == t)
    ensures WorldAfter(p, history + [l]) == Apply(p, WorldAfter(p, history), l)
    ensures OnClock(forward, history + [l], t)
  {
    hide Apply, WorldInv;
    AfterStep(p, history, l);
    var more := history + [l];
    assert more[..|more| - 1] == history;
  }

  // ---------------------------------------------------------------- one pass over the failing run

  /** The run as it stands after `n` errors, due at `due`. */
  predicate Failing(p: Params, f: Failure, r: RunRecord, n: nat, due: Time) {
    && r.runId == RUN && r.callId.Some? && r.reconcileAt == Some(due)
    && (match f
        case OfPolls => r.state.Running? && r.providerErrors == n && r.deadlineAt == p.runTimeout
        case OfCancels =>
          && r.state.CancellationRequested? && r.providerErrors == 0 && r.cancelErrors == n
          && r.cancelDeadlineAt == Some(p.policy.cancellationGrace))
  }

  /** Nothing but that run, and nobody reconciles it. */
  predicate Alone(p: Params, f: Failure, w: World, n: nat, due: Time) {
    RUN in w.store.runs && Stored(w, w.store.runs[RUN]) && Failing(p, f, w.store.runs[RUN], n, due)
  }

  /** The inputs of every step of the pass: the poll fails, or it finds the call open and the cancel
      fails. */
  function FailingInputs(f: Failure, forward: bool, due: Time): Inputs {
    var now := Reading(forward, due);
    NO_INPUTS.(now := now, laterNow := now, storeNow := due,
               poll := if f.OfPolls? then PollUnavailable else PollPending, cancel := CancelUnavailable)
  }

  /** Activity `i` is in the middle of its pass over the run. */
  predicate Holds(w: World, i: nat, c: ReconcileClaim, a: Await, due: Time) {
    && w.store.order == [RUN] && RUN in w.store.runs && w.store.runs[RUN] == c.record
    && RUN in w.store.leases && w.store.leases[RUN].token == c.token && w.store.leases[RUN].expiresAt > due
    && c.record.runId == RUN && c.expectedVersion == c.record.version
    && i < |w.procs| && w.procs[i] == Reconciling(c, a)
  }

  lemma Scans(p: Params, w: World, due: Time) returns (c: ReconcileClaim)
    requires ValidParams(p) && Shape(w.store) && RUN in w.store.runs && Stored(w, w.store.runs[RUN])
    requires w.store.runs[RUN].runId == RUN && w.store.runs[RUN].reconcileAt == Some(due)
    ensures var v := Apply(p, w, ScanPage(0, due, 1));
      && v.store == TakeLease(w.store, RUN, due + p.policy.leaseDuration) && v.procs == w.procs + [Leased(c)]
      && c == ReconcileClaim(w.store.runs[RUN], w.store.runs[RUN].version, w.store.nextToken,
                             due + p.policy.leaseDuration)
  {
    var s := TakeLease(w.store, RUN, due + p.policy.leaseDuration);
    c := ReconcileClaim(w.store.runs[RUN], w.store.runs[RUN].version, w.store.nextToken, due + p.policy.leaseDuration);
    assert ClaimPage(s, 1, due, 0, due + p.policy.leaseDuration) == (s, Page([], None));
    assert ClaimPage(w.store, 0, due, 1, due + p.policy.leaseDuration) == (s, Page([c] + [], None));
  }

  /** The pass begins: the run is claimed and looked at. */
  lemma Begins(p: Params, f: Failure, forward: bool, history: seq<Label>, n: nat, due: Time)
    returns (more: seq<Label>, i: nat, c: ReconcileClaim)
    requires ValidParams(p) && OnClock(forward, history, due) && Reading(forward, due) < Room(p, f)
    requires Alone(p, f, WorldAfter(p, history), n, due)
    ensures OnClock(forward, more, due) && Failing(p, f, c.record, n, due)
    ensures Holds(WorldAfter(p, more), i, c, if f.OfPolls? then AtPoll(c) else AtCancellationPoll(c), due)
  {
    hide Apply, WorldInv, Ticks, Clock;
    var w, x := WorldAfter(p, history), FailingInputs(f, forward, due);
    RunIsOk(p, w, RUN);
    c := Scans(p, w, due);
    i := |w.procs|;
    ScanTicks(due);
    Go(p, forward, history, ScanPage(0, due, 1), due);
    ResumeTicks(f, forward, i, due);
    more := history + [ScanPage(0, due, 1)] + [Resume(i, x)];
    Go(p, forward, history + [ScanPage(0, due, 1)], Resume(i, x), due);
    LooksAt(p, f, WorldAfter(p, history + [ScanPage(0, due, 1)]), i, c, x, n, due);
  }

  lemma ScanTicks(due: Time)
    ensures Ticks(due, ScanPage(0, due, 1)) && Clock(due, ScanPage(0, due, 1)) == due
  {
  }

  lemma ResumeTicks(f: Failure, forward: bool, i: nat, due: Time)
    ensures var l := Resume(i, FailingInputs(f, forward, due)); forward ==> Ticks(due, l) && Clock(due, l) == due
  {
  }

  lemma LooksAt(p: Params, f: Failure, w: World, i: nat, c: ReconcileClaim, x: Inputs, n: nat, due: Time)
    requires Shape(w.store) && i < |w.procs| && w.procs[i] == Leased(c)
    requires Failing(p, f, c.record, n, due) && x.now < Room(p, f)
    ensures Apply(p, w, Resume(i, x)) ==
            WithProc(w, i, Reconciling(c, if f.OfPolls? then AtPoll(c) else AtCancellationPoll(c)))
  {
  }

  /** What the pass comes to when the failing call has answered. */
  function Failed(p: RecoveryPolicy, f: Failure, c: ReconcileClaim, now: Time): Await
    requires WellFormed(c.record) && (f.OfCancels? ==> c.record.cancelDeadlineAt.Some?)
  {
    match f
    case OfPolls => AfterPoll(p, c, PollUnavailable, now)
    case OfCancels => AfterCancel(p, c, CancelUnavailable, now)
  }

  lemma PollAnswers(p: Params, f: Failure, w: World, i: nat, c: ReconcileClaim, x: Inputs, n: nat, due: Time)
    requires Shape(w.store) && WellFormed(c.record) && Failing(p, f, c.record, n, due)
    requires Holds(w, i, c, if f.OfPolls? then AtPoll(c) else AtCancellationPoll(c), due)
    requires x.poll == (if f.OfPolls? then PollUnavailable else PollPending) && x.now == x.laterNow < Room(p, f)
    ensures Apply(p, w, Resume(i, x)) ==
            WithProc(w, i, Reconciling(c, if f.OfPolls? then Failed(p.policy, f, c, x.now) else AtCancel(c)))
  {
    hide AfterPoll;
  }

  lemma CancelAnswers(p: Params, w: World, i: nat, c: ReconcileClaim, x: Inputs, n: nat, due: Time)
    requires Shape(w.store) && WellFormed(c.record) && Failing(p, OfCancels, c.record, n, due)
    requires Holds(w, i, c, AtCancel(c), due) && x.cancel.CancelUnavailable?
    ensures Apply(p, w, Resume(i, x)) == WithProc(w, i, Reconciling(c, Failed(p.policy, OfCancels, c, x.now)))
  {
    hide AfterCancel;
  }

  /** One more error: the delay overflows and the pass raises, or the run is due after the delay. */
  lemma FailsAgain(p: Params, f: Failure, c: ReconcileClaim, n: nat, due: Time, now: Time)
    requires ValidParams(p) && RecordOk(p.policy, c.record) && Failing(p, f, c.record, n, due)
    requires 0 <= now < Room(p, f) && n + 1 < Cap(p.policy, f)
    ensures var delay := Backoff(Initial(p.policy, f), Maximum(p.policy, f), n + 1);
            var a := Failed(p.policy, f, c, now);
            if delay.Err? then a == Raised(OverflowError)
            else
              && a.AtCommit? && a.claim == c && a.after.ThenReturn?
              && Failing(p, f, a.next, n + 1, Min(Room(p, f), now + delay.value))
  {
    if Backoff(Initial(p.policy, f), Maximum(p.policy, f), n + 1).Ok? {
      BackoffMonotone(Initial(p.policy, f), Maximum(p.policy, f), n + 1, n + 1);
    }
  }

  /** The commit wins, since nobody else is about, and the lease is given back. */
  lemma Commits(p: Params, w: World, i: nat, c: ReconcileClaim, n: RunRecord, x: Inputs, due: Time)
    requires Shape(w.store) && Holds(w, i, c, AtCommit(c, n, ThenReturn), due)
    requires n.runId == RUN && !IsReleasing(n.state) && x.storeNow == due && x.fault.NoFault?
    ensures Apply(p, w, Resume(i, x)) == WithProc(w.(store := Write(w.store, n)), i, Reconciling(c, Returned))
  {
  }

  lemma Releases(p: Params, w: World, i: nat, c: ReconcileClaim, x: Inputs)
    requires Shape(w.store) && i < |w.procs| && w.procs[i] == Reconciling(c, Returned) && c.record.runId == RUN
    requires w.store.order == [RUN] && RUN in w.store.runs
    requires RUN in w.store.leases && w.store.leases[RUN].token == c.token
    ensures Stored(Apply(p, w, Resume(i, x)), w.store.runs[RUN])
  {
  }

  /** The pass up to the answer of the failing call. */
  lemma Asks(p: Params, f: Failure, forward: bool, history: seq<Label>, n: nat, due: Time)
    returns (more: seq<Label>, i: nat, c: ReconcileClaim)
    requires ValidParams(p) && OnClock(forward, history, due) && Reading(forward, due) < Room(p, f)
    requires Alone(p, f, WorldAfter(p, history), n, due)
    ensures OnClock(forward, more, due) && RecordOk(p.policy, c.record) && Failing(p, f, c.record, n, due)
    ensures Holds(WorldAfter(p, more), i, c, Failed(p.policy, f, c, Reading(forward, due)), due)
  {
    hide Apply, WorldInv, RecordOk, Ticks, Clock, AfterPoll, AfterCancel;
    var x := FailingInputs(f, forward, due);
    more, i, c := Begins(p, f, forward, history, n, due);
    var v := WorldAfter(p, more);
    RunIsOk(p, v, RUN);
    WellFormedIs(p, c.record);
    ResumeTicks(f, forward, i, due);
    PollAnswers(p, f, v, i, c, x, n, due);
    Go(p, forward, more, Resume(i, x), due);
    more := more + [Resume(i, x)];
    if f.OfCancels? {
      RunIsOk(p, WorldAfter(p, more), RUN);
      CancelAnswers(p, WorldAfter(p, more), i, c, x, n, due);
      Go(p, forward, more, Resume(i, x), due);
      more := more + [Resume(i, x)];
    }
  }

  lemma WellFormedIs(p: Params, r: RunRecord)
    requires RecordOk(p.policy, r)
    ensures WellFormed(r)
  {
  }

  /** The rest of the pass: nothing, if the delay overflows; otherwise the commit and the release. */
  lemma Ends(p: Params, f: Failure, forward: bool, history: seq<Label>, i: nat, c: ReconcileClaim, n: nat, due: Time)
    returns (more: seq<Label>, next: Time)
    requires ValidParams(p) && OnClock(forward, history, due) && 0 <= due && Reading(forward, due) < Room(p, f)
    requires RecordOk(p.policy, c.record) && Failing(p, f, c.record, n, due) && n + 1 < Cap(p.policy, f)
    requires Holds(WorldAfter(p, history), i, c, Failed(p.policy, f, c, Reading(forward, due)), due)
    ensures OnClock(forward, more, next) && 0 <= next
    ensures var delay := Backoff(Initial(p.policy, f), Maximum(p.policy, f), n + 1);
            if delay.Err? then Overflows(p, more, i)
            else
              && next == Min(Room(p, f), Reading(forward, due) + delay.value)
              && Alone(p, f, WorldAfter(p, more), n + 1, next)
  {
    hide Apply, WorldInv, NeverBack, ClockAfter, RecordOk, Ticks, Clock, Failed, Write, Backoff;
    var x := FailingInputs(f, forward, due);
    more, next := history, due;
    WellFormedIs(p, c.record);
    FailsAgain(p, f, c, n, due, x.now);
    var delay := Backoff(Initial(p.policy, f), Maximum(p.policy, f), n + 1);
    if delay.Ok? {
      BackoffMonotone(Initial(p.policy, f), Maximum(p.policy, f), n + 1, n + 1);
      next := Min(Room(p, f), x.now + delay.value);
      var a := Failed(p.policy, f, c, x.now);
      ResumeTicks(f, forward, i, due);
      RunIsOk(p, WorldAfter(p, more), RUN);
      Commits(p, WorldAfter(p, more), i, c, a.next, x, due);
      Wrote(WorldAfter(p, more).store, a.next);
      Go(p, forward, more, Resume(i, x), due);
      more := more + [Resume(i, x)];
      RunIsOk(p, WorldAfter(p, more), RUN);
      Releases(p, WorldAfter(p, more), i, c, x);
      Go(p, forward, more, Resume(i, x), due);
      more := more + [Resume(i, x)];
    }
  }

  lemma Wrote(s: StoreState, n: RunRecord)
    requires n.runId == RUN && RUN in s.runs && !IsReleasing(n.state)
    ensures var t := Write(s, n); t.order == s.order && t.leases == s.leases && RUN in t.runs && t.runs[RUN] == n
  {
  }

  // ---------------------------------------------------------------- pass after pass

  /** A run that is running, or whose cancellation is requested, on a clock that stands at 0. */
  lemma Starts(p: Params, ring: IdentityKeyring, f: Failure) returns (history: seq<Label>)
    requires Admits(p, ring)
    ensures OnClock(true, history, 0)
    ensures Alone(p, f, WorldAfter(p, history), 0, 0)
  {
    hide Apply, WorldInv, Proof;
    if f.OfPolls? {
      HistoryGoesOn(p, ring);
      StartedAtOnce(ring);
      history := UntilRunning(ring);
    } else {
      HistoryEnds(p, ring);
      CancelledAtOnce(ring);
      history := UntilCancelled(ring);
    }
  }

  lemma StillAt0(history: seq<Label>, l: Label)
    requires NeverBack(0, history) && ClockAfter(0, history) == 0 && Ticks(0, l) && Clock(0, l) == 0
    ensures NeverBack(0, history + [l]) && ClockAfter(0, history + [l]) == 0
  {
    var more := history + [l];
    assert more[..|more| - 1] == history;
  }

  lemma StartedAtOnce(ring: IdentityKeyring)
    ensures NeverBack(0, UntilRunning(ring)) && ClockAfter(0, UntilRunning(ring)) == 0
  {
    assert NeverBack(0, []) && ClockAfter(0, []) == 0;
    hide NeverBack, ClockAfter;
    assert [] + [Create(ring)] == [Create(ring)];
    StillAt0([], Create(ring));
    StillAt0([Create(ring)], CANCEL);
    StillAt0(UntilRead(ring), GO_ON);
    StillAt0(UntilClaimed(ring), GO_ON);
    StillAt0(UntilClaimed(ring) + [GO_ON], GO_ON);
  }

  lemma CancelledAtOnce(ring: IdentityKeyring)
    ensures NeverBack(0, UntilCancelled(ring)) && ClockAfter(0, UntilCancelled(ring)) == 0
  {
    hide NeverBack, ClockAfter;
    StartedAtOnce(ring);
    StillAt0(UntilRunning(ring), CANCEL);
    StillAt0(UntilRunning(ring) + [CANCEL], Resume(2, NO_INPUTS));
  }

  /** What one failing pass does to the next due time, and to the clock. */
  lemma FailsOnce(p: Params, f: Failure, forward: bool, history: seq<Label>, n: nat, due: Time)
    returns (more: seq<Label>, i: nat, next: Time)
    requires ValidParams(p) && OnClock(forward, history, due) && 0 <= due && Reading(forward, due) < Room(p, f)
    requires Alone(p, f, WorldAfter(p, history), n, due) && n + 1 < Cap(p.policy, f)
    ensures OnClock(forward, more, next) && 0 <= next
    ensures var delay := Backoff(Initial(p.policy, f), Maximum(p.policy, f), n + 1);
            if delay.Err? then Overflows(p, more, i)
            else
              && next == Min(Room(p, f), Reading(forward, due) + delay.value)
              && Alone(p, f, WorldAfter(p, more), n + 1, next)
  {
    hide *;
    var c;
    more, i, c := Asks(p, f, forward, history, n, due);
    more, next := Ends(p, f, forward, more, i, c, n, due);
  }

  /** With enough room, if the clock must not go back, `n` failing passes either make one raise or leave
      the run with `n` errors, due after all its delays. */
  lemma {:induction false} FailsOnAndOn(p: Params, ring: IdentityKeyring, f: Failure, forward: bool, n: nat)
    returns (history: seq<Label>, i: nat, due: Time)
    requires Admits(p, ring) && n < Cap(p.policy, f)
    requires forward && n > 0 ==> Waits(p.policy, f, n - 1) < Room(p, f)
    ensures OnClock(forward, history, due) && 0 <= due
    ensures Overflows(p, history, i) || Alone(p, f, WorldAfter(p, history), n, due)
    ensures !Overflows(p, history, i) ==>
      && (forward ==> due == Min(Room(p, f), Waits(p.policy, f, n)))
      && (n > 0 ==> Backoff(Initial(p.policy, f), Maximum(p.policy, f), n).Ok?)
  {
    hide Alone, Overflows, WorldInv, WorldAfter, NeverBack, ClockAfter, Power2;
    if n == 0 {
      history := Starts(p, ring, f);
      i, due := 0, 0;
    } else {
      if n > 1 { WaitsGrow(p.policy, f, n - 1); }
      history, i, due := FailsOnAndOn(p, ring, f, forward, n - 1);
      if !Overflows(p, history, i) {
        var last := due;
        history, i, due := FailsOnce(p, f, forward, history, n - 1, last);
      }
    }
  }

  // ---------------------------------------------------------------- the condition

  /** A backoff that leaves the range of delays makes some pass raise; if the run has the room for all
      the delays before, it does so on a clock that never goes back. */
  lemma SomePassOverflows(p: Params, ring: IdentityKeyring, f: Failure, forward: bool)
    requires Admits(p, ring) && LeavesRange(p.policy, f)
    requires forward ==> Waits(p.policy, f, Cap(p.policy, f) - 2) < Room(p, f)
    ensures exists history, i ::
              Overflows(p, history, i) && (forward ==> NeverBack(0, history))
  {
    var history, i, due := FailsOnAndOn(p, ring, f, forward, Cap(p.policy, f) - 1);
    assert Overflows(p, history, i);
  }

  lemma OutOfRange(p: RecoveryPolicy)
    requires ValidPolicy(p)
    ensures !BackoffInRange(p) <==> LeavesRange(p, OfPolls) || LeavesRange(p, OfCancels)
  {
  }

  /** In every deployment that can admit a run, some history makes a pass raise OverflowError exactly
      when the policy's backoff leaves the range of delays below its error caps. */
  lemma OverflowsExactly(p: Params, ring: IdentityKeyring)
    requires Admits(p, ring)
    ensures (exists history, i :: Overflows(p, history, i)) <==> !BackoffInRange(p.policy)
  {
    OutOfRange(p.policy);
    if !BackoffInRange(p.policy) {
      SomePassOverflows(p, ring, if LeavesRange(p.policy, OfPolls) then OfPolls else OfCancels, false);
    } else {
      forall history, i: nat | i < |WorldAfter(p, history).procs| ensures !Overflows(p, history, i) {
        NeverRaises(p, history, i);
      }
    }
  }

  lemma {:induction false} WaitsAtMost(p: RecoveryPolicy, f: Failure, n: nat)
    ensures Waits(p, f, n) <= n * Maximum(p, f)
  {
    hide Power2, Maximum, Initial;
    if n > 0 {
      WaitsAtMost(p, f, n - 1);
      OneMoreTime(n, Maximum(p, f));
      assert Waits(p, f, n) <= Waits(p, f, n - 1) + Maximum(p, f);
    }
  }

  lemma OneMoreTime(n: nat, x: int)
    requires n > 0
    ensures n * x == (n - 1) * x + x
  {
  }

  /** The default policy, but for a cap of 60 provider errors, and runs of two hours. */
  function Patient(key: IdentityKey): Params {
    Params(POLICY.(maxProviderErrors := 60), 1, 7200 * SECOND, (secret, message) => message,
           map[key.keyId := key.secret])
  }

  /** For example: on a clock that never goes back, some history of that deployment raises. */
  lemma PatientOverflows(key: IdentityKey)
    ensures ValidParams(Patient(key))
    ensures exists history, i :: Overflows(Patient(key), history, i) && NeverBack(0, history)
  {
    hide Power2, WorldAfter, Overflows;
    var p := Patient(key);
    DefaultAdmits(key);
    Power2Of44();
    Power2Monotone(44, 58);
    ProductMonotone(5 * SECOND, Power2(44), Power2(58));
    WaitsAtMost(p.policy, OfPolls, 58);
    SomePassOverflows(p, IdentityKeyring(key, []), OfPolls, true);
  }
}
