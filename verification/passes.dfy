/** What a reconciler's pass, and a whole tick, look like in the log of its environment: which calls it
    makes and how it goes on, given exactly what each of them answered. */
module Passes {
  import opened Outcomes
  import opened Domain
  import opened Store
  import opened Recovery
  import opened Surroundings
  import Progress

  // ---------------------------------------------------------------- one await

  predicate StillOpen(o: PollOutcome) {
    o.PollPending? || o.PollUnavailable?
  }

  /** `_safe_poll`: a raising poll counts as unavailable. */
  function PollAnswer(told: Outcome<PollOutcome>): PollOutcome {
    if told.Returns? then told.value else PollUnavailable
  }

  /** A raising cancel counts as unavailable, an answer of another type as indeterminate. */
  function CancelOutcomeOf(reply: CancelReply): CancelOutcome {
    match reply
    case Replied(outcome) => outcome
    case RepliedOtherwise => CancelIndeterminate
    case CancelThrew => CancelUnavailable
  }

  predicate Over(a: Await) {
    a.Returned? || a.Raised?
  }

  /** After this answer the pass goes straight on to `_cancel`, which reads the clock again. */
  predicate CancelsAtOnce(c: ReconcileClaim, o: PollOutcome, now: Time) {
    && o.PollPending? && c.record.providerErrors == 0
    && c.record.cancelDeadlineAt.Some? && now < c.record.cancelDeadlineAt.value
  }

  /** After this commit the pass goes on to `_cancel`. */
  predicate CancelsNext(n: RunRecord, after: After, cas: CasAnswer) {
    after.ThenCancel? && cas.CasStored? && !n.state.Indeterminate?
  }

  predicate IsCommit(e: Event, c: ReconcileClaim, n: RunRecord, cas: CasAnswer) {
    e.CommitSent? && e.claim == c && e.next == n && e.cas == cas
  }

  /** The log goes on with the call that the await makes, and with the clock readings that follow it. */
  predicate Makes(a: Await, es: seq<Event>) {
    && es != []
    && match a
       case Returned => false
       case Raised(_) => false
       case AtPoll(c) =>
         es[0].Polled? && c.record.callId == Some(es[0].callId) && |es| >= 2 && es[1].ClockRead?
       case AtCancellationPoll(c) =>
         && es[0].Polled? && c.record.callId == Some(es[0].callId) && |es| >= 2 && es[1].ClockRead?
         && (CancelsAtOnce(c, PollAnswer(es[0].outcome), es[1].now) ==> |es| >= 3 && es[2].ClockRead?)
       case AtCancel(c) =>
         es[0].CancelSent? && c.record.callId == Some(es[0].callId) && |es| >= 2 && es[1].ClockRead?
       case AtCommit(c, n, after) =>
         && es[0].CommitSent? && es[0].claim == c && es[0].next == n
         && (CancelsNext(n, after, es[0].cas) ==> |es| >= 2 && es[1].ClockRead?)
  }

  /** How many events belong to the await. */
  function Spent(a: Await, es: seq<Event>): nat
    requires Makes(a, es)
  {
    match a
    case AtPoll(_) => 2
    case AtCancellationPoll(c) => if CancelsAtOnce(c, PollAnswer(es[0].outcome), es[1].now) then 3 else 2
    case AtCancel(_) => 2
    case AtCommit(_, n, after) => if CancelsNext(n, after, es[0].cas) then 2 else 1
  }

  /** What the await brought.  A commit after which the clock is not read keeps the time it was
      computed at. */
  function Heard(a: Await, es: seq<Event>): Answer
    requires Makes(a, es)
  {
    match a
    case AtPoll(_) => Answer(es[1].now, es[1].now, PollAnswer(es[0].outcome), CancelAccepted, CasStored)
    case AtCancellationPoll(_) =>
      Answer(es[1].now, es[Spent(a, es) - 1].now, PollAnswer(es[0].outcome), CancelAccepted, CasStored)
    case AtCancel(_) => Answer(es[1].now, es[1].now, PollPending, CancelOutcomeOf(es[0].reply), CasStored)
    case AtCommit(_, n, after) =>
      var now := if CancelsNext(n, after, es[0].cas) then es[1].now else n.updatedAt;
      Answer(now, now, PollPending, CancelAccepted, es[0].cas)
  }

  predicate CommitRaised(a: Await, es: seq<Event>)
    requires Makes(a, es)
  {
    a.AtCommit? && es[0].cas.CasRaised?
  }

  // ---------------------------------------------------------------- one pass

  /** From this await on, these are all the calls the pass makes, each followed up as the step functions
      say for the answer it got; it ends by returning, or by raising. */
  ghost predicate PassLog(p: RecoveryPolicy, a: Await, es: seq<Event>, raised: bool)
    decreases |es|
  {
    if Over(a) then es == [] && raised == a.Raised?
    else
      && AwaitOk(p, a) && Makes(a, es)
      && (if CommitRaised(a, es) then |es| == 1 && raised
          else PassLog(p, NextAwait(p, a, Heard(a, es)), es[Spent(a, es)..], raised))
  }

  /** A pass over a claim begins by reading the clock. */
  ghost predicate BegunLog(p: RecoveryPolicy, c: ReconcileClaim, es: seq<Event>, raised: bool) {
    es != [] && es[0].ClockRead? && PassLog(p, ReconcileClaimed(p, c, es[0].now), es[1..], raised)
  }

  /** So does `_cancel`. */
  ghost predicate CancelLog(p: RecoveryPolicy, c: ReconcileClaim, es: seq<Event>, raised: bool) {
    es != [] && es[0].ClockRead? && PassLog(p, BeginCancel(c, es[0].now), es[1..], raised)
  }

  lemma Continues(p: RecoveryPolicy, a: Await, head: seq<Event>, rest: seq<Event>, raised: bool)
    requires AwaitOk(p, a) && Makes(a, head) && Spent(a, head) == |head| && !CommitRaised(a, head)
    requires PassLog(p, NextAwait(p, a, Heard(a, head)), rest, raised)
    ensures PassLog(p, a, head + rest, raised)
  {
    assert (head + rest)[|head|..] == rest;
  }

  lemma CommitEnds(p: RecoveryPolicy, c: ReconcileClaim, n: RunRecord, after: After, e: Event)
    requires AwaitOk(p, AtCommit(c, n, after)) && e.CommitSent? && e.claim == c && e.next == n
    requires after.ThenReturn? || !e.cas.CasStored? || (after.ThenCancel? && n.state.Indeterminate?)
    ensures PassLog(p, AtCommit(c, n, after), [e], e.cas.CasRaised?)
  {
    if !e.cas.CasRaised? {
      Continues(p, AtCommit(c, n, after), [e], [], false);
      assert [e] + [] == [e];
    }
  }

  /** A pass raises only if the store did, or under a policy whose backoff can leave the range of
      delays. */
  lemma {:induction false} RaisesOnlyFor(p: RecoveryPolicy, a: Await, es: seq<Event>)
    requires ValidPolicy(p) && PassLog(p, a, es, true) && (Over(a) ==> AwaitOk(p, a))
    ensures !BackoffInRange(p) || (es != [] && es[|es| - 1].CommitSent? && es[|es| - 1].cas.CasRaised?)
    decreases |es|
  {
    hide NextAwait;
    if !Over(a) && !CommitRaised(a, es) {
      NextAwaitOk(p, a, Heard(a, es));
      RaisesOnlyFor(p, NextAwait(p, a, Heard(a, es)), es[Spent(a, es)..]);
    }
  }

  // ---------------------------------------------------------------- lease chaining

  /** Every commit carries the lease's token and expects the version last committed; a commit that was
      lost or raised is the last event; `cancel` comes only after a poll that left the call open, and
      only while the last committed state, or the claimed one, is a requested cancellation. */
  ghost predicate Chained(es: seq<Event>, token: nat, version: int, cancelling: bool, stillOpen: bool)
    decreases |es|
  {
    es == [] ||
    match es[0]
    case ClockRead(_) => Chained(es[1..], token, version, cancelling, stillOpen)
    case Polled(_, told) => Chained(es[1..], token, version, cancelling, StillOpen(PollAnswer(told)))
    case CancelSent(_, _) => cancelling && stillOpen && Chained(es[1..], token, version, cancelling, stillOpen)
    case CommitSent(c, n, _, cas, _, _) =>
      && c.token == token && c.expectedVersion == version && n.version == version + 1
      && (if cas.CasStored? then Chained(es[1..], token, n.version, n.state.CancellationRequested?, stillOpen)
          else |es| == 1)
    case _ => false
  }

  predicate Cancelling(a: Await) {
    a.AtCancellationPoll? || a.AtCancel? || (a.AtCommit? && a.claim.record.state.CancellationRequested?)
  }

  /** At `cancel`, and at a commit that leads there, a poll has already found the call open. */
  predicate NeedsOpenPoll(a: Await) {
    a.AtCancel? || (a.AtCommit? && a.after.ThenCancel?)
  }

  /** The chain after the events of one await, in terms of the next one. */
  lemma HeadChained(p: RecoveryPolicy, a: Await, es: seq<Event>, stillOpen: bool)
    requires ValidPolicy(p) && AwaitOk(p, a) && Makes(a, es) && !CommitRaised(a, es)
    requires NeedsOpenPoll(a) ==> stillOpen
    requires var b := NextAwait(p, a, Heard(a, es)); var rest := es[Spent(a, es)..];
             var open := if es[0].Polled? then StillOpen(PollAnswer(es[0].outcome)) else stillOpen;
             if Over(b) then rest == [] else Chained(rest, b.claim.token, b.claim.expectedVersion, Cancelling(b), open)
    ensures Chained(es, a.claim.token, a.claim.expectedVersion, Cancelling(a), stillOpen)
  {
    var b := NextAwait(p, a, Heard(a, es));
    match a
    case AtPoll(c) => AfterPollOk(p, c, Heard(a, es).poll, Heard(a, es).now);
      assert es[1..][1..] == es[2..];
    case AtCancellationPoll(c) =>
      AfterCancellationPollOk(p, c, Heard(a, es).poll, Heard(a, es).now, Heard(a, es).laterNow);
      assert es[1..][1..] == es[2..];
      if Spent(a, es) == 3 { assert es[2..][1..] == es[3..]; }
    case AtCancel(c) => AfterCancelOk(p, c, Heard(a, es).cancel, Heard(a, es).now);
      assert es[1..][1..] == es[2..];
    case AtCommit(c, n, after) => AfterCommitOk(p, c, n, after, es[0].cas.CasStored?, Heard(a, es).now);
      if Spent(a, es) == 2 { assert es[1..][1..] == es[2..]; }
  }

  lemma {:induction false} LogChained(p: RecoveryPolicy, a: Await, es: seq<Event>, raised: bool, stillOpen: bool)
    requires ValidPolicy(p) && !Over(a) && PassLog(p, a, es, raised) && (NeedsOpenPoll(a) ==> stillOpen)
    ensures Chained(es, a.claim.token, a.claim.expectedVersion, Cancelling(a), stillOpen)
    decreases |es|
  {
    if !CommitRaised(a, es) {
      var b, rest := NextAwait(p, a, Heard(a, es)), es[Spent(a, es)..];
      var open := if es[0].Polled? then StillOpen(PollAnswer(es[0].outcome)) else stillOpen;
      NextNeedsOpenPoll(p, a, es);
      if !Over(b) {
        LogChained(p, b, rest, raised, open);
      }
      HeadChained(p, a, es, stillOpen);
    }
  }

  /** Whoever comes to need an open poll has just made one, or needed it before. */
  lemma NextNeedsOpenPoll(p: RecoveryPolicy, a: Await, es: seq<Event>)
    requires ValidPolicy(p) && AwaitOk(p, a) && Makes(a, es)
    ensures NeedsOpenPoll(NextAwait(p, a, Heard(a, es))) ==>
              if es[0].Polled? then StillOpen(PollAnswer(es[0].outcome)) else NeedsOpenPoll(a)
  {
  }

  /** A whole pass over a claim keeps the chain. */
  lemma PassIsChained(p: RecoveryPolicy, c: ReconcileClaim, es: seq<Event>, raised: bool)
    requires ValidPolicy(p) && ClaimOk(p, c) && BegunLog(p, c, es, raised)
    ensures Chained(es, c.token, c.expectedVersion, c.record.state.CancellationRequested?, false)
  {
    var a := ReconcileClaimed(p, c, es[0].now);
    ReconcileClaimedOk(p, c, es[0].now);
    if !Over(a) {
      LogChained(p, a, es[1..], raised, false);
    }
  }

  // ---------------------------------------------------------------- a logged pass makes progress

  predicate AllStored(es: seq<Event>) {
    forall k :: 0 <= k < |es| && es[k].CommitSent? ==> es[k].cas.CasStored?
  }

  /** The clock does not go back along the log. */
  predicate Clocked(t: Time, es: seq<Event>)
    decreases |es|
  {
    es == [] || (
      if es[0].ClockRead? then t <= es[0].now && Clocked(es[0].now, es[1..]) else Clocked(t, es[1..]))
  }

  /** The answers a pass heard, in order. */
  ghost function AnswersIn(p: RecoveryPolicy, a: Await, es: seq<Event>): seq<Answer>
    decreases |es|
  {
    if Over(a) || !AwaitOk(p, a) || !Makes(a, es) then []
    else [Heard(a, es)] + AnswersIn(p, NextAwait(p, a, Heard(a, es)), es[Spent(a, es)..])
  }

  lemma HeadClocked(a: Await, es: seq<Event>, t: Time)
    requires Makes(a, es) && Clocked(t, es) && (a.AtCommit? ==> a.next.updatedAt == t)
    ensures t <= Heard(a, es).now <= Heard(a, es).laterNow && Clocked(Heard(a, es).laterNow, es[Spent(a, es)..])
  {
    assert es[0].ClockRead? || Clocked(t, es[1..]);
    if Spent(a, es) >= 2 {
      assert es[1..][0] == es[1] && es[1..][1..] == es[2..];
      assert t <= es[1].now && Clocked(es[1].now, es[2..]);
    }
    if Spent(a, es) == 3 {
      assert es[2..][0] == es[2] && es[2..][1..] == es[3..];
    }
  }

  /** Every commit is computed at the last clock reading. */
  lemma NextUpdatedAt(p: RecoveryPolicy, a: Await, es: seq<Event>)
    requires ValidPolicy(p) && AwaitOk(p, a) && Makes(a, es)
    ensures var b := NextAwait(p, a, Heard(a, es)); b.AtCommit? ==> b.next.updatedAt == Heard(a, es).laterNow
  {
  }

  lemma {:induction false} LogIsForward(p: RecoveryPolicy, a: Await, es: seq<Event>, raised: bool, t: Time)
    requires ValidPolicy(p) && PassLog(p, a, es, raised) && AllStored(es) && Clocked(t, es)
    requires a.AtCommit? ==> a.next.updatedAt == t
    ensures Progress.Winning(AnswersIn(p, a, es)) && Progress.Forward(t, AnswersIn(p, a, es))
    decreases |es|
  {
    if !Over(a) {
      HeadClocked(a, es, t);
      NextUpdatedAt(p, a, es);
      LogIsForward(p, NextAwait(p, a, Heard(a, es)), es[Spent(a, es)..], raised, Heard(a, es).laterNow);
    }
  }

  lemma {:induction false} LogIsDriven(p: RecoveryPolicy, r: RunRecord, a: Await, es: seq<Event>, raised: bool)
    requires ValidPolicy(p) && AwaitOk(p, a) && PassLog(p, a, es, raised) && AllStored(es)
    requires Progress.Winning(AnswersIn(p, a, es))
    ensures var end := Progress.Drive(p, r, a, AnswersIn(p, a, es)).1; Over(end) && end.Raised? == raised
    decreases |es|
  {
    if !Over(a) {
      var b, rest := NextAwait(p, a, Heard(a, es)), es[Spent(a, es)..];
      NextAwaitOk(p, a, Heard(a, es));
      assert AnswersIn(p, a, es)[1..] == AnswersIn(p, b, rest);
      LogIsDriven(p, Progress.NextRecord(r, a), b, rest, raised);
    }
  }

  /** A logged pass that was due, on a clock that did not go back, and whose commits were all stored, is
      a complete pass: what it leaves behind has less left to do. */
  lemma LoggedPassProgresses(p: RecoveryPolicy, c: ReconcileClaim, es: seq<Event>)
    requires ValidPolicy(p) && ClaimOk(p, c) && !IsTerminal(c.record.state) && BegunLog(p, c, es, false)
    requires AllStored(es) && Clocked(c.record.reconcileAt.value, es)
    ensures var pass := Progress.Pass(c.token, c.leaseExpiresAt, es[0].now,
                                      AnswersIn(p, ReconcileClaimed(p, c, es[0].now), es[1..]));
      Progress.CompletePass(p, c.record, pass) && Progress.MoveFits(p, c.record, Progress.Reconciled(pass))
  {
    var a := ReconcileClaimed(p, c, es[0].now);
    ReconcileClaimedOk(p, c, es[0].now);
    LogIsForward(p, a, es[1..], false, es[0].now);
    LogIsDriven(p, c.record, a, es[1..], false);
  }

  // ---------------------------------------------------------------- the claims of a page

  /** One processed claim: all that its pass sent, whether that raised, and the release of its lease. */
  datatype Processed = Processed(claim: ReconcileClaim, events: seq<Event>, raised: bool, release: Event)

  ghost predicate ProcessedOk(p: RecoveryPolicy, d: Processed) {
    && ValidPolicy(p) && ClaimOk(p, d.claim) && BegunLog(p, d.claim, d.events, d.raised)
    && d.release.LeaseReleased? && d.release.claim == d.claim
  }

  /** The tick stops here: the pass raised, or the release of its lease did. */
  predicate Broke(d: Processed) {
    d.raised || (d.release.LeaseReleased? && d.release.released.Raises?)
  }

  /** Only the last claim processed may have raised. */
  ghost predicate DoneOk(p: RecoveryPolicy, done: seq<Processed>, k: nat)
    requires k < |done|
  {
    ProcessedOk(p, done[k]) && (k < |done| - 1 ==> !Broke(done[k]))
  }

  ghost predicate AllOk(p: RecoveryPolicy, done: seq<Processed>) {
    forall k {:trigger DoneOk(p, done, k)} :: 0 <= k < |done| ==> DoneOk(p, done, k)
  }

  predicate LastBroke(done: seq<Processed>) {
    done != [] && Broke(done[|done| - 1])
  }

  /** All that is sent for these claims: claim after claim, each one followed by the release. */
  function LogOf(done: seq<Processed>): seq<Event> {
    if done == [] then [] else LogOf(done[..|done| - 1]) + (done[|done| - 1].events + [done[|done| - 1].release])
  }

  lemma {:induction false} LogOfAppend(a: seq<Processed>, b: seq<Processed>)
    ensures LogOf(a + b) == LogOf(a) + LogOf(b)
  {
    if b == [] {
      assert a + b == a;
    } else {
      var last := b[|b| - 1];
      LogOfAppend(a, b[..|b| - 1]);
      assert (a + b)[..|a + b| - 1] == a + b[..|b| - 1];
      Regroup(LogOf(a), LogOf(b[..|b| - 1]), last.events + [last.release]);
    }
  }

  // ---------------------------------------------------------------- every lease is released once

  predicate Releasing(e: Event, token: nat) {
    e.LeaseReleased? && e.claim.token == token
  }

  /** How often the release of a lease was asked for. */
  function Releases(es: seq<Event>, token: nat): nat {
    if es == [] then 0
    else (if Releasing(es[|es| - 1], token) then 1 else 0) + Releases(es[..|es| - 1], token)
  }

  lemma {:induction false} ReleasesAppend(a: seq<Event>, b: seq<Event>, token: nat)
    ensures Releases(a + b, token) == Releases(a, token) + Releases(b, token)
  {
    if b == [] {
      assert a + b == a;
    } else {
      assert (a + b)[..|a + b| - 1] == a + b[..|b| - 1];
      ReleasesAppend(a, b[..|b| - 1], token);
    }
  }

  lemma ReleasesOne(e: Event, token: nat)
    ensures Releases([e], token) == if Releasing(e, token) then 1 else 0
  {
    assert [e][..0] == [];
  }

  lemma {:induction false} ChainedNeverReleases(es: seq<Event>, token: nat, version: int,
                                                cancelling: bool, stillOpen: bool, t: nat)
    requires Chained(es, token, version, cancelling, stillOpen)
    ensures Releases(es, t) == 0
    decreases |es|
  {
    if es != [] {
      var rest := es[1..];
      match es[0] {
        case ClockRead(_) => ChainedNeverReleases(rest, token, version, cancelling, stillOpen, t);
        case Polled(_, told) => ChainedNeverReleases(rest, token, version, cancelling, StillOpen(PollAnswer(told)), t);
        case CancelSent(_, _) => ChainedNeverReleases(rest, token, version, cancelling, stillOpen, t);
        case CommitSent(_, n, _, cas, _, _) =>
          if cas.CasStored? {
            ChainedNeverReleases(rest, token, n.version, n.state.CancellationRequested?, stillOpen, t);
          }
      }
      ReleasesOne(es[0], t);
      ReleasesAppend([es[0]], rest, t);
      assert [es[0]] + rest == es;
    }
  }

  /** No pass releases a lease; the tick does that. */
  lemma PassNeverReleases(p: RecoveryPolicy, d: Processed, token: nat)
    requires ProcessedOk(p, d)
    ensures Releases(d.events, token) == 0
  {
    PassIsChained(p, d.claim, d.events, d.raised);
    ChainedNeverReleases(d.events, d.claim.token, d.claim.expectedVersion, d.claim.record.state.CancellationRequested?,
                         false, token);
  }

  ghost predicate TookUp(done: seq<Processed>, token: nat) {
    exists k :: 0 <= k < |done| && done[k].claim.token == token
  }

  /** Each claim is processed under a lease of its own. */
  ghost predicate OwnLeases(done: seq<Processed>, from: nat, to: nat) {
    && from <= to
    && (forall k :: 0 <= k < |done| ==> from <= done[k].claim.token < to)
    && (forall j, k :: 0 <= j < k < |done| ==> done[j].claim.token < done[k].claim.token)
  }

  lemma TookUpLast(done: seq<Processed>, from: nat, to: nat, token: nat)
    requires done != [] && OwnLeases(done, from, to)
    ensures TookUp(done, token) <==> TookUp(done[..|done| - 1], token) || done[|done| - 1].claim.token == token
    ensures !(TookUp(done[..|done| - 1], token) && done[|done| - 1].claim.token == token)
  {
    var rest := done[..|done| - 1];
    if TookUp(done, token) && done[|done| - 1].claim.token != token {
      var k :| 0 <= k < |done| && done[k].claim.token == token;
      assert rest[k] == done[k];
    }
    if TookUp(rest, token) {
      var k :| 0 <= k < |rest| && rest[k].claim.token == token;
      assert done[k] == rest[k];
    }
  }

  lemma OneMoreRelease(before: seq<Event>, d: Processed, token: nat)
    requires d.release.LeaseReleased? && d.release.claim == d.claim && Releases(d.events, token) == 0
    ensures Releases(before + (d.events + [d.release]), token) ==
            Releases(before, token) + if d.claim.token == token then 1 else 0
  {
    ReleasesOne(d.release, token);
    ReleasesAppend(d.events, [d.release], token);
    ReleasesAppend(before, d.events + [d.release], token);
  }

  lemma FirstOk(p: RecoveryPolicy, done: seq<Processed>)
    requires done != [] && AllOk(p, done)
    ensures AllOk(p, done[..|done| - 1])
  {
    var first := done[..|done| - 1];
    forall k | 0 <= k < |first| ensures DoneOk(p, first, k) {
      assert DoneOk(p, done, k);
    }
  }

  /** The release of each lease taken up is asked for exactly once, and of no other, also when the last
      pass raised. */
  lemma {:induction false} EachLeaseReleasedOnce(p: RecoveryPolicy, done: seq<Processed>,
                                                 from: nat, to: nat, token: nat)
    requires AllOk(p, done) && OwnLeases(done, from, to)
    ensures Releases(LogOf(done), token) == if TookUp(done, token) then 1 else 0
  {
    if done != [] {
      var n := |done| - 1;
      assert DoneOk(p, done, n);
      FirstOk(p, done);
      EachLeaseReleasedOnce(p, done[..n], from, to, token);
      PassNeverReleases(p, done[n], token);
      OneMoreRelease(LogOf(done[..n]), done[n], token);
      TookUpLast(done, from, to, token);
    }
  }

  // ---------------------------------------------------------------- rounds

  /** The claims of the page, in order. */
  ghost predicate OverPage(done: seq<Processed>, claims: seq<ReconcileClaim>) {
    |done| <= |claims| && forall k :: 0 <= k < |done| ==> done[k].claim == claims[k]
  }

  /** One page and the passes over its claims. */
  datatype Round = Round(taken: Event, done: seq<Processed>)

  function RoundLog(r: Round): seq<Event> {
    [r.taken] + LogOf(r.done)
  }

  function RoundsLog(rounds: seq<Round>): seq<Event> {
    if rounds == [] then [] else RoundsLog(rounds[..|rounds| - 1]) + RoundLog(rounds[|rounds| - 1])
  }

  function AllDone(rounds: seq<Round>): seq<Processed> {
    if rounds == [] then [] else AllDone(rounds[..|rounds| - 1]) + rounds[|rounds| - 1].done
  }

  /** The page is taken as the policy says, and its claims are processed in order. */
  ghost predicate RoundOk(p: RecoveryPolicy, cursor: Option<nat>, scanNow: Time, r: Round) {
    && r.taken.PageTaken? && r.taken.cursor == cursor && r.taken.scanNow == scanNow
    && r.taken.limit == p.pageSize && r.taken.leaseDuration == p.leaseDuration
    && AllOk(p, r.done)
    && (match r.taken.page
        case Returns(page) => OverPage(r.done, page.claims) && |page.claims| <= p.pageSize
        case Raises => r.done == [])
  }

  /** Every claim of the page was processed, and nothing raised. */
  predicate RoundDone(r: Round) {
    && r.taken.PageTaken? && r.taken.page.Returns? && |r.done| == |r.taken.page.value.claims|
    && !LastBroke(r.done)
  }

  /** Where the scan goes on after these rounds. */
  function CursorAfter(rounds: seq<Round>): Option<nat> {
    if rounds == [] then None
    else
      var last := rounds[|rounds| - 1];
      if last.taken.PageTaken? && last.taken.page.Returns? then last.taken.page.value.next else None
  }

  /** A tick starts without a cursor, finishes each page, and goes on where that page ended. */
  ghost predicate RoundsOk(p: RecoveryPolicy, scanNow: Time, rounds: seq<Round>) {
    rounds == [] || (
      var n := |rounds| - 1;
      && RoundsOk(p, scanNow, rounds[..n]) && RoundOk(p, CursorAfter(rounds[..n]), scanNow, rounds[n])
      && (n > 0 ==> RoundDone(rounds[n - 1]) && CursorAfter(rounds[..n]).Some?))
  }

  /** The rounds of a tick, one by one: each page is asked for with the policy's page size and lease
      duration, at the tick's one reading of the clock, from where the page before it ended; only the
      last page may have failed or be left unfinished; and what is processed are its claims, in order. */
  lemma {:induction false} RoundsOneByOne(p: RecoveryPolicy, scanNow: Time, rounds: seq<Round>, k: nat)
    requires RoundsOk(p, scanNow, rounds) && k < |rounds|
    ensures var e, done := rounds[k].taken, rounds[k].done;
      && e.PageTaken? && e.limit == p.pageSize && e.leaseDuration == p.leaseDuration && e.scanNow == scanNow
      && (k == 0 ==> e.cursor == None)
      && (k > 0 ==>
            var before := rounds[k - 1].taken;
            && before.PageTaken? && before.page.Returns? && before.page.value.next.Some?
            && e.cursor == before.page.value.next && |rounds[k - 1].done| == |before.page.value.claims|)
      && (e.page.Raises? ==> done == [])
      && (e.page.Returns? ==>
            && |done| <= |e.page.value.claims|
            && forall i :: 0 <= i < |done| ==> done[i].claim == e.page.value.claims[i])
  {
    hide AllOk, LastBroke;
    if k < |rounds| - 1 {
      RoundsOneByOne(p, scanNow, rounds[..|rounds| - 1], k);
    }
  }

  lemma AllOkAppend(p: RecoveryPolicy, a: seq<Processed>, b: seq<Processed>)
    requires AllOk(p, a) && AllOk(p, b) && (b != [] ==> !LastBroke(a))
    ensures AllOk(p, a + b)
  {
    var all := a + b;
    forall k | 0 <= k < |all| ensures DoneOk(p, all, k) {
      if k < |a| {
        assert DoneOk(p, a, k);
      } else {
        assert DoneOk(p, b, k - |a|);
      }
    }
  }

  /** Everything processed in a tick is in order, and only its last claim may have raised. */
  lemma {:induction false} AllDoneOk(p: RecoveryPolicy, scanNow: Time, rounds: seq<Round>)
    requires RoundsOk(p, scanNow, rounds)
    ensures AllOk(p, AllDone(rounds))
    ensures rounds != [] && RoundDone(rounds[|rounds| - 1]) ==> !LastBroke(AllDone(rounds))
  {
    if rounds != [] {
      var n := |rounds| - 1;
      AllDoneOk(p, scanNow, rounds[..n]);
      AllOkAppend(p, AllDone(rounds[..n]), rounds[n].done);
    }
  }

  /** Pages release nothing, so a tick releases what its passes do. */
  lemma {:induction false} RoundsRelease(p: RecoveryPolicy, scanNow: Time, rounds: seq<Round>, token: nat)
    requires RoundsOk(p, scanNow, rounds)
    ensures Releases(RoundsLog(rounds), token) == Releases(LogOf(AllDone(rounds)), token)
  {
    if rounds != [] {
      var earlier, last := rounds[..|rounds| - 1], rounds[|rounds| - 1];
      RoundsRelease(p, scanNow, earlier, token);
      LogOfAppend(AllDone(earlier), last.done);
      ReleasesAppend(LogOf(AllDone(earlier)), LogOf(last.done), token);
      ReleasesAppend(RoundsLog(earlier), RoundLog(last), token);
      ReleasesAppend([last.taken], LogOf(last.done), token);
      ReleasesOne(last.taken, token);
    }
  }

  /** In everything a tick sends, the release of each lease it took up is asked for exactly once, and
      of no other: also when a poll, a commit, a page or a release raised on the way. */
  lemma TickReleasesEachLeaseOnce(p: RecoveryPolicy, scanNow: Time, rounds: seq<Round>, from: nat, to: nat, token: nat)
    requires RoundsOk(p, scanNow, rounds) && OwnLeases(AllDone(rounds), from, to)
    ensures Releases([ClockRead(scanNow)] + RoundsLog(rounds), token) == if TookUp(AllDone(rounds), token) then 1 else 0
  {
    AllDoneOk(p, scanNow, rounds);
    RoundsRelease(p, scanNow, rounds, token);
    EachLeaseReleasedOnce(p, AllDone(rounds), from, to, token);
    ReleasesOne(ClockRead(scanNow), token);
    ReleasesAppend([ClockRead(scanNow)], RoundsLog(rounds), token);
  }

  lemma OneMorePage(n: nat, size: int)
    ensures (n + 1) * size == n * size + size
  {
  }

  lemma {:induction false} PageBound(p: RecoveryPolicy, scanNow: Time, rounds: seq<Round>)
    requires ValidPolicy(p) && RoundsOk(p, scanNow, rounds)
    ensures |AllDone(rounds)| <= |rounds| * p.pageSize
  {
    if rounds != [] {
      var n := |rounds| - 1;
      PageBound(p, scanNow, rounds[..n]);
      assert |rounds[n].done| <= p.pageSize;
      OneMorePage(n, p.pageSize);
    }
  }
}
