/** `RunReconciler` as the code runs it (examples/run_gateway/recovery.py): methods over an environment
    in which other activities are free to act, and the store to raise, at every await.  What each
    method sends is determined, call by call, by what it was answered. */
module ReconcilerTick {
  import opened Outcomes
  import opened Domain
  import opened Store
  import opened Recovery
  import opened Surroundings
  import opened Passes
  import Traces

  class RunReconciler {
    const env: Environment
    const policy: RecoveryPolicy

    constructor (env: Environment)
      ensures this.env == env && this.policy == env.policy
    {
      this.env, this.policy := env, env.policy;
    }

    ghost predicate Ready()
      reads env.store, env`log
    {
      policy == env.policy && env.Ready()
    }

    /** A commit after which the pass returns, whatever the store answers. */
    method CommitLast(claim: ReconcileClaim, next: Result<RunRecord, Error>)
      returns (raised: bool, ghost sent: seq<Event>)
      requires Ready() && Known(env.State(), claim.record)
      requires AwaitOk(policy, CommitOf(claim, next, ThenReturn))
      modifies env`log, env.store
      ensures Ready() && Later(old(env.State()), env.State()) && env.log == old(env.log) + sent
      ensures PassLog(policy, CommitOf(claim, next, ThenReturn), sent, raised)
    {
      if next.Err? {
        ItselfLater(env.State());
        return true, [];
      }
      var cas, e := env.ReconcileCompareAndSet(claim, next.value);
      CommitEnds(policy, claim, next.value, ThenReturn, e);
      return cas.CasRaised?, [e];
    }

    /** `_safe_poll`: a raising poll counts as unavailable. */
    method SafePoll(callId: CallId) returns (o: PollOutcome, ghost e: Event)
      requires Ready()
      modifies env`log, env.store
      ensures Ready() && Later(old(env.State()), env.State()) && env.log == old(env.log) + [e]
      ensures e.Polled? && e.callId == callId && o == PollAnswer(e.outcome)
    {
      var told := env.Poll(callId);
      o := if told.Returns? then told.value else PollUnavailable;
      e := Polled(callId, told);
    }

    /** `_indeterminate`, as the last commit of a pass. */
    method Indeterminate(claim: ReconcileClaim, now: Time, reason: TerminalReason)
      returns (raised: bool, ghost sent: seq<Event>)
      requires Ready() && Known(env.State(), claim.record)
      requires AwaitOk(policy, SealIndeterminate(claim, now, reason, ThenReturn))
      modifies env`log, env.store
      ensures Ready() && Later(old(env.State()), env.State()) && env.log == old(env.log) + sent
      ensures PassLog(policy, SealIndeterminate(claim, now, reason, ThenReturn), sent, raised)
    {
      raised, sent := CommitLast(claim,
        Transition(claim.record, RunState.Indeterminate, now, NO_CHANGES.(reason := Some(reason))));
    }

    /** `_finish_from_poll`. */
    method FinishPolled(claim: ReconcileClaim, o: PollOutcome, now: Time) returns (raised: bool, ghost sent: seq<Event>)
      requires Ready() && Known(env.State(), claim.record)
      requires AwaitOk(policy, FinishFromPoll(claim, o, now))
      modifies env`log, env.store
      ensures Ready() && Later(old(env.State()), env.State()) && env.log == old(env.log) + sent
      ensures PassLog(policy, FinishFromPoll(claim, o, now), sent, raised)
    {
      var state, reason;
      match o {
        case PollSucceeded => state, reason := Succeeded, TrajectorySucceeded;
        case PollFailed(timeout) => state, reason := Failed, if timeout then FunctionTimeout else TrajectoryFailed;
        case PollTerminated =>
          state, reason := if claim.record.state.CancellationRequested? then Cancelled else Failed, Terminated;
        case _ =>
          raised, sent := Indeterminate(claim, now, ProviderAmbiguous);
          return;
      }
      raised, sent := CommitLast(claim, Transition(claim.record, state, now, NO_CHANGES.(reason := Some(reason))));
    }

    /** `_provider_unavailable`: the record it asked the store to write, if it got that far, and the
        answer. */
    method OnProviderUnavailable(claim: ReconcileClaim, now: Time, keepDue: Option<Time>, ghost after: After)
      returns (next: Option<RunRecord>, cas: CasAnswer, ghost sent: seq<Event>)
      requires Ready() && Known(env.State(), claim.record) && ClaimOk(policy, claim)
      requires AwaitOk(policy, ProviderUnavailable(policy, claim, now, keepDue, after))
      modifies env`log, env.store
      ensures Ready() && Later(old(env.State()), env.State()) && env.log == old(env.log) + sent
      ensures next.None? ==> ProviderUnavailable(policy, claim, now, keepDue, after).Raised? && sent == []
      ensures next.Some? ==>
        && ProviderUnavailable(policy, claim, now, keepDue, after) == AtCommit(claim, next.value, after)
        && |sent| == 1 && IsCommit(sent[0], claim, next.value, cas)
        && (cas.CasStored? ==> Known(env.State(), next.value))
    {
      hide Later, RecordsOk;
      var count := claim.record.providerErrors + 1;
      var result;
      ItselfLater(env.State());
      if count >= policy.maxProviderErrors {
        result := Transition(claim.record, RunState.Indeterminate, now, NO_CHANGES.(reason := Some(ProviderErrorCap)));
      } else {
        var delay := Backoff(policy.providerBackoffInitial, policy.providerBackoffMax, count);
        if delay.Err? {
          return None, CasRaised, [];
        }
        var due := if keepDue.Some? then keepDue.value else Min(claim.record.deadlineAt, now + delay.value);
        result := Reschedule(claim.record, now, due, Some(count), None, None);
      }
      if result.Err? {
        return None, CasRaised, [];
      }
      ghost var e;
      next := Some(result.value);
      cas, e := env.ReconcileCompareAndSet(claim, result.value);
      sent := [e];
    }

    /** `_cancel`. */
    method SendCancel(claim: ReconcileClaim) returns (raised: bool, ghost sent: seq<Event>)
      requires Ready() && Known(env.State(), claim.record)
      requires ClaimOk(policy, claim) && claim.record.state.CancellationRequested?
      modifies env`log, env.store
      ensures Ready() && Later(old(env.State()), env.State()) && env.log == old(env.log) + sent
      ensures CancelLog(policy, claim, sent, raised)
    {
      var now := env.Clock();
      ghost var rest;
      BeginCancelOk(policy, claim, now);
      if now >= claim.record.cancelDeadlineAt.value {
        raised, rest := Indeterminate(claim, now, CancellationDeadline);
      } else {
        raised, rest := AskToCancel(claim);
      }
      sent := [ClockRead(now)] + rest;
      assert sent[1..] == rest;
      Regroup(old(env.log), [ClockRead(now)], rest);
    }

    /** The provider call of `_cancel` and what follows it. */
    method AskToCancel(claim: ReconcileClaim) returns (raised: bool, ghost sent: seq<Event>)
      requires Ready() && Known(env.State(), claim.record)
      requires AwaitOk(policy, AtCancel(claim))
      modifies env`log, env.store
      ensures Ready() && Later(old(env.State()), env.State()) && env.log == old(env.log) + sent
      ensures PassLog(policy, AtCancel(claim), sent, raised)
    {
      ghost var before := env.State();
      var reply := env.Cancel(claim.record.callId.value);
      var now := env.Clock();
      var o := match reply
        case Replied(outcome) => outcome
        case RepliedOtherwise => CancelIndeterminate
        case CancelThrew => CancelUnavailable;
      ghost var middle := env.State();
      KnownLater(before, middle, claim.record);
      AfterCancelOk(policy, claim, o, now);
      ghost var head := [Event.CancelSent(claim.record.callId.value, reply), ClockRead(now)];
      assert env.log == old(env.log) + head;
      ghost var rest;
      raised, rest := AfterCancelAnswer(claim, o, now);
      LaterTrans(before, middle, env.State());
      sent := head + rest;
      Regroup(old(env.log), head, rest);
      Continues(policy, AtCancel(claim), head, rest, raised);
    }

    /** The rest of `_cancel`, once the provider answered. */
    method AfterCancelAnswer(claim: ReconcileClaim, o: CancelOutcome, now: Time)
      returns (raised: bool, ghost sent: seq<Event>)
      requires Ready() && Known(env.State(), claim.record)
      requires ClaimOk(policy, claim) && claim.record.state.CancellationRequested?
      requires AwaitOk(policy, AfterCancel(policy, claim, o, now))
      modifies env`log, env.store
      ensures Ready() && Later(old(env.State()), env.State()) && env.log == old(env.log) + sent
      ensures PassLog(policy, AfterCancel(policy, claim, o, now), sent, raised)
    {
      hide CommitOk, Transition, Reschedule, Later, PassLog;
      var r := claim.record;
      var deadline := r.cancelDeadlineAt.value;
      if now >= deadline {
        raised, sent := Indeterminate(claim, now, CancellationDeadline);
      } else if o.CancelIndeterminate? {
        raised, sent := Indeterminate(claim, now, CancellationAmbiguous);
      } else if o.CancelUnavailable? {
        var count := r.cancelErrors + 1;
        if count >= policy.maxCancelErrors {
          raised, sent := Indeterminate(claim, now, CancellationErrorCap);
        } else {
          var delay := Backoff(policy.cancelBackoffInitial, policy.cancelBackoffMax, count);
          if delay.Err? {
            ItselfLater(env.State());
            RaisedLog(policy, delay.error);
            return true, [];
          }
          raised, sent := CommitLast(claim,
            Reschedule(r, now, Min(now + delay.value, deadline), None, Some(count), Some(now)));
        }
      } else {
        raised, sent := CommitLast(claim,
          Reschedule(r, now, Min(now + policy.pollInterval, deadline), None, Some(0), Some(now)));
      }
    }

    /** What `_poll_cancellation` does after a commit that keeps the run cancelling: return if it was
        lost or sealed the run, go on to `_cancel` otherwise. */
    method ContinueToCancel(claim: ReconcileClaim, next: RunRecord, cas: CasAnswer, ghost e: Event)
      returns (raised: bool, ghost sent: seq<Event>)
      requires Ready() && AwaitOk(policy, AtCommit(claim, next, ThenCancel)) && IsCommit(e, claim, next, cas)
      requires cas.CasStored? ==> Known(env.State(), next)
      modifies env`log, env.store
      ensures Ready() && Later(old(env.State()), env.State()) && env.log == old(env.log) + sent
      ensures PassLog(policy, AtCommit(claim, next, ThenCancel), [e] + sent, raised)
    {
      if !cas.CasStored? || next.state.Indeterminate? {
        ItselfLater(env.State());
        CommitEnds(policy, claim, next, ThenCancel, e);
        assert [e] + [] == [e];
        return cas.CasRaised?, [];
      }
      AfterCommitOk(policy, claim, next, ThenCancel, true, 0);
      raised, sent := SendCancel(Advanced(claim, next).value);
      Continues(policy, AtCommit(claim, next, ThenCancel), [e, sent[0]], sent[1..], raised);
      assert [e] + sent == [e, sent[0]] + sent[1..];
    }

    /** `_poll_cancellation`, once the provider answered: the events after those of the poll. */
    method AfterCancellationAnswer(claim: ReconcileClaim, o: PollOutcome, now: Time)
      returns (raised: bool, ghost sent: seq<Event>)
      requires Ready() && Known(env.State(), claim.record)
      requires ClaimOk(policy, claim) && claim.record.state.CancellationRequested?
      requires AwaitOk(policy, AfterCancellationPoll(policy, claim, o, now, now))
      modifies env`log, env.store
      ensures Ready() && Later(old(env.State()), env.State()) && env.log == old(env.log) + sent
      ensures if CancelsAtOnce(claim, o, now) then CancelLog(policy, claim, sent, raised)
              else PassLog(policy, AfterCancellationPoll(policy, claim, o, now, now), sent, raised)
    {
      var r := claim.record;
      if !o.PollPending? && !o.PollUnavailable? {
        raised, sent := FinishPolled(claim, o, now);
      } else if now >= r.cancelDeadlineAt.value {
        raised, sent := Indeterminate(claim, now, CancellationDeadline);
      } else if o.PollUnavailable? {
        raised, sent := CountUnavailable(claim, now);
      } else if r.providerErrors != 0 {
        raised, sent := ResetErrors(claim, now);
      } else {
        raised, sent := SendCancel(claim);
      }
    }

    /** An unavailable poll of a cancelling run: count it, then go on to `_cancel`. */
    method CountUnavailable(claim: ReconcileClaim, now: Time) returns (raised: bool, ghost sent: seq<Event>)
      requires Ready() && Known(env.State(), claim.record)
      requires ClaimOk(policy, claim) && claim.record.state.CancellationRequested?
      requires AwaitOk(policy, ProviderUnavailable(policy, claim, now, Some(now), ThenCancel))
      modifies env`log, env.store
      ensures Ready() && Later(old(env.State()), env.State()) && env.log == old(env.log) + sent
      ensures PassLog(policy, ProviderUnavailable(policy, claim, now, Some(now), ThenCancel), sent, raised)
    {
      ghost var before := env.State();
      var next, cas;
      ghost var head, rest;
      next, cas, head := OnProviderUnavailable(claim, now, Some(now), ThenCancel);
      if next.None? {
        return true, [];
      }
      ghost var middle := env.State();
      raised, rest := ContinueToCancel(claim, next.value, cas, head[0]);
      LaterTrans(before, middle, env.State());
      sent := [head[0]] + rest;
      assert head == [head[0]];
      Regroup(old(env.log), head, rest);
    }

    /** A poll of a cancelling run that works again: reset its error count, then go on to `_cancel`. */
    method ResetErrors(claim: ReconcileClaim, now: Time) returns (raised: bool, ghost sent: seq<Event>)
      requires Ready() && Known(env.State(), claim.record)
      requires ClaimOk(policy, claim) && claim.record.state.CancellationRequested?
      requires AwaitOk(policy, CommitOf(claim, Reschedule(claim.record, now, now, Some(0), None, None), ThenCancel))
      modifies env`log, env.store
      ensures Ready() && Later(old(env.State()), env.State()) && env.log == old(env.log) + sent
      ensures PassLog(policy, CommitOf(claim, Reschedule(claim.record, now, now, Some(0), None, None), ThenCancel),
                      sent, raised)
    {
      ghost var before := env.State();
      var reset := Reschedule(claim.record, now, now, Some(0), None, None).value;
      var cas;
      ghost var e, rest;
      cas, e := env.ReconcileCompareAndSet(claim, reset);
      ghost var middle := env.State();
      raised, rest := ContinueToCancel(claim, reset, cas, e);
      LaterTrans(before, middle, env.State());
      sent := [e] + rest;
      Regroup(old(env.log), [e], rest);
    }

    /** `_poll_cancellation`.  A cancelling record always has its call identity. */
    method PollCancellation(claim: ReconcileClaim) returns (raised: bool, ghost sent: seq<Event>)
      requires Ready() && Known(env.State(), claim.record)
      requires AwaitOk(policy, AtCancellationPoll(claim))
      modifies env`log, env.store
      ensures Ready() && Later(old(env.State()), env.State()) && env.log == old(env.log) + sent
      ensures PassLog(policy, AtCancellationPoll(claim), sent, raised)
    {
      ghost var before := env.State();
      var o;
      ghost var e, rest;
      o, e := SafePoll(claim.record.callId.value);
      var now := env.Clock();
      AfterCancellationPollOk(policy, claim, o, now, now);
      ghost var middle := env.State();
      KnownLater(before, middle, claim.record);
      ghost var head := [e, ClockRead(now)];
      assert env.log == old(env.log) + head;
      raised, rest := AfterCancellationAnswer(claim, o, now);
      LaterTrans(before, middle, env.State());
      sent := head + rest;
      Regroup(old(env.log), head, rest);
      PolledCancellation(policy, claim, e, now, rest, raised);
    }

    /** Records the cancellation first, and polls only once that is stored. */
    method CommitCancellation(claim: ReconcileClaim, now: Time) returns (raised: bool, ghost sent: seq<Event>)
      requires Ready() && Known(env.State(), claim.record)
      requires ClaimOk(policy, claim) && claim.record.state.Running?
      modifies env`log, env.store
      ensures Ready() && Later(old(env.State()), env.State()) && env.log == old(env.log) + sent
      ensures PassLog(policy, RequestCancellation(policy, claim, now), sent, raised)
    {
      RequestCancellationOk(policy, claim, now);
      ghost var before := env.State();
      var requested := Transition(claim.record, CancellationRequested, now,
        NO_CHANGES.(reconcileAt := Some(now), cancelRequestedAt := Some(now),
                    cancelDeadlineAt := Some(now + policy.cancellationGrace))).value;
      var cas;
      ghost var e, rest;
      cas, e := env.ReconcileCompareAndSet(claim, requested);
      if !cas.CasStored? {
        CommitEnds(policy, claim, requested, ThenPollCancellation, e);
        return cas.CasRaised?, [e];
      }
      ghost var middle := env.State();
      AfterCommitOk(policy, claim, requested, ThenPollCancellation, true, now);
      raised, rest := PollCancellation(Advanced(claim, requested).value);
      LaterTrans(before, middle, env.State());
      sent := [e] + rest;
      Regroup(old(env.log), [e], rest);
      Continues(policy, AtCommit(claim, requested, ThenPollCancellation), [e], rest, raised);
    }

    /** `_poll`, once the provider answered. */
    method AfterPollAnswer(claim: ReconcileClaim, o: PollOutcome, now: Time)
      returns (raised: bool, ghost sent: seq<Event>)
      requires Ready() && Known(env.State(), claim.record)
      requires ClaimOk(policy, claim) && claim.record.state.Running?
               && AwaitOk(policy, AfterPoll(policy, claim, o, now))
      modifies env`log, env.store
      ensures Ready() && Later(old(env.State()), env.State()) && env.log == old(env.log) + sent
      ensures PassLog(policy, AfterPoll(policy, claim, o, now), sent, raised)
    {
      var r := claim.record;
      if (o.PollPending? || o.PollUnavailable?) && now >= r.deadlineAt {
        raised, sent := CommitCancellation(claim, now);
      } else if o.PollPending? {
        raised, sent := CommitLast(claim,
          Reschedule(r, now, Min(r.deadlineAt, now + policy.pollInterval), Some(0), None, None));
      } else if o.PollUnavailable? {
        var next, cas;
        next, cas, sent := OnProviderUnavailable(claim, now, None, ThenReturn);
        raised := next.None? || cas.CasRaised?;
        if next.Some? {
          CommitEnds(policy, claim, next.value, ThenReturn, sent[0]);
          assert sent == [sent[0]];
        }
      } else {
        raised, sent := FinishPolled(claim, o, now);
      }
    }

    /** `_poll`.  A running record always has its call identity. */
    method PollRunning(claim: ReconcileClaim) returns (raised: bool, ghost sent: seq<Event>)
      requires Ready() && Known(env.State(), claim.record)
      requires AwaitOk(policy, AtPoll(claim))
      modifies env`log, env.store
      ensures Ready() && Later(old(env.State()), env.State()) && env.log == old(env.log) + sent
      ensures PassLog(policy, AtPoll(claim), sent, raised)
    {
      ghost var before := env.State();
      var o;
      ghost var e, rest;
      o, e := SafePoll(claim.record.callId.value);
      var now := env.Clock();
      AfterPollOk(policy, claim, o, now);
      ghost var middle := env.State();
      KnownLater(before, middle, claim.record);
      ghost var head := [e, ClockRead(now)];
      assert env.log == old(env.log) + head;
      raised, rest := AfterPollAnswer(claim, o, now);
      LaterTrans(before, middle, env.State());
      sent := head + rest;
      Regroup(old(env.log), head, rest);
      Continues(policy, AtPoll(claim), head, rest, raised);
    }

    /** `_reconcile_claim`, after it read the clock. */
    method ReconcileBegun(claim: ReconcileClaim, now: Time) returns (raised: bool, ghost sent: seq<Event>)
      requires Ready() && Known(env.State(), claim.record) && ClaimOk(policy, claim)
      requires AwaitOk(policy, ReconcileClaimed(policy, claim, now))
      modifies env`log, env.store
      ensures Ready() && Later(old(env.State()), env.State()) && env.log == old(env.log) + sent
      ensures PassLog(policy, ReconcileClaimed(policy, claim, now), sent, raised)
    {
      var r := claim.record;
      raised, sent := false, [];
      ItselfLater(env.State());
      if r.state.Reserved? {
        if now >= r.deadlineAt {
          raised, sent := CommitLast(claim,
            Transition(r, Cancelled, now, NO_CHANGES.(reason := Some(ExpiredBeforeDispatch))));
        } else {
          raised, sent := CommitLast(claim, Reschedule(r, now, r.deadlineAt, None, None, None));
        }
      } else if r.state.Dispatching? {
        if now >= r.deadlineAt || now - r.stateChangedAt >= policy.dispatchStaleAfter {
          raised, sent := Indeterminate(claim, now, DispatchAmbiguous);
        }
      } else if r.state.Running? {
        if now >= r.deadlineAt {
          raised, sent := CommitCancellation(claim, now);
        } else {
          raised, sent := PollRunning(claim);
        }
      } else if r.state.CancellationRequested? {
        raised, sent := PollCancellation(claim);
      }
    }

    /** `_reconcile_claim`: the calls it makes, and how it ends, are those of the pass function for the
        answers it got; so they are chained. */
    method ReconcileClaimStep(claim: ReconcileClaim) returns (raised: bool, ghost sent: seq<Event>)
      requires Ready() && Known(env.State(), claim.record) && ClaimOk(policy, claim)
      modifies env`log, env.store
      ensures Ready() && Later(old(env.State()), env.State()) && env.log == old(env.log) + sent
      ensures BegunLog(policy, claim, sent, raised) && Traces.PassTrace(policy, claim, sent, raised)
      ensures Chained(sent, claim.token, claim.expectedVersion, claim.record.state.CancellationRequested?, false)
    {
      var now := env.Clock();
      ghost var rest;
      ReconcileClaimedOk(policy, claim, now);
      raised, rest := ReconcileBegun(claim, now);
      sent := [ClockRead(now)] + rest;
      assert sent[1..] == rest;
      Regroup(old(env.log), [ClockRead(now)], rest);
      PassIsChained(policy, claim, sent, raised);
      Traces.PassIsTrace(policy, claim, sent, raised);
    }

    /** One claim of a page: process it and, whatever happens, release its lease. */
    method ProcessOne(claim: ReconcileClaim) returns (raised: bool, ghost done: Processed)
      requires Ready() && Known(env.State(), claim.record) && ClaimOk(policy, claim)
      modifies env`log, env.store
      ensures Ready() && Later(old(env.State()), env.State())
      ensures done.claim == claim && ProcessedOk(policy, done) && raised == Broke(done)
      ensures env.log == old(env.log) + (done.events + [done.release])
    {
      ghost var s := env.State();
      ghost var events, e;
      var broke, released;
      broke, events := ReconcileClaimStep(claim);
      ghost var t := env.State();
      released, e := env.ReleaseReconcileLease(claim);
      LaterTrans(s, t, env.State());
      done := Processed(claim, events, broke, e);
      raised := broke || released.Raises?;
      Regroup(old(env.log), events, [e]);
    }

    /** The claims of one page, in order, up to one that raises. */
    method ProcessPage(claims: seq<ReconcileClaim>) returns (processed: nat, raised: bool, ghost done: seq<Processed>)
      requires Ready() && PageReady(policy, env.State(), claims, 0)
      modifies env`log, env.store
      ensures Ready() && Later(old(env.State()), env.State()) && env.log == old(env.log) + LogOf(done)
      ensures AllOk(policy, done) && OverPage(done, claims) && raised == LastBroke(done)
      ensures if raised then processed + 1 == |done| else processed == |done| == |claims|
    {
      hide AllOk, LastBroke, LogOf, OverPage, ProcessedOk, Broke, Later;
      processed, raised, done := 0, false, [];
      ItselfLater(env.State());
      NoneDone(policy, old(env.log), claims);
      while processed < |claims|
        invariant Ready() && Later(old(env.State()), env.State()) && PageReady(policy, env.State(), claims, processed)
        invariant 0 <= processed == |done| <= |claims| && !raised && AllOk(policy, done) && !LastBroke(done)
        invariant OverPage(done, claims) && env.log == old(env.log) + LogOf(done)
      {
        ghost var s := env.State();
        ghost var one;
        raised, one := ProcessOne(claims[processed]);
        LaterTrans(old(env.State()), s, env.State());
        PageReadyLater(policy, s, env.State(), claims, processed);
        AddOne(policy, old(env.log), done, one);
        OverOneMore(done, one, claims);
        done := done + [one];
        if raised {
          return;
        }
        processed := processed + 1;
      }
    }

    /** One round of the tick's loop. */
    method NextRound(cursor: Option<nat>, scanNow: Time)
      returns (next: Option<nat>, processed: nat, raised: bool, ghost round: Round)
      requires Ready()
      modifies env`log, env.store
      ensures Ready() && Later(old(env.State()), env.State()) && env.log == old(env.log) + RoundLog(round)
      ensures RoundOk(policy, cursor, scanNow, round) && raised == !RoundDone(round)
      ensures OwnLeases(round.done, old(env.store.nextToken), env.store.nextToken)
      ensures processed == |round.done| - if LastBroke(round.done) then 1 else 0
      ensures next == CursorAfter([round])
    {
      ghost var s := env.State();
      var page;
      ghost var e, done;
      page, e := env.ClaimReconcilePage(cursor, scanNow, policy.pageSize, policy.leaseDuration);
      ghost var t := env.State();
      assert Later(s, t);
      if page.Raises? {
        round := Round(e, []);
        assert [e] + [] == [e];
        return None, 0, true, round;
      }
      processed, raised, done := ProcessPage(page.value.claims);
      LaterTrans(s, t, env.State());
      OverPageOwnLeases(done, page.value.claims, s.nextToken, t.nextToken, env.store.nextToken);
      round := Round(e, done);
      next := page.value.next;
      Regroup(old(env.log), [e], LogOf(done));
    }

    /** `reconcile`: one tick.  It reads the clock and sends exactly its rounds: it takes page after page,
        each from where the last one ended, until there is none left or the page bound is reached; it
        processes every claim in order, each under a lease of its own, and releases its lease, also when
        processing it raised; and it ends early exactly when a call that is not guarded raised. */
    method Reconcile() returns (processed: nat, raised: bool, ghost scanNow: Time, ghost rounds: seq<Round>)
      requires Ready()
      modifies env`log, env.store
      ensures Ready() && Later(old(env.State()), env.State())
      ensures env.log == old(env.log) + ([ClockRead(scanNow)] + RoundsLog(rounds))
      ensures RoundsOk(policy, scanNow, rounds) && 1 <= |rounds| <= policy.maxPagesPerTick
      ensures OwnLeases(AllDone(rounds), old(env.store.nextToken), env.store.nextToken)
      ensures AllOk(policy, AllDone(rounds))
      ensures processed == |AllDone(rounds)| - if LastBroke(AllDone(rounds)) then 1 else 0
      ensures raised == !RoundDone(rounds[|rounds| - 1])
      ensures !raised ==> CursorAfter(rounds).None? || |rounds| == policy.maxPagesPerTick
    {
      hide RoundsOk, RoundOk, AllOk, OwnLeases, RoundsLog, AllDone, LastBroke, Later;
      processed, raised, rounds := 0, false, [];
      var cursor: Option<nat> := None;
      var now := env.Clock();
      scanNow := now;
      ItselfLater(env.State());
      ghost var start := env.log;
      NoRounds(policy, scanNow, start, env.store.nextToken);
      for pages := 0 to policy.maxPagesPerTick
        invariant Ready() && Later(old(env.State()), env.State())
        invariant |rounds| == pages && processed == |AllDone(rounds)| && !raised
        invariant RoundsOk(policy, scanNow, rounds) && env.log == start + RoundsLog(rounds)
        invariant OwnLeases(AllDone(rounds), old(env.store.nextToken), env.store.nextToken)
        invariant AllOk(policy, AllDone(rounds)) && !LastBroke(AllDone(rounds))
        invariant cursor == CursorAfter(rounds)
        invariant rounds != [] ==> RoundDone(rounds[|rounds| - 1]) && cursor.Some?
      {
        ghost var s := env.State();
        ghost var round;
        var more;
        cursor, more, raised, round := NextRound(cursor, now);
        LaterTrans(old(env.State()), s, env.State());
        AddRound(policy, scanNow, start, rounds, round);
        OwnLeasesAppend(AllDone(rounds), round.done, old(env.store.nextToken), s.nextToken, env.store.nextToken);
        rounds, processed := rounds + [round], processed + more;
        if raised || cursor.None? {
          Regroup(old(env.log), [ClockRead(scanNow)], RoundsLog(rounds));
          return;
        }
      }
      Regroup(old(env.log), [ClockRead(scanNow)], RoundsLog(rounds));
    }
  }

  lemma RaisedLog(p: RecoveryPolicy, e: Error)
    ensures PassLog(p, Raised(e), [], true)
  {
  }

  /** The events of a cancellation poll and of what followed it are the log of that await. */
  lemma PolledCancellation(p: RecoveryPolicy, c: ReconcileClaim, e: Event, now: Time, rest: seq<Event>, raised: bool)
    requires ValidPolicy(p) && AwaitOk(p, AtCancellationPoll(c)) && e.Polled? && c.record.callId == Some(e.callId)
    requires if CancelsAtOnce(c, PollAnswer(e.outcome), now) then CancelLog(p, c, rest, raised)
             else PassLog(p, AfterCancellationPoll(p, c, PollAnswer(e.outcome), now, now), rest, raised)
    ensures PassLog(p, AtCancellationPoll(c), [e, ClockRead(now)] + rest, raised)
  {
    if CancelsAtOnce(c, PollAnswer(e.outcome), now) {
      Continues(p, AtCancellationPoll(c), [e, ClockRead(now), rest[0]], rest[1..], raised);
      assert [e, ClockRead(now)] + rest == [e, ClockRead(now), rest[0]] + rest[1..];
    } else {
      Continues(p, AtCancellationPoll(c), [e, ClockRead(now)], rest, raised);
    }
  }

  lemma PageReadyLater(p: RecoveryPolicy, s: StoreState, t: StoreState, claims: seq<ReconcileClaim>, from: nat)
    requires PageReady(p, s, claims, from) && Later(s, t)
    ensures PageReady(p, t, claims, from)
  {
    forall k {:trigger claims[k]} | from <= k < |claims| ensures ClaimOk(p, claims[k]) && Known(t, claims[k].record) {
      KnownLater(s, t, claims[k].record);
    }
  }

  lemma NoneDone(p: RecoveryPolicy, before: seq<Event>, claims: seq<ReconcileClaim>)
    ensures AllOk(p, []) && !LastBroke([]) && OverPage([], claims) && before + LogOf([]) == before
  {
  }

  lemma OverOneMore(done: seq<Processed>, one: Processed, claims: seq<ReconcileClaim>)
    requires OverPage(done, claims) && |done| < |claims| && one.claim == claims[|done|]
    ensures OverPage(done + [one], claims)
  {
  }

  lemma AddOne(p: RecoveryPolicy, before: seq<Event>, done: seq<Processed>, one: Processed)
    requires AllOk(p, done) && !LastBroke(done) && ProcessedOk(p, one)
    ensures AllOk(p, done + [one]) && LastBroke(done + [one]) == Broke(one)
    ensures before + LogOf(done) + (one.events + [one.release]) == before + LogOf(done + [one])
  {
    assert DoneOk(p, [one], 0);
    AllOkAppend(p, done, [one]);
    assert (done + [one])[..|done|] == done;
    Regroup(before, LogOf(done), one.events + [one.release]);
  }

  lemma OverPageOwnLeases(done: seq<Processed>, claims: seq<ReconcileClaim>, from: nat, mid: nat, to: nat)
    requires OverPage(done, claims) && FreshTokens(claims, from, mid) && mid <= to
    ensures OwnLeases(done, from, to)
  {
  }

  lemma OwnLeasesAppend(a: seq<Processed>, b: seq<Processed>, from: nat, mid: nat, to: nat)
    requires OwnLeases(a, from, mid) && OwnLeases(b, mid, to)
    ensures OwnLeases(a + b, from, to)
  {
  }

  lemma NoRounds(p: RecoveryPolicy, scanNow: Time, before: seq<Event>, token: nat)
    ensures RoundsOk(p, scanNow, []) && AllDone([]) == [] && before + RoundsLog([]) == before
    ensures AllOk(p, []) && !LastBroke([]) && OwnLeases([], token, token)
  {
  }

  lemma AddRound(p: RecoveryPolicy, scanNow: Time, before: seq<Event>, rounds: seq<Round>, r: Round)
    requires RoundsOk(p, scanNow, rounds) && RoundOk(p, CursorAfter(rounds), scanNow, r)
    requires rounds != [] ==> RoundDone(rounds[|rounds| - 1]) && CursorAfter(rounds).Some?
    requires AllOk(p, AllDone(rounds)) && !LastBroke(AllDone(rounds))
    ensures RoundsOk(p, scanNow, rounds + [r]) && AllDone(rounds + [r]) == AllDone(rounds) + r.done
    ensures before + RoundsLog(rounds) + RoundLog(r) == before + RoundsLog(rounds + [r])
    ensures AllOk(p, AllDone(rounds + [r])) && LastBroke(AllDone(rounds + [r])) == LastBroke(r.done)
    ensures CursorAfter(rounds + [r]) == CursorAfter([r])
  {
    assert (rounds + [r])[..|rounds|] == rounds;
    Regroup(before, RoundsLog(rounds), RoundLog(r));
    AllOkAppend(p, AllDone(rounds), r.done);
  }
}
