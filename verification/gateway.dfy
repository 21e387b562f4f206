/** `RunGatewayService` as the code runs it (examples/run_gateway/service.py): methods over an
    environment in which other activities are free to act, and any call to raise, at every await.  What
    each method sends and replies is determined, call by call, by what it was answered. */
module Gateway {
  import opened Outcomes
  import opened Domain
  import opened Identity
  import opened Store
  import opened Recovery
  import opened Service
  import opened System
  import Admission
  import opened Surroundings
  import opened Requests
  import Traces

  /** The events after those of a spawn, by how it was answered. */
  predicate SpawnedLog(record: RunRecord, spawned: Outcome<CallId>, es: seq<Event>, response: Response) {
    if spawned.Returns? then
      && |es| >= 2 && es[0].ClockRead? && es[1].ClockRead?
      && RequestLog(AfterSpawn(record, Some(spawned.value), es[0].now, es[1].now), es[2..], response)
    else
      |es| >= 1 && es[0].ClockRead? && RequestLog(SealAmbiguous(record, es[0].now), es[1..], response)
  }

  lemma SpawnGoes(p: RecoveryPolicy, record: RunRecord, desktop: Bytes,
                  task: Bytes, e: Event, rest: seq<Event>, response: Response)
    requires RecordOk(p, record) && record.state.Dispatching? && e.SpawnSent?
    requires (e.runId, e.desktop, e.task, e.deadlineAt) == (record.runId, desktop, task, record.deadlineAt)
    requires SpawnedLog(record, e.spawned, rest, response)
    ensures RequestLog(AtSpawn(record, desktop, task), [e] + rest, response)
  {
    var a := AtSpawn(record, desktop, task);
    if e.spawned.Returns? {
      AfterSpawnOk(p, record, Some(e.spawned.value), rest[0].now, rest[1].now);
      Goes(a, [e, rest[0], rest[1]], rest[2..], response);
      assert [e] + rest == [e, rest[0], rest[1]] + rest[2..];
    } else {
      SealAmbiguousOk(p, record, rest[0].now);
      Goes(a, [e, rest[0]], rest[1..], response);
      assert [e] + rest == [e, rest[0]] + rest[1..];
    }
  }

  lemma CreateGoes(p: Params, ring: IdentityKeyring, o: Owner, runId: RunId,
                   read: Event, e: Event, rest: seq<Event>, response: Response)
    requires ProofsOk(p, ring, o) && read.ClockRead? && e.AdmitSent?
    requires Propose(p, ring, o, runId, read.now) == Ok(e.command) && VerdictLog(p.policy, o, e.verdict, rest, response)
    ensures CreateLog(p, ring, o, runId, [read, e] + rest, response)
  {
    hide VerdictLog;
    assert ([read, e] + rest)[2..] == rest;
  }

  /** A record that is replied is of this run, and the store has it or a later version of it. */
  ghost predicate OfRun(s: StoreState, response: Response, r: RunId) {
    (response.Run? || response.Cancelling?) ==> response.record.runId == r && Known(s, response.record)
  }

  class RunGatewayService {
    const env: Environment
    const params: Params
    const policy: RecoveryPolicy

    constructor (env: Environment, params: Params)
      requires params.policy == env.policy
      ensures this.env == env && this.params == params && this.policy == env.policy
    {
      this.env, this.params, this.policy := env, params, env.policy;
    }

    ghost predicate Ready()
      reads env.store, env`log
    {
      policy == env.policy == params.policy && ValidParams(params) && env.Ready()
    }

    /** The reload after a lost race. */
    method Reload(record: RunRecord) returns (response: Response, ghost sent: seq<Event>)
      requires Ready()
      modifies env`log, env.store
      ensures Ready() && Later(old(env.State()), env.State()) && env.log == old(env.log) + sent
      ensures Reloaded(record, sent, response) && OfRun(env.State(), response, record.runId)
    {
      var latest, e := env.GetAuthorized(record.tenantId, record.runId);
      sent := [e];
      response := match latest
        case Raises => Errored
        case Returns(None) => NotFound
        case Returns(Some(found)) => Run(found);
    }

    /** `_transition_or_reload`, with the record it computed. */
    method WriteOrReload(a: ServiceAwait) returns (response: Response, ghost sent: seq<Event>)
      requires Ready() && ServiceAwaitOk(policy, a) && (a.AtExpiryWrite? || a.AtAmbiguousWrite?)
      requires Known(env.State(), a.record)
      modifies env`log, env.store
      ensures Ready() && Later(old(env.State()), env.State()) && env.log == old(env.log) + sent
      ensures RequestLog(a, sent, response) && OfRun(env.State(), response, a.record.runId)
    {
      var cas;
      ghost var e, rest;
      cas, e := env.CompareAndSet(a.record, a.next);
      rest := [];
      if cas.CasRaised? {
        response := Errored;
      } else if cas.CasStored? {
        response := Run(a.next);
      } else {
        ghost var s := env.State();
        response, rest := Reload(a.record);
        LaterTrans(old(env.State()), s, env.State());
      }
      sent := [e] + rest;
      Regroup(old(env.log), [e], rest);
      Goes(a, [e], rest, response);
    }

    /** Seals a dispatch whose outcome is unknown. */
    method Seal(record: RunRecord, now: Time) returns (response: Response, ghost sent: seq<Event>)
      requires Ready() && RecordOk(policy, record) && record.state.Dispatching? && Known(env.State(), record)
      modifies env`log, env.store
      ensures Ready() && Later(old(env.State()), env.State()) && env.log == old(env.log) + sent
      ensures SealAmbiguous(record, now).AtAmbiguousWrite? && RequestLog(SealAmbiguous(record, now), sent, response)
      ensures OfRun(env.State(), response, record.runId)
    {
      SealAmbiguousOk(policy, record, now);
      var next := Transition(record, Indeterminate, now, NO_CHANGES.(reason := Some(DispatchAmbiguous)));
      response, sent := WriteOrReload(AtAmbiguousWrite(record, next.value));
    }

    /** After a spawn that returned: store the identity, or seal the run. */
    method RecordCall(record: RunRecord, callId: CallId, wakeAt: Time, now: Time)
      returns (response: Response, ghost sent: seq<Event>)
      requires Ready() && RecordOk(policy, record) && record.state.Dispatching? && Known(env.State(), record)
      modifies env`log, env.store
      ensures Ready() && Later(old(env.State()), env.State()) && env.log == old(env.log) + sent
      ensures RequestLog(AfterSpawn(record, Some(callId), wakeAt, now), sent, response)
      ensures OfRun(env.State(), response, record.runId)
    {
      AfterSpawnOk(policy, record, Some(callId), wakeAt, now);
      ghost var before := env.State();
      var running := Transition(record, Running, now,
        NO_CHANGES.(callId := Some(callId), reconcileAt := Some(wakeAt))).value;
      var cas;
      ghost var e, head, rest;
      cas, e := env.CompareAndSet(record, running);
      if cas.CasStored? {
        head, rest := [e], [];
        response := Run(running);
      } else {
        var sealedAt := env.Clock();
        head := [e, ClockRead(sealedAt)];
        assert env.log == old(env.log) + head;
        ghost var middle := env.State();
        KnownLater(before, middle, record);
        response, rest := Seal(record, sealedAt);
        LaterTrans(before, middle, env.State());
      }
      sent := head + rest;
      Regroup(old(env.log), head, rest);
      Goes(AtCallWrite(record, running), head, rest, response);
    }

    /** What follows the answer of a spawn. */
    method AfterSpawned(record: RunRecord, spawned: Outcome<CallId>)
      returns (response: Response, ghost sent: seq<Event>)
      requires Ready() && RecordOk(policy, record) && record.state.Dispatching? && Known(env.State(), record)
      modifies env`log, env.store
      ensures Ready() && Later(old(env.State()), env.State()) && env.log == old(env.log) + sent
      ensures SpawnedLog(record, spawned, sent, response) && OfRun(env.State(), response, record.runId)
    {
      ghost var head, rest;
      if spawned.Returns? {
        var wakeAt := env.Clock();
        var now := env.Clock();
        head := [ClockRead(wakeAt), ClockRead(now)];
        assert env.log == old(env.log) + head;
        response, rest := RecordCall(record, spawned.value, wakeAt, now);
      } else {
        var now := env.Clock();
        head := [ClockRead(now)];
        response, rest := Seal(record, now);
      }
      sent := head + rest;
      assert sent[|head|..] == rest;
      Regroup(old(env.log), head, rest);
    }

    /** The winner of the dispatch claim: spawn, then store the identity or seal the run. */
    method SpawnAndRecord(record: RunRecord, desktop: Bytes, task: Bytes)
      returns (response: Response, ghost sent: seq<Event>)
      requires Ready() && RecordOk(policy, record) && record.state.Dispatching? && Known(env.State(), record)
      modifies env`log, env.store
      ensures Ready() && Later(old(env.State()), env.State()) && env.log == old(env.log) + sent
      ensures RequestLog(AtSpawn(record, desktop, task), sent, response)
      ensures OfRun(env.State(), response, record.runId)
    {
      ghost var before := env.State();
      var spawned := env.Spawn(record.runId, desktop, task, record.deadlineAt);
      ghost var e := SpawnSent(record.runId, desktop, task, record.deadlineAt, spawned);
      ghost var middle := env.State();
      ghost var rest;
      KnownLater(before, middle, record);
      response, rest := AfterSpawned(record, spawned);
      LaterTrans(before, middle, env.State());
      sent := [e] + rest;
      Regroup(old(env.log), [e], rest);
      SpawnGoes(policy, record, desktop, task, e, rest, response);
    }

    /** `_claim_and_dispatch`, after it read the clock. */
    method ClaimAndDispatch(record: RunRecord, intent: IntentState, desktop: Bytes, task: Bytes, now: Time)
      returns (response: Response, ghost sent: seq<Event>)
      requires Ready() && Known(env.State(), record)
      modifies env`log, env.store
      ensures Ready() && Later(old(env.State()), env.State()) && env.log == old(env.log) + sent
      ensures RequestLog(AtClaimDispatch(record, intent, now, Min(record.deadlineAt, now + policy.dispatchStaleAfter),
                                         desktop, task), sent, response)
      ensures OfRun(env.State(), response, record.runId)
    {
      ghost var before := env.State();
      var reconcileAt := Min(record.deadlineAt, now + policy.dispatchStaleAfter);
      var won;
      ghost var e, rest;
      won, e := env.ClaimDispatch(record, intent, now, reconcileAt);
      ghost var middle := env.State();
      rest := [];
      ItselfLater(middle);
      if won.Raises? {
        response := Errored;
      } else if won.value.None? {
        response, rest := Reload(record);
      } else {
        response, rest := SpawnAndRecord(won.value.value, desktop, task);
      }
      LaterTrans(before, middle, env.State());
      sent := [e] + rest;
      Regroup(old(env.log), [e], rest);
      Goes(AtClaimDispatch(record, intent, now, reconcileAt, desktop, task), [e], rest, response);
    }

    /** The proofs and the proposal of `create_run`. */
    method ProposeRun(ring: IdentityKeyring, o: Owner, runId: RunId)
      returns (r: Result<AdmissionCommand, Error>, ghost sent: seq<Event>)
      requires Ready()
      modifies env`log
      ensures Ready() && env.log == old(env.log) + sent
      ensures if ProofsOk(params, ring, o)
              then |sent| == 1 && sent[0].ClockRead? && r.Ok? && r == Propose(params, ring, o, runId, sent[0].now)
              else r.Err? && sent == []
    {
      sent := [];
      var idempotency := Prove(params.mac, ring, o.tenant, IdempotencyKind, o.key);
      if idempotency.Err? {
        return Err(idempotency.error), sent;
      }
      var desktop := Prove(params.mac, ring, o.tenant, DesktopKind, o.desktop);
      if desktop.Err? {
        return Err(desktop.error), sent;
      }
      var task := Prove(params.mac, ring, o.tenant, TaskKind, o.task);
      if task.Err? {
        return Err(task.error), sent;
      }
      var now := env.Clock();
      sent := [ClockRead(now)];
      var proposed := Reserve(runId, o.tenant, idempotency.value.mint, desktop.value.mint, task.value.mint, now,
                              now + params.runTimeout);
      return Ok(AdmissionCommand(proposed.value, idempotency.value, desktop.value, task.value)), sent;
    }

    /** `create_run`, once the caller's desktop and task are resolved: it sends its own proposal, and
        everything after that is what the answers call for. */
    method CreateRun(ring: IdentityKeyring, o: Owner, runId: RunId) returns (response: Response, ghost sent: seq<Event>)
      requires Ready() && UsableRing(params, ring)
      modifies env`log, env.store
      ensures Ready() && Later(old(env.State()), env.State()) && env.log == old(env.log) + sent
      ensures CreateLog(params, ring, o, runId, sent, response) && Traces.CreateTrace(params, o, runId, sent, response)
      ensures response.Run? ==> Known(env.State(), response.record)
    {
      hide VerdictLog, Propose, OfRun;
      var command, verdict;
      ghost var head, e, rest;
      ItselfLater(env.State());
      command, head := ProposeRun(ring, o, runId);
      if command.Err? {
        SuffixGenuine(env.store.quota, old(env.log), head);
        Traces.CreateIsTrace(params, env.store.quota, ring, o, runId, head, Errored);
        return Errored, head;
      }
      ghost var before := env.State();
      Admission.ProposeIsSound(params, ring, o, runId, head[0].now);
      verdict, e := env.Admit(command.value);
      ghost var middle := env.State();
      response, rest := Decide(o, verdict);
      LaterTrans(before, middle, env.State());
      sent := [head[0], e] + rest;
      assert old(env.log) + head + [e] == old(env.log) + [head[0], e];
      Regroup(old(env.log), [head[0], e], rest);
      CreateGoes(params, ring, o, runId, head[0], e, rest, response);
      SuffixGenuine(env.store.quota, old(env.log), sent);
      Traces.CreateIsTrace(params, env.store.quota, ring, o, runId, sent, response);
    }

    /** `create_run`, once admission answered. */
    method Decide(o: Owner, verdict: Outcome<AdmitResult>) returns (response: Response, ghost sent: seq<Event>)
      requires Ready()
      requires verdict.Returns? && (verdict.value.Admitted? || verdict.value.Replayed?) ==>
                 RecordOk(policy, verdict.value.record) && Known(env.State(), verdict.value.record)
      modifies env`log, env.store
      ensures Ready() && Later(old(env.State()), env.State()) && env.log == old(env.log) + sent
      ensures VerdictLog(policy, o, verdict, sent, response)
      ensures response.Run? ==> Known(env.State(), response.record)
    {
      sent := [];
      ItselfLater(env.State());
      match verdict {
        case Raises => response := Errored;
        case Returns(KeyUnavailable) => response := Errored;
        case Returns(Denied(rejection)) => response := Rejected(rejection);
        case Returns(Admitted(record)) => response, sent := Enter(o, record, Pending);
        case Returns(Replayed(record, intent)) => response, sent := Enter(o, record, intent);
      }
    }

    /** `create_run`, once admission accepted it. */
    method Enter(o: Owner, record: RunRecord, intent: IntentState) returns (response: Response, ghost sent: seq<Event>)
      requires Ready() && RecordOk(policy, record) && Known(env.State(), record)
      modifies env`log, env.store
      ensures Ready() && Later(old(env.State()), env.State()) && env.log == old(env.log) + sent
      ensures EnterLog(policy, o, record, intent, sent, response)
      ensures OfRun(env.State(), response, record.runId)
    {
      if !record.state.Reserved? {
        ItselfLater(env.State());
        return Run(record), [];
      }
      var checkNow := env.Clock();
      var now := env.Clock();
      ghost var head := [ClockRead(checkNow), ClockRead(now)];
      assert env.log == old(env.log) + head;
      AfterAdmissionOk(policy, record, intent, o.desktop, o.task, checkNow, now);
      ghost var rest;
      if checkNow >= record.deadlineAt {
        var next := Transition(record, Cancelled, now, NO_CHANGES.(reason := Some(ExpiredBeforeDispatch))).value;
        response, rest := WriteOrReload(AtExpiryWrite(record, next));
      } else {
        response, rest := ClaimAndDispatch(record, intent, o.desktop, o.task, now);
      }
      sent := head + rest;
      assert sent[2..] == rest;
      Regroup(old(env.log), head, rest);
    }

    /** The write of `cancel_run`: accepted if it wins, or if the reload finds the state it wanted. */
    method WriteCancel(record: RunRecord, next: RunRecord) returns (response: Response, ghost sent: seq<Event>)
      requires Ready() && ServiceAwaitOk(policy, AtCancelWrite(record, next)) && Known(env.State(), record)
      modifies env`log, env.store
      ensures Ready() && Later(old(env.State()), env.State()) && env.log == old(env.log) + sent
      ensures RequestLog(AtCancelWrite(record, next), sent, response)
      ensures OfRun(env.State(), response, record.runId)
    {
      var cas;
      ghost var e, rest;
      cas, e := env.CompareAndSet(record, next);
      rest := [];
      if cas.CasRaised? {
        response := Errored;
      } else if cas.CasStored? {
        response := Cancelling(next, true);
      } else {
        ghost var s := env.State();
        var latest;
        ghost var read;
        latest, read := env.GetAuthorized(record.tenantId, record.runId);
        LaterTrans(old(env.State()), s, env.State());
        rest := [read];
        response := match latest
          case Raises => Errored
          case Returns(None) => NotFound
          case Returns(Some(found)) => Cancelling(found, found.state == next.state);
      }
      sent := [e] + rest;
      Regroup(old(env.log), [e], rest);
      Goes(AtCancelWrite(record, next), [e], rest, response);
    }

    /** `cancel_run`, for a reserved run. */
    method CancelReserved(record: RunRecord) returns (response: Response, ghost sent: seq<Event>)
      requires Ready() && RecordOk(policy, record) && Known(env.State(), record) && record.state.Reserved?
      modifies env`log, env.store
      ensures Ready() && Later(old(env.State()), env.State()) && env.log == old(env.log) + sent
      ensures |sent| >= 1 && sent[0].ClockRead?
      ensures RequestLog(AfterCancelRead(policy, record, sent[0].now, sent[0].now), sent[1..], response)
      ensures OfRun(env.State(), response, record.runId)
    {
      var now := env.Clock();
      ghost var rest;
      AfterCancelReadOk(policy, record, now, now);
      var next := Transition(record, Cancelled, now, NO_CHANGES.(reason := Some(CancelledBeforeDispatch))).value;
      response, rest := WriteCancel(record, next);
      sent := [ClockRead(now)] + rest;
      assert sent[1..] == rest;
      Regroup(old(env.log), [ClockRead(now)], rest);
    }

    /** `cancel_run`, for a running one. */
    method CancelRunning(record: RunRecord) returns (response: Response, ghost sent: seq<Event>)
      requires Ready() && RecordOk(policy, record) && Known(env.State(), record) && record.state.Running?
      modifies env`log, env.store
      ensures Ready() && Later(old(env.State()), env.State()) && env.log == old(env.log) + sent
      ensures |sent| >= 2 && sent[0].ClockRead? && sent[1].ClockRead?
      ensures RequestLog(AfterCancelRead(policy, record, sent[0].now, sent[1].now), sent[2..], response)
      ensures OfRun(env.State(), response, record.runId)
    {
      var requestedAt := env.Clock();
      var now := env.Clock();
      ghost var head := [ClockRead(requestedAt), ClockRead(now)];
      assert env.log == old(env.log) + head;
      ghost var rest;
      AfterCancelReadOk(policy, record, requestedAt, now);
      var next := Transition(record, CancellationRequested, now,
        NO_CHANGES.(reconcileAt := Some(requestedAt), cancelRequestedAt := Some(requestedAt),
                    cancelDeadlineAt := Some(requestedAt + policy.cancellationGrace))).value;
      response, rest := WriteCancel(record, next);
      sent := head + rest;
      assert sent[2..] == rest;
      Regroup(old(env.log), head, rest);
    }

    /** `cancel_run`: it writes exactly what the record it read calls for, and replies what the log says. */
    method CancelRun(tenant: TenantId, runId: RunId) returns (response: Response, ghost sent: seq<Event>)
      requires Ready()
      modifies env`log, env.store
      ensures Ready() && Later(old(env.State()), env.State()) && env.log == old(env.log) + sent
      ensures CancelRunLog(policy, tenant, runId, sent, response)
      ensures Traces.CancelRunTrace(policy, tenant, runId, sent, response)
      ensures OfRun(env.State(), response, runId)
    {
      var found;
      ghost var e, rest;
      found, e := env.GetAuthorized(tenant, runId);
      ghost var middle := env.State();
      rest := [];
      ItselfLater(middle);
      if found.Raises? {
        response := Errored;
      } else if found.value.None? {
        response := NotFound;
      } else {
        var record := found.value.value;
        if record.state.CancellationRequested? {
          response := Cancelling(record, true);
        } else if IsTerminal(record.state) {
          response := Cancelling(record, false);
        } else if record.state.Reserved? {
          response, rest := CancelReserved(record);
        } else if !record.state.Running? {
          response := Conflict;
        } else {
          response, rest := CancelRunning(record);
        }
      }
      LaterTrans(old(env.State()), middle, env.State());
      sent := [e] + rest;
      Regroup(old(env.log), [e], rest);
      CancelLogParts(e, rest);
      Traces.CancelRunIsTrace(policy, tenant, runId, sent, response);
    }
  }

  lemma SuffixGenuine(quota: nat, before: seq<Event>, sent: seq<Event>)
    requires AllGenuine(quota, before + sent)
    ensures AllGenuine(quota, sent)
  {
    Traces.AllGenuineRest(quota, before + sent, |before|);
    assert (before + sent)[|before|..] == sent;
  }

  /** Positions in a log that begins with one more event. */
  lemma CancelLogParts(e: Event, rest: seq<Event>)
    ensures ([e] + rest)[..1] == [e]
    ensures |rest| >= 1 ==> ([e] + rest)[1] == rest[0] && ([e] + rest)[2..] == rest[1..]
    ensures |rest| >= 2 ==> ([e] + rest)[2] == rest[1] && ([e] + rest)[3..] == rest[2..]
  {
  }
}
