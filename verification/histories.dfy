/** What a run lives through: each step changes its stored record at most once and legally, and
    whole histories follow the closed graph. */
module Histories {
  import opened Outcomes
  import opened Domain
  import opened Identity
  import opened Store
  import opened Recovery
  import opened Service
  import opened System
  import opened Invariant
  import opened Preservation
  import opened Safety

  // ---------------------------------------------------------------- one step, seen from the store

  /** The four ways a step can touch the store. */
  ghost predicate OnlyLeases(s: StoreState, t: StoreState) {
    t == s.(leases := t.leases, nextToken := t.nextToken)
  }

  ghost predicate WroteLegally(p: Params, s: StoreState, t: StoreState, n: RunRecord) {
    n.runId in s.runs && Writable(s.runs[n.runId], n) && Spaced(p.policy, s.runs[n.runId], n) && t == Write(s, n)
  }

  ghost predicate ClaimedDispatch(s: StoreState, t: StoreState, n: RunRecord) {
    && n.runId in s.runs && Successor(s.runs[n.runId], n) && s.runs[n.runId].state.Reserved? && n.state.Dispatching?
    && t == s.(runs := s.runs[n.runId := n], intents := s.intents[n.runId := Claimed])
  }

  ghost predicate AdmittedRun(s: StoreState, t: StoreState, n: RunRecord) {
    n.runId !in s.runs && n.state.Reserved? && n.version == 0 && t == Insert(s, n)
  }

  ghost predicate StoreStep(p: Params, s: StoreState, t: StoreState) {
    || OnlyLeases(s, t)
    || (exists n :: WroteLegally(p, s, t, n))
    || (exists n :: ClaimedDispatch(s, t, n))
    || (exists n :: AdmittedRun(s, t, n))
  }

  lemma CasStep(p: Params, w: World, i: nat, r: RunRecord, n: RunRecord, won: Proc, lost: Proc)
    requires i < |w.procs| && Held(w, r) && Writable(r, n) && Spaced(p.policy, r, n)
    ensures StoreStep(p, w.store, CasThen(w, i, r, n, won, lost).store)
  {
    if VersionCurrent(w.store, r) {
      CurrentIsStored(w, r);
      assert WroteLegally(p, w.store, Write(w.store, n), n);
    }
  }

  lemma RequestStep(p: Params, w: World, i: nat, a: ServiceAwait, x: Inputs)
    requires ValidParams(p) && WorldInv(p, w) && i < |w.procs| && w.procs[i] == Request(a)
    ensures StoreStep(p, w.store, ResumeRequest(w, i, a, x).store)
  {
    hide RecordOk, Spaced;
    assert ProcOk(p, w, i, w.procs[i]);
    match a
    case Answered =>
    case Failed500(_) =>
    case AtExpiryWrite(r, n) => CasStep(p, w, i, r, n, Request(Answered), Request(Answered));
    case AtAmbiguousWrite(r, n) => CasStep(p, w, i, r, n, Request(Answered), Request(Answered));
    case AtCancelWrite(r, n) => CasStep(p, w, i, r, n, Request(Answered), Request(Answered));
    case AtSpawn(_, _, _) =>
    case AtCallWrite(r, n) =>
      var lost := Request(AfterCallWrite(r, false, x.now));
      CasStep(p, w, i, r, n, if x.fault.FailsAfterWrite? then lost else Request(AfterCallWrite(r, true, x.now)), lost);
    case AtClaimDispatch(r, intent, now, at, _, _) => DispatchStep(p, w, r, intent, now, at);
  }

  lemma DispatchStep(p: Params, w: World, r: RunRecord, intent: IntentState, now: Time, at: Time)
    requires WorldInv(p, w) && Held(w, r)
    ensures StoreStep(p, w.store, ClaimDispatch(w.store, r, intent, now, at).0)
  {
    var (t, won) := ClaimDispatch(w.store, r, intent, now, at);
    if won.Some? {
      CurrentIsStored(w, r);
      TransitionIsSuccessor(r, Dispatching, now, NO_CHANGES.(reconcileAt := Some(at)));
      assert ClaimedDispatch(w.store, t, won.value);
    }
  }

  lemma ReconcilerStep(p: Params, w: World, i: nat, lease: ReconcileClaim, a: Await, x: Inputs)
    requires ValidParams(p) && WorldInv(p, w) && i < |w.procs| && w.procs[i] == Reconciling(lease, a)
    ensures StoreStep(p, w.store, ResumeReconciler(p, w, i, lease, a, x).store)
  {
    hide RecordOk, Spaced, WorldInv;
    ProcIsOk(p, w, i);
    if a.AtCommit? && a.next.runId == a.claim.record.runId && ClaimCurrent(w.store, a.claim, x.storeNow) {
      CurrentIsStored(w, a.claim.record);
      assert WroteLegally(p, w.store, Write(w.store, a.next), a.next);
    }
  }

  lemma ProposedFresh(p: Params, ring: IdentityKeyring, o: Owner, runId: RunId, now: Time)
    requires Propose(p, ring, o, runId, now).Ok?
    ensures var n := Propose(p, ring, o, runId, now).value.proposed;
            n.version == 0 && n.runId == runId && n.state.Reserved?
  {
  }

  lemma CreateStep(p: Params, w: World, l: Label)
    requires ValidParams(p) && Shape(w.store) && l.CreateRun?
    ensures StoreStep(p, w.store, ApplyCreate(p, w, l).store)
  {
    hide Propose, UsableRing, Entered;
    if l.runId !in w.store.runs && UsableRing(p, l.ring) && Propose(p, l.ring, l.owner, l.runId, l.now).Ok? {
      var c := Propose(p, l.ring, l.owner, l.runId, l.now).value;
      ProposedFresh(p, l.ring, l.owner, l.runId, l.now);
      if Admit(w.store, p.quota, c).1.Admitted? {
        assert AdmittedRun(w.store, Insert(w.store, c.proposed), c.proposed);
      }
    }
  }

  lemma AnyStep(p: Params, w: World, l: Label)
    requires ValidParams(p) && WorldInv(p, w)
    ensures StoreStep(p, w.store, Apply(p, w, l).store)
  {
    match l
    case CreateRun(_, _, _, _, _, _) => CreateStep(p, w, l);
    case CancelRun(_, _, _, _) =>
    case ScanPage(from, now, limit) => ClaimPageFrame(w.store, p.quota, from, now, limit, now + p.policy.leaseDuration);
    case Resume(i, x) =>
      if i < |w.procs| {
        match w.procs[i]
        case Request(a) => RequestStep(p, w, i, a, x);
        case Leased(_) =>
        case Reconciling(lease, at) => ReconcilerStep(p, w, i, lease, at, x);
        case Done =>
      }
    case Crash(_) =>
    case CallStarts(_) =>
    case CallFinishes(_) =>
  }

  // ---------------------------------------------------------------- one step, seen from a run

  /** A step leaves a run alone, admits it, or writes its legal successor, which raises the version
      by one.  A call identity stays, a revoked intent stays revoked, and the release log only grows. */
  ghost predicate RunStep(s: StoreState, t: StoreState, r: RunId) {
    && (r in s.runs ==> r in t.runs && (t.runs[r] == s.runs[r] || Successor(s.runs[r], t.runs[r])))
    && (r in s.runs && r in t.runs && s.runs[r].callId.Some? ==> t.runs[r].callId == s.runs[r].callId)
    && (r !in s.runs && r in t.runs ==> t.runs[r].state.Reserved? && t.runs[r].version == 0)
    && (r in s.intents && s.intents[r].Revoked? ==> r in t.intents && t.intents[r].Revoked?)
    && s.releaseLog <= t.releaseLog
  }

  lemma WriteIsRunStep(s: StoreState, n: RunRecord, r: RunId)
    requires n.runId in s.runs && Writable(s.runs[n.runId], n)
    requires s.runs[n.runId].state.Dispatching? ==> s.runs[n.runId].callId.None?
    requires EntryOk(s, r)
    ensures RunStep(s, Write(s, n), r)
  {
  }

  lemma DispatchIsRunStep(s: StoreState, t: StoreState, n: RunRecord, r: RunId)
    requires ClaimedDispatch(s, t, n) && EntryOk(s, r)
    ensures RunStep(s, t, r)
  {
  }

  lemma StoreStepIsRunStep(p: Params, s: StoreState, t: StoreState, r: RunId)
    requires StoreStep(p, s, t) && EntryOk(s, r)
    requires forall q :: q in s.runs && s.runs[q].state.Dispatching? ==> s.runs[q].callId.None?
    ensures RunStep(s, t, r)
  {
    if n :| WroteLegally(p, s, t, n) {
      WriteIsRunStep(s, n, r);
    } else if n :| ClaimedDispatch(s, t, n) {
      DispatchIsRunStep(s, t, n, r);
    } else if n :| AdmittedRun(s, t, n) {
    }
  }

  lemma WorldStep(p: Params, w: World, l: Label, r: RunId)
    requires ValidParams(p) && WorldInv(p, w)
    ensures RunStep(w.store, Apply(p, w, l).store, r)
  {
    hide Apply;
    AnyStep(p, w, l);
    assert EntryOk(w.store, r);
    forall q | q in w.store.runs && w.store.runs[q].state.Dispatching? ensures w.store.runs[q].callId.None? {
      assert RunOk(p, w, q);
    }
    StoreStepIsRunStep(p, w.store, Apply(p, w, l).store, r);
  }

  lemma StepOfRun(p: Params, history: seq<Label>, l: Label, r: RunId)
    requires ValidParams(p)
    ensures RunStep(WorldAfter(p, history).store, WorldAfter(p, history + [l]).store, r)
  {
    hide Apply;
    assert (history + [l])[..|history|] == history;
    WorldStep(p, WorldAfter(p, history), l, r);
  }

  // ---------------------------------------------------------------- whole histories

  function StateOf(p: Params, history: seq<Label>, r: RunId): Option<RunState>
    requires ValidParams(p)
  {
    var runs := WorldAfter(p, history).store.runs;
    if r in runs then Some(runs[r].state) else None
  }

  /** How often the state of a run changes along a history, its admission not counted. */
  function StateChanges(p: Params, history: seq<Label>, r: RunId): nat
    requires ValidParams(p)
  {
    if history == [] then 0
    else
      var prefix := history[..|history| - 1];
      StateChanges(p, prefix, r) +
      (if StateOf(p, prefix, r).Some? && StateOf(p, prefix, r) != StateOf(p, history, r) then 1 else 0)
  }

  function RecordOf(p: Params, history: seq<Label>, r: RunId): Option<RunRecord>
    requires ValidParams(p)
  {
    var runs := WorldAfter(p, history).store.runs;
    if r in runs then Some(runs[r]) else None
  }

  /** How often a run is written along a history, its admission not counted. */
  function Writes(p: Params, history: seq<Label>, r: RunId): nat
    requires ValidParams(p)
  {
    if history == [] then 0
    else
      var prefix := history[..|history| - 1];
      Writes(p, prefix, r) +
      (if RecordOf(p, prefix, r).Some? && RecordOf(p, prefix, r) != RecordOf(p, history, r) then 1 else 0)
  }

  lemma EdgesRaiseRank(a: RunState, b: RunState)
    requires LegalEdge(a, b)
    ensures Rank(a) < Rank(b) <= 4 && a != b
  {
  }

  /** Every history takes a run along legal edges, at most four of them. */
  lemma {:induction false} AtMostFourStateChanges(p: Params, history: seq<Label>, r: RunId)
    requires ValidParams(p)
    ensures r in WorldAfter(p, history).store.runs ==>
        StateChanges(p, history, r) <= Rank(WorldAfter(p, history).store.runs[r].state) <= 4
    ensures r !in WorldAfter(p, history).store.runs ==> StateChanges(p, history, r) == 0
  {
    hide Apply;
    if history != [] {
      var prefix := history[..|history| - 1];
      AtMostFourStateChanges(p, prefix, r);
      assert prefix + [history[|history| - 1]] == history;
      StepOfRun(p, prefix, history[|history| - 1], r);
      var s, t := WorldAfter(p, prefix).store, WorldAfter(p, history).store;
      if r in s.runs && s.runs[r].state != t.runs[r].state {
        EdgesRaiseRank(s.runs[r].state, t.runs[r].state);
      }
    }
  }

  lemma StepCountsWrite(p: Params, history: seq<Label>, l: Label, r: RunId)
    requires ValidParams(p)
    ensures var s, t := WorldAfter(p, history).store, WorldAfter(p, history + [l]).store;
            var writes := Writes(p, history + [l], r) - Writes(p, history, r);
      && (r in s.runs ==> r in t.runs && t.runs[r].version == s.runs[r].version + writes)
      && (r !in s.runs ==> writes == 0 && (r in t.runs ==> t.runs[r].version == 0))
  {
    assert (history + [l])[..|history|] == history;
    StepOfRun(p, history, l, r);
  }

  /** The version counts the writes: no write is lost and none is counted twice. */
  lemma {:induction false} VersionCountsWrites(p: Params, history: seq<Label>, r: RunId)
    requires ValidParams(p)
    ensures r in WorldAfter(p, history).store.runs ==>
              WorldAfter(p, history).store.runs[r].version == Writes(p, history, r)
    ensures r !in WorldAfter(p, history).store.runs ==> Writes(p, history, r) == 0
  {
    hide Apply;
    if history != [] {
      var prefix, last := history[..|history| - 1], history[|history| - 1];
      VersionCountsWrites(p, prefix, r);
      assert prefix + [last] == history;
      StepCountsWrite(p, prefix, last, r);
    }
  }

  /** A run's later life, seen from an earlier moment: its identity, bindings and deadline stay, a
      stored call identity never changes, a terminal state is final with its whole record, a revoked
      intent stays revoked, and whoever released stays released once. */
  ghost predicate LaterLife(s: StoreState, t: StoreState, r: RunId) {
    && (r in s.runs ==>
          && r in t.runs
          && t.runs[r].tenantId == s.runs[r].tenantId && t.runs[r].deadlineAt == s.runs[r].deadlineAt
          && t.runs[r].idempotency == s.runs[r].idempotency
          && t.runs[r].desktop == s.runs[r].desktop && t.runs[r].task == s.runs[r].task
          && s.runs[r].version <= t.runs[r].version
          && (s.runs[r].callId.Some? ==> t.runs[r].callId == s.runs[r].callId)
          && (IsTerminal(s.runs[r].state) ==> t.runs[r] == s.runs[r])
          && Rank(s.runs[r].state) <= Rank(t.runs[r].state))
    && (r in s.intents && s.intents[r].Revoked? ==> r in t.intents && t.intents[r].Revoked?)
    && s.releaseLog <= t.releaseLog
  }

  lemma LaterLifeStep(s: StoreState, t: StoreState, u: StoreState, r: RunId)
    requires LaterLife(s, t, r) && RunStep(t, u, r)
    ensures LaterLife(s, u, r)
  {
    if r in s.runs && t.runs[r].state != u.runs[r].state {
      EdgesRaiseRank(t.runs[r].state, u.runs[r].state);
    }
  }

  lemma {:induction false} LaterLifeHolds(p: Params, history: seq<Label>, more: seq<Label>, r: RunId)
    requires ValidParams(p)
    ensures LaterLife(WorldAfter(p, history).store, WorldAfter(p, history + more).store, r)
    decreases |more|
  {
    if more == [] {
      assert history + more == history;
    } else {
      var prefix := more[..|more| - 1];
      LaterLifeHolds(p, history, prefix, r);
      assert history + more == (history + prefix) + [more[|more| - 1]];
      StepOfRun(p, history + prefix, more[|more| - 1], r);
      LaterLifeStep(WorldAfter(p, history).store, WorldAfter(p, history + prefix).store,
                    WorldAfter(p, history + more).store, r);
    }
  }

  /** A run cancelled without ever having a call identity was cancelled before its dispatch. */
  lemma CancelledIsRevoked(p: Params, history: seq<Label>, r: RunId)
    requires ValidParams(p) && r in WorldAfter(p, history).store.runs
    requires WorldAfter(p, history).store.runs[r].state.Cancelled?
    ensures var s := WorldAfter(p, history).store;
            r in s.intents && (s.intents[r].Revoked? <==> s.runs[r].callId.None?)
  {
    hide Apply;
    var w := WorldAfter(p, history);
    assert RunOk(p, w, r) && EntryOk(w.store, r);
    if w.store.runs[r].callId.Some? {
      assert CallOk(w, w.store.runs[r].callId.value);
    }
  }

  /** Once a cancel or an expiry has moved a run from reserved to cancelled, no continuation of the
      history ever spawns for it, not even one in which a replayed create was already waiting. */
  lemma CancelledBeforeDispatchNeverSpawns(p: Params, history: seq<Label>, more: seq<Label>, r: RunId, k: nat)
    requires ValidParams(p) && r in WorldAfter(p, history).store.runs
    requires WorldAfter(p, history).store.runs[r].state.Cancelled?
    requires WorldAfter(p, history).store.runs[r].callId.None?
    requires k < |WorldAfter(p, history + more).calls|
    ensures WorldAfter(p, history + more).calls[k].runId != r
  {
    CancelledIsRevoked(p, history, r);
    LaterLifeHolds(p, history, more, r);
    SpawnedAtMostOnce(p, history + more, k);
  }

  // ---------------------------------------------------------------- a fresh dispatch is not disturbed

  /** A reconciler about to seal a dispatch as stale has seen its boundary. */
  ghost predicate SawStaleBoundary(p: Params, q: Proc, r: RunId) {
    && q.Reconciling? && q.at.AtCommit? && q.at.claim.record.runId == r && q.at.claim.record.state.Dispatching?
    && StaleBoundaryReached(p.policy, q.at.claim.record, q.at.next.updatedAt)
  }

  /** The run's own winner, writing its call's identity or sealing its dispatch. */
  predicate OwnDispatchWrite(w: World, i: nat, r: RunId)
    requires i < |w.procs|
  {
    && Won(w, i, r) && w.procs[i].Request? && (w.procs[i].a.AtCallWrite? || w.procs[i].a.AtAmbiguousWrite?)
    && w.procs[i].a.record.runId == r
  }

  lemma CasTouches(w: World, i: nat, c: RunRecord, n: RunRecord, won: Proc, lost: Proc, r: RunId)
    requires i < |w.procs| && Held(w, c) && n.runId == c.runId && r in w.store.runs
    requires CasThen(w, i, c, n, won, lost).store.runs[r] != w.store.runs[r]
    ensures c.runId == r && c == w.store.runs[r] && CasThen(w, i, c, n, won, lost).store.runs[r] == n
  {
  }

  lemma LastWriteTouches(w: World, i: nat, c: RunRecord, n: RunRecord, x: Inputs, r: RunId)
    requires i < |w.procs| && Held(w, c) && n.runId == c.runId && r in w.store.runs
    requires LastWrite(w, i, c, n, x).store.runs[r] != w.store.runs[r]
    ensures c.runId == r && c == w.store.runs[r] && LastWrite(w, i, c, n, x).store.runs[r] == n
  {
    CasTouches(w, i, c, n, Request(Answered), Request(Answered), r);
  }

  lemma CallWriteTouches(w: World, i: nat, c: RunRecord, n: RunRecord, x: Inputs, r: RunId)
    requires Shape(w.store) && i < |w.procs| && Held(w, c) && n.runId == c.runId && r in w.store.runs
    requires ResumeRequest(w, i, AtCallWrite(c, n), x).store.runs[r] != w.store.runs[r]
    ensures c.runId == r
  {
    var lost := Request(AfterCallWrite(c, false, x.now));
    var won := if x.fault.FailsAfterWrite? then lost else Request(AfterCallWrite(c, true, x.now));
    CasTouches(w, i, c, n, won, lost, r);
  }

  /** A dispatch is not claimed again. */
  lemma ClaimTouchesNone(w: World, c: RunRecord, intent: IntentState, now: Time, at: Time, r: RunId)
    requires Shape(w.store) && Held(w, c) && r in w.store.runs && w.store.runs[r].state.Dispatching?
    ensures var t := ClaimDispatch(w.store, c, intent, now, at).0; r in t.runs && t.runs[r] == w.store.runs[r]
  {
    if VersionCurrent(w.store, c) {
      CurrentIsStored(w, c);
    }
  }

  lemma RequestTouches(p: Params, w: World, i: nat, a: ServiceAwait, x: Inputs, r: RunId)
    requires Shape(w.store) && i < |w.procs| && w.procs[i] == Request(a) && RequestOk(p, w, i, a)
    requires r in w.store.runs && w.store.runs[r].state.Dispatching?
    requires r in ResumeRequest(w, i, a, x).store.runs
    requires ResumeRequest(w, i, a, x).store.runs[r] != w.store.runs[r]
    ensures OwnDispatchWrite(w, i, r)
    ensures a.AtAmbiguousWrite? ==> ResumeRequest(w, i, a, x).store.runs[r].state.Indeterminate?
  {
    hide RecordOk, Spaced, CasThen, LastWrite, ClaimDispatch;
    match a
    case Answered =>
    case Failed500(_) =>
    case AtExpiryWrite(c, n) => LastWriteTouches(w, i, c, n, x, r);
    case AtAmbiguousWrite(c, n) => LastWriteTouches(w, i, c, n, x, r);
    case AtCancelWrite(c, n) => LastWriteTouches(w, i, c, n, x, r);
    case AtSpawn(_, _, _) =>
    case AtCallWrite(c, n) => CallWriteTouches(w, i, c, n, x, r);
    case AtClaimDispatch(c, intent, now, at, _, _) => ClaimTouchesNone(w, c, intent, now, at, r);
  }

  lemma ReconcilerLeavesRuns(p: Params, w: World, i: nat, lease: ReconcileClaim, a: Await, x: Inputs)
    requires i < |w.procs| && !a.AtCommit?
    ensures ResumeReconciler(p, w, i, lease, a, x).store.runs == w.store.runs
  {
  }

  lemma CommitTouches(p: Params, w: World, i: nat, lease: ReconcileClaim, a: Await, x: Inputs, r: RunId)
    requires i < |w.procs| && a.AtCommit? && Held(w, a.claim.record) && CommitOk(p.policy, a.claim.record, a.next)
    requires a.claim.expectedVersion == a.claim.record.version && r in w.store.runs
    requires r in ResumeReconciler(p, w, i, lease, a, x).store.runs
    requires ResumeReconciler(p, w, i, lease, a, x).store.runs[r] != w.store.runs[r]
    ensures a.claim.record.runId == r && a.claim.record == w.store.runs[r]
    ensures ResumeReconciler(p, w, i, lease, a, x).store.runs[r] == a.next
  {
    hide RecordOk, Spaced, AfterCommit;
  }

  lemma ReconcilerTouches(p: Params, w: World, i: nat, lease: ReconcileClaim, a: Await, x: Inputs, r: RunId)
    requires i < |w.procs| && w.procs[i] == Reconciling(lease, a) && ReconcilerOk(p, w, a)
    requires r in w.store.runs && w.store.runs[r].state.Dispatching?
    requires r in ResumeReconciler(p, w, i, lease, a, x).store.runs
    requires ResumeReconciler(p, w, i, lease, a, x).store.runs[r] != w.store.runs[r]
    ensures SawStaleBoundary(p, w.procs[i], r)
    ensures ResumeReconciler(p, w, i, lease, a, x).store.runs[r].state.Indeterminate?
  {
    hide RecordOk, Spaced, ResumeReconciler;
    if a.AtCommit? {
      CommitTouches(p, w, i, lease, a, x, r);
    } else {
      ReconcilerLeavesRuns(p, w, i, lease, a, x);
    }
  }

  lemma CreateLeavesRuns(p: Params, w: World, l: Label, r: RunId)
    requires l.CreateRun? && Shape(w.store) && r in w.store.runs
    ensures r in ApplyCreate(p, w, l).store.runs && ApplyCreate(p, w, l).store.runs[r] == w.store.runs[r]
  {
  }

  lemma ScanLeavesRuns(p: Params, w: World, l: Label)
    requires l.ScanPage? && WorldInv(p, w)
    ensures ApplyScan(p, w, l).store.runs == w.store.runs
  {
    ClaimPageFrame(w.store, p.quota, l.from, l.now, l.limit, l.now + p.policy.leaseDuration);
  }

  /** While a run is dispatching, only its own winner can write it, or a reconciler that saw the
      deadline or the stale boundary; and everything but the winner's identity write seals it. */
  lemma DispatchingTouchedBy(p: Params, w: World, l: Label, r: RunId)
    requires ValidParams(p) && WorldInv(p, w)
    requires r in w.store.runs && w.store.runs[r].state.Dispatching?
    requires r in Apply(p, w, l).store.runs && Apply(p, w, l).store.runs[r] != w.store.runs[r]
    ensures l.Resume? && l.i < |w.procs| && (OwnDispatchWrite(w, l.i, r) || SawStaleBoundary(p, w.procs[l.i], r))
    ensures !(w.procs[l.i].Request? && w.procs[l.i].a.AtCallWrite?) ==>
              Apply(p, w, l).store.runs[r].state.Indeterminate?
  {
    match l
    case CreateRun(_, _, _, _, _, _) => CreateLeavesRuns(p, w, l, r);
    case CancelRun(_, _, _, _) =>
    case ScanPage(_, _, _) => ScanLeavesRuns(p, w, l);
    case Resume(i, x) =>
      assert ProcOk(p, w, i, w.procs[i]);
      match w.procs[i] {
        case Request(a) => RequestTouches(p, w, i, a, x, r);
        case Leased(_) =>
        case Reconciling(lease, a) => ReconcilerTouches(p, w, i, lease, a, x, r);
        case Done =>
      }
    case Crash(_) =>
    case CallStarts(_) =>
    case CallFinishes(_) =>
  }

  /** Whoever has won a dispatch stays its winner. */
  lemma WinnerStays(p: Params, w: World, i: nat, a: ServiceAwait, x: Inputs, r: RunId)
    requires Shape(w.store) && i < |w.procs| && RunOk(p, w, r) && r in w.winners
    ensures var v := ResumeRequest(w, i, a, x); r in v.winners && v.winners[r] == w.winners[r]
  {
    hide RecordOk, NamesOwnCall;
  }

  /** A step of an activity moves no other. */
  lemma RequestMoves(w: World, i: nat, a: ServiceAwait, x: Inputs)
    requires Shape(w.store) && i < |w.procs| && w.procs[i] == Request(a)
    ensures var v := ResumeRequest(w, i, a, x);
            |v.procs| == |w.procs| && v.procs == w.procs[i := v.procs[i]] && v.procs[i].Request?
  {
    hide Write, ClaimDispatch, Shape, AfterSpawn, AfterCallWrite;
  }

  lemma ReconcilerMovesAlone(p: Params, w: World, i: nat, lease: ReconcileClaim, a: Await, x: Inputs)
    requires i < |w.procs|
    ensures var v := ResumeReconciler(p, w, i, lease, a, x);
            |v.procs| == |w.procs| && v.procs == w.procs[i := v.procs[i]]
  {
    hide AfterPoll, AfterCancellationPoll, AfterCancel, AfterCommit, Write, ReleaseLease;
  }

  lemma OnlyMoves(p: Params, w: World, i: nat, x: Inputs)
    requires Shape(w.store)
    ensures var v := ApplyResume(p, w, Resume(i, x));
      |v.procs| == |w.procs| && forall j :: 0 <= j < |w.procs| && j != i ==> v.procs[j] == w.procs[j]
  {
    hide ResumeReconciler, ResumeRequest, ReconcileClaimed;
    if i < |w.procs| {
      match w.procs[i]
      case Request(a) => RequestMoves(w, i, a, x);
      case Leased(_) =>
      case Reconciling(lease, a) => ReconcilerMovesAlone(p, w, i, lease, a, x);
      case Done =>
    }
  }

  lemma StartsMoveNobody(p: Params, w: World, l: Label, i: nat)
    requires Shape(w.store) && i < |w.procs| && !l.Resume? && l != Crash(i)
    ensures var v := Apply(p, w, l); i < |v.procs| && v.procs[i] == w.procs[i] && v.winners == w.winners
  {
    hide ApplyResume, Admit, Propose, ClaimPage, UsableRing;
  }

  /** A step of others: activity `i` does not move. */
  lemma OthersStay(p: Params, w: World, l: Label, i: nat)
    requires Shape(w.store) && i < |w.procs| && !(l.Resume? && l.i == i) && l != Crash(i)
    ensures var v := Apply(p, w, l); i < |v.procs| && v.procs[i] == w.procs[i]
  {
    hide ApplyCreate, ApplyCancel, ApplyScan, ApplyResume;
    if l.Resume? {
      OnlyMoves(p, w, l.i, l.x);
    } else {
      StartsMoveNobody(p, w, l, i);
    }
  }

  lemma OthersMove(p: Params, w: World, l: Label, i: nat, r: RunId)
    requires ValidParams(p) && WorldInv(p, w) && i < |w.procs| && r in w.winners
    requires !(l.Resume? && l.i == i) && l != Crash(i)
    ensures var v := Apply(p, w, l);
            i < |v.procs| && v.procs[i] == w.procs[i] && r in v.winners && v.winners[r] == w.winners[r]
  {
    hide WorldInv, ApplyCreate, ApplyCancel, ApplyScan;
    RunIsOk(p, w, r);
    OthersStay(p, w, l, i);
    if !l.Resume? {
      StartsMoveNobody(p, w, l, i);
    } else if l.i < |w.procs| && w.procs[l.i].Request? {
      WinnerStays(p, w, l.i, w.procs[l.i].a, l.x, r);
    }
  }

  /** Neither a step nor a crash of request `i`, nor a seal by a reconciler that saw the boundary. */
  ghost predicate LeavesAlone(p: Params, w: World, l: Label, r: RunId, i: nat) {
    && !(l.Resume? && l.i == i) && l != Crash(i)
    && !(l.Resume? && l.i < |w.procs| && SawStaleBoundary(p, w.procs[l.i], r))
  }

  ghost predicate LeftAlone(p: Params, history: seq<Label>, more: seq<Label>, r: RunId, i: nat)
    requires ValidParams(p)
    decreases |more|
  {
    more == [] || (
      var prefix := more[..|more| - 1];
      && LeftAlone(p, history, prefix, r, i)
      && LeavesAlone(p, WorldAfter(p, history + prefix), more[|more| - 1], r, i))
  }

  /** The run is dispatching as `rec`, and its winner waits as `q`. */
  predicate DispatchWaits(w: World, r: RunId, i: nat, rec: RunRecord, q: Proc) {
    && r in w.store.runs && w.store.runs[r] == rec && rec.state.Dispatching?
    && Won(w, i, r) && i < |w.procs| && w.procs[i] == q
  }

  lemma UndisturbedStep(p: Params, w: World, l: Label, r: RunId, i: nat)
    requires ValidParams(p) && WorldInv(p, w) && LeavesAlone(p, w, l, r, i)
    requires r in w.store.runs && w.store.runs[r].state.Dispatching? && Won(w, i, r) && i < |w.procs|
    ensures DispatchWaits(Apply(p, w, l), r, i, w.store.runs[r], w.procs[i])
  {
    OthersMove(p, w, l, i, r);
    WorldStep(p, w, l, r);
    if Apply(p, w, l).store.runs[r] != w.store.runs[r] {
      DispatchingTouchedBy(p, w, l, r);
    }
  }

  /** A fresh dispatch is not disturbed: however the history goes on, as long as the winner itself does
      not move and no reconciler that saw the boundary seals the run, its record stays as it was
      claimed and its winner waits where it was. */
  lemma {:induction false} FreshDispatchUndisturbed(p: Params, history: seq<Label>, more: seq<Label>, r: RunId, i: nat)
    requires ValidParams(p) && LeftAlone(p, history, more, r, i)
    requires r in WorldAfter(p, history).store.runs && WorldAfter(p, history).store.runs[r].state.Dispatching?
    requires Won(WorldAfter(p, history), i, r) && i < |WorldAfter(p, history).procs|
    ensures var w := WorldAfter(p, history);
            DispatchWaits(WorldAfter(p, history + more), r, i, w.store.runs[r], w.procs[i])
    decreases |more|
  {
    if more == [] {
      assert history + more == history;
    } else {
      var prefix, last := more[..|more| - 1], more[|more| - 1];
      FreshDispatchUndisturbed(p, history, prefix, r, i);
      AfterOneMore(p, history, more);
      UndisturbedStep(p, WorldAfter(p, history + prefix), last, r, i);
    }
  }

  lemma AfterOneMore(p: Params, history: seq<Label>, more: seq<Label>)
    requires ValidParams(p) && more != []
    ensures WorldAfter(p, history + more) ==
            Apply(p, WorldAfter(p, history + more[..|more| - 1]), more[|more| - 1])
  {
    hide Apply, WorldInv, WorldAfter;
    var prefix, last := more[..|more| - 1], more[|more| - 1];
    assert history + more == (history + prefix) + [last];
    AfterStep(p, history + prefix, last);
  }

  lemma CallWriteWins(p: Params, w: World, i: nat, a: ServiceAwait, x: Inputs)
    requires ValidParams(p) && WorldInv(p, w) && i < |w.procs| && w.procs[i] == Request(a) && a.AtCallWrite?
    requires x.fault.NoFault?
    ensures var r := a.record.runId; var v := Apply(p, w, Resume(i, x));
      && r in w.store.runs && Won(w, i, r)
      && (if w.store.runs[r].state.Dispatching?
          then r in v.store.runs && v.store.runs[r] == a.next && a.next.state.Running?
          && v.procs[i] == Request(Answered)
          else w.store.runs[r].callId == a.next.callId || (w.store.runs[r].state.Indeterminate? && r in w.store.claims))
  {
    var r := a.record.runId;
    assert ProcOk(p, w, i, w.procs[i]);
    assert RunOk(p, w, r) && EntryOk(w.store, r) && CallOk(w, a.next.callId.value);
  }

  /** Whenever the write of the identity arrives, it wins if the run is still dispatching; otherwise the
      identity is stored already or the run was sealed as indeterminate, with its claims. */
  lemma CallWriteDecided(p: Params, history: seq<Label>, i: nat, x: Inputs)
    requires ValidParams(p) && i < |WorldAfter(p, history).procs| && x.fault.NoFault?
    requires WorldAfter(p, history).procs[i].Request? && WorldAfter(p, history).procs[i].a.AtCallWrite?
    ensures var w := WorldAfter(p, history); var a := w.procs[i].a;
      && a.record.runId in w.store.runs
      && (if w.store.runs[a.record.runId].state.Dispatching?
          then RecordOf(p, history + [Resume(i, x)], a.record.runId) == Some(a.next) && a.next.state.Running?
          else w.store.runs[a.record.runId].callId == a.next.callId
               || (w.store.runs[a.record.runId].state.Indeterminate? && a.record.runId in w.store.claims))
  {
    assert (history + [Resume(i, x)])[..|history|] == history;
    CallWriteWins(p, WorldAfter(p, history), i, WorldAfter(p, history).procs[i].a, x);
  }

  /** So the write of a fresh dispatch's identity wins: after any continuation that leaves the dispatch
      alone, the run is stored as running with that identity. */
  lemma UndisturbedCallWriteWins(p: Params, history: seq<Label>, more: seq<Label>, i: nat, x: Inputs)
    requires ValidParams(p) && i < |WorldAfter(p, history).procs| && x.fault.NoFault?
    requires WorldAfter(p, history).procs[i].Request? && WorldAfter(p, history).procs[i].a.AtCallWrite?
    requires var w := WorldAfter(p, history); var r := w.procs[i].a.record.runId;
             r in w.store.runs && w.store.runs[r].state.Dispatching? && LeftAlone(p, history, more, r, i)
    ensures var a := WorldAfter(p, history).procs[i].a;
      && RecordOf(p, history + more + [Resume(i, x)], a.record.runId) == Some(a.next)
      && a.next.state.Running? && a.next.callId.Some?
  {
    var w := WorldAfter(p, history);
    assert ProcOk(p, w, i, w.procs[i]);
    FreshDispatchUndisturbed(p, history, more, w.procs[i].a.record.runId, i);
    CallWriteDecided(p, history + more, i, x);
  }

  /** From the won claim to the running call: if the winner spawns, nothing seals the dispatch at its
      boundary first and the winner's calls do not fail, the run ends up running under the identity of
      the call made for it, whatever else happens before and in between. */
  lemma FreshDispatchRuns(p: Params, history: seq<Label>, before: seq<Label>,
                          x: Inputs, between: seq<Label>, y: Inputs, r: RunId, i: nat)
    requires ValidParams(p) && !x.spawnRaises && y.fault.NoFault?
    requires i < |WorldAfter(p, history).procs| && Spawning(WorldAfter(p, history).procs[i], r)
    requires r in WorldAfter(p, history).store.runs && WorldAfter(p, history).store.runs[r].state.Dispatching?
    requires LeftAlone(p, history, before, r, i)
    requires LeftAlone(p, history + before + [Resume(i, x)], between, r, i)
    ensures var k := |WorldAfter(p, history + before).calls|;
            var v := WorldAfter(p, history + before + [Resume(i, x)] + between + [Resume(i, y)]);
      && r in v.store.runs && v.store.runs[r].state.Running? && v.store.runs[r].callId == Some(k)
      && k < |v.calls| && v.calls[k].runId == r
  {
    var w := WorldAfter(p, history);
    assert ProcOk(p, w, i, w.procs[i]);
    FreshDispatchUndisturbed(p, history, before, r, i);
    SpawnLeadsToWrite(p, history + before, x, r, i);
    UndisturbedCallWriteWins(p, history + before + [Resume(i, x)], between, i, y);
    RecordsWellFormed(p, history + before + [Resume(i, x)] + between + [Resume(i, y)], r);
  }

  /** A spawn that returns leaves its winner about to store the call's identity. */
  lemma SpawnLeadsToWrite(p: Params, history: seq<Label>, x: Inputs, r: RunId, i: nat)
    requires ValidParams(p) && !x.spawnRaises
    requires i < |WorldAfter(p, history).procs| && Spawning(WorldAfter(p, history).procs[i], r)
    requires r in WorldAfter(p, history).store.runs
    ensures var w, v := WorldAfter(p, history), WorldAfter(p, history + [Resume(i, x)]);
      && v.store == w.store && i < |v.procs| && v.procs[i].Request? && v.procs[i].a.AtCallWrite?
      && v.procs[i].a.record.runId == r && v.procs[i].a.next.callId == Some(|w.calls|)
  {
    var w := WorldAfter(p, history);
    assert (history + [Resume(i, x)])[..|history|] == history;
    assert ProcOk(p, w, i, w.procs[i]);
    AfterSpawnOk(p.policy, w.procs[i].a.record, Some(|w.calls|), x.now, x.laterNow);
  }

  // ---------------------------------------------------------------- an orphaned dispatch

  /** The winner itself goes on, but not to another spawn or identity write for this run. */
  lemma OrphanMoves(p: Params, w: World, i: nat, a: ServiceAwait, x: Inputs, r: RunId)
    requires Shape(w.store) && i < |w.procs| && w.procs[i] == Request(a) && RequestOk(p, w, i, a)
    requires Orphaned(w, r) && Won(w, i, r) && r in w.store.intents && w.store.intents[r].Claimed?
    ensures var v := ResumeRequest(w, i, a, x); i < |v.procs| && !AboutToDispatch(v.procs[i], r)
  {
    match a
    case Answered =>
    case Failed500(_) =>
    case AtExpiryWrite(_, _) =>
    case AtAmbiguousWrite(_, _) =>
    case AtCancelWrite(_, _) =>
    case AtSpawn(c, _, _) =>
      AfterSpawnOk(p.policy, c, if x.spawnRaises then None else Some(|w.calls|), x.now, x.laterNow);
    case AtCallWrite(c, _) => SealAmbiguousOk(p.policy, c, x.now);
    case AtClaimDispatch(_, _, _, _, _, _) =>
  }

  /** Whatever the winner of an orphan does next, it does not go back to dispatching it. */
  lemma WinnerNeverReturns(p: Params, w: World, l: Label, r: RunId)
    requires ValidParams(p) && WorldInv(p, w) && Orphaned(w, r)
    ensures var v := Apply(p, w, l); var i := w.winners[r];
            r in v.winners && v.winners[r] == i && i < |v.procs| && !AboutToDispatch(v.procs[i], r)
  {
    hide WorldInv, ApplyCreate, ApplyCancel, ApplyScan, ReconcilerOk, NextAwait;
    var i := w.winners[r];
    if (l.Resume? && l.i == i) || l == Crash(i) {
      ProcIsOk(p, w, i);
      RunIsOk(p, w, r);
      if l.Resume? && w.procs[i].Request? {
        OrphanMoves(p, w, i, w.procs[i].a, l.x, r);
        WinnerStays(p, w, i, w.procs[i].a, l.x, r);
      }
    } else {
      OthersMove(p, w, l, i, r);
    }
  }

  /** An orphan stays one, or is sealed. */
  lemma OrphanStep(p: Params, w: World, l: Label, r: RunId)
    requires ValidParams(p) && WorldInv(p, w) && Orphaned(w, r)
    ensures var v := Apply(p, w, l);
      && r in v.store.runs
      && ((Orphaned(v, r) && v.store.runs[r] == w.store.runs[r]) || v.store.runs[r].state.Indeterminate?)
  {
    hide Apply;
    WorldStep(p, w, l, r);
    WinnerNeverReturns(p, w, l, r);
    if Apply(p, w, l).store.runs[r] != w.store.runs[r] {
      DispatchingTouchedBy(p, w, l, r);
    }
  }

  /** A dispatch whose winner failed can only be sealed: in every continuation it is still the same
      record, or indeterminate, and it keeps its desktop and quota for good. */
  lemma {:induction false} OrphanOnlySealed(p: Params, history: seq<Label>, more: seq<Label>, r: RunId)
    requires ValidParams(p) && Orphaned(WorldAfter(p, history), r)
    ensures var w, v := WorldAfter(p, history), WorldAfter(p, history + more);
      && r in v.store.runs && r in v.store.claims
      && ((Orphaned(v, r) && v.store.runs[r] == w.store.runs[r]) || v.store.runs[r].state.Indeterminate?)
    decreases |more|
  {
    hide Apply;
    var v := WorldAfter(p, history + more);
    assert EntryOk(v.store, r);
    if more == [] {
      assert history + more == history;
    } else {
      var prefix, last := more[..|more| - 1], more[|more| - 1];
      OrphanOnlySealed(p, history, prefix, r);
      AfterOneMore(p, history, more);
      var u := WorldAfter(p, history + prefix);
      if Orphaned(u, r) && u.store.runs[r] == WorldAfter(p, history).store.runs[r] {
        OrphanStep(p, u, last, r);
      } else {
        assert history + more == (history + prefix) + [last];
        StepOfRun(p, history + prefix, last, r);
      }
    }
  }
}
