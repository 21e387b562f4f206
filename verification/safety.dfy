/** Safety of the gateway over whole histories: every interleaving, every crash point, any clock. */
module Safety {
  import opened Outcomes
  import opened Domain
  import opened Identity
  import opened Sequences
  import opened Store
  import opened Recovery
  import opened Service
  import opened System
  import opened Invariant
  import opened Preservation
  import opened Dispatch
  import opened Admission

  // ---------------------------------------------------------------- one step

  lemma PhaseKeepsWorld(p: Params, w: World, k: nat, phase: CallPhase)
    requires WorldInv(p, w) && k < |w.calls| && (w.calls[k].phase.Finished? ==> phase.Finished?)
    ensures WorldInv(p, SetPhase(w, k, phase))
  {
    var v := SetPhase(w, k, phase);
    assert Evolves(w, v);
    forall r ensures RunOk(p, v, r) { assert RunOk(p, w, r); }
    forall r ensures OwnerOk(p, v, r) { assert OwnerOk(p, w, r); }
    forall a, b ensures PairOk(v, a, b) { assert PairOk(w, a, b); }
    forall j | 0 <= j < |v.calls| ensures CallOk(v, j) { assert CallOk(w, j); }
    forall i | 0 <= i < |v.procs| ensures ProcOk(p, v, i, v.procs[i]) {
      assert ProcOk(p, w, i, w.procs[i]);
      ProcStays(p, w, v, i, v.procs[i]);
    }
  }

  lemma RequestKeepsWorld(p: Params, w: World, i: nat, a: ServiceAwait, x: Inputs)
    requires ValidParams(p) && WorldInv(p, w) && i < |w.procs| && w.procs[i] == Request(a)
    ensures WorldInv(p, ResumeRequest(w, i, a, x))
  {
    match a
    case Answered =>
    case Failed500(_) =>
    case AtExpiryWrite(_, _) => LastWriteKeepsWorld(p, w, i, a, x);
    case AtAmbiguousWrite(_, _) => LastWriteKeepsWorld(p, w, i, a, x);
    case AtCancelWrite(_, _) => LastWriteKeepsWorld(p, w, i, a, x);
    case AtClaimDispatch(_, _, _, _, _, _) => ClaimDispatchKeepsWorld(p, w, i, a, x);
    case AtSpawn(_, _, _) => SpawnStepKeepsWorld(p, w, i, a, x);
    case AtCallWrite(r, n) => CallWriteKeepsWorld(p, w, i, r, n, x);
  }

  /** No step of any activity, no crash and nothing the provider does breaks the invariant. */
  lemma StepKeepsWorld(p: Params, w: World, l: Label)
    requires ValidParams(p) && WorldInv(p, w)
    ensures WorldInv(p, Apply(p, w, l))
  {
    match l
    case CreateRun(_, _, _, _, _, _) => CreateKeepsWorld(p, w, l);
    case CancelRun(_, _, _, _) => CancelKeepsWorld(p, w, l);
    case ScanPage(_, _, _) => ScanKeepsWorld(p, w, l);
    case Resume(i, x) =>
      if i < |w.procs| {
        match w.procs[i]
        case Request(a) => RequestKeepsWorld(p, w, i, a, x);
        case Leased(c) => BeginKeepsWorld(p, w, i, c, x.now);
        case Reconciling(_, _) => ReconcilerKeepsWorld(p, w, i, x);
        case Done =>
      }
    case Crash(i) => if i < |w.procs| { MoveKeepsWorld(p, w, i, Done); }
    case CallStarts(k) => if k < |w.calls| && w.calls[k].phase.NotStarted? { PhaseKeepsWorld(p, w, k, Live); }
    case CallFinishes(k) => if k < |w.calls| { PhaseKeepsWorld(p, w, k, Finished); }
  }

  // ---------------------------------------------------------------- histories

  lemma StartKeepsInv(p: Params)
    ensures WorldInv(p, START)
  {
    EmptyStore(p.quota);
  }

  /** The world after a history.  Its contract is the invariant: it holds after every history. */
  function WorldAfter(p: Params, history: seq<Label>): (w: World)
    requires ValidParams(p)
    ensures WorldInv(p, w)
  {
    if history == [] then
      StartKeepsInv(p);
      START
    else
      var before := WorldAfter(p, history[..|history| - 1]);
      StepKeepsWorld(p, before, history[|history| - 1]);
      Apply(p, before, history[|history| - 1])
  }

  lemma AfterStep(p: Params, history: seq<Label>, l: Label)
    requires ValidParams(p)
    ensures WorldAfter(p, history + [l]) == Apply(p, WorldAfter(p, history), l)
  {
    hide Apply, WorldInv;
    assert (history + [l])[..|history|] == history;
  }

  /** No two provider calls are ever live, or still able to start, on one desktop. */
  lemma DesktopExclusivity(p: Params, history: seq<Label>, j: nat, k: nat)
    requires ValidParams(p)
    requires j < |WorldAfter(p, history).calls| && k < |WorldAfter(p, history).calls| && j != k
    requires !WorldAfter(p, history).calls[j].phase.Finished? && !WorldAfter(p, history).calls[k].phase.Finished?
    ensures var calls := WorldAfter(p, history).calls;
            (calls[j].tenant, calls[j].desktop) != (calls[k].tenant, calls[k].desktop)
  {
    var w := WorldAfter(p, history);
    assert CallOk(w, j) && CallOk(w, k);
    assert w.calls[j].runId != w.calls[k].runId;
    assert PairOk(w, w.calls[j].runId, w.calls[k].runId);
  }

  /** A run that no longer holds its desktop was never spawned, or every call made for it is over. */
  lemma ReleasedOnlyWhenOver(p: Params, history: seq<Label>, r: RunId, k: nat)
    requires ValidParams(p)
    requires r !in WorldAfter(p, history).store.claims && k < |WorldAfter(p, history).calls|
        && WorldAfter(p, history).calls[k].runId == r
    ensures WorldAfter(p, history).calls[k].phase.Finished?
  {
    assert CallOk(WorldAfter(p, history), k);
  }

  /** `spawn` is called at most once for a run, for a run that won its dispatch, and never for one
      that was cancelled or expired before dispatch. */
  lemma SpawnedAtMostOnce(p: Params, history: seq<Label>, k: nat)
    requires ValidParams(p) && k < |WorldAfter(p, history).calls|
    ensures var w := WorldAfter(p, history);
      && (forall j :: 0 <= j < |w.calls| && j != k ==> w.calls[j].runId != w.calls[k].runId)
      && w.calls[k].runId in w.store.intents && w.store.intents[w.calls[k].runId].Claimed?
  {
    var w := WorldAfter(p, history);
    assert CallOk(w, k);
    assert RunOk(p, w, w.calls[k].runId);
    forall j | 0 <= j < |w.calls| && j != k ensures w.calls[j].runId != w.calls[k].runId {
      assert j < k || k < j;
    }
  }

  /** Every spawn, on behalf of a first submission or of a replay, uses the desktop and task whose
      digests the run's record carries. */
  lemma SpawnUsesBoundDesktop(p: Params, history: seq<Label>, k: nat)
    requires ValidParams(p) && k < |WorldAfter(p, history).calls|
    ensures var w := WorldAfter(p, history); var c := w.calls[k];
      && c.runId in w.store.runs
      && w.store.runs[c.runId].tenantId == c.tenant
      && Binds(p.mac, p.secrets, w.store.runs[c.runId].desktop, c.tenant, DesktopKind, c.desktop)
      && Binds(p.mac, p.secrets, w.store.runs[c.runId].task, c.tenant, TaskKind, c.task)
  {
    var w := WorldAfter(p, history);
    assert CallOk(w, k);
    assert OwnerOk(p, w, w.calls[k].runId);
  }

  /** The request that won the run's dispatch is about to store this call identity. */
  predicate StoringIdentity(w: World, r: RunId, k: nat) {
    && r in w.winners && w.winners[r] < |w.procs| && w.procs[w.winners[r]].Request?
    && w.procs[w.winners[r]].a.AtCallWrite? && w.procs[w.winners[r]].a.record.runId == r
    && w.procs[w.winners[r]].a.next.callId == Some(k)
  }

  /** A dispatch whose winner will never spawn or store an identity again: it failed, crashed or is
      sealing the run. */
  predicate Orphaned(w: World, r: RunId) {
    && r in w.store.runs && w.store.runs[r].state.Dispatching?
    && r in w.winners && w.winners[r] < |w.procs|
    && !AboutToDispatch(w.procs[w.winners[r]], r)
  }

  predicate AboutToDispatch(q: Proc, r: RunId) {
    q.Request? && (q.a.AtSpawn? || q.a.AtCallWrite?) && q.a.record.runId == r
  }

  /** A spawned call's identity is stored with its run, or the winner of the dispatch is just about to
      store it, or the run keeps its desktop and quota and is sealed as indeterminate or, after a
      failure of the winner, can only become so (`Histories.OrphanOnlySealed`). */
  lemma IdentityNeverSilentlyLost(p: Params, history: seq<Label>, k: nat)
    requires ValidParams(p) && k < |WorldAfter(p, history).calls|
    ensures var w := WorldAfter(p, history); var r := w.calls[k].runId;
      && r in w.store.runs
      && (w.store.runs[r].callId == Some(k)
          || (r in w.store.claims && (w.store.runs[r].state.Indeterminate? || Orphaned(w, r)
                                      || (w.store.runs[r].state.Dispatching? && StoringIdentity(w, r, k)))))
  {
    var w := WorldAfter(p, history);
    var r := w.calls[k].runId;
    assert CallOk(w, k) && EntryOk(w.store, r);
    if w.store.runs[r].state.Dispatching? && !Orphaned(w, r) {
      assert ProcOk(p, w, w.winners[r], w.procs[w.winners[r]]);
    }
  }

  /** Conservation: a tenant is charged one unit per unreleased run, within the quota; the desktop
      claims are those of exactly these runs; a desktop has at most one owner; and a run has given
      its capacity back exactly once if it succeeded, failed or was cancelled, and never otherwise. */
  lemma CapacityConserved(p: Params, history: seq<Label>, tenant: TenantId, r: RunId, q: RunId)
    requires ValidParams(p)
    ensures var w := WorldAfter(p, history); var s := w.store;
      && Used(s.used, tenant) == |Holders(s.runs, tenant)| <= p.quota
      && (r in s.claims <==> r in s.runs && !IsReleasing(s.runs[r].state))
      && multiset(s.releaseLog)[r] == (if r in s.runs && IsReleasing(s.runs[r].state) then 1 else 0)
      && (r in s.claims && q in s.claims && r != q ==>
            r in w.owners && q in w.owners &&
            (w.owners[r].tenant, w.owners[r].desktop) != (w.owners[q].tenant, w.owners[q].desktop))
  {
    var w := WorldAfter(p, history);
    assert EntryOk(w.store, r) && EntryOk(w.store, q);
    assert RunOk(p, w, r) && RunOk(p, w, q) && PairOk(w, r, q);
    DistinctCounts(w.store.releaseLog, r);
  }

  lemma {:induction false} DistinctCounts(s: seq<RunId>, r: RunId)
    requires Distinct(s)
    ensures multiset(s)[r] == if r in s then 1 else 0
  {
    if s != [] {
      assert s == [s[0]] + s[1..];
      assert Distinct(s[1..]);
      DistinctCounts(s[1..], r);
    }
  }

  /** Every stored record is well formed, a running or cancelling one names its own call, and a live
      one has both error counters below their caps. */
  lemma RecordsWellFormed(p: Params, history: seq<Label>, r: RunId)
    requires ValidParams(p) && r in WorldAfter(p, history).store.runs
    ensures var rec := WorldAfter(p, history).store.runs[r];
      && rec.runId == r && WellFormed(rec)
      && (rec.state.Running? || rec.state.CancellationRequested? ==>
            && rec.callId.Some? && rec.callId.value < |WorldAfter(p, history).calls|
            && WorldAfter(p, history).calls[rec.callId.value].runId == r)
      && (!IsTerminal(rec.state) ==>
            rec.providerErrors < p.policy.maxProviderErrors && rec.cancelErrors < p.policy.maxCancelErrors)
  {
    assert RunOk(p, WorldAfter(p, history), r) && EntryOk(WorldAfter(p, history).store, r);
  }

  /** No transition or reschedule the service or a reconciler computes ever raises: a request never
      fails on one, and a pass raises only when the store did or when the policy's backoff can leave the
      range of delays. */
  lemma NeverRaises(p: Params, history: seq<Label>, i: nat)
    requires ValidParams(p) && i < |WorldAfter(p, history).procs|
    ensures var q := WorldAfter(p, history).procs[i];
      && (q.Request? ==> !q.a.Failed500?)
      && (q.Reconciling? && q.at.Raised? ==>
            q.at.error.StoreError? || (q.at.error.OverflowError? && !BackoffInRange(p.policy)))
  {
    var w := WorldAfter(p, history);
    assert ProcOk(p, w, i, w.procs[i]);
  }

  /** The record an activity is about to compare. */
  function HeldRecord(q: Proc): Option<RunRecord> {
    match q
    case Request(a) => if a.Answered? || a.Failed500? then None else Some(a.record)
    case Leased(c) => Some(c.record)
    case Reconciling(_, at) => if at.Returned? || at.Raised? then None else Some(at.claim.record)
    case Done => None
  }

  /** Comparing versions accepts exactly what comparing whole records would: no stale writer, however
      delayed, finds its version current over a record that has changed. */
  lemma VersionDecidesStaleness(p: Params, history: seq<Label>, i: nat)
    requires ValidParams(p) && i < |WorldAfter(p, history).procs| && HeldRecord(WorldAfter(p, history).procs[i]).Some?
    ensures var s := WorldAfter(p, history).store; var r := HeldRecord(WorldAfter(p, history).procs[i]).value;
      && r.runId in s.runs
      && (VersionCurrent(s, r) <==> s.runs[r.runId] == r)
      && r.version <= s.runs[r.runId].version
  {
    var w := WorldAfter(p, history);
    assert ProcOk(p, w, i, w.procs[i]);
    assert RunOk(p, w, HeldRecord(w.procs[i]).value.runId);
  }

  /** `cancel` is sent only for a run whose cancellation was requested, and every commit that gives
      capacity back rests on a run never dispatched or on a call that is over. */
  lemma CancelOnlyAfterRequest(p: Params, history: seq<Label>, i: nat)
    requires ValidParams(p) && i < |WorldAfter(p, history).procs| && WorldAfter(p, history).procs[i].Reconciling?
    ensures var w := WorldAfter(p, history); var a := w.procs[i].at;
      && (a.AtCancel? ==>
            && a.claim.record.state.CancellationRequested? && a.claim.record.runId in w.store.runs
            && w.store.runs[a.claim.record.runId].version >= a.claim.record.version)
      && (a.AtCommit? && IsReleasing(a.next.state) && !a.claim.record.state.Reserved? ==>
            exists k :: 0 <= k < |w.calls| && a.claim.record.callId == Some(k) && w.calls[k].phase.Finished?)
  {
    var w := WorldAfter(p, history);
    assert ProcOk(p, w, i, w.procs[i]);
  }

  /** In any reachable world, re-sending a create under any usable ring returns the run it created. */
  lemma ResendAfterAnyHistory(p: Params, history: seq<Label>, ring: IdentityKeyring,
                              o: Owner, runId: RunId, now: Time, r: RunId)
    requires ValidParams(p) && UsableRing(p, ring) && Propose(p, ring, o, runId, now).Ok?
    requires runId !in WorldAfter(p, history).store.runs
    requires r in WorldAfter(p, history).store.runs && r in WorldAfter(p, history).owners
        && WorldAfter(p, history).owners[r] == o
    ensures var w := WorldAfter(p, history);
      Admit(w.store, p.quota, Propose(p, ring, o, runId, now).value) ==
      (w.store, if RingKnowsTenant(w, ring, o) then Replayed(w.store.runs[r], w.store.intents[r]) else KeyUnavailable)
  {
    ResendReplays(p, WorldAfter(p, history), ring, o, runId, now, r);
  }
}
