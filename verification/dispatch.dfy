/** Admission, the dispatch claim and the spawn keep the invariant; so does the provider. */
module Dispatch {
  import opened Outcomes
  import opened Domain
  import opened Store
  import opened Recovery
  import opened Service
  import opened System
  import opened Invariant
  import opened Preservation

  // ---------------------------------------------------------------- claim_dispatch

  ghost predicate DispatchReady(p: Params, w: World, i: nat, r: RunRecord, n: RunRecord) {
    && i < |w.procs| && Held(w, r) && VersionCurrent(w.store, r) && RecordOk(p.policy, r) && RecordOk(p.policy, n)
    && r.state.Reserved? && n.state.Dispatching? && Successor(r, n)
  }

  function AfterDispatch(w: World, i: nat, n: RunRecord, q: Proc): World
    requires i < |w.procs|
  {
    WithProc(w.(store := w.store.(runs := w.store.runs[n.runId := n],
                                  intents := w.store.intents[n.runId := Claimed])), i, q)
      .(winners := w.winners[n.runId := i])
  }

  /** The winner goes on to spawn, unless the claim raised after it was made. */
  predicate GoesOn(q: Proc, n: RunRecord) {
    q.Request? && (q.a.Answered? || (q.a.AtSpawn? && q.a.record == n))
  }

  lemma DispatchEvolves(p: Params, w: World, i: nat, r: RunRecord, n: RunRecord, q: Proc)
    requires DispatchReady(p, w, i, r, n) && RunOk(p, w, r.runId) && EntryOk(w.store, r.runId)
    ensures Evolves(w, AfterDispatch(w, i, n, q))
  {
  }

  lemma DispatchRunOk(p: Params, w: World, i: nat, r: RunRecord, n: RunRecord, q: Proc, id: RunId)
    requires DispatchReady(p, w, i, r, n) && RunOk(p, w, id) && EntryOk(w.store, r.runId)
    ensures RunOk(p, AfterDispatch(w, i, n, q), id)
  {
  }

  lemma DispatchOwnerOk(p: Params, w: World, i: nat, r: RunRecord, n: RunRecord, q: Proc, id: RunId)
    requires DispatchReady(p, w, i, r, n) && OwnerOk(p, w, id)
    ensures OwnerOk(p, AfterDispatch(w, i, n, q), id)
  {
  }

  lemma DispatchCallOk(p: Params, w: World, i: nat, r: RunRecord, n: RunRecord, q: Proc, k: nat)
    requires DispatchReady(p, w, i, r, n) && k < |w.calls| && CallOk(w, k)
    requires RunOk(p, w, r.runId) && EntryOk(w.store, r.runId)
    requires GoesOn(q, n)
    ensures CallOk(AfterDispatch(w, i, n, q), k)
  {
  }

  lemma DispatchKeepsWorld(p: Params, w: World, i: nat, r: RunRecord, n: RunRecord, q: Proc)
    requires WorldInv(p, w) && DispatchReady(p, w, i, r, n)
    requires GoesOn(q, n)
    requires q.a.AtSpawn? ==> OwnsInputs(w, r.runId, q.a.desktop, q.a.task)
    requires StoreInv(AfterDispatch(w, i, n, q).store, p.quota)
    ensures WorldInv(p, AfterDispatch(w, i, n, q))
  {
    var v := AfterDispatch(w, i, n, q);
    assert RunOk(p, w, r.runId) && EntryOk(w.store, r.runId);
    DispatchEvolves(p, w, i, r, n, q);
    assert ProcOk(p, v, i, q);
    ProcsStay(p, w, v, i, q);
    forall id ensures RunOk(p, v, id) { assert RunOk(p, w, id); DispatchRunOk(p, w, i, r, n, q, id); }
    forall id ensures OwnerOk(p, v, id) { assert OwnerOk(p, w, id); DispatchOwnerOk(p, w, i, r, n, q, id); }
    forall k | 0 <= k < |v.calls| ensures CallOk(v, k) { assert CallOk(w, k); DispatchCallOk(p, w, i, r, n, q, k); }
    forall b, c ensures PairOk(v, b, c) { assert PairOk(w, b, c); }
  }

  /** What a won claim makes of the world. */
  lemma WonClaim(p: Params, w: World, i: nat, a: ServiceAwait, x: Inputs)
    requires Shape(w.store) && i < |w.procs| && a.AtClaimDispatch? && Held(w, a.record) && RecordOk(p.policy, a.record)
    requires a.reconcileAt == Min(a.record.deadlineAt, a.now + p.policy.dispatchStaleAfter)
    requires !x.fault.FailsBeforeWrite? && ClaimDispatch(w.store, a.record, a.intent, a.now, a.reconcileAt).1.Some?
    ensures var n := ClaimDispatch(w.store, a.record, a.intent, a.now, a.reconcileAt).1.value;
      && DispatchReady(p, w, i, a.record, n)
      && ResumeRequest(w, i, a, x) ==
         AfterDispatch(w, i, n, Request(if x.fault.FailsAfterWrite? then Answered else AtSpawn(n, a.desktop, a.task)))
  {
    CurrentIsStored(w, a.record);
    TransitionIsSuccessor(a.record, Dispatching, a.now, NO_CHANGES.(reconcileAt := Some(a.reconcileAt)));
  }

  lemma ClaimDispatchKeepsWorld(p: Params, w: World, i: nat, a: ServiceAwait, x: Inputs)
    requires ValidParams(p) && WorldInv(p, w) && i < |w.procs| && w.procs[i] == Request(a) && a.AtClaimDispatch?
    ensures WorldInv(p, ResumeRequest(w, i, a, x))
  {
    assert RequestOk(p, w, i, a) by { assert ProcOk(p, w, i, w.procs[i]); }
    var won := ClaimDispatch(w.store, a.record, a.intent, a.now, a.reconcileAt).1;
    ClaimDispatchKeepsInv(w.store, p.quota, a.record, a.intent, a.now, a.reconcileAt);
    if won.None? || x.fault.FailsBeforeWrite? {
      assert ResumeRequest(w, i, a, x) == WithProc(w, i, Request(Answered));
      MoveKeepsWorld(p, w, i, Request(Answered));
    } else {
      var n := won.value;
      WonClaim(p, w, i, a, x);
      DispatchKeepsWorld(p, w, i, a.record, n,
                         Request(if x.fault.FailsAfterWrite? then Answered else AtSpawn(n, a.desktop, a.task)));
    }
  }

  // ---------------------------------------------------------------- spawn

  ghost predicate SpawnReady(p: Params, w: World, i: nat, call: ProviderCall) {
    && i < |w.procs| && Spawning(w.procs[i], call.runId)
    && call.runId in w.store.runs && call.runId in w.owners && call.runId in w.winners && w.winners[call.runId] == i
    && w.owners[call.runId].tenant == call.tenant && w.owners[call.runId].desktop == call.desktop
    && w.owners[call.runId].task == call.task
    && call.phase.NotStarted?
  }

  function AfterSpawnCall(w: World, i: nat, call: ProviderCall, q: Proc): World
    requires i < |w.procs|
  {
    WithProc(w.(calls := w.calls + [call]), i, q)
  }

  /** Nobody has spawned for this run before. */
  lemma SpawnIsFirst(p: Params, w: World, i: nat, call: ProviderCall, k: nat)
    requires SpawnReady(p, w, i, call) && k < |w.calls| && CallOk(w, k)
    ensures w.calls[k].runId != call.runId
  {
  }

  /** Before its spawn a dispatched run has no call, so it has not been released. */
  lemma SpawnFindsClaim(p: Params, w: World, i: nat, call: ProviderCall)
    requires SpawnReady(p, w, i, call) && RunOk(p, w, call.runId) && EntryOk(w.store, call.runId)
    requires forall k :: 0 <= k < |w.calls| ==> w.calls[k].runId != call.runId
    ensures call.runId in w.store.claims
    ensures w.store.runs[call.runId].state.Dispatching? || w.store.runs[call.runId].state.Indeterminate?
  {
  }

  lemma SpawnKeepsWorld(p: Params, w: World, i: nat, call: ProviderCall, q: Proc)
    requires WorldInv(p, w) && SpawnReady(p, w, i, call) && NoSpawn(q)
    requires ProcOk(p, AfterSpawnCall(w, i, call, q), i, q)
    ensures WorldInv(p, AfterSpawnCall(w, i, call, q))
  {
    var v := AfterSpawnCall(w, i, call, q);
    var last := |w.calls|;
    assert RunOk(p, w, call.runId) && EntryOk(w.store, call.runId);
    forall k | 0 <= k < last ensures w.calls[k].runId != call.runId {
      assert CallOk(w, k);
      SpawnIsFirst(p, w, i, call, k);
    }
    SpawnFindsClaim(p, w, i, call);
    assert Evolves(w, v);
    ProcsStay(p, w, v, i, q);
    forall r ensures RunOk(p, v, r) { assert RunOk(p, w, r); }
    forall r ensures OwnerOk(p, v, r) { assert OwnerOk(p, w, r); }
    forall k | 0 <= k < |v.calls| ensures CallOk(v, k) {
      if k < last { assert CallOk(w, k); }
    }
    forall b, c ensures PairOk(v, b, c) { assert PairOk(w, b, c); }
  }

  lemma SpawnStepKeepsWorld(p: Params, w: World, i: nat, a: ServiceAwait, x: Inputs)
    requires WorldInv(p, w) && i < |w.procs| && w.procs[i] == Request(a) && a.AtSpawn?
    ensures WorldInv(p, ResumeRequest(w, i, a, x))
  {
    assert ProcOk(p, w, i, w.procs[i]);
    var r := a.record;
    var call := ProviderCall(r.runId, r.tenantId, a.desktop, a.task, NotStarted);
    var id := if x.spawnRaises then None else Some(|w.calls|);
    var next := AfterSpawn(r, id, x.now, x.laterNow);
    assert OwnerOk(p, w, r.runId) && RunOk(p, w, r.runId);
    AfterSpawnOk(p.policy, r, id, x.now, x.laterNow);
    SealAmbiguousOk(p.policy, r, x.laterNow);
    var v := AfterSpawnCall(w, i, call, Request(next));
    assert Evolves(w, v);
    HeldStays(w, v, r);
    assert next.record == r;
    assert next.AtCallWrite? ==> NamesOwnCall(v, next.next);
    assert next.AtAmbiguousWrite? ==> next.next.callId.None?;
    SpawnKeepsWorld(p, w, i, call, Request(next));
  }
}
