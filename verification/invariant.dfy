/** The inductive invariant of the gateway and its preservation by every step. */
module Invariant {
  import opened Outcomes
  import opened Domain
  import opened Identity
  import opened Store
  import opened Recovery
  import opened Service
  import opened System

  // ---------------------------------------------------------------- the invariant

  /** The digests of a record were made from the inputs its run was admitted with. */
  ghost predicate BoundTo(p: Params, r: RunRecord, o: Owner) {
    && r.tenantId == o.tenant
    && Binds(p.mac, p.secrets, r.idempotency, o.tenant, IdempotencyKind, o.key)
    && Binds(p.mac, p.secrets, r.desktop, o.tenant, DesktopKind, o.desktop)
    && Binds(p.mac, p.secrets, r.task, o.tenant, TaskKind, o.task)
  }

  /** A call identity in a record names a call spawned for that very run. */
  ghost predicate NamesOwnCall(w: World, r: RunRecord) {
    r.callId.Some? ==> r.callId.value < |w.calls| && w.calls[r.callId.value].runId == r.runId
  }

  ghost predicate RunOk(p: Params, w: World, r: RunId) {
    && (r in w.owners <==> r in w.store.runs)
    && (r in w.winners <==> r in w.store.intents && w.store.intents[r].Claimed?)
    && (r in w.store.runs ==> RecordOk(p.policy, w.store.runs[r]) && NamesOwnCall(w, w.store.runs[r]))
    && (r in w.store.runs && w.store.runs[r].state.Cancelled? && r in w.winners ==> w.store.runs[r].callId.Some?)
  }

  ghost predicate OwnerOk(p: Params, w: World, r: RunId) {
    r in w.store.runs && r in w.owners ==> BoundTo(p, w.store.runs[r], w.owners[r])
  }

  /** Two runs of one tenant differ in their idempotency key, and two unreleased runs in their desktop. */
  ghost predicate PairOk(w: World, r: RunId, q: RunId) {
    r != q && r in w.owners && q in w.owners && w.owners[r].tenant == w.owners[q].tenant ==>
      && w.owners[r].key != w.owners[q].key
      && (r in w.store.claims && q in w.store.claims ==> w.owners[r].desktop != w.owners[q].desktop)
  }

  predicate Spawning(q: Proc, r: RunId) {
    q.Request? && q.a.AtSpawn? && q.a.record.runId == r
  }

  /** A spawned call runs on the desktop and task its run was admitted with; its run won the dispatch
      and its winner is past the spawn.  Unless the call is over, the desktop claim is still held.
      Its identity is stored, still being stored, or the run is sealed as indeterminate. */
  ghost predicate CallOk(w: World, k: nat)
    requires k < |w.calls|
  {
    var c := w.calls[k];
    && c.runId in w.store.runs && c.runId in w.owners && c.runId in w.winners
    && w.owners[c.runId].tenant == c.tenant && w.owners[c.runId].desktop == c.desktop
    && w.owners[c.runId].task == c.task
    && w.winners[c.runId] < |w.procs| && !Spawning(w.procs[w.winners[c.runId]], c.runId)
    && (c.phase.Finished? || c.runId in w.store.claims)
    && (w.store.runs[c.runId].callId == Some(k) || w.store.runs[c.runId].state.Dispatching?
          || w.store.runs[c.runId].state.Indeterminate?)
  }

  /** A record some activity still holds: the store has it, or a later version of it.  Nothing
      rewrites a run that stays dispatching. */
  ghost predicate Held(w: World, r: RunRecord) {
    && r.runId in w.store.runs
    && r.tenantId == w.store.runs[r.runId].tenantId
    && r.version <= w.store.runs[r.runId].version
    && (r.version == w.store.runs[r.runId].version ==> r == w.store.runs[r.runId])
    && (r.state.Dispatching? ==> r == w.store.runs[r.runId] || Rank(w.store.runs[r.runId].state) > 1)
    && NamesOwnCall(w, r)
  }

  /** A write that would give capacity back is safe: never dispatched, or its call is over. */
  ghost predicate SafeRelease(w: World, r: RunRecord, n: RunRecord) {
    IsReleasing(n.state) ==>
      || r.state.Reserved?
      || (r.callId.Some? && r.callId.value < |w.calls| && w.calls[r.callId.value].phase.Finished?)
  }

  /** Request `i` is the one that won the dispatch of the run. */
  predicate Won(w: World, i: nat, r: RunId) {
    r in w.winners && w.winners[r] == i
  }

  predicate OwnsInputs(w: World, r: RunId, desktop: Bytes, task: Bytes) {
    r in w.owners && w.owners[r].desktop == desktop && w.owners[r].task == task
  }

  /** Only the winner of a dispatch spawns, stores the identity or seals its own dispatch. */
  ghost predicate RequestOk(p: Params, w: World, i: nat, a: ServiceAwait) {
    && ServiceAwaitOk(p.policy, a)
    && match a
       case Answered => true
       case Failed500(_) => true
       case AtExpiryWrite(r, n) => Held(w, r) && NamesOwnCall(w, n)
       case AtAmbiguousWrite(r, n) => Held(w, r) && NamesOwnCall(w, n) && Won(w, i, r.runId)
       case AtCancelWrite(r, n) => Held(w, r) && NamesOwnCall(w, n)
       case AtCallWrite(r, n) => Held(w, r) && NamesOwnCall(w, n) && Won(w, i, r.runId)
       case AtClaimDispatch(r, _, _, _, desktop, task) => Held(w, r) && OwnsInputs(w, r.runId, desktop, task)
       case AtSpawn(r, desktop, task) =>
         Held(w, r) && OwnsInputs(w, r.runId, desktop, task) && Won(w, i, r.runId)
  }

  ghost predicate ReconcilerOk(p: Params, w: World, a: Await) {
    && (a == Raised(StoreError) || AwaitOk(p.policy, a))
    && match a
       case Returned => true
       case Raised(_) => true
       case AtPoll(c) => Held(w, c.record)
       case AtCancellationPoll(c) => Held(w, c.record)
       case AtCancel(c) => Held(w, c.record)
       case AtCommit(c, n, _) => Held(w, c.record) && SafeRelease(w, c.record, n)
  }

  ghost predicate ProcOk(p: Params, w: World, i: nat, q: Proc) {
    match q
    case Request(a) => RequestOk(p, w, i, a)
    case Leased(c) => ClaimOk(p.policy, c) && Held(w, c.record)
    case Reconciling(_, at) => ReconcilerOk(p, w, at)
    case Done => true
  }

  ghost predicate RunsOk(p: Params, w: World) {
    forall r {:trigger RunOk(p, w, r)} :: RunOk(p, w, r)
  }

  ghost predicate OwnersOk(p: Params, w: World) {
    forall r {:trigger OwnerOk(p, w, r)} :: OwnerOk(p, w, r)
  }

  ghost predicate PairsOk(w: World) {
    forall r, q {:trigger PairOk(w, r, q)} :: PairOk(w, r, q)
  }

  ghost predicate CallsOk(w: World) {
    forall k {:trigger CallOk(w, k)} :: 0 <= k < |w.calls| ==> CallOk(w, k)
  }

  ghost predicate CallsDistinct(w: World) {
    forall j, k :: 0 <= j < k < |w.calls| ==> w.calls[j].runId != w.calls[k].runId
  }

  ghost predicate ProcsOk(p: Params, w: World) {
    forall i {:trigger ProcOk(p, w, i, w.procs[i])} :: 0 <= i < |w.procs| ==> ProcOk(p, w, i, w.procs[i])
  }

  ghost predicate WorldInv(p: Params, w: World) {
    && StoreInv(w.store, p.quota)
    && RunsOk(p, w) && OwnersOk(p, w) && PairsOk(w) && CallsOk(w) && CallsDistinct(w) && ProcsOk(p, w)
  }

  /** What the invariant says of one activity, and of one run. */
  lemma ProcIsOk(p: Params, w: World, i: nat)
    requires WorldInv(p, w) && i < |w.procs|
    ensures Shape(w.store) && ProcOk(p, w, i, w.procs[i])
  {
  }

  lemma RunIsOk(p: Params, w: World, r: RunId)
    requires WorldInv(p, w)
    ensures Shape(w.store) && RunOk(p, w, r) && EntryOk(w.store, r)
  {
  }

  // ---------------------------------------------------------------- what time can do to the world

  ghost predicate RunEvolves(w: World, v: World, r: RunId) {
    && (r in w.store.runs ==>
          && r in v.store.runs && w.store.runs[r].version <= v.store.runs[r].version
          && w.store.runs[r].tenantId == v.store.runs[r].tenantId)
    && (r in w.store.runs && r in v.store.runs && w.store.runs[r].version == v.store.runs[r].version ==>
          w.store.runs[r] == v.store.runs[r])
    && (r in w.store.runs && r in v.store.runs && w.store.runs[r].state.Dispatching?
        && v.store.runs[r].state.Dispatching? ==>
          w.store.runs[r] == v.store.runs[r])
    && (r in w.store.runs && r in v.store.runs ==> Rank(w.store.runs[r].state) <= Rank(v.store.runs[r].state))
    && (r in w.owners ==> r in v.owners && v.owners[r] == w.owners[r])
    && (r in w.winners ==> r in v.winners && v.winners[r] == w.winners[r])
  }

  ghost predicate CallsEvolve(w: World, v: World) {
    && |w.calls| <= |v.calls|
    && (forall k {:trigger v.calls[k]} {:trigger w.calls[k]} :: 0 <= k < |w.calls| ==>
          && v.calls[k].runId == w.calls[k].runId && v.calls[k].tenant == w.calls[k].tenant
          && v.calls[k].desktop == w.calls[k].desktop && v.calls[k].task == w.calls[k].task
          && (w.calls[k].phase.Finished? ==> v.calls[k].phase.Finished?))
  }

  ghost predicate Evolves(w: World, v: World) {
    && (forall r {:trigger RunEvolves(w, v, r)} :: RunEvolves(w, v, r))
    && CallsEvolve(w, v)
  }

  lemma HeldStays(w: World, v: World, r: RunRecord)
    requires Held(w, r) && Evolves(w, v)
    ensures Held(v, r)
  {
    assert RunEvolves(w, v, r.runId);
  }

  lemma ProcStays(p: Params, w: World, v: World, i: nat, q: Proc)
    requires ProcOk(p, w, i, q) && Evolves(w, v)
    ensures ProcOk(p, v, i, q)
  {
    hide ServiceAwaitOk, AwaitOk, ClaimOk;
    match q
    case Request(a) =>
      if !a.Answered? && !a.Failed500? {
        assert RunEvolves(w, v, a.record.runId);
      }
    case Leased(c) => HeldStays(w, v, c.record);
    case Reconciling(_, at) =>
      if !at.Returned? && !at.Raised? {
        HeldStays(w, v, at.claim.record);
      }
    case Done =>
  }

  /** Only activity `i` moved, to a state that is itself in order. */
  lemma ProcsStay(p: Params, w: World, v: World, i: nat, q: Proc)
    requires ProcsOk(p, w) && Evolves(w, v)
    requires i < |w.procs| && v.procs == w.procs[i := q] && ProcOk(p, v, i, q)
    ensures ProcsOk(p, v)
  {
    forall j | 0 <= j < |v.procs| ensures ProcOk(p, v, j, v.procs[j]) {
      if j != i {
        assert ProcOk(p, w, j, w.procs[j]);
        ProcStays(p, w, v, j, w.procs[j]);
      }
    }
  }

  // ---------------------------------------------------------------- a state write

  /** Activity `i` holds `r`, the store still has that version, and `n` may follow it. */
  ghost predicate WriteReady(p: Params, w: World, i: nat, r: RunRecord, n: RunRecord) {
    && i < |w.procs|
    && Held(w, r) && VersionCurrent(w.store, r) && n.runId == r.runId
    && Writable(r, n) && RecordOk(p.policy, n) && NamesOwnCall(w, n) && SafeRelease(w, r, n)
    && !n.state.Dispatching?
  }

  function AfterWrite(w: World, i: nat, n: RunRecord, q: Proc): World
    requires i < |w.procs| && n.runId in w.store.runs
  {
    WithProc(w.(store := Write(w.store, n)), i, q)
  }

  predicate NoSpawn(q: Proc) {
    !(q.Request? && q.a.AtSpawn?)
  }

  lemma WriteEvolves(p: Params, w: World, i: nat, r: RunRecord, n: RunRecord, q: Proc)
    requires WriteReady(p, w, i, r, n)
    ensures Evolves(w, AfterWrite(w, i, n, q))
  {
  }

  lemma WriteRunOk(p: Params, w: World, i: nat, r: RunRecord, n: RunRecord, q: Proc, id: RunId)
    requires WriteReady(p, w, i, r, n)
    requires RunOk(p, w, id) && EntryOk(w.store, id)
    ensures RunOk(p, AfterWrite(w, i, n, q), id)
  {
  }

  /** No write touches the bindings of a run. */
  lemma WriteOwnerOk(p: Params, w: World, i: nat, n: RunRecord, q: Proc, id: RunId)
    requires i < |w.procs| && n.runId in w.store.runs && Successor(w.store.runs[n.runId], n)
    requires OwnerOk(p, w, id)
    ensures OwnerOk(p, AfterWrite(w, i, n, q), id)
  {
  }

  /** The state of the call's own run after the write, and why a release cannot pull the desktop
      from under a call. */
  lemma WriteCallOk(p: Params, w: World, i: nat, r: RunRecord, n: RunRecord, q: Proc, k: nat)
    requires WriteReady(p, w, i, r, n) && NoSpawn(q) && k < |w.calls|
    requires CallsDistinct(w) && CallOk(w, k)
    requires RunOk(p, w, w.calls[k].runId) && EntryOk(w.store, w.calls[k].runId)
    ensures CallOk(AfterWrite(w, i, n, q), k)
  {
  }

  lemma WriteKeepsWorld(p: Params, w: World, i: nat, r: RunRecord, n: RunRecord, q: Proc)
    requires WorldInv(p, w) && WriteReady(p, w, i, r, n) && NoSpawn(q)
    requires ProcOk(p, AfterWrite(w, i, n, q), i, q)
    ensures WorldInv(p, AfterWrite(w, i, n, q))
  {
    var v := AfterWrite(w, i, n, q);
    assert StoreInv(v.store, p.quota) by { WriteKeepsInv(w.store, p.quota, n); }
    WriteEvolves(p, w, i, r, n, q);
    ProcsStay(p, w, v, i, q);
    forall id ensures RunOk(p, v, id) {
      assert RunOk(p, w, id) && EntryOk(w.store, id);
      WriteRunOk(p, w, i, r, n, q, id);
    }
    forall id ensures OwnerOk(p, v, id) {
      assert OwnerOk(p, w, id);
      WriteOwnerOk(p, w, i, n, q, id);
    }
    forall k | 0 <= k < |v.calls| ensures CallOk(v, k) {
      assert CallOk(w, k) && RunOk(p, w, w.calls[k].runId) && EntryOk(w.store, w.calls[k].runId);
      WriteCallOk(p, w, i, r, n, q, k);
    }
    forall a, b ensures PairOk(v, a, b) { assert PairOk(w, a, b); }
  }

  // ---------------------------------------------------------------- steps that leave the runs alone

  /** Leases and activities may change; whoever spawned keeps being past its spawn. */
  ghost predicate Quiet(w: World, v: World) {
    && v.store == w.store.(leases := v.store.leases, nextToken := v.store.nextToken)
    && v.calls == w.calls && v.owners == w.owners && v.winners == w.winners
    && |w.procs| <= |v.procs|
    && (forall j {:trigger v.procs[j]} :: 0 <= j < |w.procs| ==> v.procs[j] == w.procs[j] || NoSpawn(v.procs[j]))
  }

  lemma QuietEvolves(w: World, v: World)
    requires Quiet(w, v)
    ensures Evolves(w, v)
  {
  }

  lemma QuietKeepsWorld(p: Params, w: World, v: World)
    requires WorldInv(p, w) && Quiet(w, v) && StoreInv(v.store, p.quota) && ProcsOk(p, v)
    ensures WorldInv(p, v)
  {
    forall r ensures RunOk(p, v, r) { assert RunOk(p, w, r); }
    forall r ensures OwnerOk(p, v, r) { assert OwnerOk(p, w, r); }
    forall a, b ensures PairOk(v, a, b) { assert PairOk(w, a, b); }
    forall k | 0 <= k < |v.calls| ensures CallOk(v, k) { assert CallOk(w, k); }
  }

  /** Activity `i` moves on without writing. */
  lemma MoveKeepsWorld(p: Params, w: World, i: nat, q: Proc)
    requires WorldInv(p, w) && i < |w.procs| && NoSpawn(q) && ProcOk(p, w, i, q)
    ensures WorldInv(p, WithProc(w, i, q))
  {
    var v := WithProc(w, i, q);
    QuietEvolves(w, v);
    ProcStays(p, w, v, i, q);
    ProcsStay(p, w, v, i, q);
    QuietKeepsWorld(p, w, v);
  }

  /** New activities start. */
  lemma StartKeepsWorld(p: Params, w: World, store: StoreState, news: seq<Proc>)
    requires WorldInv(p, w) && StoreInv(store, p.quota)
    requires store == w.store.(leases := store.leases, nextToken := store.nextToken)
    requires forall k {:trigger news[k]} :: 0 <= k < |news| ==> forall i: nat :: ProcOk(p, w, i, news[k])
    ensures WorldInv(p, w.(store := store, procs := w.procs + news))
  {
    var v := w.(store := store, procs := w.procs + news);
    QuietEvolves(w, v);
    forall j | 0 <= j < |v.procs| ensures ProcOk(p, v, j, v.procs[j]) {
      if j < |w.procs| {
        assert ProcOk(p, w, j, w.procs[j]);
      } else {
        assert v.procs[j] == news[j - |w.procs|];
        assert ProcOk(p, w, j, v.procs[j]);
      }
      ProcStays(p, w, v, j, v.procs[j]);
    }
    QuietKeepsWorld(p, w, v);
  }
}
