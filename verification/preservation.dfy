/** Every label keeps the invariant. */
module Preservation {
  import opened Outcomes
  import opened Domain
  import opened Store
  import opened Recovery
  import opened Service
  import opened System
  import opened Invariant

  // ---------------------------------------------------------------- reconcilers

  /** A version that the store still has is the stored record itself. */
  lemma CurrentIsStored(w: World, r: RunRecord)
    requires Held(w, r) && VersionCurrent(w.store, r)
    ensures r == w.store.runs[r.runId]
  {
  }

  lemma CommitKeepsWorld(p: Params, w: World, i: nat, lease: ReconcileClaim,
                         c: ReconcileClaim, n: RunRecord, after: After, x: Inputs)
    requires ValidParams(p) && WorldInv(p, w) && i < |w.procs|
             && w.procs[i] == Reconciling(lease, AtCommit(c, n, after))
    ensures WorldInv(p, ResumeReconciler(p, w, i, lease, AtCommit(c, n, after), x))
  {
    assert ProcOk(p, w, i, w.procs[i]);
    var won := !x.fault.FailsBeforeWrite? && n.runId == c.record.runId && ClaimCurrent(w.store, c, x.storeNow);
    AfterCommitOk(p.policy, c, n, after, won, x.now);
    var q := Reconciling(lease, if !x.fault.NoFault? then Raised(StoreError)
                                else AfterCommit(c, if won then Some(n) else None, after, x.now));
    if won {
      CurrentIsStored(w, c.record);
      assert NamesOwnCall(w, n);
      WriteKeepsWorld(p, w, i, c.record, n, q);
    } else {
      MoveKeepsWorld(p, w, i, q);
    }
  }

  lemma PollKeepsWorld(p: Params, w: World, i: nat, lease: ReconcileClaim, c: ReconcileClaim, x: Inputs)
    requires ValidParams(p) && WorldInv(p, w) && i < |w.procs| && w.procs[i] == Reconciling(lease, AtPoll(c))
    ensures WorldInv(p, ResumeReconciler(p, w, i, lease, AtPoll(c), x))
  {
    assert ProcOk(p, w, i, w.procs[i]);
    if Truthful(w, c, x.poll) {
      AfterPollOk(p.policy, c, x.poll, x.now);
      MoveKeepsWorld(p, w, i, Reconciling(lease, AfterPoll(p.policy, c, x.poll, x.now)));
    }
  }

  lemma CancellationPollKeepsWorld(p: Params, w: World, i: nat, lease: ReconcileClaim, c: ReconcileClaim, x: Inputs)
    requires ValidParams(p) && WorldInv(p, w) && i < |w.procs|
             && w.procs[i] == Reconciling(lease, AtCancellationPoll(c))
    ensures WorldInv(p, ResumeReconciler(p, w, i, lease, AtCancellationPoll(c), x))
  {
    assert ProcOk(p, w, i, w.procs[i]);
    if Truthful(w, c, x.poll) {
      AfterCancellationPollOk(p.policy, c, x.poll, x.now, x.laterNow);
      MoveKeepsWorld(p, w, i, Reconciling(lease, AfterCancellationPoll(p.policy, c, x.poll, x.now, x.laterNow)));
    }
  }

  lemma CancelAnswerKeepsWorld(p: Params, w: World, i: nat, lease: ReconcileClaim, c: ReconcileClaim, x: Inputs)
    requires ValidParams(p) && WorldInv(p, w) && i < |w.procs| && w.procs[i] == Reconciling(lease, AtCancel(c))
    ensures WorldInv(p, ResumeReconciler(p, w, i, lease, AtCancel(c), x))
  {
    assert ProcOk(p, w, i, w.procs[i]);
    AfterCancelOk(p.policy, c, x.cancel, x.now);
    MoveKeepsWorld(p, w, i, Reconciling(lease, AfterCancel(p.policy, c, x.cancel, x.now)));
  }

  lemma LeaseReleaseKeepsWorld(p: Params, w: World, i: nat, lease: ReconcileClaim)
    requires WorldInv(p, w) && i < |w.procs|
    ensures WorldInv(p, WithProc(w.(store := ReleaseLease(w.store, lease).0), i, Done))
  {
    var store := ReleaseLease(w.store, lease).0;
    ReleaseLeaseKeepsInv(w.store, p.quota, lease);
    StartKeepsWorld(p, w, store, []);
    assert w.procs + [] == w.procs;
    MoveKeepsWorld(p, w.(store := store), i, Done);
  }

  lemma ReconcilerKeepsWorld(p: Params, w: World, i: nat, x: Inputs)
    requires ValidParams(p) && WorldInv(p, w) && i < |w.procs| && w.procs[i].Reconciling?
    ensures WorldInv(p, ResumeReconciler(p, w, i, w.procs[i].lease, w.procs[i].at, x))
  {
    var lease := w.procs[i].lease;
    match w.procs[i].at
    case Returned => LeaseReleaseKeepsWorld(p, w, i, lease);
    case Raised(_) => LeaseReleaseKeepsWorld(p, w, i, lease);
    case AtPoll(c) => PollKeepsWorld(p, w, i, lease, c, x);
    case AtCancellationPoll(c) => CancellationPollKeepsWorld(p, w, i, lease, c, x);
    case AtCancel(c) => CancelAnswerKeepsWorld(p, w, i, lease, c, x);
    case AtCommit(c, n, after) => CommitKeepsWorld(p, w, i, lease, c, n, after, x);
  }

  lemma BeginKeepsWorld(p: Params, w: World, i: nat, c: ReconcileClaim, now: Time)
    requires ValidParams(p) && WorldInv(p, w) && i < |w.procs| && w.procs[i] == Leased(c)
    ensures WorldInv(p, WithProc(w, i, Reconciling(c, ReconcileClaimed(p.policy, c, now))))
  {
    assert ProcOk(p, w, i, w.procs[i]);
    ReconcileClaimedOk(p.policy, c, now);
    MoveKeepsWorld(p, w, i, Reconciling(c, ReconcileClaimed(p.policy, c, now)));
  }

  lemma ScanKeepsWorld(p: Params, w: World, l: Label)
    requires ValidParams(p) && WorldInv(p, w) && l.ScanPage?
    ensures WorldInv(p, ApplyScan(p, w, l))
  {
    var expires := l.now + p.policy.leaseDuration;
    var (store, page) := ClaimPage(w.store, l.from, l.now, l.limit, expires);
    var news := seq(|page.claims|, k requires 0 <= k < |page.claims| => Leased(page.claims[k]));
    ClaimPageFrame(w.store, p.quota, l.from, l.now, l.limit, expires);
    if l.from <= |w.store.order| {
      ClaimPageClaims(w.store, p.quota, l.from, l.now, l.limit, expires);
    }
    forall k | 0 <= k < |news| ensures forall i: nat :: ProcOk(p, w, i, news[k]) {
      var c := page.claims[k];
      assert PageClaim(w.store, store, l.from, c, w.store.nextToken + k, l.now, expires);
      assert RunOk(p, w, c.record.runId) && EntryOk(w.store, c.record.runId);
      assert ClaimOk(p.policy, c) && Held(w, c.record);
    }
    StartKeepsWorld(p, w, store, news);
  }

  // ---------------------------------------------------------------- requests

  lemma CasKeepsWorld(p: Params, w: World, i: nat, r: RunRecord, n: RunRecord, won: Proc, lost: Proc)
    requires WorldInv(p, w) && i < |w.procs| && Held(w, r) && NamesOwnCall(w, n)
    requires Writable(r, n) && !n.state.Dispatching? && RecordOk(p.policy, n) && SafeRelease(w, r, n)
    requires NoSpawn(won) && NoSpawn(lost) && ProcOk(p, w, i, lost)
    requires VersionCurrent(w.store, r) ==> ProcOk(p, AfterWrite(w, i, n, won), i, won)
    ensures WorldInv(p, CasThen(w, i, r, n, won, lost))
  {
    if VersionCurrent(w.store, r) {
      WriteKeepsWorld(p, w, i, r, n, won);
    } else {
      MoveKeepsWorld(p, w, i, lost);
    }
  }

  /** The last write of a request: expiry, ambiguity or cancellation. */
  lemma LastWriteKeepsWorld(p: Params, w: World, i: nat, a: ServiceAwait, x: Inputs)
    requires WorldInv(p, w) && i < |w.procs| && w.procs[i] == Request(a)
    requires a.AtExpiryWrite? || a.AtAmbiguousWrite? || a.AtCancelWrite?
    ensures WorldInv(p, ResumeRequest(w, i, a, x))
  {
    assert ProcOk(p, w, i, w.procs[i]);
    if x.fault.FailsBeforeWrite? {
      MoveKeepsWorld(p, w, i, Request(Answered));
    } else {
      CasKeepsWorld(p, w, i, a.record, a.next, Request(Answered), Request(Answered));
    }
  }

  lemma CallWriteKeepsWorld(p: Params, w: World, i: nat, r: RunRecord, n: RunRecord, x: Inputs)
    requires WorldInv(p, w) && i < |w.procs| && w.procs[i] == Request(AtCallWrite(r, n))
    ensures WorldInv(p, ResumeRequest(w, i, AtCallWrite(r, n), x))
  {
    assert ProcOk(p, w, i, w.procs[i]);
    SealAmbiguousOk(p.policy, r, x.now);
    var sealing := SealAmbiguous(r, x.now);
    assert sealing.next.callId.None?;
    var lost := Request(sealing);
    assert ProcOk(p, w, i, lost);
    if x.fault.FailsBeforeWrite? {
      MoveKeepsWorld(p, w, i, lost);
    } else {
      var won := if x.fault.FailsAfterWrite? then lost else Request(Answered);
      if VersionCurrent(w.store, r) {
        WriteEvolves(p, w, i, r, n, won);
        ProcStays(p, w, AfterWrite(w, i, n, won), i, won);
      }
      CasKeepsWorld(p, w, i, r, n, won, lost);
    }
  }

  lemma CancelKeepsWorld(p: Params, w: World, l: Label)
    requires ValidParams(p) && WorldInv(p, w) && l.CancelRun?
    ensures WorldInv(p, ApplyCancel(p, w, l))
  {
    if l.runId in w.store.runs {
      assert RunOk(p, w, l.runId) && EntryOk(w.store, l.runId);
      var r := w.store.runs[l.runId];
      var a := AfterCancelRead(p.policy, r, l.requestedAt, l.now);
      AfterCancelReadOk(p.policy, r, l.requestedAt, l.now);
      assert Held(w, r);
      assert a.AtCancelWrite? ==> a.record == r && NamesOwnCall(w, a.next);
      StartKeepsWorld(p, w, w.store, [Request(a)]);
    }
  }
}
