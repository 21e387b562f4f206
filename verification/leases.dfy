/** Leases as fences, over whole histories: no two activities ever hold the same lease, a superseded lease
    never comes back, and nobody commits without the current one. */
module Leases {
  import opened Outcomes
  import opened Domain
  import opened Store
  import opened Recovery
  import opened System
  import opened Invariant
  import opened Safety
  import opened Histories
  import opened Termination
  import opened Simulation
  import opened Tables

  /** The lease that an activity works under. */
  function LeaseOf(q: Proc): Option<ReconcileClaim> {
    match q
    case Leased(c) => Some(c)
    case Reconciling(lease, _) => Some(lease)
    case _ => None
  }

  predicate Within(a: Await, lease: ReconcileClaim) {
    !a.Returned? && !a.Raised? ==> a.claim.token == lease.token && a.claim.record.runId == lease.record.runId
  }

  /** An activity's lease was handed out before, and all it sends is sent under that lease. */
  predicate OwnLease(w: World, i: nat)
    requires i < |w.procs|
  {
    && (LeaseOf(w.procs[i]).Some? ==> LeaseOf(w.procs[i]).value.token < w.store.nextToken)
    && (w.procs[i].Reconciling? ==> Within(w.procs[i].at, w.procs[i].lease))
  }

  predicate ApartFrom(w: World, i: nat, j: nat)
    requires i < |w.procs| && j < |w.procs|
  {
    LeaseOf(w.procs[i]).Some? && LeaseOf(w.procs[j]).Some? && i != j ==>
      LeaseOf(w.procs[i]).value.token != LeaseOf(w.procs[j]).value.token
  }

  /** Every lease is held by one activity at most. */
  ghost predicate LeasesApart(w: World) {
    && (forall i {:trigger OwnLease(w, i)} :: 0 <= i < |w.procs| ==> OwnLease(w, i))
    && (forall i, j {:trigger ApartFrom(w, i, j)} :: 0 <= i < |w.procs| && 0 <= j < |w.procs| ==> ApartFrom(w, i, j))
  }

  // ---------------------------------------------------------------- one step

  /** A pass stays under its lease, or is done. */
  lemma PassKeepsLease(p: Params, w: World, i: nat, lease: ReconcileClaim, a: Await, x: Inputs)
    requires ValidParams(p) && i < |w.procs| && w.procs[i] == Reconciling(lease, a)
    requires ReconcilerOk(p, w, a) && Within(a, lease)
    ensures var q := ResumeReconciler(p, w, i, lease, a, x).procs[i];
            q == Done || (q.Reconciling? && q.lease == lease && Within(q.at, lease))
  {
    hide ResumeReconciler, NextAwait, AwaitOk;
    if a.Returned? || a.Raised? {
      OverMoves(p, w, i, lease, a, x);
    } else {
      ReconcilerMoves(p, w, i, lease, a, x);
      NextWithin(p.policy, a, AnswerOf(w, a, x), lease);
    }
  }

  lemma NextWithin(p: RecoveryPolicy, a: Await, x: Answer, lease: ReconcileClaim)
    requires ValidPolicy(p) && AwaitOk(p, a) && Within(a, lease)
    ensures Within(NextAwait(p, a, x), lease)
  {
    hide AfterPoll, AfterCancellationPoll, AfterCancel, AfterCommit;
    match a
    case Returned =>
    case Raised(_) =>
    case AtPoll(c) => AfterPollOk(p, c, x.poll, x.now);
    case AtCancellationPoll(c) => AfterCancellationPollOk(p, c, x.poll, x.now, x.laterNow);
    case AtCancel(c) => AfterCancelOk(p, c, x.cancel, x.now);
    case AtCommit(c, n, after) => AfterCommitOk(p, c, n, after, x.commit.CasStored?, x.now);
  }

  lemma MoveKeepsLease(p: Params, w: World, i: nat, x: Inputs)
    requires ValidParams(p) && WorldInv(p, w) && i < |w.procs| && OwnLease(w, i)
    ensures var v := ApplyResume(p, w, Resume(i, x));
      && i < |v.procs| && (LeaseOf(v.procs[i]).Some? ==> LeaseOf(v.procs[i]) == LeaseOf(w.procs[i]))
      && (v.procs[i].Reconciling? ==> Within(v.procs[i].at, v.procs[i].lease))
  {
    hide WorldInv, ResumeReconciler, ResumeRequest, ReconcileClaimed;
    ProcIsOk(p, w, i);
    OnlyMoves(p, w, i, x);
    match w.procs[i]
    case Request(a) => RequestMoves(w, i, a, x);
    case Leased(c) => ReconcileClaimedOk(p.policy, c, x.now);
    case Reconciling(lease, a) => PassKeepsLease(p, w, i, lease, a, x);
    case Done =>
  }

  /** What a step leaves of an activity's lease. */
  predicate KeptLease(w: World, v: World, i: nat)
    requires i < |w.procs|
  {
    && i < |v.procs| && (LeaseOf(v.procs[i]).Some? ==> LeaseOf(v.procs[i]) == LeaseOf(w.procs[i]))
    && (v.procs[i].Reconciling? ==> Within(v.procs[i].at, v.procs[i].lease))
  }

  lemma OldLease(p: Params, w: World, l: Label, i: nat)
    requires ValidParams(p) && WorldInv(p, w) && i < |w.procs| && OwnLease(w, i)
    ensures KeptLease(w, Apply(p, w, l), i)
  {
    hide ApplyCreate, ApplyCancel, ApplyScan, ApplyResume, WorldInv, Within;
    ShapeHolds(p, w);
    if l.Resume? && l.i == i {
      MoveKeepsLease(p, w, i, l.x);
    } else if l != Crash(i) {
      OthersStay(p, w, l, i);
    }
  }

  /** A new activity has no lease, or one with a new token of its own. */
  predicate NewLease(w: World, v: World, j: nat)
    requires j < |v.procs|
  {
    || v.procs[j].Request?
    || (v.procs[j].Leased? && v.procs[j].claim.token == w.store.nextToken + (j - |w.procs|) < v.store.nextToken)
  }

  lemma NewLeases(p: Params, w: World, l: Label, j: nat)
    requires ValidParams(p) && WorldInv(p, w) && |w.procs| <= j < |Apply(p, w, l).procs|
    ensures NewLease(w, Apply(p, w, l), j)
  {
    hide ApplyResume, Propose, UsableRing, Admit, WorldInv;
    ShapeHolds(p, w);
    match l
    case ScanPage(_, _, _) => ScannedLease(p, w, l, j);
    case Resume(i, x) => OnlyMoves(p, w, i, x);
    case _ =>
  }

  lemma ScannedLease(p: Params, w: World, l: Label, j: nat)
    requires WorldInv(p, w) && l.ScanPage? && |w.procs| <= j < |ApplyScan(p, w, l).procs|
    ensures NewLease(w, ApplyScan(p, w, l), j)
  {
    var expiresAt := l.now + p.policy.leaseDuration;
    if l.from <= |w.store.order| {
      ClaimPageClaims(w.store, p.quota, l.from, l.now, l.limit, expiresAt);
      var (t, page) := ClaimPage(w.store, l.from, l.now, l.limit, expiresAt);
      var k := j - |w.procs|;
      assert PageClaim(w.store, t, l.from, page.claims[k], w.store.nextToken + k, l.now, expiresAt);
    }
  }

  /** No step hands a lease out twice. */
  lemma StepKeepsApart(p: Params, w: World, l: Label)
    requires ValidParams(p) && WorldInv(p, w) && LeasesApart(w)
    ensures LeasesApart(Apply(p, w, l))
  {
    hide Apply, WorldInv, Within;
    ShapeHolds(p, w);
    var v := Apply(p, w, l);
    TokensGrow(p, w, l);
    forall i | 0 <= i < |v.procs|
      ensures OwnLease(v, i)
      ensures if i < |w.procs| then KeptLease(w, v, i) && OwnLease(w, i) else NewLease(w, v, i)
    {
      if i < |w.procs| {
        assert OwnLease(w, i);
        OldLease(p, w, l, i);
      } else {
        NewLeases(p, w, l, i);
      }
    }
    forall i, j | 0 <= i < |v.procs| && 0 <= j < |v.procs| ensures ApartFrom(v, i, j) {
      assert OwnLease(v, i) && OwnLease(v, j);
      if i < |w.procs| && j < |w.procs| {
        assert ApartFrom(w, i, j);
      }
    }
  }

  /** A lease on a run stays as it is, ends, or is replaced under a token never handed out before. */
  predicate LeaseMoves(s: StoreState, t: StoreState, r: RunId) {
    r in t.leases ==> (r in s.leases && t.leases[r] == s.leases[r]) || t.leases[r].token >= s.nextToken
  }

  lemma {:induction false} PageMovesLeases(s: StoreState, from: nat, now: Time, limit: nat, expiresAt: Time, r: RunId)
    requires Shape(s)
    ensures LeaseMoves(s, ClaimPage(s, from, now, limit, expiresAt).0, r)
    decreases |s.order| - from
  {
    if from < |s.order| && limit != 0 {
      if Claimable(s, s.order[from], now) {
        PageMovesLeases(TakeLease(s, s.order[from], expiresAt), from + 1, now, limit - 1, expiresAt, r);
      } else {
        PageMovesLeases(s, from + 1, now, limit, expiresAt, r);
      }
    }
  }

  lemma StepMovesLeases(p: Params, w: World, l: Label, r: RunId)
    requires ValidParams(p) && WorldInv(p, w)
    ensures LeaseMoves(w.store, Apply(p, w, l).store, r)
  {
    hide ApplyResume, Propose, UsableRing, WorldInv;
    ShapeHolds(p, w);
    match l
    case ScanPage(from, now, limit) => PageMovesLeases(w.store, from, now, limit, now + p.policy.leaseDuration, r);
    case Resume(i, x) => ResumeMovesLeases(p, w, i, x, r);
    case _ =>
  }

  lemma ResumeMovesLeases(p: Params, w: World, i: nat, x: Inputs, r: RunId)
    requires Shape(w.store)
    ensures LeaseMoves(w.store, ApplyResume(p, w, Resume(i, x)).store, r)
  {
    hide ResumeRequest, ResumeReconciler, Shape;
    if i < |w.procs| {
      match w.procs[i]
      case Request(a) => RequestKeepsLeases(w, i, a, x);
      case Leased(_) =>
      case Reconciling(lease, a) => PassMovesLeases(p, w, i, lease, a, x, r);
      case Done =>
    }
  }

  lemma PassMovesLeases(p: Params, w: World, i: nat, lease: ReconcileClaim, a: Await, x: Inputs, r: RunId)
    requires i < |w.procs|
    ensures LeaseMoves(w.store, ResumeReconciler(p, w, i, lease, a, x).store, r)
  {
    hide AfterPoll, AfterCancellationPoll, AfterCancel, AfterCommit;
  }

  // ---------------------------------------------------------------- whole histories

  lemma {:induction false} LeasesStayApart(p: Params, history: seq<Label>)
    requires ValidParams(p)
    ensures LeasesApart(WorldAfter(p, history))
  {
    hide Apply, WorldInv;
    if history != [] {
      var prefix := history[..|history| - 1];
      LeasesStayApart(p, prefix);
      assert prefix + [history[|history| - 1]] == history;
      StepKeepsApart(p, WorldAfter(p, prefix), history[|history| - 1]);
    }
  }

  /** After every history, whatever a pass is about to commit is fenced: the commit takes effect only while
      the run's lease is the pass's own and has not expired by the store's clock, and at most one
      activity holds that lease. */
  lemma CommitsAreFenced(p: Params, history: seq<Label>, i: nat, x: Inputs, j: nat)
    requires ValidParams(p) && i < |WorldAfter(p, history).procs| && WorldAfter(p, history).procs[i].Reconciling?
    requires WorldAfter(p, history + [Resume(i, x)]).store.runs != WorldAfter(p, history).store.runs
    ensures var w := WorldAfter(p, history); var lease := w.procs[i].lease; var r := lease.record.runId;
      && r in w.store.leases && w.store.leases[r].token == lease.token && w.store.leases[r].expiresAt > x.storeNow
      && (j < |w.procs| && j != i && LeaseOf(w.procs[j]).Some? ==> LeaseOf(w.procs[j]).value.token != lease.token)
  {
    hide WorldInv;
    var w := WorldAfter(p, history);
    AfterStep(p, history, Resume(i, x));
    LeasesStayApart(p, history);
    assert OwnLease(w, i);
    CommitNeedsLease(p, w, i, w.procs[i].lease, w.procs[i].at, x);
    if j < |w.procs| {
      assert ApartFrom(w, i, j);
    }
  }

  lemma CommitNeedsLease(p: Params, w: World, i: nat, lease: ReconcileClaim, a: Await, x: Inputs)
    requires i < |w.procs| && Within(a, lease)
    requires ResumeReconciler(p, w, i, lease, a, x).store.runs != w.store.runs
    ensures var r := lease.record.runId;
            r in w.store.leases && w.store.leases[r].token == lease.token && w.store.leases[r].expiresAt > x.storeNow
  {
    hide AfterPoll, AfterCancellationPoll, AfterCancel, AfterCommit;
    if a.AtCommit? && a.next.runId == a.claim.record.runId {
      CommitStoredExactly(w.store, a.claim, a.next, x.storeNow);
    }
  }

  /** The run has another lease than this one, or none. */
  predicate Superseded(s: StoreState, lease: ReconcileClaim) {
    lease.record.runId in s.leases ==> s.leases[lease.record.runId].token != lease.token
  }

  lemma {:induction false} SupersededForGood(p: Params, history: seq<Label>, more: seq<Label>, lease: ReconcileClaim)
    requires ValidParams(p) && lease.token < WorldAfter(p, history).store.nextToken
    requires Superseded(WorldAfter(p, history).store, lease)
    ensures var t := WorldAfter(p, history + more).store; Superseded(t, lease) && lease.token < t.nextToken
    decreases |more|
  {
    hide Apply, WorldInv;
    if more == [] {
      assert history + more == history;
    } else {
      var prefix, last := more[..|more| - 1], more[|more| - 1];
      SupersededForGood(p, history, prefix, lease);
      AfterOneMore(p, history, more);
      StepMovesLeases(p, WorldAfter(p, history + prefix), last, lease.record.runId);
      TokensGrow(p, WorldAfter(p, history + prefix), last);
    }
  }

  /** An activity whose lease was superseded never writes again: however the history goes on, and whatever
      the clocks say, its steps leave every run as it is. */
  lemma SupersededNeverCommits(p: Params, history: seq<Label>, more: seq<Label>,
                               i: nat, lease: ReconcileClaim, x: Inputs)
    requires ValidParams(p) && i < |WorldAfter(p, history).procs|
    requires LeaseOf(WorldAfter(p, history).procs[i]) == Some(lease)
    requires Superseded(WorldAfter(p, history).store, lease)
    requires i < |WorldAfter(p, history + more).procs|
    requires LeaseOf(WorldAfter(p, history + more).procs[i]) == Some(lease)
    ensures WorldAfter(p, history + more + [Resume(i, x)]).store.runs == WorldAfter(p, history + more).store.runs
  {
    hide WorldInv, ResumeReconciler;
    LeasesStayApart(p, history);
    assert OwnLease(WorldAfter(p, history), i);
    SupersededForGood(p, history, more, lease);
    var w := WorldAfter(p, history + more);
    AfterStep(p, history + more, Resume(i, x));
    if w.procs[i].Reconciling? && WorldAfter(p, history + more + [Resume(i, x)]).store.runs != w.store.runs {
      CommitsAreFenced(p, history + more, i, x, i);
    }
  }
}
