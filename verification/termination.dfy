/** Termination over whole histories: however activities interleave, crash and lose races, the writes
    of a run are bounded, and a run that has used them up is terminal. */
module Termination {
  import opened Outcomes
  import opened Domain
  import opened Store
  import opened Recovery
  import opened Service
  import opened System
  import opened Invariant
  import opened Preservation
  import opened Safety
  import opened Histories
  import opened Progress

  // ---------------------------------------------------------------- one step

  /** What a store step writes over a record is spaced as the code spaces it. */
  lemma StoreStepIsSpaced(p: Params, s: StoreState, t: StoreState, r: RunId)
    requires StoreStep(p, s, t) && r in s.runs && r in t.runs && t.runs[r] != s.runs[r]
    ensures Spaced(p.policy, s.runs[r], t.runs[r]) && Successor(s.runs[r], t.runs[r])
  {
    hide Successor;
    if n :| WroteLegally(p, s, t, n) {
    } else if n :| ClaimedDispatch(s, t, n) {
    } else if n :| AdmittedRun(s, t, n) {
    }
  }

  lemma StoredIsOk(p: Params, w: World, r: RunId)
    requires WorldInv(p, w) && r in w.store.runs
    ensures RecordOk(p.policy, w.store.runs[r])
  {
    assert RunOk(p, w, r);
  }

  /** What is left to write to a stored run. */
  ghost function Left(p: Params, w: World, r: RunId): nat
    requires ValidParams(p) && WorldInv(p, w) && r in w.store.runs
  {
    StoredIsOk(p, w, r);
    Bound(p.policy, w.store.runs[r])
  }

  /** Whatever the step writes over the run is on time. */
  predicate WritesOnTime(w: World, v: World, r: RunId) {
    r in w.store.runs && r in v.store.runs && v.store.runs[r] != w.store.runs[r] ==>
      OnTime(w.store.runs[r], v.store.runs[r])
  }

  /** One step of the whole system: a write leaves less to do, whoever made it. */
  lemma StepLowers(p: Params, w: World, l: Label, r: RunId)
    requires ValidParams(p) && WorldInv(p, w) && WorldInv(p, Apply(p, w, l)) && r in w.store.runs
    requires WritesOnTime(w, Apply(p, w, l), r)
    ensures r in Apply(p, w, l).store.runs
    ensures var v := Apply(p, w, l);
            if v.store.runs[r] == w.store.runs[r] || Midway(w.store.runs[r], v.store.runs[r])
            then Left(p, v, r) <= Left(p, w, r) else Left(p, v, r) < Left(p, w, r)
  {
    hide Apply;
    var v := Apply(p, w, l);
    AnyStep(p, w, l);
    WorldStep(p, w, l, r);
    if v.store.runs[r] != w.store.runs[r] {
      StoreStepIsSpaced(p, w.store, v.store, r);
      StoredIsOk(p, w, r);
      StoredIsOk(p, v, r);
      WriteLowers(p.policy, w.store.runs[r], v.store.runs[r]);
    }
  }

  // ---------------------------------------------------------------- whole histories

  /** Every write of the run after `history` is on time. */
  ghost predicate AlwaysOnTime(p: Params, history: seq<Label>, more: seq<Label>, r: RunId)
    requires ValidParams(p)
    decreases |more|
  {
    more == [] || (
      var prefix := more[..|more| - 1];
      var before, after := RecordOf(p, history + prefix, r), RecordOf(p, history + more, r);
      && AlwaysOnTime(p, history, prefix, r)
      && (before.Some? && after.Some? && before != after ==> OnTime(before.value, after.value)))
  }

  /** How often the run is written after `history`, commits in the middle of a pass not counted. */
  ghost function WritesSince(p: Params, history: seq<Label>, more: seq<Label>, r: RunId): nat
    requires ValidParams(p)
    decreases |more|
  {
    if more == [] then 0
    else
      var prefix := more[..|more| - 1];
      var before, after := RecordOf(p, history + prefix, r), RecordOf(p, history + more, r);
      WritesSince(p, history, prefix, r)
      + (if before.Some? && after.Some? && before != after && !Midway(before.value, after.value) then 1 else 0)
  }

  /** In every history, with any number of requests, passes, lost races, faults and crashes, what has
      been written to a run and what is left to write add up to no more than its bound. */
  lemma {:induction false} WritesAreBounded(p: Params, history: seq<Label>, more: seq<Label>, r: RunId)
    requires ValidParams(p) && r in WorldAfter(p, history).store.runs && AlwaysOnTime(p, history, more, r)
    ensures r in WorldAfter(p, history + more).store.runs
    ensures WritesSince(p, history, more, r) + Left(p, WorldAfter(p, history + more), r)
            <= Left(p, WorldAfter(p, history), r)
    decreases |more|
  {
    hide Apply;
    if more == [] {
      assert history + more == history;
    } else {
      var prefix, last := more[..|more| - 1], more[|more| - 1];
      WritesAreBounded(p, history, prefix, r);
      AfterOneMore(p, history, more);
      StepLowers(p, WorldAfter(p, history + prefix), last, r);
    }
  }

  /** So a history that has written a run as often as its bound says has ended it. */
  lemma BoundedWritesEnd(p: Params, history: seq<Label>, more: seq<Label>, r: RunId)
    requires ValidParams(p) && r in WorldAfter(p, history).store.runs && AlwaysOnTime(p, history, more, r)
    requires WritesSince(p, history, more, r) >= Left(p, WorldAfter(p, history), r)
    ensures r in WorldAfter(p, history + more).store.runs
    ensures IsTerminal(WorldAfter(p, history + more).store.runs[r].state)
  {
    hide Apply;
    WritesAreBounded(p, history, more, r);
    StoredIsOk(p, WorldAfter(p, history + more), r);
  }

  /** What is left to write to a fresh reservation depends on the parameters only. */
  lemma ProposalBound(p: Params, l: Label)
    requires ValidParams(p) && l.CreateRun? && Propose(p, l.ring, l.owner, l.runId, l.now).Ok?
    ensures var n := Propose(p, l.ring, l.owner, l.runId, l.now).value.proposed;
            RecordOk(p.policy, n) && Bound(p.policy, n) == FullBound(p)
  {
  }

  function FullBound(p: Params): nat
    requires ValidParams(p)
  {
    4 + Steps(p.runTimeout, PollStep(p.policy)) + CancellationBound(p.policy)
  }

  lemma CasAddsNoRun(w: World, i: nat, c: RunRecord, n: RunRecord, won: Proc, lost: Proc, r: RunId)
    requires i < |w.procs| && r !in w.store.runs
    ensures r !in CasThen(w, i, c, n, won, lost).store.runs
  {
  }

  lemma RequestAddsNoRun(w: World, i: nat, a: ServiceAwait, x: Inputs, r: RunId)
    requires Shape(w.store) && i < |w.procs| && r !in w.store.runs && (a.AtClaimDispatch? ==> Held(w, a.record))
    ensures r !in ResumeRequest(w, i, a, x).store.runs
  {
    match a
    case Answered =>
    case Failed500(_) =>
    case AtExpiryWrite(c, n) => CasAddsNoRun(w, i, c, n, Request(Answered), Request(Answered), r);
    case AtAmbiguousWrite(c, n) => CasAddsNoRun(w, i, c, n, Request(Answered), Request(Answered), r);
    case AtCancelWrite(c, n) => CasAddsNoRun(w, i, c, n, Request(Answered), Request(Answered), r);
    case AtSpawn(_, _, _) =>
    case AtCallWrite(_, _) =>
    case AtClaimDispatch(c, intent, now, at, _, _) =>
      var won := ClaimDispatch(w.store, c, intent, now, at).1;
      if won.Some? {
        CurrentIsStored(w, c);
        TransitionIsSuccessor(c, Dispatching, now, NO_CHANGES.(reconcileAt := Some(at)));
      }
  }

  lemma ReconcilerAddsNoRun(p: Params, w: World, i: nat, lease: ReconcileClaim, a: Await, x: Inputs, r: RunId)
    requires i < |w.procs| && r !in w.store.runs
    ensures r !in ResumeReconciler(p, w, i, lease, a, x).store.runs
  {
    hide AfterPoll, AfterCancellationPoll, AfterCancel, AfterCommit, Truthful;
  }

  /** Only a create adds a run: its own proposal. */
  lemma AdmittedAfresh(p: Params, w: World, l: Label, r: RunId)
    requires ValidParams(p) && WorldInv(p, w) && r !in w.store.runs && r in Apply(p, w, l).store.runs
    ensures l.CreateRun? && Propose(p, l.ring, l.owner, l.runId, l.now).Ok?
    ensures Apply(p, w, l).store.runs[r] == Propose(p, l.ring, l.owner, l.runId, l.now).value.proposed
  {
    hide WorldInv, Propose, UsableRing;
    RunIsOk(p, w, r);
    match l
    case CreateRun(_, _, _, _, _, _) =>
    case CancelRun(_, _, _, _) =>
    case ScanPage(_, _, _) => ScanLeavesRuns(p, w, l);
    case Resume(i, x) =>
      if i < |w.procs| {
        ProcIsOk(p, w, i);
        match w.procs[i]
        case Request(a) => RequestAddsNoRun(w, i, a, x, r);
        case Leased(_) =>
        case Reconciling(lease, a) => ReconcilerAddsNoRun(p, w, i, lease, a, x, r);
        case Done =>
      }
    case Crash(_) =>
    case CallStarts(_) =>
    case CallFinishes(_) =>
  }

  /** From its admission on, a run is written at most as often as the run timeout and the policy allow,
      and it is terminal once it has been. */
  lemma RunWritesBounded(p: Params, history: seq<Label>, l: Label, more: seq<Label>, r: RunId)
    requires ValidParams(p) && r !in WorldAfter(p, history).store.runs
    requires r in WorldAfter(p, history + [l]).store.runs && AlwaysOnTime(p, history + [l], more, r)
    ensures r in WorldAfter(p, history + [l] + more).store.runs
    ensures WritesSince(p, history + [l], more, r) <= FullBound(p)
    ensures WritesSince(p, history + [l], more, r) == FullBound(p) ==>
              IsTerminal(WorldAfter(p, history + [l] + more).store.runs[r].state)
  {
    hide Apply;
    assert (history + [l])[..|history|] == history;
    AdmittedAfresh(p, WorldAfter(p, history), l, r);
    ProposalBound(p, l);
    WritesAreBounded(p, history + [l], more, r);
    if WritesSince(p, history + [l], more, r) == FullBound(p) {
      BoundedWritesEnd(p, history + [l], more, r);
    }
  }

  // ---------------------------------------------------------------- commits in the middle of a pass

  /** How many commits in the middle of its pass an activity may still make: one a pass. */
  function MidwayLeft(q: Proc): nat {
    match q
    case Request(_) => 0
    case Leased(_) => 1
    case Reconciling(_, at) =>
      if at.AtPoll? || at.AtCancellationPoll? || (at.AtCommit? && !at.after.ThenReturn?) then 1 else 0
    case Done => 0
  }

  function Budget(procs: seq<Proc>): nat {
    if procs == [] then 0 else Budget(procs[..|procs| - 1]) + MidwayLeft(procs[|procs| - 1])
  }

  lemma {:induction false} BudgetUpdate(procs: seq<Proc>, i: nat, q: Proc)
    requires i < |procs|
    ensures Budget(procs[i := q]) == Budget(procs) - MidwayLeft(procs[i]) + MidwayLeft(q)
    decreases |procs|
  {
    var n := |procs| - 1;
    if i < n {
      BudgetUpdate(procs[..n], i, q);
      assert procs[i := q][..n] == procs[..n][i := q];
    } else {
      assert procs[i := q][..n] == procs[..n];
    }
  }

  lemma {:induction false} BudgetAppend(procs: seq<Proc>, news: seq<Proc>)
    ensures Budget(procs + news) <= Budget(procs) + |news|
  {
    if news == [] {
      assert procs + news == procs;
    } else {
      var n := |news| - 1;
      BudgetAppend(procs, news[..n]);
      assert (procs + news)[..|procs| + n] == procs + news[..n];
    }
  }

  /** A write in the middle of a pass, as opposed to any other step. */
  predicate WroteMidway(w: World, v: World, r: RunId) {
    r in w.store.runs && r in v.store.runs && v.store.runs[r] != w.store.runs[r]
    && Midway(w.store.runs[r], v.store.runs[r])
  }

  lemma RequestNeverMidway(p: Params, w: World, i: nat, a: ServiceAwait, x: Inputs, r: RunId)
    requires Shape(w.store) && i < |w.procs| && RequestOk(p, w, i, a)
    ensures !WroteMidway(w, ResumeRequest(w, i, a, x), r)
  {
    hide RecordOk, Spaced;
    if r in w.store.runs && WroteMidway(w, ResumeRequest(w, i, a, x), r) {
      match a
      case AtExpiryWrite(c, n) => CasTouches(w, i, c, n, Request(Answered), Request(Answered), r);
      case AtAmbiguousWrite(c, n) => CasTouches(w, i, c, n, Request(Answered), Request(Answered), r);
      case AtCancelWrite(c, n) => CasTouches(w, i, c, n, Request(Answered), Request(Answered), r);
      case _ =>
    }
  }

  /** A commit that is the last of its pass is not in the middle of it. */
  lemma CommitMidway(p: RecoveryPolicy, c: ReconcileClaim, n: RunRecord, after: After)
    requires AwaitOk(p, AtCommit(c, n, after)) && Midway(c.record, n)
    ensures after.ThenCancel?
  {
  }

  /** The next await of a pass may make no more commits in its middle than this one. */
  lemma NextMidwayLeft(p: RecoveryPolicy, a: Await, x: Answer, lease: ReconcileClaim)
    requires ValidPolicy(p) && AwaitOk(p, a)
    ensures MidwayLeft(Reconciling(lease, NextAwait(p, a, x))) <= MidwayLeft(Reconciling(lease, a))
    ensures a.AtCommit? && a.after.ThenCancel? ==> MidwayLeft(Reconciling(lease, NextAwait(p, a, x))) == 0
  {
  }

  /** What the system's step of a pass is, in terms of its next await. */
  function AnswerOf(w: World, a: Await, x: Inputs): Answer {
    var commit := if !a.AtCommit? || !x.fault.NoFault? then CasRaised
                  else if a.next.runId == a.claim.record.runId && ClaimCurrent(w.store, a.claim, x.storeNow)
                  then CasStored else CasLost;
    Answer(x.now, x.laterNow, x.poll, x.cancel, commit)
  }

  lemma ReconcilerMoves(p: Params, w: World, i: nat, lease: ReconcileClaim, a: Await, x: Inputs)
    requires i < |w.procs| && w.procs[i] == Reconciling(lease, a) && AwaitOk(p.policy, a)
    ensures var q := ResumeReconciler(p, w, i, lease, a, x).procs[i];
            || (!a.AtCommit? && (q == Done || q == w.procs[i]))
            || q == Reconciling(lease, NextAwait(p.policy, a, AnswerOf(w, a, x)))
  {
    hide AfterPoll, AfterCancellationPoll, AfterCancel, AfterCommit, RecordOk, Spaced;
  }

  lemma OverMoves(p: Params, w: World, i: nat, lease: ReconcileClaim, a: Await, x: Inputs)
    requires i < |w.procs| && (a.Returned? || a.Raised?)
    ensures ResumeReconciler(p, w, i, lease, a, x).procs[i] == Done
  {
  }

  lemma MidwayIsCommit(p: Params, w: World, i: nat, lease: ReconcileClaim, a: Await, x: Inputs, r: RunId)
    requires i < |w.procs| && w.procs[i] == Reconciling(lease, a) && ReconcilerOk(p, w, a)
    requires WroteMidway(w, ResumeReconciler(p, w, i, lease, a, x), r)
    ensures a.AtCommit? && a.after.ThenCancel?
  {
    hide ResumeReconciler, RecordOk, Spaced;
    if a.AtCommit? {
      CommitTouches(p, w, i, lease, a, x, r);
      CommitMidway(p.policy, a.claim, a.next, a.after);
    } else {
      ReconcilerLeavesRuns(p, w, i, lease, a, x);
    }
  }

  /** A pass has at most one commit in its middle: whoever makes it cannot make another. */
  lemma ReconcilerBudget(p: Params, w: World, i: nat, lease: ReconcileClaim, a: Await, x: Inputs, r: RunId)
    requires ValidParams(p) && i < |w.procs| && w.procs[i] == Reconciling(lease, a) && ReconcilerOk(p, w, a)
    ensures var v := ResumeReconciler(p, w, i, lease, a, x);
            MidwayLeft(v.procs[i]) + (if WroteMidway(w, v, r) then 1 else 0) <= MidwayLeft(w.procs[i])
  {
    hide ResumeReconciler, NextAwait, RecordOk, Spaced, CommitOk;
    var v := ResumeReconciler(p, w, i, lease, a, x);
    if WroteMidway(w, v, r) {
      MidwayIsCommit(p, w, i, lease, a, x, r);
    }
    if a.Raised? {
      OverMoves(p, w, i, lease, a, x);
    } else {
      ReconcilerMoves(p, w, i, lease, a, x);
      NextMidwayLeft(p.policy, a, AnswerOf(w, a, x), lease);
    }
  }

  /** Activity `i` resumes: it pays for its own commit. */
  lemma ResumeBudget(p: Params, w: World, i: nat, x: Inputs, r: RunId)
    requires ValidParams(p) && WorldInv(p, w)
    ensures var v := ApplyResume(p, w, Resume(i, x));
      && |v.procs| == |w.procs|
      && Budget(v.procs) + (if WroteMidway(w, v, r) then 1 else 0) <= Budget(w.procs)
  {
    hide WorldInv, ResumeReconciler, ResumeRequest;
    if i < |w.procs| {
      ProcIsOk(p, w, i);
      var v := ApplyResume(p, w, Resume(i, x));
      match w.procs[i] {
        case Request(a) =>
          RequestNeverMidway(p, w, i, a, x, r);
          RequestMoves(w, i, a, x);
        case Leased(_) =>
        case Reconciling(lease, a) =>
          ReconcilerBudget(p, w, i, lease, a, x, r);
          ReconcilerMovesAlone(p, w, i, lease, a, x);
        case Done => assert v == w;
      }
      BudgetUpdate(w.procs, i, v.procs[i]);
      assert w.procs[i := w.procs[i]] == w.procs;
    }
  }

  /** What starts: requests, which have no such commit to make, and passes, with one each. */
  lemma StartBudget(p: Params, w: World, l: Label, r: RunId)
    requires ValidParams(p) && WorldInv(p, w) && !l.Resume?
    ensures var v := Apply(p, w, l);
      && |w.procs| <= |v.procs| && !WroteMidway(w, v, r)
      && Budget(v.procs) <= Budget(w.procs) + |v.procs| - |w.procs|
  {
    hide WorldInv, Admit, Propose, ClaimPage, UsableRing;
    RunIsOk(p, w, r);
    var v := Apply(p, w, l);
    match l
    case CreateRun(_, _, _, _, _, _) =>
      if r in w.store.runs { CreateLeavesRuns(p, w, l, r); }
      BudgetAppend(w.procs, v.procs[|w.procs|..]);
    case CancelRun(_, _, _, _) => BudgetAppend(w.procs, v.procs[|w.procs|..]);
    case ScanPage(_, _, _) =>
      ScanLeavesRuns(p, w, l);
      BudgetAppend(w.procs, v.procs[|w.procs|..]);
    case Crash(i) => if i < |w.procs| { BudgetUpdate(w.procs, i, Done); }
    case CallStarts(_) =>
    case CallFinishes(_) =>
  }

  lemma StepBudget(p: Params, w: World, l: Label, r: RunId)
    requires ValidParams(p) && WorldInv(p, w)
    ensures var v := Apply(p, w, l);
      && |w.procs| <= |v.procs|
      && Budget(v.procs) + (if WroteMidway(w, v, r) then 1 else 0) <= Budget(w.procs) + |v.procs| - |w.procs|
  {
    hide WorldInv, ApplyResume, ApplyCreate, ApplyCancel, ApplyScan;
    if l.Resume? {
      ResumeBudget(p, w, l.i, l.x, r);
    } else {
      StartBudget(p, w, l, r);
    }
  }

  /** One step: a new version is paid for by what is left to write, or by a pass. */
  lemma StepPays(p: Params, w: World, l: Label, r: RunId)
    requires ValidParams(p) && WorldInv(p, w) && WorldInv(p, Apply(p, w, l)) && r in w.store.runs
    requires WritesOnTime(w, Apply(p, w, l), r)
    ensures r in Apply(p, w, l).store.runs
    ensures var v := Apply(p, w, l);
            v.store.runs[r].version + Left(p, v, r) + Budget(v.procs) - |v.procs|
            <= w.store.runs[r].version + Left(p, w, r) + Budget(w.procs) - |w.procs|
  {
    hide Apply, Left;
    StepLowers(p, w, l, r);
    StepBudget(p, w, l, r);
    WorldStep(p, w, l, r);
  }

  /** Every write counts here, also those in the middle of a pass: along every history on time, a run's
      version never exceeds the one it had by more than what was left to write and the number of
      activities ever started. */
  lemma {:induction false} VersionIsBounded(p: Params, history: seq<Label>, more: seq<Label>, r: RunId)
    requires ValidParams(p) && r in WorldAfter(p, history).store.runs && AlwaysOnTime(p, history, more, r)
    ensures r in WorldAfter(p, history + more).store.runs
    ensures var w, v := WorldAfter(p, history), WorldAfter(p, history + more);
      v.store.runs[r].version + Left(p, v, r) + Budget(v.procs) - |v.procs|
      <= w.store.runs[r].version + Left(p, w, r) + Budget(w.procs) - |w.procs|
    decreases |more|
  {
    hide Apply, Left;
    if more == [] {
      assert history + more == history;
    } else {
      var prefix, last := more[..|more| - 1], more[|more| - 1];
      VersionIsBounded(p, history, prefix, r);
      AfterOneMore(p, history, more);
      StepPays(p, WorldAfter(p, history + prefix), last, r);
    }
  }

  /** So from its admission on, a run is written at most `FullBound` times, plus once for every activity
      ever started: whoever crashes in the middle of a pass can repeat a write, but only by a new pass. */
  lemma AllWritesBounded(p: Params, history: seq<Label>, l: Label, more: seq<Label>, r: RunId)
    requires ValidParams(p) && r !in WorldAfter(p, history).store.runs
    requires r in WorldAfter(p, history + [l]).store.runs && AlwaysOnTime(p, history + [l], more, r)
    ensures var v := WorldAfter(p, history + [l] + more);
            r in v.store.runs && v.store.runs[r].version <= FullBound(p) + |v.procs|
  {
    hide Apply;
    assert (history + [l])[..|history|] == history;
    AdmittedAfresh(p, WorldAfter(p, history), l, r);
    ProposalBound(p, l);
    ProposedFresh(p, l.ring, l.owner, l.runId, l.now);
    VersionIsBounded(p, history + [l], more, r);
    BudgetFits(WorldAfter(p, history + [l]).procs);
  }

  lemma {:induction false} BudgetFits(procs: seq<Proc>)
    ensures Budget(procs) <= |procs|
  {
    if procs != [] {
      BudgetFits(procs[..|procs| - 1]);
    }
  }
}
