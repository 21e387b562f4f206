/** On a clock that never goes back every write is on time, so the bounds of termination.dfy hold of
    every run in every such history. */
module Clocks {
  import opened Outcomes
  import opened Domain
  import opened Store
  import opened Recovery
  import opened Service
  import opened System
  import opened Invariant
  import opened Preservation
  import opened Admission
  import opened Safety
  import opened Histories
  import opened Progress
  import opened Termination

  // ---------------------------------------------------------------- the clock of a history

  /** The clock readings a label carries, in order, and none before `t`. */
  predicate Ticks(t: Time, l: Label) {
    match l
    case CreateRun(_, _, _, now, checkNow, laterNow) => t <= now <= checkNow <= laterNow
    case CancelRun(_, _, requestedAt, now) => t <= requestedAt <= now
    case ScanPage(_, now, _) => t <= now
    case Resume(_, x) => t <= x.now <= x.laterNow
    case Crash(_) => true
    case CallStarts(_) => true
    case CallFinishes(_) => true
  }

  /** The last of them. */
  function Clock(t: Time, l: Label): Time {
    match l
    case CreateRun(_, _, _, _, _, laterNow) => laterNow
    case CancelRun(_, _, _, now) => now
    case ScanPage(_, now, _) => now
    case Resume(_, x) => x.laterNow
    case Crash(_) => t
    case CallStarts(_) => t
    case CallFinishes(_) => t
  }

  function ClockAfter(t: Time, history: seq<Label>): Time {
    if history == [] then t else Clock(ClockAfter(t, history[..|history| - 1]), history[|history| - 1])
  }

  /** From `t` on, the clock never goes back. */
  predicate NeverBack(t: Time, history: seq<Label>) {
    history == [] || (
      var prefix, last := history[..|history| - 1], history[|history| - 1];
      NeverBack(t, prefix) && Ticks(ClockAfter(t, prefix), last))
  }

  // ---------------------------------------------------------------- what activities hold, by the clock

  predicate DueBy(r: RunRecord, t: Time) {
    r.reconcileAt.Some? ==> r.reconcileAt.value <= t
  }

  predicate RequestTimely(a: ServiceAwait, t: Time) {
    match a
    case Answered => true
    case Failed500(_) => true
    case AtClaimDispatch(r, _, _, _, _, _) => r.createdAt <= t
    case AtSpawn(r, _, _) => r.createdAt <= t
    case AtExpiryWrite(r, n) => OnTime(r, n)
    case AtCallWrite(r, n) => OnTime(r, n)
    case AtAmbiguousWrite(r, n) => OnTime(r, n)
    case AtCancelWrite(r, n) => OnTime(r, n)
  }

  /** A pass holds a record that was due, and commits no earlier than that. */
  predicate PassTimely(a: Await, t: Time) {
    match a
    case Returned => true
    case Raised(_) => true
    case AtPoll(c) => DueBy(c.record, t)
    case AtCancellationPoll(c) => DueBy(c.record, t)
    case AtCancel(c) => DueBy(c.record, t)
    case AtCommit(c, n, after) => OnTime(c.record, n) && (!after.ThenReturn? ==> DueBy(n, t))
  }

  predicate ProcTimely(q: Proc, t: Time) {
    match q
    case Request(a) => RequestTimely(a, t)
    case Leased(c) => DueBy(c.record, t)
    case Reconciling(_, at) => PassTimely(at, t)
    case Done => true
  }

  predicate CreatedBy(s: StoreState, r: RunId, t: Time) {
    r in s.runs ==> s.runs[r].createdAt <= t
  }

  ghost predicate Timely(w: World, t: Time) {
    && (forall r {:trigger CreatedBy(w.store, r, t)} :: CreatedBy(w.store, r, t))
    && (forall i {:trigger w.procs[i]} :: 0 <= i < |w.procs| ==> ProcTimely(w.procs[i], t))
  }

  lemma ProcLater(q: Proc, t: Time, u: Time)
    requires ProcTimely(q, t) && t <= u
    ensures ProcTimely(q, u)
  {
  }

  // ---------------------------------------------------------------- one await

  lemma BeginTimely(p: RecoveryPolicy, c: ReconcileClaim, t: Time, now: Time)
    requires ValidPolicy(p) && ClaimOk(p, c) && DueBy(c.record, t) && t <= now
    ensures PassTimely(ReconcileClaimed(p, c, now), now)
  {
  }

  lemma PollTimely(p: RecoveryPolicy, c: ReconcileClaim, o: PollOutcome, t: Time, now: Time)
    requires ValidPolicy(p) && ClaimOk(p, c) && c.record.state.Running? && DueBy(c.record, t) && t <= now
    ensures PassTimely(AfterPoll(p, c, o, now), now)
  {
  }

  lemma CancellationPollTimely(p: RecoveryPolicy, c: ReconcileClaim, o: PollOutcome, t: Time, now: Time, later: Time)
    requires ValidPolicy(p) && ClaimOk(p, c) && c.record.state.CancellationRequested?
    requires DueBy(c.record, t) && t <= now <= later
    ensures PassTimely(AfterCancellationPoll(p, c, o, now, later), later)
  {
  }

  lemma CancelTimely(p: RecoveryPolicy, c: ReconcileClaim, o: CancelOutcome, t: Time, now: Time)
    requires ValidPolicy(p) && ClaimOk(p, c) && c.record.state.CancellationRequested? && DueBy(c.record, t) && t <= now
    ensures PassTimely(AfterCancel(p, c, o, now), now)
  {
  }

  lemma CommitTimely(p: RecoveryPolicy, c: ReconcileClaim, n: RunRecord, after: After, cas: CasAnswer,
                     t: Time, now: Time)
    requires ValidPolicy(p) && AwaitOk(p, AtCommit(c, n, after)) && PassTimely(AtCommit(c, n, after), t) && t <= now
    ensures PassTimely(NextAwait(p, AtCommit(c, n, after), Answer(now, now, PollPending, CancelAccepted, cas)), now)
  {
  }

  lemma NextTimely(p: RecoveryPolicy, a: Await, x: Answer, t: Time)
    requires ValidPolicy(p) && AwaitOk(p, a) && PassTimely(a, t) && t <= x.now <= x.laterNow
    ensures PassTimely(NextAwait(p, a, x), x.laterNow)
  {
    match a
    case Returned =>
    case Raised(_) =>
    case AtPoll(c) =>
      PollTimely(p, c, x.poll, t, x.now);
      ProcLater(Reconciling(c, NextAwait(p, a, x)), x.now, x.laterNow);
    case AtCancellationPoll(c) => CancellationPollTimely(p, c, x.poll, t, x.now, x.laterNow);
    case AtCancel(c) =>
      CancelTimely(p, c, x.cancel, t, x.now);
      ProcLater(Reconciling(c, NextAwait(p, a, x)), x.now, x.laterNow);
    case AtCommit(c, n, after) =>
      CommitTimely(p, c, n, after, x.commit, t, x.now);
      ProcLater(Reconciling(c, NextAwait(p, a, x)), x.now, x.laterNow);
  }

  // ---------------------------------------------------------------- one step of a request

  lemma SealTimely(r: RunRecord, now: Time, t: Time)
    requires WellFormed(r)
    ensures RequestTimely(SealAmbiguous(r, now), t)
  {
  }

  lemma SpawnTimely(p: RecoveryPolicy, r: RunRecord, id: Option<CallId>, t: Time, wakeAt: Time, now: Time)
    requires RecordOk(p, r) && r.state.Dispatching? && r.createdAt <= t <= wakeAt <= now
    ensures RequestTimely(AfterSpawn(r, id, wakeAt, now), now)
  {
    AfterSpawnOk(p, r, id, wakeAt, now);
    SealTimely(r, now, now);
  }

  lemma ClaimTimely(w: World, r: RunRecord, intent: IntentState, now: Time, at: Time, t: Time)
    requires Shape(w.store) && CreatedBy(w.store, r.runId, t)
    ensures var won := ClaimDispatch(w.store, r, intent, now, at).1; won.Some? ==> won.value.createdAt <= t
  {
    if VersionCurrent(w.store, r) {
      var stored := w.store.runs[r.runId];
      if Transition(stored, Dispatching, now, NO_CHANGES.(reconcileAt := Some(at))).Ok? {
        TransitionIsSuccessor(stored, Dispatching, now, NO_CHANGES.(reconcileAt := Some(at)));
      }
    }
  }

  lemma RequestStaysTimely(p: Params, w: World, i: nat, a: ServiceAwait, x: Inputs, t: Time)
    requires Shape(w.store) && i < |w.procs| && w.procs[i] == Request(a) && ServiceAwaitOk(p.policy, a)
    requires RequestTimely(a, t) && t <= x.now <= x.laterNow
    requires a.AtClaimDispatch? ==> CreatedBy(w.store, a.record.runId, t)
    ensures ProcTimely(ResumeRequest(w, i, a, x).procs[i], x.laterNow)
  {
    hide SealAmbiguous, AfterSpawn, ClaimDispatch, Write;
    match a
    case Answered =>
    case Failed500(_) =>
    case AtExpiryWrite(_, _) =>
    case AtAmbiguousWrite(_, _) =>
    case AtCancelWrite(_, _) =>
    case AtClaimDispatch(r, intent, now, at, _, _) => ClaimTimely(w, r, intent, now, at, t);
    case AtSpawn(r, _, _) =>
      SpawnTimely(p.policy, r, if x.spawnRaises then None else Some(|w.calls|), t, x.now, x.laterNow);
    case AtCallWrite(r, _) => SealTimely(r, x.now, x.laterNow);
  }

  lemma RequestWritesOnTime(p: Params, w: World, i: nat, a: ServiceAwait, x: Inputs, t: Time, r: RunId)
    requires Shape(w.store) && i < |w.procs| && RequestOk(p, w, i, a) && RequestTimely(a, t)
    ensures WritesOnTime(w, ResumeRequest(w, i, a, x), r)
  {
    hide RecordOk, Spaced, CasThen, LastWrite, OnTime;
    var v := ResumeRequest(w, i, a, x);
    if r in w.store.runs && r in v.store.runs && v.store.runs[r] != w.store.runs[r] {
      match a
      case Answered =>
      case Failed500(_) =>
      case AtExpiryWrite(c, n) => LastWriteTouches(w, i, c, n, x, r);
      case AtAmbiguousWrite(c, n) => LastWriteTouches(w, i, c, n, x, r);
      case AtCancelWrite(c, n) => LastWriteTouches(w, i, c, n, x, r);
      case AtSpawn(_, _, _) =>
      case AtCallWrite(c, n) => CallWriteIsCas(w, i, c, n, x, r);
      case AtClaimDispatch(c, intent, now, at, _, _) => ClaimOnTime(w, c, intent, now, at, r);
    }
  }

  lemma CallWriteIsCas(w: World, i: nat, c: RunRecord, n: RunRecord, x: Inputs, r: RunId)
    requires Shape(w.store) && i < |w.procs| && Held(w, c) && n.runId == c.runId && r in w.store.runs
    requires ResumeRequest(w, i, AtCallWrite(c, n), x).store.runs[r] != w.store.runs[r]
    ensures c == w.store.runs[r] && ResumeRequest(w, i, AtCallWrite(c, n), x).store.runs[r] == n
  {
    var lost := Request(AfterCallWrite(c, false, x.now));
    var won := if x.fault.FailsAfterWrite? then lost else Request(AfterCallWrite(c, true, x.now));
    CasTouches(w, i, c, n, won, lost, r);
  }

  lemma ClaimOnTime(w: World, c: RunRecord, intent: IntentState, now: Time, at: Time, r: RunId)
    requires Shape(w.store) && Held(w, c) && r in w.store.runs
    ensures var t := ClaimDispatch(w.store, c, intent, now, at).0;
            r in t.runs && t.runs[r] != w.store.runs[r] ==> OnTime(w.store.runs[r], t.runs[r])
  {
    if VersionCurrent(w.store, c) {
      CurrentIsStored(w, c);
    }
  }

  // ---------------------------------------------------------------- one step of a pass

  lemma ReconcilerStaysTimely(p: Params, w: World, i: nat, lease: ReconcileClaim, a: Await, x: Inputs, t: Time)
    requires ValidParams(p) && i < |w.procs| && w.procs[i] == Reconciling(lease, a) && ReconcilerOk(p, w, a)
    requires PassTimely(a, t) && t <= x.now <= x.laterNow
    ensures ProcTimely(ResumeReconciler(p, w, i, lease, a, x).procs[i], x.laterNow)
  {
    hide ResumeReconciler, NextAwait;
    if a.Raised? {
      OverMoves(p, w, i, lease, a, x);
    } else {
      ReconcilerMoves(p, w, i, lease, a, x);
      NextTimely(p.policy, a, AnswerOf(w, a, x), t);
      ProcLater(w.procs[i], t, x.laterNow);
    }
  }

  lemma ReconcilerWritesOnTime(p: Params, w: World, i: nat, lease: ReconcileClaim, a: Await, x: Inputs,
                               t: Time, r: RunId)
    requires i < |w.procs| && w.procs[i] == Reconciling(lease, a) && ReconcilerOk(p, w, a) && PassTimely(a, t)
    ensures WritesOnTime(w, ResumeReconciler(p, w, i, lease, a, x), r)
  {
    hide ResumeReconciler, RecordOk, Spaced, OnTime;
    var v := ResumeReconciler(p, w, i, lease, a, x);
    if r in w.store.runs && r in v.store.runs && v.store.runs[r] != w.store.runs[r] {
      if a.AtCommit? {
        CommitTouches(p, w, i, lease, a, x, r);
      } else {
        ReconcilerLeavesRuns(p, w, i, lease, a, x);
      }
    }
  }

  // ---------------------------------------------------------------- one step of the system

  lemma ResumedTimely(p: Params, w: World, i: nat, x: Inputs, t: Time)
    requires ValidParams(p) && Shape(w.store) && i < |w.procs| && ProcOk(p, w, i, w.procs[i])
    requires Timely(w, t) && t <= x.now <= x.laterNow
    ensures var v := ApplyResume(p, w, Resume(i, x)); i < |v.procs| && ProcTimely(v.procs[i], x.laterNow)
  {
    hide ResumeReconciler, ResumeRequest, ReconcileClaimed;
    assert ProcTimely(w.procs[i], t);
    match w.procs[i]
    case Request(a) =>
      if a.AtClaimDispatch? { assert CreatedBy(w.store, a.record.runId, t); }
      RequestStaysTimely(p, w, i, a, x, t);
      RequestMoves(w, i, a, x);
    case Leased(c) =>
      BeginTimely(p.policy, c, t, x.now);
      ProcLater(Reconciling(c, ReconcileClaimed(p.policy, c, x.now)), x.now, x.laterNow);
    case Reconciling(lease, a) =>
      ReconcilerStaysTimely(p, w, i, lease, a, x, t);
      ReconcilerMovesAlone(p, w, i, lease, a, x);
    case Done =>
  }

  ghost predicate ProcsTimely(procs: seq<Proc>, t: Time) {
    forall i {:trigger procs[i]} :: 0 <= i < |procs| ==> ProcTimely(procs[i], t)
  }

  lemma ProcsLater(procs: seq<Proc>, t: Time, u: Time)
    requires ProcsTimely(procs, t) && t <= u
    ensures ProcsTimely(procs, u)
  {
    forall i | 0 <= i < |procs| ensures ProcTimely(procs[i], u) {
      ProcLater(procs[i], t, u);
    }
  }

  lemma MoreTimely(procs: seq<Proc>, news: seq<Proc>, t: Time)
    requires ProcsTimely(procs, t) && ProcsTimely(news, t)
    ensures ProcsTimely(procs + news, t)
  {
    hide ProcTimely;
  }

  lemma ResumeKeepsTimely(p: Params, w: World, i: nat, x: Inputs, t: Time)
    requires ValidParams(p) && WorldInv(p, w) && Timely(w, t) && t <= x.now <= x.laterNow
    ensures ProcsTimely(ApplyResume(p, w, Resume(i, x)).procs, x.laterNow)
  {
    assert Shape(w.store);
    hide WorldInv, ApplyResume, ProcTimely;
    OnlyMoves(p, w, i, x);
    ProcsLater(w.procs, t, x.laterNow);
    if i < |w.procs| {
      ProcIsOk(p, w, i);
      ResumedTimely(p, w, i, x, t);
    }
  }

  lemma AdmissionTimely(p: Params, w: World, l: Label, r: RunRecord, intent: IntentState, t: Time)
    requires ValidParams(p) && l.CreateRun? && RecordOk(p.policy, r) && r.createdAt <= l.laterNow
    ensures ProcTimely(Request(Entered(p, l, r, intent)), l.laterNow)
  {
    AfterAdmissionOk(p.policy, r, intent, l.owner.desktop, l.owner.task, l.checkNow, l.laterNow);
  }

  /** Admission answers with the proposal, or with a run that has been there for a while. */
  lemma AdmitTells(p: Params, w: World, c: AdmissionCommand, t: Time)
    requires WorldInv(p, w) && Timely(w, t)
    ensures var answer := Admit(w.store, p.quota, c).1;
      && (answer.Admitted? ==> answer.record == c.proposed)
      && (answer.Replayed? ==> RecordOk(p.policy, answer.record) && answer.record.createdAt <= t)
  {
    if Admit(w.store, p.quota, c).1.Replayed? {
      var id := FindReplay(w.store.order, w.store.runs, c).value;
      assert CreatedBy(w.store, id, t);
      RunIsOk(p, w, id);
    }
  }

  lemma ProposedAt(p: Params, l: Label)
    requires l.CreateRun? && Propose(p, l.ring, l.owner, l.runId, l.now).Ok?
    ensures Propose(p, l.ring, l.owner, l.runId, l.now).value.proposed.createdAt == l.now
  {
  }

  lemma CreateKeepsTimely(p: Params, w: World, l: Label, t: Time)
    requires ValidParams(p) && WorldInv(p, w) && l.CreateRun? && Timely(w, t) && Ticks(t, l)
    ensures ProcsTimely(ApplyCreate(p, w, l).procs, l.laterNow)
  {
    assert Shape(w.store);
    ProcsLater(w.procs, t, l.laterNow);
    hide ProcTimely, Entered, RecordOk, Admit, Propose, WorldInv, UsableRing, ValidCommand, BoundTo;
    if l.runId !in w.store.runs && UsableRing(p, l.ring) && Propose(p, l.ring, l.owner, l.runId, l.now).Ok? {
      var c := Propose(p, l.ring, l.owner, l.runId, l.now).value;
      ProposeIsSound(p, l.ring, l.owner, l.runId, l.now);
      ProposedAt(p, l);
      AdmitTells(p, w, c, t);
      match Admit(w.store, p.quota, c).1
      case Admitted(r) =>
        AdmissionTimely(p, w, l, r, Pending, t);
        MoreTimely(w.procs, [Request(Entered(p, l, r, Pending))], l.laterNow);
      case Replayed(r, intent) =>
        AdmissionTimely(p, w, l, r, intent, t);
        MoreTimely(w.procs, [Request(Entered(p, l, r, intent))], l.laterNow);
      case Denied(_) =>
      case KeyUnavailable =>
    }
  }

  lemma CancelKeepsTimely(p: Params, w: World, l: Label, t: Time)
    requires ValidParams(p) && WorldInv(p, w) && l.CancelRun? && Timely(w, t) && Ticks(t, l)
    ensures ProcsTimely(ApplyCancel(p, w, l).procs, l.now)
  {
    ProcsLater(w.procs, t, l.now);
    if l.runId in w.store.runs {
      RunIsOk(p, w, l.runId);
      var a := AfterCancelRead(p.policy, w.store.runs[l.runId], l.requestedAt, l.now);
      AfterCancelReadOk(p.policy, w.store.runs[l.runId], l.requestedAt, l.now);
      MoreTimely(w.procs, [Request(a)], l.now);
    }
  }

  lemma ScanKeepsTimely(p: Params, w: World, l: Label, t: Time)
    requires ValidParams(p) && WorldInv(p, w) && l.ScanPage? && Timely(w, t) && Ticks(t, l)
    ensures ProcsTimely(ApplyScan(p, w, l).procs, l.now)
  {
    ProcsLater(w.procs, t, l.now);
    var expires := l.now + p.policy.leaseDuration;
    var (store, page) := ClaimPage(w.store, l.from, l.now, l.limit, expires);
    var news := seq(|page.claims|, k requires 0 <= k < |page.claims| => Leased(page.claims[k]));
    if l.from <= |w.store.order| {
      ClaimPageClaims(w.store, p.quota, l.from, l.now, l.limit, expires);
    }
    forall k | 0 <= k < |news| ensures ProcTimely(news[k], l.now) {
      assert PageClaim(w.store, store, l.from, page.claims[k], w.store.nextToken + k, l.now, expires);
    }
    MoreTimely(w.procs, news, l.now);
  }

  lemma StepKeepsProcs(p: Params, w: World, l: Label, t: Time)
    requires ValidParams(p) && WorldInv(p, w) && Timely(w, t) && Ticks(t, l)
    ensures ProcsTimely(Apply(p, w, l).procs, Clock(t, l))
  {
    hide WorldInv, ApplyResume, ApplyCreate, ApplyCancel, ApplyScan, ProcTimely;
    assert ProcsTimely(w.procs, t);
    match l
    case CreateRun(_, _, _, _, _, _) => CreateKeepsTimely(p, w, l, t);
    case CancelRun(_, _, _, _) => CancelKeepsTimely(p, w, l, t);
    case ScanPage(_, _, _) => ScanKeepsTimely(p, w, l, t);
    case Resume(i, x) => ResumeKeepsTimely(p, w, i, x, t);
    case Crash(_) => assert ProcTimely(Done, t) by { DoneTimely(t); }
    case CallStarts(_) =>
    case CallFinishes(_) =>
  }

  lemma DoneTimely(t: Time)
    ensures ProcTimely(Done, t)
  {
  }

  /** Every run was created before the clock stood where it does. */
  lemma StepKeepsCreated(p: Params, w: World, l: Label, t: Time, r: RunId)
    requires ValidParams(p) && WorldInv(p, w) && Timely(w, t) && Ticks(t, l)
    ensures CreatedBy(Apply(p, w, l).store, r, Clock(t, l))
  {
    hide Apply, Propose, Successor;
    assert CreatedBy(w.store, r, t);
    if r in w.store.runs {
      CreatedOnce(p, w, l, r);
    } else if r in Apply(p, w, l).store.runs {
      AdmittedAfresh(p, w, l, r);
      ProposedAt(p, l);
    }
  }

  lemma CreatedOnce(p: Params, w: World, l: Label, r: RunId)
    requires ValidParams(p) && WorldInv(p, w) && r in w.store.runs
    ensures r in Apply(p, w, l).store.runs && Apply(p, w, l).store.runs[r].createdAt == w.store.runs[r].createdAt
  {
    hide Apply;
    WorldStep(p, w, l, r);
  }

  lemma StepKeepsTimely(p: Params, w: World, l: Label, t: Time)
    requires ValidParams(p) && WorldInv(p, w) && Timely(w, t) && Ticks(t, l)
    ensures Timely(Apply(p, w, l), Clock(t, l))
  {
    hide Apply, Clock, Ticks;
    StepKeepsProcs(p, w, l, t);
    forall r ensures CreatedBy(Apply(p, w, l).store, r, Clock(t, l)) {
      StepKeepsCreated(p, w, l, t, r);
    }
  }

  lemma StepWritesOnTime(p: Params, w: World, l: Label, t: Time, r: RunId)
    requires ValidParams(p) && WorldInv(p, w) && Timely(w, t)
    ensures WritesOnTime(w, Apply(p, w, l), r)
  {
    hide WorldInv, ApplyCreate, ApplyScan, ResumeRequest, ResumeReconciler, OnTime;
    RunIsOk(p, w, r);
    if r in w.store.runs {
      match l
      case CreateRun(_, _, _, _, _, _) => CreateLeavesRuns(p, w, l, r);
      case CancelRun(_, _, _, _) =>
      case ScanPage(_, _, _) => ScanLeavesRuns(p, w, l);
      case Resume(i, x) =>
        if i < |w.procs| {
          ProcIsOk(p, w, i);
          assert ProcTimely(w.procs[i], t);
          match w.procs[i]
          case Request(a) => RequestWritesOnTime(p, w, i, a, x, t, r);
          case Leased(_) =>
          case Reconciling(lease, a) => ReconcilerWritesOnTime(p, w, i, lease, a, x, t, r);
          case Done =>
        }
      case Crash(_) =>
      case CallStarts(_) =>
      case CallFinishes(_) =>
    }
  }

  // ---------------------------------------------------------------- whole histories

  /** Whoever waits in a history on such a clock holds nothing from its future. */
  lemma {:induction false} HistoryTimely(p: Params, t: Time, history: seq<Label>)
    requires ValidParams(p) && NeverBack(t, history)
    ensures Timely(WorldAfter(p, history), ClockAfter(t, history))
  {
    hide Apply, Ticks, Clock;
    if history != [] {
      var prefix := history[..|history| - 1];
      HistoryTimely(p, t, prefix);
      StepKeepsTimely(p, WorldAfter(p, prefix), history[|history| - 1], ClockAfter(t, prefix));
    }
  }

  lemma NeverBackPrefix(t: Time, history: seq<Label>, more: seq<Label>)
    requires more != [] && NeverBack(t, history + more)
    ensures NeverBack(t, history + more[..|more| - 1])
  {
    assert (history + more)[..|history + more| - 1] == history + more[..|more| - 1];
  }

  /** If the clock never goes back, every write of every run is on time. */
  lemma {:induction false} ForwardIsOnTime(p: Params, t: Time, history: seq<Label>, more: seq<Label>, r: RunId)
    requires ValidParams(p) && NeverBack(t, history + more)
    ensures AlwaysOnTime(p, history, more, r)
    decreases |more|
  {
    hide Apply, OnTime, NeverBack, Timely;
    if more != [] {
      var prefix, last := more[..|more| - 1], more[|more| - 1];
      NeverBackPrefix(t, history, more);
      ForwardIsOnTime(p, t, history, prefix, r);
      HistoryTimely(p, t, history + prefix);
      AfterOneMore(p, history, more);
      StepWritesOnTime(p, WorldAfter(p, history + prefix), last, ClockAfter(t, history + prefix), r);
    }
  }

  /** So in any history on such a clock a run is written at most `FullBound` times, commits in the middle
      of a pass not counted, is terminal once it has been, and counting those too, at most once more for
      every activity ever started. */
  lemma ForwardRunsEnd(p: Params, t: Time, history: seq<Label>, l: Label, more: seq<Label>, r: RunId)
    requires ValidParams(p) && NeverBack(t, history + [l] + more)
    requires r !in WorldAfter(p, history).store.runs && r in WorldAfter(p, history + [l]).store.runs
    ensures var v := WorldAfter(p, history + [l] + more); var writes := WritesSince(p, history + [l], more, r);
      && r in v.store.runs && writes <= FullBound(p)
      && (writes == FullBound(p) ==> IsTerminal(v.store.runs[r].state))
      && v.store.runs[r].version <= FullBound(p) + |v.procs|
  {
    hide Apply, NeverBack;
    ForwardIsOnTime(p, t, history + [l], more, r);
    RunWritesBounded(p, history, l, more, r);
    AllWritesBounded(p, history, l, more, r);
  }
}
