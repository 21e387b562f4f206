/** What surrounds the service and the reconciler: the shared store, the provider, the clock and the
    other activities.  Every call made and every answer given is logged where it arrives, so what a
    method does can be compared, call by call, with what it was told. */
module Surroundings {
  import opened Outcomes
  import opened Domain
  import opened Store
  import opened Recovery
  import opened RunStoreImpl

  // ---------------------------------------------------------------- the log

  datatype CancelReply = Replied(outcome: CancelOutcome) | RepliedOtherwise | CancelThrew

  /** A call of the store carries the tables before and after it. */
  datatype Event =
    | ClockRead(now: Time)
    | Polled(callId: CallId, outcome: Outcome<PollOutcome>)
    | CancelSent(callId: CallId, reply: CancelReply)
    | SpawnSent(runId: RunId, desktop: Bytes, task: Bytes, deadlineAt: Time, spawned: Outcome<CallId>)
    | ReadDone(tenant: TenantId, runId: RunId, found: Outcome<Option<RunRecord>>, before: StoreState)
    | AdmitSent(command: AdmissionCommand, verdict: Outcome<AdmitResult>, before: StoreState, after: StoreState)
    | DispatchAsked(current: RunRecord, intent: IntentState, now: Time, reconcileAt: Time,
                    won: Outcome<Option<RunRecord>>, before: StoreState, after: StoreState)
    | WriteSent(current: RunRecord, next: RunRecord, cas: CasAnswer, before: StoreState, after: StoreState)
    | CommitSent(claim: ReconcileClaim, next: RunRecord, storeNow: Time, cas: CasAnswer,
                 before: StoreState, after: StoreState)
    | PageTaken(cursor: Option<nat>, scanNow: Time, limit: nat, leaseDuration: Time, page: Outcome<Page>,
                before: StoreState, after: StoreState)
    | LeaseReleased(claim: ReconcileClaim, released: Outcome<bool>, before: StoreState, after: StoreState)

  /** A transaction either happened and told its result, or raised, before or after it happened. */
  ghost predicate Performed<T>(s: StoreState, t: StoreState, told: Outcome<T>, result: (StoreState, T)) {
    match told
    case Returns(value) => (t, value) == result
    case Raises => t == s || t == result.0
  }

  ghost predicate PerformedCas(s: StoreState, t: StoreState, cas: CasAnswer, result: (StoreState, Option<RunRecord>)) {
    match cas
    case CasStored => t == result.0 && result.1.Some?
    case CasLost => t == result.0 && result.1.None?
    case CasRaised => t == s || t == result.0
  }

  function From(cursor: Option<nat>): nat {
    if cursor.Some? then cursor.value else 0
  }

  /** What a read of one run finds for a tenant. */
  function Authorized(s: StoreState, tenant: TenantId, runId: RunId): Option<RunRecord> {
    if runId in s.runs && s.runs[runId].tenantId == tenant then Some(s.runs[runId]) else None
  }

  /** The event is one the store can answer with: its own transaction on the tables it had.  The clock
      and the provider may say anything. */
  ghost predicate Genuine(quota: nat, e: Event) {
    match e
    case ClockRead(_) => true
    case Polled(_, _) => true
    case CancelSent(_, _) => true
    case SpawnSent(_, _, _, _, _) => true
    case ReadDone(tenant, runId, found, s) => found.Returns? ==> found.value == Authorized(s, tenant, runId)
    case AdmitSent(c, verdict, s, t) =>
      Shape(s) && (if c.proposed.runId in s.runs then verdict.Raises? && t == s
                   else Performed(s, t, verdict, Admit(s, quota, c)))
    case DispatchAsked(current, intent, now, at, won, s, t) =>
      Shape(s) && Performed(s, t, won, ClaimDispatch(s, current, intent, now, at))
    case WriteSent(current, n, cas, s, t) =>
      n.runId == current.runId && PerformedCas(s, t, cas, CompareAndSet(s, current, n))
    case CommitSent(c, n, storeNow, cas, s, t) =>
      n.runId == c.record.runId && PerformedCas(s, t, cas, ReconcileCas(s, c, n, storeNow))
    case PageTaken(cursor, scanNow, limit, duration, page, s, t) =>
      Shape(s) && Performed(s, t, page, ClaimPage(s, From(cursor), scanNow, limit, scanNow + duration))
    case LeaseReleased(c, released, s, t) => Performed(s, t, released, ReleaseLease(s, c))
  }

  ghost predicate AllGenuine(quota: nat, log: seq<Event>) {
    forall k {:trigger Genuine(quota, log[k])} :: 0 <= k < |log| ==> Genuine(quota, log[k])
  }

  lemma OneMoreGenuine(quota: nat, log: seq<Event>, e: Event)
    requires AllGenuine(quota, log) && Genuine(quota, e)
    ensures AllGenuine(quota, log + [e])
  {
    var more := log + [e];
    forall k {:trigger Genuine(quota, more[k])} | 0 <= k < |more| ensures Genuine(quota, more[k]) {
      if k < |log| {
        assert Genuine(quota, log[k]);
      }
    }
  }

  lemma Regroup(before: seq<Event>, head: seq<Event>, rest: seq<Event>)
    ensures (before + head) + rest == before + (head + rest)
  {
  }

  // ---------------------------------------------------------------- what other activities may do

  ghost predicate StoredOk(p: RecoveryPolicy, s: StoreState, r: RunId) {
    r in s.runs ==> RecordOk(p, s.runs[r])
  }

  ghost predicate RecordsOk(p: RecoveryPolicy, s: StoreState) {
    forall r {:trigger StoredOk(p, s, r)} :: StoredOk(p, s, r)
  }

  /** The run stays, its version never falls, and a version has one record only. */
  ghost predicate Kept(s: StoreState, t: StoreState, r: RunId) {
    r in s.runs ==>
      && r in t.runs && s.runs[r].version <= t.runs[r].version
      && (s.runs[r].version == t.runs[r].version ==> s.runs[r] == t.runs[r])
  }

  /** A later store: every run is kept, and lease tokens are never handed out again. */
  ghost predicate Later(s: StoreState, t: StoreState) {
    s.nextToken <= t.nextToken && forall r {:trigger Kept(s, t, r)} :: Kept(s, t, r)
  }

  /** A record some activity holds, against the store. */
  ghost predicate Known(s: StoreState, r: RunRecord) {
    && r.runId in s.runs && r.version <= s.runs[r.runId].version
    && (r.version == s.runs[r.runId].version ==> r == s.runs[r.runId])
  }

  lemma KnownLater(s: StoreState, t: StoreState, r: RunRecord)
    requires Known(s, r) && Later(s, t)
    ensures Known(t, r)
  {
    assert Kept(s, t, r.runId);
  }

  /** The tables before and after an event of the store; other events leave them out. */
  function TablesBefore(e: Event, otherwise: StoreState): StoreState {
    if e.ReadDone? || TouchesStore(e) then e.before else otherwise
  }

  predicate TouchesStore(e: Event) {
    e.AdmitSent? || e.DispatchAsked? || e.WriteSent? || e.CommitSent? || e.PageTaken? || e.LeaseReleased?
  }

  function TablesAfter(e: Event, otherwise: StoreState): StoreState {
    if TouchesStore(e) then e.after else TablesBefore(e, otherwise)
  }

  /** The tables that the first event from `k` on was made on, or the present ones. */
  function NextTables(log: seq<Event>, k: nat, present: StoreState): StoreState
    requires k <= |log|
    decreases |log| - k
  {
    if k == |log| then present else TablesBefore(log[k], NextTables(log, k + 1, present))
  }

  ghost predicate Follows(log: seq<Event>, k: nat, present: StoreState)
    requires k < |log|
  {
    var next := NextTables(log, k + 1, present);
    Later(TablesAfter(log[k], next), next)
  }

  /** The logged tables follow one another, up to the present ones. */
  ghost predicate InOrder(log: seq<Event>, present: StoreState) {
    forall k {:trigger Follows(log, k, present)} :: 0 <= k < |log| ==> Follows(log, k, present)
  }

  lemma ItselfLater(s: StoreState)
    ensures Later(s, s)
  {
    forall r ensures Kept(s, s, r) {
    }
  }

  lemma {:induction false} NextTablesLater(log: seq<Event>, k: nat, s: StoreState, t: StoreState)
    requires k <= |log| && Later(s, t)
    ensures Later(NextTables(log, k, s), NextTables(log, k, t))
    decreases |log| - k
  {
    if k < |log| {
      NextTablesLater(log, k + 1, s, t);
      ItselfLater(TablesBefore(log[k], NextTables(log, k + 1, s)));
    }
  }

  lemma InOrderLater(log: seq<Event>, s: StoreState, t: StoreState)
    requires InOrder(log, s) && Later(s, t)
    ensures InOrder(log, t)
  {
    forall k | 0 <= k < |log| ensures Follows(log, k, t) {
      var before, after := NextTables(log, k + 1, s), NextTables(log, k + 1, t);
      assert Follows(log, k, s);
      NextTablesLater(log, k + 1, s, t);
      LaterTrans(TablesAfter(log[k], before), before, after);
      ItselfLater(after);
    }
  }

  lemma {:induction false} NextTablesAppend(log: seq<Event>, e: Event, k: nat, present: StoreState)
    requires k <= |log|
    ensures NextTables(log + [e], k, present) == NextTables(log, k, TablesBefore(e, present))
    decreases |log| - k
  {
    if k < |log| {
      NextTablesAppend(log, e, k + 1, present);
    }
  }

  lemma OneMoreInOrder(log: seq<Event>, e: Event, present: StoreState)
    requires InOrder(log, TablesBefore(e, present)) && TablesAfter(e, present) == present
    ensures InOrder(log + [e], present)
  {
    var more := log + [e];
    forall k | 0 <= k < |more| ensures Follows(more, k, present) {
      if k < |log| {
        assert Follows(log, k, TablesBefore(e, present));
        NextTablesAppend(log, e, k + 1, present);
      } else {
        ItselfLater(present);
      }
    }
  }

  /** Only leases changed. */
  lemma LaterSame(p: RecoveryPolicy, s: StoreState, t: StoreState)
    requires s.runs == t.runs && s.nextToken <= t.nextToken
    ensures Later(s, t) && (RecordsOk(p, s) ==> RecordsOk(p, t))
  {
    forall r ensures Kept(s, t, r) {
    }
    if RecordsOk(p, s) {
      forall r ensures StoredOk(p, t, r) {
        assert StoredOk(p, s, r);
      }
    }
  }

  lemma LaterTrans(s: StoreState, t: StoreState, u: StoreState)
    requires Later(s, t) && Later(t, u)
    ensures Later(s, u)
  {
    forall r ensures Kept(s, u, r) {
      assert Kept(s, t, r) && Kept(t, u, r);
    }
  }

  lemma WriteIsLater(p: RecoveryPolicy, s: StoreState, n: RunRecord)
    requires RecordsOk(p, s) && n.runId in s.runs && n.version == s.runs[n.runId].version + 1 && RecordOk(p, n)
    ensures RecordsOk(p, Write(s, n)) && Later(s, Write(s, n)) && Known(Write(s, n), n)
  {
    assert Write(s, n).runs == s.runs[n.runId := n];
    forall r ensures StoredOk(p, Write(s, n), r) && Kept(s, Write(s, n), r) {
      assert StoredOk(p, s, r);
    }
  }

  lemma CommitIsLater(p: RecoveryPolicy, s: StoreState, c: ReconcileClaim, n: RunRecord, now: Time)
    requires RecordsOk(p, s) && Known(s, c.record) && ClaimOk(p, c) && CommitOk(p, c.record, n)
    ensures ClaimCurrent(s, c, now) ==> c.record == s.runs[c.record.runId]
    ensures RecordsOk(p, ReconcileCas(s, c, n, now).0) && Later(s, ReconcileCas(s, c, n, now).0)
    ensures ClaimCurrent(s, c, now) ==> Known(ReconcileCas(s, c, n, now).0, n)
  {
    LaterSame(p, s, s);
    if ClaimCurrent(s, c, now) {
      WriteIsLater(p, s, n);
    }
  }

  lemma DispatchIsLater(p: RecoveryPolicy, s: StoreState, current: RunRecord, intent: IntentState, now: Time, at: Time)
    requires ValidPolicy(p) && Shape(s) && RecordsOk(p, s) && Known(s, current)
    requires at == Min(current.deadlineAt, now + p.dispatchStaleAfter)
    ensures var (t, won) := ClaimDispatch(s, current, intent, now, at);
      && RecordsOk(p, t) && Later(s, t)
      && (won.Some? ==> Known(t, won.value) && RecordOk(p, won.value) && won.value.state.Dispatching?
                        && won.value.runId == current.runId)
  {
    var (t, won) := ClaimDispatch(s, current, intent, now, at);
    LaterSame(p, s, s);
    if won.Some? {
      assert StoredOk(p, s, current.runId);
      WriteIsLater(p, s, won.value);
      LaterSame(p, Write(s, won.value), t);
      LaterTrans(s, Write(s, won.value), t);
    }
  }

  lemma AdmitIsLater(p: RecoveryPolicy, s: StoreState, quota: nat, c: AdmissionCommand)
    requires StoreInv(s, quota) && RecordsOk(p, s)
    requires ValidCommand(c) && RecordOk(p, c.proposed) && c.proposed.runId !in s.runs
    ensures var (t, answer) := Admit(s, quota, c);
      && RecordsOk(p, t) && Later(s, t)
      && (answer.Admitted? ==> answer.record == c.proposed && Known(t, answer.record))
      && (answer.Replayed? ==> RecordOk(p, answer.record) && Known(t, answer.record))
  {
    var (t, answer) := Admit(s, quota, c);
    LaterSame(p, s, s);
    if answer.Admitted? {
      forall r ensures StoredOk(p, t, r) && Kept(s, t, r) {
        assert StoredOk(p, s, r);
      }
    } else if answer.Replayed? {
      var r := FindReplay(s.order, s.runs, c).value;
      assert StoredOk(p, s, r) && EntryOk(s, r);
    }
  }

  lemma CasIsLater(p: RecoveryPolicy, s: StoreState, current: RunRecord, n: RunRecord)
    requires RecordsOk(p, s) && Known(s, current) && Writable(current, n) && RecordOk(p, n)
    ensures VersionCurrent(s, current) ==> s.runs[current.runId] == current
    ensures var (t, stored) := CompareAndSet(s, current, n);
      && RecordsOk(p, t) && Later(s, t)
      && (stored.Some? ==> Known(t, n))
  {
    LaterSame(p, s, s);
    if VersionCurrent(s, current) {
      WriteIsLater(p, s, n);
    }
  }

  /** The claims of a page from some index on, not yet looked at. */
  ghost predicate PageReady(p: RecoveryPolicy, s: StoreState, claims: seq<ReconcileClaim>, from: nat) {
    forall k {:trigger claims[k]} :: from <= k < |claims| ==> ClaimOk(p, claims[k]) && Known(s, claims[k].record)
  }

  /** Each lease is a token of its own, handed out in order from a range. */
  ghost predicate FreshTokens(claims: seq<ReconcileClaim>, from: nat, to: nat) {
    && from <= to
    && (forall k :: 0 <= k < |claims| ==> from <= claims[k].token < to)
    && (forall j, k :: 0 <= j < k < |claims| ==> claims[j].token < claims[k].token)
  }

  lemma PageIsLater(p: RecoveryPolicy, s: StoreState, quota: nat,
                    cursor: Option<nat>, now: Time, limit: nat, expiresAt: Time)
    requires StoreInv(s, quota) && RecordsOk(p, s)
    ensures var (t, page) := ClaimPage(s, From(cursor), now, limit, expiresAt);
      && RecordsOk(p, t) && Later(s, t) && |page.claims| <= limit
      && PageReady(p, t, page.claims, 0) && FreshTokens(page.claims, s.nextToken, t.nextToken)
  {
    var from := From(cursor);
    var (t, page) := ClaimPage(s, from, now, limit, expiresAt);
    ClaimPageFrame(s, quota, from, now, limit, expiresAt);
    LaterSame(p, s, t);
    if from <= |s.order| {
      ClaimPageClaims(s, quota, from, now, limit, expiresAt);
      forall k | 0 <= k < |page.claims|
        ensures ClaimOk(p, page.claims[k]) && Known(t, page.claims[k].record) && page.claims[k].token == s.nextToken + k
      {
        assert PageClaim(s, t, from, page.claims[k], s.nextToken + k, now, expiresAt);
        assert StoredOk(p, s, page.claims[k].record.runId);
      }
    }
  }

  // ---------------------------------------------------------------- the environment

  class Environment {
    const store: RunStore
    const policy: RecoveryPolicy
    ghost var log: seq<Event>

    constructor (store: RunStore, policy: RecoveryPolicy)
      ensures this.store == store && this.policy == policy && log == []
    {
      this.store, this.policy, log := store, policy, [];
    }

    ghost function State(): StoreState
      reads store
    {
      store.State()
    }

    ghost predicate Ready()
      reads store, this`log
    {
      && ValidPolicy(policy) && store.Valid() && RecordsOk(policy, State())
      && AllGenuine(store.quota, log) && InOrder(log, State())
    }

    /** An await: any number of other activities may have acted.  The body does nothing, but callers
        see only the contract, so they are proved for every interference it allows. */
    method Interference()
      requires Ready()
      modifies store
      ensures Ready() && Later(old(State()), State())
    {
      ItselfLater(State());
    }

    ghost method Record(e: Event)
      requires ValidPolicy(policy) && store.Valid() && RecordsOk(policy, State())
      requires AllGenuine(store.quota, log) && InOrder(log, TablesBefore(e, State()))
      requires Genuine(store.quota, e) && TablesAfter(e, State()) == State()
      modifies this`log
      ensures Ready() && log == old(log) + [e]
    {
      OneMoreGenuine(store.quota, log, e);
      OneMoreInOrder(log, e, State());
      log := log + [e];
    }

    method Clock() returns (now: Time)
      requires Ready()
      modifies this`log
      ensures Ready() && log == old(log) + [ClockRead(now)]
    {
      now := *;
      Record(ClockRead(now));
    }

    // -------------------------------------------------------------- the provider

    /** The provider answers a poll with anything, or raises. */
    method Poll(callId: CallId) returns (outcome: Outcome<PollOutcome>)
      requires Ready()
      modifies store, this`log
      ensures Ready() && Later(old(State()), State())
      ensures log == old(log) + [Polled(callId, outcome)]
    {
      Interference();
      outcome := *;
      Record(Polled(callId, outcome));
    }

    /** The provider answers a cancellation with anything, or raises. */
    method Cancel(callId: CallId) returns (reply: CancelReply)
      requires Ready()
      modifies store, this`log
      ensures Ready() && Later(old(State()), State())
      ensures log == old(log) + [CancelSent(callId, reply)]
    {
      Interference();
      reply := *;
      Record(CancelSent(callId, reply));
    }

    /** The provider may spawn and answer, spawn and raise, or raise. */
    method Spawn(runId: RunId, desktop: Bytes, task: Bytes, deadlineAt: Time) returns (spawned: Outcome<CallId>)
      requires Ready()
      modifies store, this`log
      ensures Ready() && Later(old(State()), State())
      ensures log == old(log) + [SpawnSent(runId, desktop, task, deadlineAt, spawned)]
    {
      Interference();
      spawned := *;
      Record(SpawnSent(runId, desktop, task, deadlineAt, spawned));
    }

    // -------------------------------------------------------------- the store; any call may raise

    method GetAuthorized(tenant: TenantId, runId: RunId) returns (found: Outcome<Option<RunRecord>>, ghost e: Event)
      requires Ready()
      modifies store, this`log
      ensures Ready() && Later(old(State()), State())
      ensures log == old(log) + [e] && e == ReadDone(tenant, runId, found, State())
      ensures found.Returns? && found.value.Some? ==>
        && found.value.value.runId == runId && found.value.value.tenantId == tenant
        && RecordOk(policy, found.value.value) && Known(State(), found.value.value)
    {
      Interference();
      var fails: bool := *;
      found := Raises;
      if !fails {
        assert StoredOk(policy, State(), runId) && EntryOk(State(), runId);
        var read := store.GetAuthorized(tenant, runId);
        found := Returns(read);
      }
      e := ReadDone(tenant, runId, found, State());
      Record(e);
    }

    /** A run id already in use makes the store raise. */
    method Admit(c: AdmissionCommand) returns (verdict: Outcome<AdmitResult>, ghost e: Event)
      requires Ready() && ValidCommand(c) && RecordOk(policy, c.proposed)
      modifies store, this`log
      ensures Ready() && Later(old(State()), State())
      ensures log == old(log) + [e] && e.AdmitSent? && e.command == c && e.verdict == verdict
      ensures verdict.Returns? && (verdict.value.Admitted? || verdict.value.Replayed?) ==>
        RecordOk(policy, verdict.value.record) && Known(State(), verdict.value.record)
    {
      Interference();
      ghost var s := State();
      ItselfLater(s);
      var failsBefore: bool, failsAfter: bool := *, *;
      verdict := Raises;
      if !failsBefore && c.proposed.runId !in store.runs {
        AdmitIsLater(policy, s, store.quota, c);
        var result := store.Admit(c);
        verdict := if failsAfter then Raises else Returns(result);
      }
      LaterTrans(old(State()), s, State());
      e := AdmitSent(c, verdict, s, State());
      Record(e);
    }

    method ClaimDispatch(current: RunRecord, intent: IntentState, now: Time, reconcileAt: Time)
      returns (won: Outcome<Option<RunRecord>>, ghost e: Event)
      requires Ready() && Known(State(), current)
      requires reconcileAt == Min(current.deadlineAt, now + policy.dispatchStaleAfter)
      modifies store, this`log
      ensures Ready() && Later(old(State()), State())
      ensures log == old(log) + [e] && e.DispatchAsked?
      ensures (e.current, e.intent, e.now, e.reconcileAt, e.won) == (current, intent, now, reconcileAt, won)
      ensures won.Returns? && won.value.Some? ==>
        && Known(State(), won.value.value) && RecordOk(policy, won.value.value) && won.value.value.state.Dispatching?
        && won.value.value.runId == current.runId
    {
      Interference();
      ghost var s := State();
      ItselfLater(s);
      var failsBefore: bool, failsAfter: bool := *, *;
      won := Raises;
      if !failsBefore {
        KnownLater(old(State()), s, current);
        DispatchIsLater(policy, s, current, intent, now, reconcileAt);
        var result := store.ClaimDispatch(current, intent, now, reconcileAt);
        won := if failsAfter then Raises else Returns(result);
      }
      LaterTrans(old(State()), s, State());
      e := DispatchAsked(current, intent, now, reconcileAt, won, s, State());
      Record(e);
    }

    method CompareAndSet(current: RunRecord, next: RunRecord) returns (cas: CasAnswer, ghost e: Event)
      requires Ready() && Known(State(), current) && Writable(current, next) && RecordOk(policy, next)
      modifies store, this`log
      ensures Ready() && Later(old(State()), State())
      ensures log == old(log) + [e] && e.WriteSent? && (e.current, e.next, e.cas) == (current, next, cas)
      ensures cas.CasStored? ==> Known(State(), next)
    {
      Interference();
      ghost var s := State();
      ItselfLater(s);
      var failsBefore: bool, failsAfter: bool := *, *;
      cas := CasRaised;
      if !failsBefore {
        KnownLater(old(State()), s, current);
        CasIsLater(policy, s, current, next);
        var stored := store.CompareAndSet(current, next);
        cas := if failsAfter then CasRaised else if stored.Some? then CasStored else CasLost;
      }
      LaterTrans(old(State()), s, State());
      e := WriteSent(current, next, cas, s, State());
      Record(e);
    }

    method ReconcileCompareAndSet(claim: ReconcileClaim, next: RunRecord) returns (cas: CasAnswer, ghost e: Event)
      requires Ready() && Known(State(), claim.record)
      requires ClaimOk(policy, claim) && CommitOk(policy, claim.record, next)
      modifies store, this`log
      ensures Ready() && Later(old(State()), State())
      ensures log == old(log) + [e] && e.CommitSent? && (e.claim, e.next, e.cas) == (claim, next, cas)
      ensures cas.CasStored? ==> Known(State(), next)
    {
      Interference();
      var now: Time := *;
      ghost var s := State();
      ItselfLater(s);
      var failsBefore: bool, failsAfter: bool := *, *;
      cas := CasRaised;
      if !failsBefore {
        KnownLater(old(State()), s, claim.record);
        CommitIsLater(policy, s, claim, next, now);
        var stored := store.ReconcileCompareAndSet(claim, next, now);
        cas := if failsAfter then CasRaised else if stored.Some? then CasStored else CasLost;
      }
      LaterTrans(old(State()), s, State());
      e := CommitSent(claim, next, now, cas, s, State());
      Record(e);
    }

    /** Takes one page of due runs, each under a new lease. */
    method ClaimReconcilePage(cursor: Option<nat>, scanNow: Time, limit: nat, leaseDuration: Time)
      returns (page: Outcome<Page>, ghost e: Event)
      requires Ready()
      modifies store, this`log
      ensures Ready() && Later(old(State()), State())
      ensures log == old(log) + [e] && e.PageTaken?
      ensures (e.cursor, e.scanNow, e.limit, e.leaseDuration, e.page) == (cursor, scanNow, limit, leaseDuration, page)
      ensures page.Returns? ==>
        && |page.value.claims| <= limit && PageReady(policy, State(), page.value.claims, 0)
        && FreshTokens(page.value.claims, old(store.nextToken), store.nextToken)
    {
      Interference();
      ghost var s := State();
      ItselfLater(s);
      var failsBefore: bool, failsAfter: bool := *, *;
      page := Raises;
      if !failsBefore {
        PageIsLater(policy, s, store.quota, cursor, scanNow, limit, scanNow + leaseDuration);
        var result := store.ClaimReconcilePage(cursor, scanNow, limit, leaseDuration);
        page := if failsAfter then Raises else Returns(result);
      }
      LaterTrans(old(State()), s, State());
      e := PageTaken(cursor, scanNow, limit, leaseDuration, page, s, State());
      Record(e);
    }

    method ReleaseReconcileLease(claim: ReconcileClaim) returns (released: Outcome<bool>, ghost e: Event)
      requires Ready()
      modifies store, this`log
      ensures Ready() && Later(old(State()), State())
      ensures log == old(log) + [e] && e.LeaseReleased? && (e.claim, e.released) == (claim, released)
    {
      Interference();
      ghost var s := State();
      var failsBefore: bool, failsAfter: bool := *, *;
      released := Raises;
      if !failsBefore {
        var result := store.ReleaseReconcileLease(claim);
        released := if failsAfter then Raises else Returns(result);
      }
      LaterSame(policy, s, State());
      LaterTrans(old(State()), s, State());
      e := LeaseReleased(claim, released, s, State());
      Record(e);
    }
  }
}
