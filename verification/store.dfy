/** The durable store as a value: what each transaction of the `RunStore` contract does to it
    (examples/run_gateway/ports.py).  The class in run_store.dfy implements these functions. */
module Store {
  import opened Outcomes
  import opened Domain
  import opened Identity
  import opened Sequences

  datatype IntentState = Pending | Claimed | Revoked

  datatype Lease = Lease(token: nat, expiresAt: Time)

  datatype StoreState = StoreState(
    order: seq<RunId>,                 // run ids, oldest first: the keyset that scans follow
    runs: map<RunId, RunRecord>,
    intents: map<RunId, IntentState>,
    claims: map<RunId, KeyedDigest>,   // exclusive desktop claims, by owning run
    used: map<TenantId, int>,             // quota units in use, by tenant
    leases: map<RunId, Lease>,
    nextToken: nat,
    releaseLog: seq<RunId>)            // runs in the order in which they gave their capacity back

  const EMPTY := StoreState([], map[], map[], map[], map[], map[], 0, [])

  function Used(used: map<TenantId, int>, tenant: TenantId): int {
    if tenant in used then used[tenant] else 0
  }

  /** The runs of a tenant that occupy a unit of its quota. */
  ghost function Holders(runs: map<RunId, RunRecord>, tenant: TenantId): set<RunId> {
    set r | r in runs && runs[r].tenantId == tenant && !IsReleasing(runs[r].state)
  }

  /** What a reader of the tables may rely on. */
  ghost predicate Shape(s: StoreState) {
    && (forall r :: r in s.order ==> r in s.runs)
    && s.intents.Keys == s.runs.Keys
  }

  /** One run id: the tables agree on it.  A pending intent is exactly a reserved run, and a revoked
      one ended before any dispatch.  The desktop claim is held exactly until the run is released,
      and a release is logged exactly when the run has entered a releasing state. */
  ghost predicate EntryOk(s: StoreState, r: RunId) {
    && (r in s.order <==> r in s.runs)
    && (r in s.intents <==> r in s.runs)
    && (r in s.runs && r in s.intents ==>
          && s.runs[r].runId == r && WellFormed(s.runs[r])
          && (s.intents[r].Pending? <==> s.runs[r].state.Reserved?)
          && (s.intents[r].Revoked? ==> s.runs[r].state.Cancelled?))
    && (r in s.claims <==> r in s.runs && !IsReleasing(s.runs[r].state))
    && (r in s.claims && r in s.runs ==> s.claims[r] == s.runs[r].desktop)
    && (r in s.releaseLog <==> r in s.runs && IsReleasing(s.runs[r].state))
    && (r in s.leases ==> r in s.runs && s.leases[r].token < s.nextToken)
  }

  ghost predicate EntriesOk(s: StoreState) {
    forall r {:trigger EntryOk(s, r)} :: EntryOk(s, r)
  }

  /** Conservation of the quota: what is charged is what is held, never above the limit. */
  ghost predicate QuotaAgrees(runs: map<RunId, RunRecord>, used: map<TenantId, int>, quota: nat) {
    forall t: TenantId :: Used(used, t) == |Holders(runs, t)| <= quota
  }

  ghost predicate StoreInv(s: StoreState, quota: nat) {
    && Shape(s)
    && Distinct(s.order)
    && Distinct(s.releaseLog)          // nobody gives capacity back twice
    && EntriesOk(s)
    && QuotaAgrees(s.runs, s.used, quota)
  }

  // ---------------------------------------------------------------- admission

  datatype AdmissionCommand = AdmissionCommand(
    proposed: RunRecord, idempotency: IdentityProof, desktop: IdentityProof, task: IdentityProof)

  /** The checks of `AdmissionCommand.__post_init__`, and that the record is a fresh reservation. */
  predicate ValidCommand(c: AdmissionCommand) {
    && WellFormed(c.proposed) && c.proposed.state.Reserved?
    && Matches(c.idempotency, c.proposed.idempotency)
    && Matches(c.desktop, c.proposed.desktop)
    && Matches(c.task, c.proposed.task)
  }

  datatype Rejection = IdempotencyConflict | DesktopBusy | TenantQuotaExceeded

  datatype AdmitResult =
    | Admitted(record: RunRecord)
    | Replayed(record: RunRecord, intent: IntentState)
    | Denied(rejection: Rejection)
    | KeyUnavailable

  predicate KeysAvailableFor(r: RunRecord, c: AdmissionCommand) {
    r.tenantId == c.proposed.tenantId ==>
      Recognizes(c.idempotency, r.idempotency) && Recognizes(c.desktop, r.desktop) && Recognizes(c.task, r.task)
  }

  predicate KeysAvailable(s: StoreState, c: AdmissionCommand)
    requires Shape(s)
  {
    forall r :: r in s.order ==> KeysAvailableFor(s.runs[r], c)
  }

  predicate IsReplayOf(r: RunRecord, c: AdmissionCommand) {
    r.tenantId == c.proposed.tenantId && Matches(c.idempotency, r.idempotency)
  }

  /** The oldest run that the command's idempotency proof matches. */
  function FindReplay(order: seq<RunId>, runs: map<RunId, RunRecord>, c: AdmissionCommand): (found: Option<RunId>)
    requires forall r :: r in order ==> r in runs
    ensures found.Some? ==> found.value in order && IsReplayOf(runs[found.value], c)
    ensures found.None? ==> forall r :: r in order ==> !IsReplayOf(runs[r], c)
  {
    if order == [] then None
    else if IsReplayOf(runs[order[0]], c) then Some(order[0])
    else FindReplay(order[1..], runs, c)
  }

  predicate DesktopIsClaimed(s: StoreState, c: AdmissionCommand) {
    exists r :: r in s.claims && Matches(c.desktop, s.claims[r])
  }

  function Insert(s: StoreState, n: RunRecord): StoreState {
    s.(order := s.order + [n.runId],
       runs := s.runs[n.runId := n],
       intents := s.intents[n.runId := Pending],
       claims := s.claims[n.runId := n.desktop],
       used := s.used[n.tenantId := Used(s.used, n.tenantId) + 1])
  }

  /** One transaction, in the fixed order of the contract. */
  function Admit(s: StoreState, quota: nat, c: AdmissionCommand): (StoreState, AdmitResult)
    requires Shape(s)
  {
    if !KeysAvailable(s, c) then
      (s, KeyUnavailable)
    else
      match FindReplay(s.order, s.runs, c)
      case Some(r) =>
        if !Matches(c.desktop, s.runs[r].desktop) || !Matches(c.task, s.runs[r].task) then
          (s, Denied(IdempotencyConflict))
        else
          (s, Replayed(s.runs[r], s.intents[r]))
      case None =>
        if Used(s.used, c.proposed.tenantId) >= quota then
          (s, Denied(TenantQuotaExceeded))
        else if DesktopIsClaimed(s, c) then
          (s, Denied(DesktopBusy))
        else
          (Insert(s, c.proposed), Admitted(c.proposed))
  }

  // ---------------------------------------------------------------- state writes

  function Release(s: StoreState, r: RunId, tenant: TenantId): StoreState {
    if r in s.claims then
      s.(claims := s.claims - {r},
         used := s.used[tenant := Used(s.used, tenant) - 1],
         releaseLog := s.releaseLog + [r])
    else
      s
  }

  function Write(s: StoreState, n: RunRecord): StoreState
    requires n.runId in s.runs
  {
    var prev := s.runs[n.runId];
    var s1 := s.(
      runs := s.runs[n.runId := n],
      intents := if prev.state.Reserved? && n.state.Cancelled? then s.intents[n.runId := Revoked] else s.intents);
    if IsReleasing(n.state) then Release(s1, n.runId, n.tenantId) else s1
  }

  /** What a compare-and-set may write over a stored record.  RESERVED -> DISPATCHING is reserved
      for `claim_dispatch`, which moves the intent with it. */
  predicate Writable(prev: RunRecord, n: RunRecord) {
    Successor(prev, n) && !(prev.state.Reserved? && n.state.Dispatching?)
  }

  predicate VersionCurrent(s: StoreState, current: RunRecord) {
    current.runId in s.runs && s.runs[current.runId].version == current.version
  }

  /** What a caller learns of a conditional write: it may also raise, before or after it wrote. */
  datatype CasAnswer = CasStored | CasLost | CasRaised

  function CompareAndSet(s: StoreState, current: RunRecord, n: RunRecord): (StoreState, Option<RunRecord>)
    requires VersionCurrent(s, current) ==> n.runId == current.runId
  {
    if VersionCurrent(s, current) then (Write(s, n), Some(n)) else (s, None)
  }

  /** RESERVED -> DISPATCHING and PENDING -> CLAIMED in one step; only its winner may spawn. */
  function ClaimDispatch(s: StoreState, current: RunRecord, intent: IntentState, now: Time, reconcileAt: Time)
    : (StoreState, Option<RunRecord>)
    requires Shape(s)
  {
    if VersionCurrent(s, current) && current.state.Reserved? && intent.Pending?
       && s.intents[current.runId] == intent then
      match Transition(s.runs[current.runId], Dispatching, now, NO_CHANGES.(reconcileAt := Some(reconcileAt)))
      case Err(_) => (s, None)
      case Ok(n) =>
        (s.(runs := s.runs[n.runId := n], intents := s.intents[n.runId := Claimed]), Some(n))
    else
      (s, None)
  }

  // ---------------------------------------------------------------- leases

  datatype ReconcileClaim = ReconcileClaim(record: RunRecord, expectedVersion: int, token: nat, leaseExpiresAt: Time)

  /** `ReconcileClaim.advanced`: the same lease over the record just committed. */
  function Advanced(c: ReconcileClaim, n: RunRecord): Result<ReconcileClaim, Error> {
    if n.runId != c.record.runId then Err(ValueError)
    else Ok(ReconcileClaim(n, n.version, c.token, c.leaseExpiresAt))
  }

  predicate IsDue(r: RunRecord, now: Time) {
    r.reconcileAt.Some? && r.reconcileAt.value <= now
  }

  predicate LeaseLive(s: StoreState, r: RunId, now: Time) {
    r in s.leases && s.leases[r].expiresAt > now
  }

  function TakeLease(s: StoreState, r: RunId, expiresAt: Time): StoreState {
    s.(leases := s.leases[r := Lease(s.nextToken, expiresAt)], nextToken := s.nextToken + 1)
  }

  predicate Claimable(s: StoreState, r: RunId, now: Time)
    requires r in s.runs
  {
    IsDue(s.runs[r], now) && !LeaseLive(s, r, now)
  }

  datatype Page = Page(claims: seq<ReconcileClaim>, next: Option<nat>)

  /** The keyset scan: due runs from position `from`, each leased under a token of its own, at most
      `limit` of them; `next` is where a later page continues. */
  function ClaimPage(s: StoreState, from: nat, now: Time, limit: nat, expiresAt: Time): (StoreState, Page)
    requires Shape(s)
    decreases |s.order| - from
  {
    if from >= |s.order| then
      (s, Page([], None))
    else if limit == 0 then
      (s, Page([], Some(from)))
    else
      var r := s.order[from];
      if Claimable(s, r, now) then
        var claim := ReconcileClaim(s.runs[r], s.runs[r].version, s.nextToken, expiresAt);
        var rest := ClaimPage(TakeLease(s, r, expiresAt), from + 1, now, limit - 1, expiresAt);
        (rest.0, Page([claim] + rest.1.claims, rest.1.next))
      else
        ClaimPage(s, from + 1, now, limit, expiresAt)
  }

  predicate LeaseCurrent(s: StoreState, c: ReconcileClaim, now: Time) {
    LeaseLive(s, c.record.runId, now) && s.leases[c.record.runId].token == c.token
  }

  predicate ClaimCurrent(s: StoreState, c: ReconcileClaim, now: Time) {
    && LeaseCurrent(s, c, now)
    && c.record.runId in s.runs && s.runs[c.record.runId].version == c.expectedVersion
  }

  /** A write that needs both the lease and the expected version to be current. */
  function ReconcileCas(s: StoreState, c: ReconcileClaim, n: RunRecord, now: Time): (StoreState, Option<RunRecord>)
    requires ClaimCurrent(s, c, now) ==> n.runId == c.record.runId
  {
    if ClaimCurrent(s, c, now) then (Write(s, n), Some(n)) else (s, None)
  }

  function ReleaseLease(s: StoreState, c: ReconcileClaim): (StoreState, bool) {
    if c.record.runId in s.leases && s.leases[c.record.runId].token == c.token then
      (s.(leases := s.leases - {c.record.runId}), true)
    else
      (s, false)
  }

  // ---------------------------------------------------------------- every transaction keeps StoreInv

  lemma EmptyStore(quota: nat)
    ensures StoreInv(EMPTY, quota)
  {
    forall t: TenantId ensures Used(EMPTY.used, t) == |Holders(EMPTY.runs, t)| {
      assert Holders(EMPTY.runs, t) == {};
    }
  }

  /** How one table write changes a tenant's holders. */
  lemma HoldersAfterWrite(runs: map<RunId, RunRecord>, n: RunRecord, t: TenantId)
    ensures Holders(runs[n.runId := n], t) ==
            if n.tenantId == t && !IsReleasing(n.state) then Holders(runs, t) + {n.runId}
            else Holders(runs, t) - {n.runId}
  {
  }

  lemma HoldersAfterInsert(runs: map<RunId, RunRecord>, n: RunRecord, t: TenantId)
    requires n.runId !in runs && !IsReleasing(n.state)
    ensures |Holders(runs[n.runId := n], t)| == |Holders(runs, t)| + if n.tenantId == t then 1 else 0
  {
    HoldersAfterWrite(runs, n, t);
    var before := Holders(runs, t);
    assert n.runId !in before;
    assert before - {n.runId} == before;
  }

  lemma InsertKeepsQuota(runs: map<RunId, RunRecord>, used: map<TenantId, int>, quota: nat, n: RunRecord)
    requires QuotaAgrees(runs, used, quota)
    requires n.runId !in runs && n.state.Reserved? && Used(used, n.tenantId) < quota
    ensures QuotaAgrees(runs[n.runId := n], used[n.tenantId := Used(used, n.tenantId) + 1], quota)
  {
    var used' := used[n.tenantId := Used(used, n.tenantId) + 1];
    forall t: TenantId ensures Used(used', t) == |Holders(runs[n.runId := n], t)| <= quota {
      HoldersAfterInsert(runs, n, t);
    }
  }

  lemma InsertKeepsEntry(s: StoreState, n: RunRecord, r: RunId)
    requires EntryOk(s, r)
    requires WellFormed(n) && n.runId !in s.runs && n.state.Reserved?
    ensures EntryOk(Insert(s, n), r)
  {
  }

  lemma InsertKeepsInv(s: StoreState, quota: nat, n: RunRecord)
    requires StoreInv(s, quota)
    requires WellFormed(n) && n.runId !in s.runs && n.state.Reserved? && Used(s.used, n.tenantId) < quota
    ensures StoreInv(Insert(s, n), quota)
  {
    forall r ensures EntryOk(Insert(s, n), r) {
      assert EntryOk(s, r);
      InsertKeepsEntry(s, n, r);
    }
    assert EntryOk(s, n.runId);
    AppendKeepsDistinct(s.order, n.runId);
    InsertKeepsQuota(s.runs, s.used, quota, n);
  }

  /** Admission keeps the store consistent, and whatever it does not admit it leaves untouched. */
  lemma AdmitKeepsInv(s: StoreState, quota: nat, c: AdmissionCommand)
    requires StoreInv(s, quota) && ValidCommand(c) && c.proposed.runId !in s.runs
    ensures StoreInv(Admit(s, quota, c).0, quota)
    ensures !Admit(s, quota, c).1.Admitted? ==> Admit(s, quota, c).0 == s
  {
    if Admit(s, quota, c).1.Admitted? {
      InsertKeepsInv(s, quota, c.proposed);
    }
  }

  lemma WriteKeepsQuota(runs: map<RunId, RunRecord>, used: map<TenantId, int>, quota: nat, n: RunRecord)
    requires QuotaAgrees(runs, used, quota)
    requires n.runId in runs && !IsReleasing(runs[n.runId].state) && n.tenantId == runs[n.runId].tenantId
    ensures QuotaAgrees(runs[n.runId := n],
                        if IsReleasing(n.state) then used[n.tenantId := Used(used, n.tenantId) - 1] else used, quota)
  {
    var used' := if IsReleasing(n.state) then used[n.tenantId := Used(used, n.tenantId) - 1] else used;
    forall t: TenantId ensures Used(used', t) == |Holders(runs[n.runId := n], t)| <= quota {
      HoldersAfterWrite(runs, n, t);
      var before := Holders(runs, t);
      assert n.runId in before <==> t == n.tenantId;
      assert t == n.tenantId ==> before + {n.runId} == before;
      assert t != n.tenantId ==> before - {n.runId} == before;
    }
  }

  lemma WriteKeepsEntry(s: StoreState, n: RunRecord, r: RunId)
    requires EntryOk(s, r) && EntryOk(s, n.runId)
    requires n.runId in s.runs && Writable(s.runs[n.runId], n)
    ensures EntryOk(Write(s, n), r)
  {
    if r == n.runId {
      WriteKeepsOwnEntry(s, n);
    }
  }

  lemma WriteKeepsOwnEntry(s: StoreState, n: RunRecord)
    requires EntryOk(s, n.runId) && n.runId in s.runs && Writable(s.runs[n.runId], n)
    ensures EntryOk(Write(s, n), n.runId)
  {
  }

  /** A legal write keeps the store consistent; in particular it releases exactly when it should. */
  lemma WriteKeepsInv(s: StoreState, quota: nat, n: RunRecord)
    requires StoreInv(s, quota)
    requires n.runId in s.runs && Writable(s.runs[n.runId], n)
    ensures StoreInv(Write(s, n), quota)
  {
    assert EntryOk(s, n.runId);
    forall r ensures EntryOk(Write(s, n), r) {
      assert EntryOk(s, r);
      WriteKeepsEntry(s, n, r);
    }
    AppendKeepsDistinct(s.releaseLog, n.runId);
    WriteKeepsQuota(s.runs, s.used, quota, n);
  }

  lemma ClaimDispatchKeepsInv(s: StoreState, quota: nat, current: RunRecord, intent: IntentState, now: Time, at: Time)
    requires StoreInv(s, quota)
    ensures StoreInv(ClaimDispatch(s, current, intent, now, at).0, quota)
    ensures ClaimDispatch(s, current, intent, now, at).1.None? ==> ClaimDispatch(s, current, intent, now, at).0 == s
  {
    var (s', won) := ClaimDispatch(s, current, intent, now, at);
    if won.Some? {
      assert EntryOk(s, current.runId);
      forall r ensures EntryOk(s', r) {
        assert EntryOk(s, r);
      }
      WriteKeepsQuota(s.runs, s.used, quota, won.value);
    }
  }

  /** Claim `k` of a page is the stored record of a due, unleased run at or after `from`, under a
      fresh token that the store now holds for it. */
  ghost predicate PageClaim(s: StoreState, s': StoreState, from: nat,
                            c: ReconcileClaim, token: nat, now: Time, expiresAt: Time)
    requires from <= |s.order|
  {
    && c.record.runId in s.runs && c.record == s.runs[c.record.runId] && c.expectedVersion == c.record.version
    && Claimable(s, c.record.runId, now)
    && c.record.runId in s.order[from..]
    && c.token == token && c.leaseExpiresAt == expiresAt
    && c.record.runId in s'.leases && s'.leases[c.record.runId] == Lease(token, expiresAt)
  }

  ghost predicate PageClaims(s: StoreState, s': StoreState, from: nat,
                             claims: seq<ReconcileClaim>, now: Time, expiresAt: Time)
    requires from <= |s.order|
  {
    forall k :: 0 <= k < |claims| ==> PageClaim(s, s', from, claims[k], s.nextToken + k, now, expiresAt)
  }

  lemma TakeLeaseKeepsInv(s: StoreState, quota: nat, r: RunId, expiresAt: Time)
    requires StoreInv(s, quota) && r in s.runs
    ensures StoreInv(TakeLease(s, r, expiresAt), quota)
  {
    forall q ensures EntryOk(TakeLease(s, r, expiresAt), q) {
      assert EntryOk(s, q);
    }
  }

  /** A page touches leases only: no run, intent, claim or quota unit. */
  lemma {:induction false} ClaimPageFrame(s: StoreState, quota: nat, from: nat, now: Time, limit: nat, expiresAt: Time)
    requires StoreInv(s, quota)
    ensures StoreInv(ClaimPage(s, from, now, limit, expiresAt).0, quota)
    ensures var s' := ClaimPage(s, from, now, limit, expiresAt).0;
            s' == s.(leases := s'.leases, nextToken := s'.nextToken) && s.nextToken <= s'.nextToken
    decreases |s.order| - from
  {
    if from < |s.order| && limit != 0 {
      if Claimable(s, s.order[from], now) {
        TakeLeaseKeepsInv(s, quota, s.order[from], expiresAt);
        ClaimPageFrame(TakeLease(s, s.order[from], expiresAt), quota, from + 1, now, limit - 1, expiresAt);
      } else {
        ClaimPageFrame(s, quota, from + 1, now, limit, expiresAt);
      }
    }
  }

  /** A later page never re-leases a run of an earlier position. */
  lemma {:induction false} ClaimPageLeaves(s: StoreState, from: nat, now: Time, limit: nat, expiresAt: Time, r: RunId)
    requires Shape(s) && from <= |s.order| && r !in s.order[from..]
    ensures var s' := ClaimPage(s, from, now, limit, expiresAt).0;
            (r in s'.leases <==> r in s.leases) && (r in s.leases ==> s'.leases[r] == s.leases[r])
    decreases |s.order| - from
  {
    if from < |s.order| && limit != 0 {
      assert s.order[from..] == [s.order[from]] + s.order[from + 1..];
      assert r !in s.order[from + 1..];
      if Claimable(s, s.order[from], now) {
        var s1 := TakeLease(s, s.order[from], expiresAt);
        assert Shape(s1);
        ClaimPageLeaves(s1, from + 1, now, limit - 1, expiresAt, r);
      } else {
        ClaimPageLeaves(s, from + 1, now, limit, expiresAt, r);
      }
    }
  }

  /** Every claim of a page is a due run that no live lease covered, held under its own new token. */
  lemma {:induction false} ClaimPageClaims(s: StoreState, quota: nat, from: nat, now: Time, limit: nat, expiresAt: Time)
    requires StoreInv(s, quota) && from <= |s.order|
    ensures var (s', page) := ClaimPage(s, from, now, limit, expiresAt);
            && PageClaims(s, s', from, page.claims, now, expiresAt)
            && s'.nextToken == s.nextToken + |page.claims|
            && |page.claims| <= limit
    decreases |s.order| - from
  {
    if from < |s.order| && limit != 0 {
      var r := s.order[from];
      assert s.order[from..] == [r] + s.order[from + 1..];
      var (s', page) := ClaimPage(s, from, now, limit, expiresAt);
      if Claimable(s, r, now) {
        var s1 := TakeLease(s, r, expiresAt);
        TakeLeaseKeepsInv(s, quota, r, expiresAt);
        ClaimPageClaims(s1, quota, from + 1, now, limit - 1, expiresAt);
        var rest := ClaimPage(s1, from + 1, now, limit - 1, expiresAt).1.claims;
        assert EntryOk(s, r);
        ClaimPageLeaves(s1, from + 1, now, limit - 1, expiresAt, r);
        forall k | 0 <= k < |page.claims|
          ensures PageClaim(s, s', from, page.claims[k], s.nextToken + k, now, expiresAt)
        {
          if k > 0 {
            assert page.claims[k] == rest[k - 1];
            assert PageClaim(s1, s', from + 1, rest[k - 1], s1.nextToken + (k - 1), now, expiresAt);
            assert rest[k - 1].record.runId != r;
          }
        }
      } else {
        ClaimPageClaims(s, quota, from + 1, now, limit, expiresAt);
        forall k | 0 <= k < |page.claims|
          ensures PageClaim(s, s', from, page.claims[k], s.nextToken + k, now, expiresAt)
        {
          assert PageClaim(s, s', from + 1, page.claims[k], s.nextToken + k, now, expiresAt);
        }
      }
    }
  }

  ghost predicate Claims(page: Page, r: RunId) {
    exists c :: c in page.claims && c.record.runId == r
  }

  /** A page skips no due run before the position where the next page continues, and when it names
      no such position it has scanned everything. */
  lemma {:induction false} ClaimPageComplete(s: StoreState, quota: nat, from: nat,
                                             now: Time, limit: nat, expiresAt: Time, i: nat)
    requires StoreInv(s, quota) && from <= i < |s.order| && Claimable(s, s.order[i], now)
    ensures var page := ClaimPage(s, from, now, limit, expiresAt).1;
            Claims(page, s.order[i]) || (page.next.Some? && page.next.value <= i && |page.claims| == limit)
    decreases |s.order| - from
  {
    if limit != 0 {
      var r := s.order[from];
      var page := ClaimPage(s, from, now, limit, expiresAt).1;
      if Claimable(s, r, now) {
        var s1 := TakeLease(s, r, expiresAt);
        TakeLeaseKeepsInv(s, quota, r, expiresAt);
        var rest := ClaimPage(s1, from + 1, now, limit - 1, expiresAt).1;
        assert page.claims == [page.claims[0]] + rest.claims;
        if i == from {
          assert EntryOk(s, r);
          assert page.claims[0] in page.claims;
        } else {
          ClaimPageComplete(s1, quota, from + 1, now, limit - 1, expiresAt, i);
          if Claims(rest, s.order[i]) {
            var c :| c in rest.claims && c.record.runId == s.order[i];
            assert c in page.claims;
          }
        }
      } else {
        ClaimPageComplete(s, quota, from + 1, now, limit, expiresAt, i);
      }
    }
  }

  lemma ReleaseLeaseKeepsInv(s: StoreState, quota: nat, c: ReconcileClaim)
    requires StoreInv(s, quota)
    ensures StoreInv(ReleaseLease(s, c).0, quota)
  {
    forall r ensures EntryOk(ReleaseLease(s, c).0, r) {
      assert EntryOk(s, r);
    }
  }
}
