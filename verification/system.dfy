/** The gateway as one transition system: any number of create and cancel requests and reconciler
    passes over one store and one provider, interleaved at every await, crashing anywhere.

    `Apply` is deterministic given a label, and a label carries everything the code does not
    decide: which activity moves, clock readings (in any order), provider answers, faults. */
module System {
  import opened Outcomes
  import opened Domain
  import opened Identity
  import opened Store
  import opened Recovery
  import opened Service

  datatype Params = Params(
    policy: RecoveryPolicy, quota: nat, runTimeout: Time, mac: Mac, secrets: map<KeyId, Secret>)

  ghost predicate ValidParams(p: Params) {
    ValidPolicy(p.policy) && p.runTimeout > 0 && IdealMac(p.mac)
  }

  // ---------------------------------------------------------------- the provider

  /** A spawned call may start late or never; once finished it stays so. */
  datatype CallPhase = NotStarted | Live | Finished

  /** One `spawn`; its position in the log of spawns is the identity the provider gives it. */
  datatype ProviderCall = ProviderCall(runId: RunId, tenant: TenantId, desktop: Bytes, task: Bytes, phase: CallPhase)

  // ---------------------------------------------------------------- activities

  datatype Proc =
    | Request(a: ServiceAwait)
    | Leased(claim: ReconcileClaim)                    // claimed by a page, not yet looked at
    | Reconciling(lease: ReconcileClaim, at: Await)
    | Done

  /** Who a run belongs to.  The store never sees this: it holds digests only. */
  datatype Owner = Owner(tenant: TenantId, key: Bytes, desktop: Bytes, task: Bytes)

  datatype World = World(
    store: StoreState,
    procs: seq<Proc>,
    calls: seq<ProviderCall>,
    owners: map<RunId, Owner>,         // bookkeeping for the proofs: the inputs a run was admitted with
    winners: map<RunId, nat>)          // bookkeeping for the proofs: the request that won the dispatch

  const START := World(EMPTY, [], [], map[], map[])

  /** A call may have happened before a fault, or not at all. */
  datatype Fault = NoFault | FailsBeforeWrite | FailsAfterWrite

  datatype Inputs = Inputs(
    now: Time, laterNow: Time, storeNow: Time, poll: PollOutcome, cancel: CancelOutcome,
    spawnRaises: bool, fault: Fault)

  const NO_INPUTS := Inputs(0, 0, 0, PollPending, CancelAccepted, false, NoFault)

  datatype Label =
    | CreateRun(ring: IdentityKeyring, owner: Owner, runId: RunId, now: Time, checkNow: Time, laterNow: Time)
    | CancelRun(tenant: TenantId, runId: RunId, requestedAt: Time, now: Time)
    | ScanPage(from: nat, now: Time, limit: nat)
    | Resume(i: nat, x: Inputs)
    | Crash(i: nat)
    | CallStarts(k: nat)
    | CallFinishes(k: nat)

  // ---------------------------------------------------------------- create

  /** The three proofs and the proposed record of `create_run`. */
  function Propose(p: Params, ring: IdentityKeyring, o: Owner, runId: RunId, now: Time)
    : Result<AdmissionCommand, Error>
  {
    match Prove(p.mac, ring, o.tenant, IdempotencyKind, o.key)
    case Err(e) => Err(e)
    case Ok(idempotency) =>
      match Prove(p.mac, ring, o.tenant, DesktopKind, o.desktop)
      case Err(e) => Err(e)
      case Ok(desktop) =>
        match Prove(p.mac, ring, o.tenant, TaskKind, o.task)
        case Err(e) => Err(e)
        case Ok(task) =>
          match Reserve(runId, o.tenant, idempotency.mint, desktop.mint, task.mint, now, now + p.runTimeout)
          case Err(e) => Err(e)
          case Ok(proposed) => Ok(AdmissionCommand(proposed, idempotency, desktop, task))
  }

  predicate UsableRing(p: Params, ring: IdentityKeyring) {
    ValidKeyring(ring) && FromCatalogue(ring, p.secrets)
  }

  /** A create that admission accepted goes on from the admitted or replayed record. */
  function Entered(p: Params, l: Label, r: RunRecord, intent: IntentState): ServiceAwait
    requires l.CreateRun?
  {
    AfterAdmission(p.policy, r, intent, l.owner.desktop, l.owner.task, l.checkNow, l.laterNow)
  }

  function ApplyCreate(p: Params, w: World, l: Label): World
    requires l.CreateRun? && Shape(w.store)
  {
    // The run id factory never repeats an id, and key ids are never reused for another secret.
    if l.runId in w.store.runs || !UsableRing(p, l.ring) then w
    else
      match Propose(p, l.ring, l.owner, l.runId, l.now)
      case Err(_) => w
      case Ok(c) =>
        var (store, answer) := Admit(w.store, p.quota, c);
        match answer
        case Admitted(r) =>
          w.(store := store, owners := w.owners[l.runId := l.owner],
             procs := w.procs + [Request(Entered(p, l, r, Pending))])
        case Replayed(r, intent) =>
          w.(procs := w.procs + [Request(Entered(p, l, r, intent))])
        case Denied(_) => w
        case KeyUnavailable => w
  }

  function ApplyCancel(p: Params, w: World, l: Label): World
    requires l.CancelRun?
  {
    if l.runId in w.store.runs && w.store.runs[l.runId].tenantId == l.tenant then
      w.(procs := w.procs + [Request(AfterCancelRead(p.policy, w.store.runs[l.runId], l.requestedAt, l.now))])
    else w
  }

  function ApplyScan(p: Params, w: World, l: Label): World
    requires l.ScanPage? && Shape(w.store)
  {
    var (store, page) := ClaimPage(w.store, l.from, l.now, l.limit, l.now + p.policy.leaseDuration);
    w.(store := store,
       procs := w.procs + seq(|page.claims|, k requires 0 <= k < |page.claims| => Leased(page.claims[k])))
  }

  // ---------------------------------------------------------------- one await of one activity

  function WithProc(w: World, i: nat, q: Proc): World
    requires i < |w.procs|
  {
    w.(procs := w.procs[i := q])
  }

  function CasThen(w: World, i: nat, current: RunRecord, n: RunRecord, won: Proc, lost: Proc): World
    requires i < |w.procs|
  {
    if n.runId == current.runId && VersionCurrent(w.store, current) then
      WithProc(w.(store := Write(w.store, n)), i, won)
    else
      WithProc(w, i, lost)
  }

  /** The last write of a request, after which it answers, with an error if the call raised. */
  function LastWrite(w: World, i: nat, r: RunRecord, n: RunRecord, x: Inputs): World
    requires i < |w.procs|
  {
    if x.fault.FailsBeforeWrite? then WithProc(w, i, Request(Answered))
    else CasThen(w, i, r, n, Request(Answered), Request(Answered))
  }

  function ResumeRequest(w: World, i: nat, a: ServiceAwait, x: Inputs): World
    requires i < |w.procs| && Shape(w.store)
  {
    match a
    case Answered => w
    case Failed500(_) => w
    case AtExpiryWrite(r, n) => LastWrite(w, i, r, n, x)
    case AtAmbiguousWrite(r, n) => LastWrite(w, i, r, n, x)
    case AtCancelWrite(r, n) => LastWrite(w, i, r, n, x)
    case AtClaimDispatch(r, intent, now, at, desktop, task) =>
      if x.fault.FailsBeforeWrite? then WithProc(w, i, Request(Answered))
      else
        var (store, won) := ClaimDispatch(w.store, r, intent, now, at);
        var learned := if x.fault.FailsAfterWrite? then None else won;
        var w' := WithProc(w.(store := store), i, Request(AfterClaimDispatch(learned, desktop, task)));
        if won.Some? then w'.(winners := w.winners[r.runId := i]) else w'
    case AtSpawn(r, desktop, task) =>
      var call := ProviderCall(r.runId, r.tenantId, desktop, task, NotStarted);
      var id := if x.spawnRaises then None else Some(|w.calls|);
      WithProc(w.(calls := w.calls + [call]), i, Request(AfterSpawn(r, id, x.now, x.laterNow)))
    case AtCallWrite(r, n) =>
      var lost := Request(AfterCallWrite(r, false, x.now));
      if x.fault.FailsBeforeWrite? then WithProc(w, i, lost)
      else CasThen(w, i, r, n, if x.fault.FailsAfterWrite? then lost else Request(AfterCallWrite(r, true, x.now)), lost)
  }

  /** The one assumption about the provider: it says a call is over only when it is. */
  predicate Truthful(w: World, c: ReconcileClaim, o: PollOutcome) {
    SaysFinished(o) ==>
      c.record.callId.Some? && c.record.callId.value < |w.calls| && w.calls[c.record.callId.value].phase.Finished?
  }

  function ResumeReconciler(p: Params, w: World, i: nat, lease: ReconcileClaim, a: Await, x: Inputs): World
    requires i < |w.procs|
  {
    match a
    case Returned => WithProc(w.(store := ReleaseLease(w.store, lease).0), i, Done)
    case Raised(_) => WithProc(w.(store := ReleaseLease(w.store, lease).0), i, Done)
    case AtPoll(c) =>
      if WellFormed(c.record) && Truthful(w, c, x.poll) then
        WithProc(w, i, Reconciling(lease, AfterPoll(p.policy, c, x.poll, x.now)))
      else w
    case AtCancellationPoll(c) =>
      if WellFormed(c.record) && Truthful(w, c, x.poll) then
        WithProc(w, i, Reconciling(lease, AfterCancellationPoll(p.policy, c, x.poll, x.now, x.laterNow)))
      else w
    case AtCancel(c) =>
      if WellFormed(c.record) && c.record.cancelDeadlineAt.Some? then
        WithProc(w, i, Reconciling(lease, AfterCancel(p.policy, c, x.cancel, x.now)))
      else w
    case AtCommit(c, n, after) =>
      var wins := !x.fault.FailsBeforeWrite? && n.runId == c.record.runId && ClaimCurrent(w.store, c, x.storeNow);
      var w' := if wins then w.(store := Write(w.store, n)) else w;
      if !x.fault.NoFault? then WithProc(w', i, Reconciling(lease, Raised(StoreError)))
      else WithProc(w', i, Reconciling(lease, AfterCommit(c, if wins then Some(n) else None, after, x.now)))
  }

  function ApplyResume(p: Params, w: World, l: Label): World
    requires l.Resume? && Shape(w.store)
  {
    if l.i >= |w.procs| then w
    else match w.procs[l.i]
      case Request(a) => ResumeRequest(w, l.i, a, l.x)
      case Leased(c) => WithProc(w, l.i, Reconciling(c, ReconcileClaimed(p.policy, c, l.x.now)))
      case Reconciling(lease, a) => ResumeReconciler(p, w, l.i, lease, a, l.x)
      case Done => w
  }

  function SetPhase(w: World, k: nat, phase: CallPhase): World
    requires k < |w.calls|
  {
    w.(calls := w.calls[k := w.calls[k].(phase := phase)])
  }

  /** One step; a label that does not apply leaves the world as it is. */
  function Apply(p: Params, w: World, l: Label): World
    requires Shape(w.store)
  {
    match l
    case CreateRun(_, _, _, _, _, _) => ApplyCreate(p, w, l)
    case CancelRun(_, _, _, _) => ApplyCancel(p, w, l)
    case ScanPage(_, _, _) => ApplyScan(p, w, l)
    case Resume(_, _) => ApplyResume(p, w, l)
    case Crash(i) => if i < |w.procs| then WithProc(w, i, Done) else w
    case CallStarts(k) => if k < |w.calls| && w.calls[k].phase.NotStarted? then SetPhase(w, k, Live) else w
    case CallFinishes(k) => if k < |w.calls| then SetPhase(w, k, Finished) else w
  }
}
