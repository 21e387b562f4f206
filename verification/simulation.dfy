/** Whatever the two classes do is a run of the interleaved system, piece by piece: each piece of their
    logs, made on the tables of a world, is a step of the system from that world to the tables after it.
    composition.dfy puts the pieces of a whole pass or request together, so the theorems about all
    histories are about the classes.

    The system's assumptions about the provider appear here as conditions on its answers: it says a
    call is over only when it is, and names a new call by its position in its own list. */
module Simulation {
  import opened Outcomes
  import opened Domain
  import opened Identity
  import opened Store
  import opened Recovery
  import opened Service
  import opened System
  import opened Invariant
  import opened Safety
  import opened Histories
  import opened Surroundings
  import opened Passes
  import opened Requests

  /** The event was made on the tables of this world. */
  predicate MadeOn(e: Event, w: World) {
    TablesBefore(e, w.store) == w.store
  }

  function FaultOf(raised: bool, before: StoreState, after: StoreState): Fault {
    if !raised then NoFault else if after == before then FailsBeforeWrite else FailsAfterWrite
  }

  // ---------------------------------------------------------------- the reconciler

  /** What the system's step is given, read off the log. */
  function PassInputs(a: Await, es: seq<Event>): Inputs
    requires Makes(a, es)
  {
    var x := Heard(a, es);
    var commit := es[0].CommitSent?;
    Inputs(x.now, x.laterNow, if commit then es[0].storeNow else 0, x.poll, x.cancel, false,
           if commit then FaultOf(es[0].cas.CasRaised?, es[0].before, es[0].after) else NoFault)
  }

  /** What a logged commit did to the tables. */
  lemma SystemCommits(quota: nat, w: World, e: Event)
    requires e.CommitSent? && Genuine(quota, e) && MadeOn(e, w)
    ensures e.cas.CasStored? ==> ClaimCurrent(w.store, e.claim, e.storeNow) && e.after == Write(w.store, e.next)
    ensures e.cas.CasLost? ==> !ClaimCurrent(w.store, e.claim, e.storeNow) && e.after == w.store
    ensures e.cas.CasRaised? && e.after != w.store ==>
              ClaimCurrent(w.store, e.claim, e.storeNow) && e.after == Write(w.store, e.next)
  {
  }

  /** One await of a pass: the same next await, and the same tables. */
  lemma SystemTakesPass(p: Params, w: World, i: nat, lease: ReconcileClaim, a: Await, es: seq<Event>)
    requires Shape(w.store) && i < |w.procs| && w.procs[i] == Reconciling(lease, a)
    requires AwaitOk(p.policy, a) && Makes(a, es) && Genuine(p.quota, es[0]) && MadeOn(es[0], w)
    requires es[0].Polled? ==> Truthful(w, a.claim, PollAnswer(es[0].outcome))
    ensures Apply(p, w, Resume(i, PassInputs(a, es))) ==
            WithProc(w.(store := TablesAfter(es[0], w.store)), i,
                     Reconciling(lease, NextAwait(p.policy, a, Heard(a, es))))
  {
    hide AfterPoll, AfterCancellationPoll, AfterCancel, AfterCommit;
    match a
    case AtPoll(_) =>
    case AtCancellationPoll(_) =>
    case AtCancel(_) =>
    case AtCommit(_, _, _) => SystemCommits(p.quota, w, es[0]);
  }

  /** A pass begins with the claim as the page leased it. */
  lemma SystemBegins(p: Params, w: World, i: nat, c: ReconcileClaim, now: Time)
    requires Shape(w.store) && i < |w.procs| && w.procs[i] == Leased(c)
    ensures Apply(p, w, Resume(i, NO_INPUTS.(now := now))) ==
            WithProc(w, i, Reconciling(c, ReconcileClaimed(p.policy, c, now)))
  {
  }

  /** A page: its claims become activities, each waiting to be looked at. */
  lemma SystemScans(p: Params, w: World, e: Event)
    requires Shape(w.store) && e.PageTaken? && Genuine(p.quota, e) && MadeOn(e, w)
    requires e.leaseDuration == p.policy.leaseDuration
    ensures var v := Apply(p, w, ScanPage(From(e.cursor), e.scanNow, e.limit));
            if e.page.Returns? then
              && v.store == e.after && |v.procs| == |w.procs| + |e.page.value.claims| && w.procs <= v.procs
              && forall k :: 0 <= k < |e.page.value.claims| ==> v.procs[|w.procs| + k] == Leased(e.page.value.claims[k])
            else e.after == w.store || e.after == v.store
  {
  }

  /** The release of a lease, after the pass returned or raised. */
  lemma SystemReleases(p: Params, w: World, i: nat, a: Await, e: Event, x: Inputs)
    requires Shape(w.store) && e.LeaseReleased? && Genuine(p.quota, e) && MadeOn(e, w)
    requires i < |w.procs| && w.procs[i] == Reconciling(e.claim, a) && Over(a)
    ensures var v := Apply(p, w, Resume(i, x));
            v.procs[i] == Done && (e.after == v.store || (e.released.Raises? && e.after == Apply(p, w, Crash(i)).store))
  {
  }

  // ---------------------------------------------------------------- the service

  function RequestInputs(a: ServiceAwait, es: seq<Event>): Inputs
    requires Calls(a, es)
  {
    match a
    case AtClaimDispatch(_, _, _, _, _, _) =>
      NO_INPUTS.(fault := FaultOf(es[0].won.Raises?, es[0].before, es[0].after))
    case AtSpawn(_, _, _) =>
      NO_INPUTS.(spawnRaises := es[0].spawned.Raises?, now := es[1].now, laterNow := es[Takes(a, es) - 1].now)
    case AtCallWrite(_, _) =>
      NO_INPUTS.(now := if es[0].cas.CasStored? then 0 else es[1].now,
                 fault := FaultOf(es[0].cas.CasRaised?, es[0].before, es[0].after))
    case AtExpiryWrite(_, _) => NO_INPUTS.(fault := FaultOf(es[0].cas.CasRaised?, es[0].before, es[0].after))
    case AtAmbiguousWrite(_, _) => NO_INPUTS.(fault := FaultOf(es[0].cas.CasRaised?, es[0].before, es[0].after))
    case AtCancelWrite(_, _) => NO_INPUTS.(fault := FaultOf(es[0].cas.CasRaised?, es[0].before, es[0].after))
  }

  /** What a logged write did to the tables. */
  lemma SystemWrites(quota: nat, w: World, e: Event)
    requires e.WriteSent? && Genuine(quota, e) && MadeOn(e, w)
    ensures e.cas.CasStored? ==> VersionCurrent(w.store, e.current) && e.after == Write(w.store, e.next)
    ensures e.cas.CasLost? ==> !VersionCurrent(w.store, e.current) && e.after == w.store
    ensures e.cas.CasRaised? && e.after != w.store ==>
              VersionCurrent(w.store, e.current) && e.after == Write(w.store, e.next)
  {
  }

  /** The world after one await of a request: its tables, its next await, and any call it made. */
  predicate Took(v: World, w: World, i: nat, a: ServiceAwait, es: seq<Event>)
    requires i < |w.procs| && Calls(a, es)
  {
    && v.store == TablesAfter(es[0], w.store) && v.procs == w.procs[i := Request(Next(a, es))]
    && v.calls == w.calls + if a.AtSpawn?
         then [ProviderCall(a.record.runId, a.record.tenantId, a.desktop, a.task, NotStarted)] else []
  }

  lemma WriteTook(quota: nat, w: World, i: nat, a: ServiceAwait, es: seq<Event>)
    requires Shape(w.store) && i < |w.procs| && Calls(a, es) && Genuine(quota, es[0]) && MadeOn(es[0], w)
    requires !a.AtClaimDispatch? && !a.AtSpawn?
    ensures Took(ResumeRequest(w, i, a, RequestInputs(a, es)), w, i, a, es)
  {
    SystemWrites(quota, w, es[0]);
    assert w.calls + [] == w.calls;
  }

  lemma ClaimTook(quota: nat, w: World, i: nat, a: ServiceAwait, es: seq<Event>)
    requires Shape(w.store) && i < |w.procs| && Calls(a, es) && Genuine(quota, es[0]) && MadeOn(es[0], w)
    requires a.AtClaimDispatch?
    ensures Took(ResumeRequest(w, i, a, RequestInputs(a, es)), w, i, a, es)
  {
    assert w.calls + [] == w.calls;
  }

  /** One await of a request: the same next await, and the same tables. */
  lemma SystemTakesRequest(p: Params, w: World, i: nat, a: ServiceAwait, es: seq<Event>)
    requires Shape(w.store) && i < |w.procs| && w.procs[i] == Request(a)
    requires Calls(a, es) && Genuine(p.quota, es[0]) && MadeOn(es[0], w)
    requires es[0].SpawnSent? && es[0].spawned.Returns? ==> es[0].spawned.value == |w.calls|
    ensures Took(Apply(p, w, Resume(i, RequestInputs(a, es))), w, i, a, es)
  {
    if a.AtClaimDispatch? {
      ClaimTook(p.quota, w, i, a, es);
    } else if !a.AtSpawn? {
      WriteTook(p.quota, w, i, a, es);
    }
  }

  /** The label of a create, from the clock readings around its admission. */
  function CreateLabel(ring: IdentityKeyring, o: Owner, runId: RunId, es: seq<Event>): Label
    requires |es| >= 2 && es[0].ClockRead?
  {
    var entered := |es| >= 4 && es[2].ClockRead? && es[3].ClockRead?;
    CreateRun(ring, o, runId, es[0].now, if entered then es[2].now else 0, if entered then es[3].now else 0)
  }

  /** Where a request goes on after admission. */
  function Started(p: Params, o: Owner, es: seq<Event>): seq<Proc>
    requires |es| >= 2 && es[1].AdmitSent?
  {
    var entered := |es| >= 4 && es[2].ClockRead? && es[3].ClockRead?;
    var checkNow, now := if entered then es[2].now else 0, if entered then es[3].now else 0;
    match es[1].verdict
    case Returns(Admitted(r)) => [Request(AfterAdmission(p.policy, r, Pending, o.desktop, o.task, checkNow, now))]
    case Returns(Replayed(r, intent)) =>
      [Request(AfterAdmission(p.policy, r, intent, o.desktop, o.task, checkNow, now))]
    case _ => []
  }

  /** A create up to its admission: the same tables, and the same first await.  An admission that raised
      left the tables alone, or is that of a request that crashes right after it. */
  lemma SystemAdmits(p: Params, w: World, ring: IdentityKeyring, o: Owner, runId: RunId, es: seq<Event>)
    requires Shape(w.store) && UsableRing(p, ring) && |es| >= 2 && es[0].ClockRead? && es[1].AdmitSent?
    requires Propose(p, ring, o, runId, es[0].now) == Ok(es[1].command)
    requires Genuine(p.quota, es[1]) && MadeOn(es[1], w)
    ensures var v := Apply(p, w, CreateLabel(ring, o, runId, es));
            if es[1].verdict.Returns? then v.store == es[1].after && v.procs == w.procs + Started(p, o, es)
            else es[1].after == w.store || es[1].after == v.store
  {
    assert es[1].command.proposed.runId == runId;
    assert w.procs + [] == w.procs;
  }

  /** A cancel up to its read, or up to its write. */
  lemma SystemCancels(p: Params, w: World, tenant: TenantId, runId: RunId, es: seq<Event>, requestedAt: Time, now: Time)
    requires Shape(w.store) && Reads(es, tenant, runId) && Genuine(p.quota, es[0]) && MadeOn(es[0], w)
    requires es[0].found.Returns?
    ensures Apply(p, w, CancelRun(tenant, runId, requestedAt, now)) ==
            match es[0].found.value
            case None => w
            case Some(r) => w.(procs := w.procs + [Request(AfterCancelRead(p.policy, r, requestedAt, now))])
  {
  }

  // ---------------------------------------------------------------- the other activities

  lemma CasKeepsLeases(w: World, i: nat, c: RunRecord, n: RunRecord, won: Proc, lost: Proc)
    requires i < |w.procs|
    ensures var t := CasThen(w, i, c, n, won, lost).store;
            t.nextToken == w.store.nextToken && t.leases == w.store.leases
  {
  }

  lemma RequestKeepsLeases(w: World, i: nat, a: ServiceAwait, x: Inputs)
    requires Shape(w.store) && i < |w.procs|
    ensures var t := ResumeRequest(w, i, a, x).store; t.nextToken == w.store.nextToken && t.leases == w.store.leases
  {
    hide AfterSpawn, Shape, Transition, CasThen;
    match a
    case Answered =>
    case Failed500(_) =>
    case AtExpiryWrite(c, n) => CasKeepsLeases(w, i, c, n, Request(Answered), Request(Answered));
    case AtAmbiguousWrite(c, n) => CasKeepsLeases(w, i, c, n, Request(Answered), Request(Answered));
    case AtCancelWrite(c, n) => CasKeepsLeases(w, i, c, n, Request(Answered), Request(Answered));
    case AtClaimDispatch(_, _, _, _, _, _) =>
    case AtSpawn(_, _, _) =>
    case AtCallWrite(c, n) =>
      var lost := Request(AfterCallWrite(c, false, x.now));
      var won := if x.fault.FailsAfterWrite? then lost else Request(AfterCallWrite(c, true, x.now));
      CasKeepsLeases(w, i, c, n, won, lost);
  }

  lemma ReconcilerKeepsTokens(p: Params, w: World, i: nat, lease: ReconcileClaim, a: Await, x: Inputs)
    requires i < |w.procs|
    ensures ResumeReconciler(p, w, i, lease, a, x).store.nextToken == w.store.nextToken
  {
    hide AfterPoll, AfterCancellationPoll, AfterCancel, AfterCommit;
  }

  lemma ResumeKeepsTokens(p: Params, w: World, i: nat, x: Inputs)
    requires Shape(w.store)
    ensures ApplyResume(p, w, Resume(i, x)).store.nextToken == w.store.nextToken
  {
    hide ResumeRequest, ResumeReconciler, Shape;
    if i < |w.procs| {
      match w.procs[i]
      case Request(a) => RequestKeepsLeases(w, i, a, x);
      case Leased(_) =>
      case Reconciling(lease, a) => ReconcilerKeepsTokens(p, w, i, lease, a, x);
      case Done =>
    }
  }

  lemma TokensGrow(p: Params, w: World, l: Label)
    requires WorldInv(p, w)
    ensures w.store.nextToken <= Apply(p, w, l).store.nextToken
  {
    hide ApplyResume, WorldInv, Propose, UsableRing;
    match l
    case CreateRun(_, _, _, _, _, _) => ShapeHolds(p, w);
    case CancelRun(_, _, _, _) =>
    case ScanPage(_, _, _) => ScanGrowsTokens(p, w, l);
    case Resume(i, x) => ShapeHolds(p, w); ResumeKeepsTokens(p, w, i, x);
    case Crash(_) =>
    case CallStarts(_) =>
    case CallFinishes(_) =>
  }

  lemma ShapeHolds(p: Params, w: World)
    requires WorldInv(p, w)
    ensures Shape(w.store)
  {
  }

  lemma ScanGrowsTokens(p: Params, w: World, l: Label)
    requires WorldInv(p, w) && l.ScanPage?
    ensures w.store.nextToken <= ApplyScan(p, w, l).store.nextToken
  {
    ClaimPageFrame(w.store, p.quota, l.from, l.now, l.limit, l.now + p.policy.leaseDuration);
  }

  /** Conversely, whatever the other activities of the system do between two events is an interference
      that the methods of both classes were proved for: it meets the whole contract of
      `Environment.Interference`, for any log. */
  lemma SystemInterferes(p: Params, w: World, l: Label, log: seq<Event>)
    requires ValidParams(p) && WorldInv(p, w) && InOrder(log, w.store)
    ensures var t := Apply(p, w, l).store;
            Later(w.store, t) && RecordsOk(p.policy, t) && StoreInv(t, p.quota) && InOrder(log, t)
  {
    hide Apply;
    var v := Apply(p, w, l);
    StepKeepsWorld(p, w, l);
    TokensGrow(p, w, l);
    forall r ensures Kept(w.store, v.store, r) && StoredOk(p.policy, v.store, r) {
      WorldStep(p, w, l, r);
      RunIsOk(p, v, r);
    }
    InOrderLater(log, w.store, v.store);
  }
}
