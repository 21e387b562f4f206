/** A history of every deployment that can admit a run, for what `cancel_run` can answer
    (examples/run_gateway/service.py): "not accepted", together with a run whose cancellation is
    requested. */
module Witness {
  import opened Outcomes
  import opened Domain
  import opened Identity
  import opened Store
  import opened Recovery
  import opened Service
  import opened System
  import opened Safety
  import opened Surroundings
  import opened Requests

  const OWNER := Owner(TenantId([1]), [2], [3], [4])
  const RUN := RunId("r")

  /** A tenant may hold a run, and there is a key to prove its identity with. */
  ghost predicate Admits(p: Params, ring: IdentityKeyring) {
    ValidParams(p) && p.quota > 0 && UsableRing(p, ring)
  }

  lemma ProofsExist(p: Params, ring: IdentityKeyring)
    requires Admits(p, ring)
    ensures ProofsOk(p, ring, OWNER)
  {
    ProveIsSound(p.mac, ring, p.secrets, OWNER.tenant, IdempotencyKind, OWNER.key);
    ProveIsSound(p.mac, ring, p.secrets, OWNER.tenant, DesktopKind, OWNER.desktop);
    ProveIsSound(p.mac, ring, p.secrets, OWNER.tenant, TaskKind, OWNER.task);
    assert Power256(8) > 1 by { assert Power256(8) == 256 * Power256(7) && Power256(7) >= 1; }
  }

  const SECOND: Time := 1_000_000

  /** The default policy, in a deployment with one key. */
  const POLICY := RecoveryPolicy(100, 10, 15 * SECOND, 5 * SECOND, 120 * SECOND, 8, 5 * SECOND, 60 * SECOND, 6,
                                 300 * SECOND, 55 * SECOND, 30 * SECOND)

  lemma DefaultAdmits(key: IdentityKey)
    ensures Admits(Params(POLICY, 1, 3600 * SECOND, (secret, message) => message, map[key.keyId := key.secret]),
                   IdentityKeyring(key, []))
  {
    var mac: Mac := (secret, message) => message;
    assert forall k: Secret, a: Bytes, b: Bytes :: mac(k, a) == mac(k, b) ==> a == b;
    assert Keys(IdentityKeyring(key, [])) == [key];
  }

  // ---------------------------------------------------------------- the history, step by step

  function Create(ring: IdentityKeyring): Label {
    CreateRun(ring, OWNER, RUN, 0, 0, 0)
  }

  const CANCEL := CancelRun(OWNER.tenant, RUN, 0, 0)
  const GO_ON := Resume(0, NO_INPUTS)

  /** Created; cancelled while reserved, with the write still to come. */
  function UntilRead(ring: IdentityKeyring): seq<Label> {
    [Create(ring)] + [CANCEL]
  }

  function UntilClaimed(ring: IdentityKeyring): seq<Label> {
    UntilRead(ring) + [GO_ON]
  }

  /** Claimed, spawned and running. */
  function UntilRunning(ring: IdentityKeyring): seq<Label> {
    UntilClaimed(ring) + [GO_ON] + [GO_ON]
  }

  /** Cancelled again, this time with its write. */
  function UntilCancelled(ring: IdentityKeyring): seq<Label> {
    UntilRunning(ring) + [CANCEL] + [Resume(2, NO_INPUTS)]
  }

  function Proof(p: Params, ring: IdentityKeyring, kind: IdentityKind, value: Bytes): KeyedDigest {
    match Prove(p.mac, ring, OWNER.tenant, kind, value)
    case Ok(proof) => proof.mint
    case Err(_) => KeyedDigest(ring.active.keyId, [])
  }

  function R0(p: Params, ring: IdentityKeyring): RunRecord {
    RunRecord(RUN, OWNER.tenant, Proof(p, ring, IdempotencyKind, OWNER.key), Proof(p, ring, DesktopKind, OWNER.desktop),
              Proof(p, ring, TaskKind, OWNER.task), Reserved, 0, 0, p.runTimeout, 0, 0, None, Some(0), 0, 0,
              None, None, None, None, None)
  }

  function StaleAt(p: Params): Time {
    Min(p.runTimeout, p.policy.dispatchStaleAfter)
  }

  function R1(p: Params, ring: IdentityKeyring): RunRecord {
    R0(p, ring).(state := Dispatching, version := 1, reconcileAt := Some(StaleAt(p)))
  }

  function R2(p: Params, ring: IdentityKeyring): RunRecord {
    R1(p, ring).(state := Running, version := 2, callId := Some(0), reconcileAt := Some(0))
  }

  function R3(p: Params, ring: IdentityKeyring): RunRecord {
    R2(p, ring).(state := CancellationRequested, version := 3, cancelRequestedAt := Some(0),
                 cancelDeadlineAt := Some(p.policy.cancellationGrace))
  }

  /** What the first cancel wants to write. */
  function C0(p: Params, ring: IdentityKeyring): RunRecord {
    R0(p, ring).(state := Cancelled, version := 1, reconcileAt := None,
                 terminalReason := Some(CancelledBeforeDispatch), terminalAt := Some(0))
  }

  /** The only run, and nobody reconciles it. */
  predicate Stored(w: World, r: RunRecord) {
    w.store.order == [RUN] && RUN in w.store.runs && w.store.runs[RUN] == r && RUN !in w.store.leases
  }

  function ClaimingProc(p: Params, ring: IdentityKeyring): Proc {
    Request(AtClaimDispatch(R0(p, ring), Pending, 0, StaleAt(p), OWNER.desktop, OWNER.task))
  }

  function SpawningProc(p: Params, ring: IdentityKeyring): Proc {
    Request(AtSpawn(R1(p, ring), OWNER.desktop, OWNER.task))
  }

  function StoringProc(p: Params, ring: IdentityKeyring): Proc {
    Request(AtCallWrite(R1(p, ring), R2(p, ring)))
  }

  function StaleProc(p: Params, ring: IdentityKeyring): Proc {
    Request(AtCancelWrite(R0(p, ring), C0(p, ring)))
  }

  lemma Created(p: Params, ring: IdentityKeyring)
    requires Admits(p, ring) && ProofsOk(p, ring, OWNER)
    ensures var w := Apply(p, START, Create(ring));
            Stored(w, R0(p, ring)) && w.procs == [ClaimingProc(p, ring)] && w.calls == [] && RUN in w.store.intents
            && w.store.intents[RUN].Pending?
  {
  }

  lemma CancelReadsReserved(p: Params, ring: IdentityKeyring, w: World)
    requires Admits(p, ring) && Shape(w.store) && Stored(w, R0(p, ring))
    ensures Apply(p, w, CANCEL) == w.(procs := w.procs + [StaleProc(p, ring)])
  {
    hide Proof;
  }

  lemma Claims(p: Params, ring: IdentityKeyring, w: World)
    requires Admits(p, ring) && Shape(w.store) && Stored(w, R0(p, ring))
    requires |w.procs| == 2 && w.procs[0] == ClaimingProc(p, ring)
    requires RUN in w.store.intents && w.store.intents[RUN].Pending?
    ensures var v := Apply(p, w, GO_ON);
            Stored(v, R1(p, ring)) && v.calls == w.calls && v.procs == [SpawningProc(p, ring), w.procs[1]]
  {
    hide Proof;
  }

  lemma Spawns(p: Params, ring: IdentityKeyring, w: World)
    requires Admits(p, ring) && Shape(w.store)
    requires |w.procs| == 2 && w.procs[0] == SpawningProc(p, ring) && w.calls == []
    ensures var v := Apply(p, w, GO_ON); v.store == w.store && v.procs == [StoringProc(p, ring), w.procs[1]]
  {
    hide Proof;
  }

  lemma StoresIdentity(p: Params, ring: IdentityKeyring, w: World)
    requires Shape(w.store) && Stored(w, R1(p, ring)) && |w.procs| == 2 && w.procs[0] == StoringProc(p, ring)
    ensures var v := Apply(p, w, GO_ON); Stored(v, R2(p, ring)) && v.procs == [Request(Answered), w.procs[1]]
  {
    hide Proof;
  }

  lemma CancelReadsRunning(p: Params, ring: IdentityKeyring, w: World)
    requires Admits(p, ring) && Shape(w.store) && Stored(w, R2(p, ring))
    ensures Apply(p, w, CANCEL) == w.(procs := w.procs + [Request(AtCancelWrite(R2(p, ring), R3(p, ring)))])
  {
    hide Proof;
  }

  lemma SecondCancelWrites(p: Params, ring: IdentityKeyring, w: World)
    requires Shape(w.store) && Stored(w, R2(p, ring))
    requires |w.procs| == 3 && w.procs[2] == Request(AtCancelWrite(R2(p, ring), R3(p, ring)))
    ensures var v := Apply(p, w, Resume(2, NO_INPUTS));
            Stored(v, R3(p, ring)) && |v.procs| == 3 && v.procs[1] == w.procs[1]
  {
    hide Proof;
  }

  lemma HistoryBegins(p: Params, ring: IdentityKeyring)
    requires Admits(p, ring)
    ensures Stored(WorldAfter(p, [Create(ring)]), R0(p, ring))
    ensures var w := WorldAfter(p, UntilClaimed(ring));
            Stored(w, R1(p, ring)) && w.calls == [] && w.procs == [SpawningProc(p, ring), StaleProc(p, ring)]
  {
    hide Apply, R0, R1, ProofsOk;
    ProofsExist(p, ring);
    assert [] + [Create(ring)] == [Create(ring)];
    AfterStep(p, [], Create(ring));
    Created(p, ring);
    AfterStep(p, [Create(ring)], CANCEL);
    CancelReadsReserved(p, ring, WorldAfter(p, [Create(ring)]));
    AfterStep(p, UntilRead(ring), GO_ON);
    Claims(p, ring, WorldAfter(p, UntilRead(ring)));
  }

  lemma HistoryGoesOn(p: Params, ring: IdentityKeyring)
    requires Admits(p, ring)
    ensures var w := WorldAfter(p, UntilRunning(ring));
            Stored(w, R2(p, ring)) && w.procs == [Request(Answered), StaleProc(p, ring)]
  {
    hide Apply, R0, R1, R2;
    HistoryBegins(p, ring);
    AfterStep(p, UntilClaimed(ring), GO_ON);
    Spawns(p, ring, WorldAfter(p, UntilClaimed(ring)));
    AfterStep(p, UntilClaimed(ring) + [GO_ON], GO_ON);
    StoresIdentity(p, ring, WorldAfter(p, UntilClaimed(ring) + [GO_ON]));
  }

  /** In the end the run's cancellation is requested, and the first cancel's write is still to come. */
  lemma HistoryEnds(p: Params, ring: IdentityKeyring)
    requires Admits(p, ring)
    ensures var w := WorldAfter(p, UntilCancelled(ring));
            Stored(w, R3(p, ring)) && |w.procs| == 3 && w.procs[1] == StaleProc(p, ring)
  {
    hide Apply, R0, R1, R2, R3;
    HistoryGoesOn(p, ring);
    AfterStep(p, UntilRunning(ring), CANCEL);
    CancelReadsRunning(p, ring, WorldAfter(p, UntilRunning(ring)));
    AfterStep(p, UntilRunning(ring) + [CANCEL], Resume(2, NO_INPUTS));
    SecondCancelWrites(p, ring, WorldAfter(p, UntilRunning(ring) + [CANCEL]));
  }

  // ---------------------------------------------------------------- the first cancel

  /** The log of the first cancel, on the tables it read and on those its write found. */
  function CancelEvents(p: Params, ring: IdentityKeyring, s: StoreState, t: StoreState): seq<Event> {
    [ReadDone(OWNER.tenant, RUN, Returns(Some(R0(p, ring))), s), ClockRead(0),
     WriteSent(R0(p, ring), C0(p, ring), CasLost, t, t), ReadDone(OWNER.tenant, RUN, Returns(Some(R3(p, ring))), t)]
  }

  lemma CancelEventsFit(p: Params, ring: IdentityKeyring, s: StoreState, t: StoreState)
    requires Admits(p, ring)
    requires RUN in s.runs && s.runs[RUN] == R0(p, ring) && RUN in t.runs && t.runs[RUN] == R3(p, ring)
    ensures var es := CancelEvents(p, ring, s, t);
            AllGenuine(p.quota, es) && CancelRunLog(p.policy, OWNER.tenant, RUN, es, Cancelling(R3(p, ring), false))
  {
    hide Proof;
    var es := CancelEvents(p, ring, s, t);
    forall k {:trigger Genuine(p.quota, es[k])} | 0 <= k < |es| ensures Genuine(p.quota, es[k]) {
      assert k == 0 || k == 1 || k == 2 || k == 3;
    }
    assert es[..1][0] == es[0];
    assert AfterCancelRead(p.policy, R0(p, ring), 0, 0) == AtCancelWrite(R0(p, ring), C0(p, ring));
    assert es[2..] == [es[2]] + [es[3]];
    Goes(AtCancelWrite(R0(p, ring), C0(p, ring)), [es[2]], [es[3]], Cancelling(R3(p, ring), false));
  }

  /** So the first cancel reads a reservation, loses its write to what has happened since, and replies
      that it was not accepted, with a run whose cancellation is requested. */
  lemma NotAcceptedYetRequested(p: Params, ring: IdentityKeyring)
    requires Admits(p, ring)
    ensures var s, w := WorldAfter(p, [Create(ring)]).store, WorldAfter(p, UntilCancelled(ring));
            var es := CancelEvents(p, ring, s, w.store);
      && |w.procs| > 1 && w.procs[1] == Request(AtCancelWrite(R0(p, ring), C0(p, ring)))
      && AllGenuine(p.quota, es) && R3(p, ring).state.CancellationRequested?
      && CancelRunLog(p.policy, OWNER.tenant, RUN, es, Cancelling(R3(p, ring), false))
  {
    hide Apply, R0;
    HistoryBegins(p, ring);
    HistoryEnds(p, ring);
    CancelEventsFit(p, ring, WorldAfter(p, [Create(ring)]).store, WorldAfter(p, UntilCancelled(ring)).store);
  }
}
