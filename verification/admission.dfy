/** Admission decides over digests exactly as it would over the plain identities, and keeps the
    invariant. */
module Admission {
  import opened Domain
  import opened Identity
  import opened Store
  import opened Recovery
  import opened Service
  import opened System
  import opened Invariant

  ghost predicate Proposal(p: Params, w: World, ring: IdentityKeyring, o: Owner, runId: RunId, now: Time) {
    && ValidParams(p) && WorldInv(p, w) && UsableRing(p, ring) && runId !in w.store.runs
    && Propose(p, ring, o, runId, now).Ok?
  }

  /** What `create_run` proposes: a fresh reservation bound to the request, under the active key. */
  lemma ProposeIsSound(p: Params, ring: IdentityKeyring, o: Owner, runId: RunId, now: Time)
    requires ValidParams(p) && UsableRing(p, ring) && Propose(p, ring, o, runId, now).Ok?
    ensures var c := Propose(p, ring, o, runId, now).value;
      && ValidCommand(c) && c.proposed.runId == runId && c.proposed.tenantId == o.tenant
      && RecordOk(p.policy, c.proposed) && c.proposed.callId.None? && BoundTo(p, c.proposed, o)
  {
    ProveIsSound(p.mac, ring, p.secrets, o.tenant, IdempotencyKind, o.key);
    ProveIsSound(p.mac, ring, p.secrets, o.tenant, DesktopKind, o.desktop);
    ProveIsSound(p.mac, ring, p.secrets, o.tenant, TaskKind, o.task);
  }

  /** The ring can verify every binding of the record. */
  predicate RingKnows(ring: IdentityKeyring, r: RunRecord) {
    HasKeyId(ring, r.idempotency.keyId) && HasKeyId(ring, r.desktop.keyId) && HasKeyId(ring, r.task.keyId)
  }

  lemma RetainedRun(p: Params, ring: IdentityKeyring, o: Owner, runId: RunId, now: Time, r: RunRecord, ro: Owner)
    requires ValidParams(p) && UsableRing(p, ring) && Propose(p, ring, o, runId, now).Ok?
    requires BoundTo(p, r, ro) && ro.tenant == o.tenant
    ensures var c := Propose(p, ring, o, runId, now).value;
      && (KeysAvailableFor(r, c) <==> RingKnows(ring, r))
      && (RingKnows(ring, r) ==>
            && (Matches(c.idempotency, r.idempotency) <==> ro.key == o.key)
            && (Matches(c.desktop, r.desktop) <==> ro.desktop == o.desktop)
            && (Matches(c.task, r.task) <==> ro.task == o.task))
  {
    ProofMatchesExactly(p.mac, ring, p.secrets, o.tenant, IdempotencyKind, o.key, r.idempotency, ro.tenant,
                        IdempotencyKind, ro.key);
    ProofMatchesExactly(p.mac, ring, p.secrets, o.tenant, DesktopKind, o.desktop, r.desktop, ro.tenant,
                        DesktopKind, ro.desktop);
    ProofMatchesExactly(p.mac, ring, p.secrets, o.tenant, TaskKind, o.task, r.task, ro.tenant, TaskKind, ro.task);
  }

  // ---------------------------------------------------------------- the reference: plain identities

  /** Runs of the requesting tenant, by what they were admitted with. */
  ghost predicate TenantRun(w: World, o: Owner, r: RunId) {
    r in w.store.runs && r in w.owners && w.owners[r].tenant == o.tenant
  }

  ghost predicate RingKnowsTenant(w: World, ring: IdentityKeyring, o: Owner) {
    forall r {:trigger TenantRun(w, o, r)} :: TenantRun(w, o, r) ==> RingKnows(ring, w.store.runs[r])
  }

  ghost predicate SameKey(w: World, o: Owner, r: RunId) {
    TenantRun(w, o, r) && w.owners[r].key == o.key
  }

  ghost predicate HoldsDesktop(w: World, o: Owner, r: RunId) {
    TenantRun(w, o, r) && !IsReleasing(w.store.runs[r].state) && w.owners[r].desktop == o.desktop
  }

  /** The decision over plain identities: key guard, replay, quota, desktop, admission, in that order. */
  ghost function PlainAdmission(p: Params, w: World, ring: IdentityKeyring, o: Owner, n: RunRecord): AdmitResult
    requires Shape(w.store)
  {
    if !RingKnowsTenant(w, ring, o) then KeyUnavailable
    else if exists r :: SameKey(w, o, r) then
      var r :| SameKey(w, o, r);
      if w.owners[r].desktop == o.desktop && w.owners[r].task == o.task
      then Replayed(w.store.runs[r], w.store.intents[r])
      else Denied(IdempotencyConflict)
    else if |Holders(w.store.runs, o.tenant)| >= p.quota then Denied(TenantQuotaExceeded)
    else if exists r :: HoldsDesktop(w, o, r) then Denied(DesktopBusy)
    else Admitted(n)
  }

  lemma TenantRunBound(p: Params, w: World, o: Owner, r: RunId)
    requires WorldInv(p, w) && r in w.store.runs
    ensures r in w.owners && BoundTo(p, w.store.runs[r], w.owners[r])
    ensures TenantRun(w, o, r) <==> w.store.runs[r].tenantId == o.tenant
  {
    assert RunOk(p, w, r) && OwnerOk(p, w, r);
  }

  lemma KeysAgree(p: Params, w: World, ring: IdentityKeyring, o: Owner, runId: RunId, now: Time)
    requires Proposal(p, w, ring, o, runId, now)
    ensures KeysAvailable(w.store, Propose(p, ring, o, runId, now).value) <==> RingKnowsTenant(w, ring, o)
  {
    var c := Propose(p, ring, o, runId, now).value;
    ProposeIsSound(p, ring, o, runId, now);
    forall r | r in w.store.runs ensures KeysAvailableFor(w.store.runs[r], c) <==>
        (TenantRun(w, o, r) ==> RingKnows(ring, w.store.runs[r])) {
      TenantRunBound(p, w, o, r);
      if TenantRun(w, o, r) {
        RetainedRun(p, ring, o, runId, now, w.store.runs[r], w.owners[r]);
      }
    }
    forall r | TenantRun(w, o, r) ensures r in w.store.order { assert EntryOk(w.store, r); }
  }

  lemma ReplayAgrees(p: Params, w: World, ring: IdentityKeyring, o: Owner, runId: RunId, now: Time, r: RunId)
    requires Proposal(p, w, ring, o, runId, now) && RingKnowsTenant(w, ring, o) && r in w.store.runs
    ensures IsReplayOf(w.store.runs[r], Propose(p, ring, o, runId, now).value) <==> SameKey(w, o, r)
    ensures TenantRun(w, o, r) ==>
      var c := Propose(p, ring, o, runId, now).value;
      && (Matches(c.desktop, w.store.runs[r].desktop) <==> w.owners[r].desktop == o.desktop)
      && (Matches(c.task, w.store.runs[r].task) <==> w.owners[r].task == o.task)
  {
    ProposeIsSound(p, ring, o, runId, now);
    TenantRunBound(p, w, o, r);
    if TenantRun(w, o, r) {
      RetainedRun(p, ring, o, runId, now, w.store.runs[r], w.owners[r]);
    }
  }

  /** A digest of another tenant's desktop never matches. */
  lemma ForeignDesktop(p: Params, w: World, ring: IdentityKeyring, o: Owner, runId: RunId, now: Time, r: RunId)
    requires Proposal(p, w, ring, o, runId, now) && r in w.store.runs && !TenantRun(w, o, r)
    ensures !Matches(Propose(p, ring, o, runId, now).value.desktop, w.store.runs[r].desktop)
  {
    TenantRunBound(p, w, o, r);
    var ro := w.owners[r];
    ProofMatchesExactly(p.mac, ring, p.secrets, o.tenant, DesktopKind, o.desktop, w.store.runs[r].desktop, ro.tenant,
          DesktopKind, ro.desktop);
  }

  lemma BusyAgrees(p: Params, w: World, ring: IdentityKeyring, o: Owner, runId: RunId, now: Time)
    requires Proposal(p, w, ring, o, runId, now) && RingKnowsTenant(w, ring, o)
    ensures DesktopIsClaimed(w.store, Propose(p, ring, o, runId, now).value) <==> exists r :: HoldsDesktop(w, o, r)
  {
    var c := Propose(p, ring, o, runId, now).value;
    forall r ensures (r in w.store.claims && Matches(c.desktop, w.store.claims[r])) <==> HoldsDesktop(w, o, r) {
      assert EntryOk(w.store, r);
      if r in w.store.runs {
        if TenantRun(w, o, r) {
          ReplayAgrees(p, w, ring, o, runId, now, r);
        } else {
          ForeignDesktop(p, w, ring, o, runId, now, r);
        }
      }
    }
  }

  lemma SameKeyUnique(p: Params, w: World, o: Owner, r: RunId, q: RunId)
    requires WorldInv(p, w) && SameKey(w, o, r) && SameKey(w, o, q)
    ensures r == q
  {
    assert PairOk(w, r, q);
  }

  /** The reference's choice among runs with the same key is no choice. */
  lemma PlainReplay(p: Params, w: World, ring: IdentityKeyring, o: Owner, n: RunRecord, r: RunId)
    requires WorldInv(p, w) && RingKnowsTenant(w, ring, o) && SameKey(w, o, r)
    ensures PlainAdmission(p, w, ring, o, n) ==
            if w.owners[r].desktop == o.desktop && w.owners[r].task == o.task
            then Replayed(w.store.runs[r], w.store.intents[r])
            else Denied(IdempotencyConflict)
  {
    forall q | SameKey(w, o, q) ensures q == r { SameKeyUnique(p, w, o, q, r); }
  }

  /** Without a replay in the store, no run of the tenant has the key. */
  lemma NoReplay(p: Params, w: World, ring: IdentityKeyring, o: Owner, runId: RunId, now: Time)
    requires Proposal(p, w, ring, o, runId, now) && RingKnowsTenant(w, ring, o)
    requires FindReplay(w.store.order, w.store.runs, Propose(p, ring, o, runId, now).value).None?
    ensures forall r :: !SameKey(w, o, r)
  {
    forall r ensures !SameKey(w, o, r) {
      if r in w.store.runs {
        assert EntryOk(w.store, r);
        ReplayAgrees(p, w, ring, o, runId, now, r);
      }
    }
  }

  /** The transaction over digests decides as the reference over plain identities. */
  lemma AdmissionRefinesPlain(p: Params, w: World, ring: IdentityKeyring, o: Owner, runId: RunId, now: Time)
    requires Proposal(p, w, ring, o, runId, now)
    ensures var c := Propose(p, ring, o, runId, now).value;
            Admit(w.store, p.quota, c).1 == PlainAdmission(p, w, ring, o, c.proposed)
  {
    var c := Propose(p, ring, o, runId, now).value;
    KeysAgree(p, w, ring, o, runId, now);
    ProposeIsSound(p, ring, o, runId, now);
    if RingKnowsTenant(w, ring, o) {
      var found := FindReplay(w.store.order, w.store.runs, c);
      if found.Some? {
        ReplayAgrees(p, w, ring, o, runId, now, found.value);
        PlainReplay(p, w, ring, o, c.proposed, found.value);
      } else {
        NoReplay(p, w, ring, o, runId, now);
        BusyAgrees(p, w, ring, o, runId, now);
      }
    }
  }

  /** Re-sending a create gives back the run it created, whatever has happened since and whichever
      keys are active now, and changes nothing; only a ring that has lost a retained key refuses. */
  lemma ResendReplays(p: Params, w: World, ring: IdentityKeyring, o: Owner, runId: RunId, now: Time, r: RunId)
    requires Proposal(p, w, ring, o, runId, now)
    requires r in w.store.runs && r in w.owners && w.owners[r] == o
    ensures Admit(w.store, p.quota, Propose(p, ring, o, runId, now).value) ==
            (w.store, if RingKnowsTenant(w, ring, o) then Replayed(w.store.runs[r], w.store.intents[r])
                      else KeyUnavailable)
  {
    var c := Propose(p, ring, o, runId, now).value;
    ProposeIsSound(p, ring, o, runId, now);
    AdmitKeepsInv(w.store, p.quota, c);
    AdmissionRefinesPlain(p, w, ring, o, runId, now);
    assert SameKey(w, o, r);
    if RingKnowsTenant(w, ring, o) {
      forall q | SameKey(w, o, q) ensures q == r { SameKeyUnique(p, w, o, q, r); }
    }
  }

  // ---------------------------------------------------------------- the create step keeps the invariant

  function AfterInsert(w: World, n: RunRecord, o: Owner, q: Proc): World {
    w.(store := Insert(w.store, n), owners := w.owners[n.runId := o], procs := w.procs + [q])
  }

  /** The new run shares no key with its tenant's runs and no desktop with those still holding one. */
  ghost predicate Separate(w: World, o: Owner) {
    && (forall r :: !SameKey(w, o, r))
    && (forall r :: !HoldsDesktop(w, o, r))
  }

  ghost predicate Fresh(p: Params, w: World, n: RunRecord, o: Owner) {
    && n.runId !in w.store.runs && n.state.Reserved? && RecordOk(p.policy, n) && n.callId.None?
    && n.tenantId == o.tenant
  }

  lemma InsertRunOk(p: Params, w: World, n: RunRecord, o: Owner, q: Proc, id: RunId)
    requires Fresh(p, w, n, o) && RunOk(p, w, id) && RunOk(p, w, n.runId) && EntryOk(w.store, n.runId)
    ensures RunOk(p, AfterInsert(w, n, o, q), id)
  {
  }

  lemma InsertPairOk(p: Params, w: World, n: RunRecord, o: Owner, q: Proc, a: RunId, b: RunId)
    requires Fresh(p, w, n, o) && Separate(w, o) && PairOk(w, a, b)
    requires RunOk(p, w, a) && RunOk(p, w, b) && EntryOk(w.store, a) && EntryOk(w.store, b)
    ensures PairOk(AfterInsert(w, n, o, q), a, b)
  {
    assert !SameKey(w, o, a) && !SameKey(w, o, b) && !HoldsDesktop(w, o, a) && !HoldsDesktop(w, o, b);
  }

  lemma InsertEvolves(p: Params, w: World, n: RunRecord, o: Owner, q: Proc)
    requires Fresh(p, w, n, o) && RunOk(p, w, n.runId) && EntryOk(w.store, n.runId)
    ensures Evolves(w, AfterInsert(w, n, o, q))
  {
  }

  /** Whoever was active before the insert stays in order. */
  lemma InsertProcsOk(p: Params, w: World, n: RunRecord, o: Owner, q: Proc)
    requires ProcsOk(p, w) && Evolves(w, AfterInsert(w, n, o, q))
    requires ProcOk(p, AfterInsert(w, n, o, q), |w.procs|, q)
    ensures ProcsOk(p, AfterInsert(w, n, o, q))
  {
    var v := AfterInsert(w, n, o, q);
    forall j | 0 <= j < |v.procs| ensures ProcOk(p, v, j, v.procs[j]) {
      if j < |w.procs| {
        assert ProcOk(p, w, j, w.procs[j]);
        ProcStays(p, w, v, j, w.procs[j]);
      }
    }
  }

  lemma InsertPairsOk(p: Params, w: World, n: RunRecord, o: Owner, q: Proc)
    requires WorldInv(p, w) && Fresh(p, w, n, o) && Separate(w, o)
    ensures PairsOk(AfterInsert(w, n, o, q))
  {
    forall a, b ensures PairOk(AfterInsert(w, n, o, q), a, b) {
      assert PairOk(w, a, b) && RunOk(p, w, a) && RunOk(p, w, b) && EntryOk(w.store, a) && EntryOk(w.store, b);
      InsertPairOk(p, w, n, o, q, a, b);
    }
  }

  lemma InsertKeepsWorld(p: Params, w: World, n: RunRecord, o: Owner, q: Proc)
    requires WorldInv(p, w) && Fresh(p, w, n, o) && BoundTo(p, n, o) && Separate(w, o)
    requires Used(w.store.used, n.tenantId) < p.quota
    requires ProcOk(p, AfterInsert(w, n, o, q), |w.procs|, q)
    ensures WorldInv(p, AfterInsert(w, n, o, q))
  {
    var v := AfterInsert(w, n, o, q);
    assert RunOk(p, w, n.runId) && EntryOk(w.store, n.runId);
    assert StoreInv(v.store, p.quota) by { InsertKeepsInv(w.store, p.quota, n); }
    InsertEvolves(p, w, n, o, q);
    InsertPairsOk(p, w, n, o, q);
    InsertProcsOk(p, w, n, o, q);
    forall id ensures RunOk(p, v, id) { assert RunOk(p, w, id); InsertRunOk(p, w, n, o, q, id); }
    forall id ensures OwnerOk(p, v, id) { assert OwnerOk(p, w, id); }
    forall k | 0 <= k < |v.calls| ensures CallOk(v, k) { assert CallOk(w, k); }
  }

  lemma InsertedProcOk(p: Params, w: World, n: RunRecord, o: Owner, checkNow: Time, now: Time)
    requires Fresh(p, w, n, o)
    ensures var q := Request(AfterAdmission(p.policy, n, Pending, o.desktop, o.task, checkNow, now));
            ProcOk(p, AfterInsert(w, n, o, q), |w.procs|, q)
  {
    AfterAdmissionOk(p.policy, n, Pending, o.desktop, o.task, checkNow, now);
  }

  /** Whatever is admitted is separate from what the tenant has, and within its quota. */
  lemma AdmittedIsSeparate(p: Params, w: World, ring: IdentityKeyring, o: Owner, runId: RunId, now: Time)
    requires Proposal(p, w, ring, o, runId, now)
    requires Admit(w.store, p.quota, Propose(p, ring, o, runId, now).value).1.Admitted?
    ensures var n := Propose(p, ring, o, runId, now).value.proposed;
      && Separate(w, o) && Fresh(p, w, n, o) && BoundTo(p, n, o) && Used(w.store.used, n.tenantId) < p.quota
      && Admit(w.store, p.quota, Propose(p, ring, o, runId, now).value) == (Insert(w.store, n), Admitted(n))
  {
    hide KeysAvailable, FindReplay, DesktopIsClaimed, BoundTo, RecordOk, SameKey, HoldsDesktop, RingKnowsTenant;
    ProposeIsSound(p, ring, o, runId, now);
    AdmissionRefinesPlain(p, w, ring, o, runId, now);
  }

  lemma AdmittedKeepsWorld(p: Params, w: World, l: Label)
    requires l.CreateRun? && Proposal(p, w, l.ring, l.owner, l.runId, l.now)
    requires Admit(w.store, p.quota, Propose(p, l.ring, l.owner, l.runId, l.now).value).1.Admitted?
    ensures WorldInv(p, ApplyCreate(p, w, l))
  {
    var n := Propose(p, l.ring, l.owner, l.runId, l.now).value.proposed;
    AdmittedIsSeparate(p, w, l.ring, l.owner, l.runId, l.now);
    InsertedProcOk(p, w, n, l.owner, l.checkNow, l.laterNow);
    assert ApplyCreate(p, w, l) == AfterInsert(w, n, l.owner, Request(Entered(p, l, n, Pending))) by {
      ProposeIsSound(p, l.ring, l.owner, l.runId, l.now);
    }
    InsertKeepsWorld(p, w, n, l.owner, Request(Entered(p, l, n, Pending)));
  }

  /** A replay goes on from the stored record of a run with the request's own desktop and task. */
  lemma ReplayedProcOk(p: Params, w: World, l: Label, r: RunId, i: nat)
    requires l.CreateRun? && WorldInv(p, w) && r in w.store.runs && r in w.owners
    requires w.owners[r].desktop == l.owner.desktop && w.owners[r].task == l.owner.task
    ensures ProcOk(p, w, i, Request(Entered(p, l, w.store.runs[r], w.store.intents[r])))
  {
    assert RunOk(p, w, r) && EntryOk(w.store, r);
    AfterAdmissionOk(p.policy, w.store.runs[r], w.store.intents[r], l.owner.desktop, l.owner.task,
                     l.checkNow, l.laterNow);
    assert Held(w, w.store.runs[r]);
  }

  lemma ReplayedKeepsWorld(p: Params, w: World, l: Label)
    requires l.CreateRun? && Proposal(p, w, l.ring, l.owner, l.runId, l.now)
    requires Admit(w.store, p.quota, Propose(p, l.ring, l.owner, l.runId, l.now).value).1.Replayed?
    ensures WorldInv(p, ApplyCreate(p, w, l))
  {
    var c := Propose(p, l.ring, l.owner, l.runId, l.now).value;
    var id := FindReplay(w.store.order, w.store.runs, c).value;
    KeysAgree(p, w, l.ring, l.owner, l.runId, l.now);
    ReplayAgrees(p, w, l.ring, l.owner, l.runId, l.now, id);
    TenantRunBound(p, w, l.owner, id);
    var q := Request(Entered(p, l, w.store.runs[id], w.store.intents[id]));
    forall i: nat ensures ProcOk(p, w, i, q) { ReplayedProcOk(p, w, l, id, i); }
    StartKeepsWorld(p, w, w.store, [q]);
    assert w.(store := w.store, procs := w.procs + [q]) == ApplyCreate(p, w, l);
  }

  lemma CreateKeepsWorld(p: Params, w: World, l: Label)
    requires ValidParams(p) && WorldInv(p, w) && l.CreateRun?
    ensures WorldInv(p, ApplyCreate(p, w, l))
  {
    if l.runId !in w.store.runs && UsableRing(p, l.ring) && Propose(p, l.ring, l.owner, l.runId, l.now).Ok? {
      match Admit(w.store, p.quota, Propose(p, l.ring, l.owner, l.runId, l.now).value).1
      case Admitted(_) => AdmittedKeepsWorld(p, w, l);
      case Replayed(_, _) => ReplayedKeepsWorld(p, w, l);
      case Denied(_) =>
      case KeyUnavailable =>
    }
  }
}
