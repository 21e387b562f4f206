/** A store that meets the `RunStore` contract (examples/run_gateway/ports.py): each method is one
    transaction over tables updated in place, proved equal to the value-level transaction. */
module RunStoreImpl {
  import opened Outcomes
  import opened Domain
  import opened Identity
  import opened Store

  /** A scan that has taken some claims already, completed by the rest of the scan. */
  function Extended(taken: seq<ReconcileClaim>, rest: (StoreState, Page)): (StoreState, Page) {
    (rest.0, Page(taken + rest.1.claims, rest.1.next))
  }

  lemma ExtendedBy(taken: seq<ReconcileClaim>, claim: ReconcileClaim,
                   tail: (StoreState, Page), rest: (StoreState, Page))
    requires rest == (tail.0, Page([claim] + tail.1.claims, tail.1.next))
    ensures Extended(taken + [claim], tail) == Extended(taken, rest)
  {
    assert taken + ([claim] + tail.1.claims) == (taken + [claim]) + tail.1.claims;
  }

  class RunStore {
    const quota: nat
    var order: seq<RunId>
    var runs: map<RunId, RunRecord>
    var intents: map<RunId, IntentState>
    var claims: map<RunId, KeyedDigest>
    var used: map<TenantId, int>
    var leases: map<RunId, Lease>
    var nextToken: nat
    var releaseLog: seq<RunId>

    ghost function State(): StoreState
      reads this
    {
      StoreState(order, runs, intents, claims, used, leases, nextToken, releaseLog)
    }

    ghost predicate Valid()
      reads this
    {
      StoreInv(State(), quota)
    }

    constructor (quota: nat)
      ensures this.quota == quota && State() == EMPTY && Valid()
    {
      this.quota := quota;
      order, runs, intents, claims := [], map[], map[], map[];
      used, leases, nextToken, releaseLog := map[], map[], 0, [];
      new;
      EmptyStore(quota);
    }

    /** The retained-key guard. */
    method RetainedKeysAvailable(c: AdmissionCommand) returns (available: bool)
      requires Valid()
      ensures available <==> KeysAvailable(State(), c)
    {
      available := true;
      for i := 0 to |order|
        invariant available <==> forall k :: 0 <= k < i ==> KeysAvailableFor(runs[order[k]], c)
      {
        assert order[i] in order;
        if !KeysAvailableFor(runs[order[i]], c) {
          available := false;
        }
      }
      assert forall r :: r in order ==> exists k :: 0 <= k < |order| && order[k] == r;
    }

    method LookUpReplay(c: AdmissionCommand) returns (found: Option<RunId>)
      requires Valid()
      ensures found == FindReplay(order, runs, c)
    {
      for i := 0 to |order|
        invariant FindReplay(order, runs, c) == FindReplay(order[i..], runs, c)
      {
        assert order[i..] == [order[i]] + order[i + 1..];
        if IsReplayOf(runs[order[i]], c) {
          return Some(order[i]);
        }
      }
      assert order[|order|..] == [];
      return None;
    }

    method DesktopBusyFor(c: AdmissionCommand) returns (busy: bool)
      requires Valid()
      ensures busy <==> DesktopIsClaimed(State(), c)
    {
      busy := false;
      for i := 0 to |order|
        invariant !busy
        invariant forall k :: 0 <= k < i && order[k] in claims ==> !Matches(c.desktop, claims[order[k]])
      {
        if order[i] in claims && Matches(c.desktop, claims[order[i]]) {
          return true;
        }
      }
      forall r | r in claims ensures !Matches(c.desktop, claims[r]) {
        assert EntryOk(State(), r);
        var k :| 0 <= k < |order| && order[k] == r;
      }
    }

    /** The phases after the replay lookup: quota, desktop, run and intent.  A rejection after the
        quota was charged rolls the charge back. */
    method AdmitFresh(c: AdmissionCommand) returns (answer: AdmitResult)
      requires Valid() && KeysAvailable(State(), c) && FindReplay(order, runs, c).None?
      modifies this`order, this`runs, this`intents, this`claims, this`used
      ensures (State(), answer) == Store.Admit(old(State()), quota, c)
    {
      var tenant := c.proposed.tenantId;
      if Used(used, tenant) >= quota {
        return Denied(TenantQuotaExceeded);
      }
      var busy := DesktopBusyFor(c);
      var before := used;
      used := used[tenant := Used(used, tenant) + 1];
      if busy {
        used := before;
        return Denied(DesktopBusy);
      }
      claims := claims[c.proposed.runId := c.proposed.desktop];
      order := order + [c.proposed.runId];
      runs := runs[c.proposed.runId := c.proposed];
      intents := intents[c.proposed.runId := Pending];
      return Admitted(c.proposed);
    }

    /** One transaction, in the fixed order of the contract. */
    method Admit(c: AdmissionCommand) returns (answer: AdmitResult)
      requires Valid() && ValidCommand(c) && c.proposed.runId !in runs
      modifies this`order, this`runs, this`intents, this`claims, this`used
      ensures Valid()
      ensures (State(), answer) == Store.Admit(old(State()), quota, c)
      ensures !answer.Admitted? ==> State() == old(State())
    {
      AdmitKeepsInv(State(), quota, c);
      var available := RetainedKeysAvailable(c);
      if !available {
        return KeyUnavailable;
      }
      var found := LookUpReplay(c);
      if found.Some? {
        var r := found.value;
        if !Matches(c.desktop, runs[r].desktop) || !Matches(c.task, runs[r].task) {
          return Denied(IdempotencyConflict);
        }
        return Replayed(runs[r], intents[r]);
      }
      answer := AdmitFresh(c);
    }

    method GetAuthorized(tenant: TenantId, runId: RunId) returns (found: Option<RunRecord>)
      ensures found.Some? <==> runId in runs && runs[runId].tenantId == tenant
      ensures found.Some? ==> found.value == runs[runId]
    {
      if runId in runs && runs[runId].tenantId == tenant {
        return Some(runs[runId]);
      }
      return None;
    }

    method ClaimDispatch(current: RunRecord, intent: IntentState, now: Time, reconcileAt: Time)
      returns (won: Option<RunRecord>)
      requires Valid()
      modifies this`runs, this`intents
      ensures Valid()
      ensures (State(), won) == Store.ClaimDispatch(old(State()), current, intent, now, reconcileAt)
    {
      ClaimDispatchKeepsInv(State(), quota, current, intent, now, reconcileAt);
      if current.runId !in runs || runs[current.runId].version != current.version || !current.state.Reserved?
         || !intent.Pending? || intents[current.runId] != intent {
        return None;
      }
      var next := Transition(runs[current.runId], Dispatching, now, NO_CHANGES.(reconcileAt := Some(reconcileAt)));
      if next.Err? {
        return None;
      }
      runs := runs[next.value.runId := next.value];
      intents := intents[next.value.runId := Claimed];
      return Some(next.value);
    }

    /** Gives the quota unit and the desktop claim back, if the run still holds them. */
    method ReleaseCapacity(runId: RunId, tenant: TenantId)
      modifies this`claims, this`used, this`releaseLog
      ensures State() == Release(old(State()), runId, tenant)
    {
      if runId in claims {
        claims := claims - {runId};
        used := used[tenant := Used(used, tenant) - 1];
        releaseLog := releaseLog + [runId];
      }
    }

    method WriteRecord(n: RunRecord)
      requires Valid() && n.runId in runs && Writable(runs[n.runId], n)
      modifies this`runs, this`intents, this`claims, this`used, this`releaseLog
      ensures Valid()
      ensures State() == Write(old(State()), n)
    {
      WriteKeepsInv(State(), quota, n);
      var revokes := runs[n.runId].state.Reserved? && n.state.Cancelled?;
      runs := runs[n.runId := n];
      if revokes {
        intents := intents[n.runId := Revoked];
      }
      if IsReleasing(n.state) {
        ReleaseCapacity(n.runId, n.tenantId);
      }
    }

    method CompareAndSet(current: RunRecord, next: RunRecord) returns (stored: Option<RunRecord>)
      requires Valid()
      requires VersionCurrent(State(), current) ==> next.runId == current.runId && Writable(runs[current.runId], next)
      modifies this`runs, this`intents, this`claims, this`used, this`releaseLog
      ensures Valid()
      ensures (State(), stored) == Store.CompareAndSet(old(State()), current, next)
    {
      if current.runId in runs && runs[current.runId].version == current.version {
        WriteRecord(next);
        return Some(next);
      }
      return None;
    }

    method LeaseRun(r: RunId, expiresAt: Time) returns (claim: ReconcileClaim)
      requires Valid() && r in runs
      modifies this`leases, this`nextToken
      ensures Valid()
      ensures State() == TakeLease(old(State()), r, expiresAt)
      ensures claim == ReconcileClaim(runs[r], runs[r].version, old(nextToken), expiresAt)
    {
      TakeLeaseKeepsInv(State(), quota, r, expiresAt);
      claim := ReconcileClaim(runs[r], runs[r].version, nextToken, expiresAt);
      leases := leases[r := Lease(nextToken, expiresAt)];
      nextToken := nextToken + 1;
    }

    /** One page of the keyset scan. */
    method ClaimReconcilePage(cursor: Option<nat>, now: Time, limit: nat, leaseDuration: Time) returns (page: Page)
      requires Valid()
      modifies this`leases, this`nextToken
      ensures Valid()
      ensures (State(), page) == ClaimPage(old(State()), if cursor.Some? then cursor.value
            else 0, now, limit, now + leaseDuration)
    {
      var from := if cursor.Some? then cursor.value else 0;
      var i, room := from, limit;
      var expiresAt := now + leaseDuration;
      var taken: seq<ReconcileClaim> := [];
      ghost var whole := ClaimPage(State(), i, now, limit, expiresAt);
      assert [] + whole.1.claims == whole.1.claims;
      while i < |order| && room > 0
        invariant Valid() && room >= 0
        invariant Extended(taken, ClaimPage(State(), i, now, room, expiresAt)) == whole
        decreases |order| - i
      {
        var r := order[i];
        assert r in order;
        if runs[r].reconcileAt.Some? && runs[r].reconcileAt.value <= now
           && !(r in leases && leases[r].expiresAt > now) {
          ghost var before := State();
          var claim := LeaseRun(r, expiresAt);
          ExtendedBy(taken, claim, ClaimPage(State(), i + 1, now, room - 1, expiresAt),
                ClaimPage(before, i, now, room, expiresAt));
          taken := taken + [claim];
          room := room - 1;
        }
        i := i + 1;
      }
      assert taken + [] == taken;
      page := Page(taken, if i < |order| then Some(i) else None);
    }

    method ReconcileCompareAndSet(claim: ReconcileClaim, next: RunRecord, now: Time) returns (stored: Option<RunRecord>)
      requires Valid()
      requires ClaimCurrent(State(), claim, now) ==>
                 next.runId == claim.record.runId && Writable(runs[claim.record.runId], next)
      modifies this`runs, this`intents, this`claims, this`used, this`releaseLog
      ensures Valid()
      ensures (State(), stored) == ReconcileCas(old(State()), claim, next, now)
    {
      var r := claim.record.runId;
      if r in leases && leases[r].expiresAt > now && leases[r].token == claim.token
         && r in runs && runs[r].version == claim.expectedVersion {
        WriteRecord(next);
        return Some(next);
      }
      return None;
    }

    method ReleaseReconcileLease(claim: ReconcileClaim) returns (released: bool)
      requires Valid()
      modifies this`leases
      ensures Valid()
      ensures (State(), released) == ReleaseLease(old(State()), claim)
    {
      ReleaseLeaseKeepsInv(State(), quota, claim);
      if claim.record.runId in leases && leases[claim.record.runId].token == claim.token {
        leases := leases - {claim.record.runId};
        return true;
      }
      return false;
    }
  }
}
