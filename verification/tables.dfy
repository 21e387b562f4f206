/** What each transaction of the store does, table by table: exactly when it takes effect, what it changes
    and what it leaves (examples/run_gateway/ports.py). */
module Tables {
  import opened Outcomes
  import opened Domain
  import opened Store

  // ---------------------------------------------------------------- writes

  /** Nothing but these tables of the one run differs. */
  predicate OnlyRun(s: StoreState, t: StoreState, n: RunRecord) {
    && t.runs == s.runs[n.runId := n]
    && t.order == s.order && t.leases == s.leases && t.nextToken == s.nextToken
  }

  /** The run's capacity is given back: its desktop claim, one unit of its tenant's quota, and the release
      is logged. */
  predicate GivesBack(s: StoreState, t: StoreState, n: RunRecord) {
    && t.claims == s.claims - {n.runId} && t.releaseLog == s.releaseLog + [n.runId]
    && t.used == s.used[n.tenantId := (if n.tenantId in s.used then s.used[n.tenantId] else 0) - 1]
  }

  predicate KeepsCapacity(s: StoreState, t: StoreState) {
    t.claims == s.claims && t.used == s.used && t.releaseLog == s.releaseLog
  }

  /** A stored write: a cancelled reservation revokes its intent, and whoever succeeded, failed or was
      cancelled gives its capacity back, if it still has it. */
  predicate Wrote(s: StoreState, t: StoreState, n: RunRecord)
    requires n.runId in s.runs
  {
    && OnlyRun(s, t, n)
    && t.intents ==
         (if s.runs[n.runId].state.Reserved? && n.state.Cancelled? then s.intents[n.runId := Revoked] else s.intents)
    && (if (n.state.Succeeded? || n.state.Failed? || n.state.Cancelled?) && n.runId in s.claims then GivesBack(s, t, n)
        else KeepsCapacity(s, t))
  }

  /** The version decides, and nothing else. */
  lemma CompareAndSetExactly(s: StoreState, current: RunRecord, n: RunRecord)
    requires n.runId == current.runId
    ensures var (t, stored) := CompareAndSet(s, current, n);
      && (stored.Some? <==> n.runId in s.runs && s.runs[n.runId].version == current.version)
      && (if stored.Some? then stored.value == n && Wrote(s, t, n) else t == s)
  {
  }

  /** A commit is stored exactly while the run's lease has not expired and carries the claim's token, and
      the version is the one the claim expects. */
  lemma CommitStoredExactly(s: StoreState, c: ReconcileClaim, n: RunRecord, now: Time)
    requires n.runId == c.record.runId
    ensures var (t, stored) := ReconcileCas(s, c, n, now); var r := n.runId;
      && (stored.Some? <==>
            && r in s.leases && s.leases[r].expiresAt > now && s.leases[r].token == c.token
            && r in s.runs && s.runs[r].version == c.expectedVersion)
      && (if stored.Some? then stored.value == n && Wrote(s, t, n) else t == s)
  {
  }

  /** Two claims on a run that could both commit hold one and the same lease. */
  lemma OneTokenCommits(s: StoreState, c: ReconcileClaim, m: RunRecord, now: Time,
                        d: ReconcileClaim, n: RunRecord, later: Time)
    requires m.runId == c.record.runId == d.record.runId == n.runId
    requires ReconcileCas(s, c, m, now).1.Some? && ReconcileCas(s, d, n, later).1.Some?
    ensures c.token == d.token && c.expectedVersion == d.expectedVersion
  {
    CommitStoredExactly(s, c, m, now);
    CommitStoredExactly(s, d, n, later);
  }

  /** RESERVED -> DISPATCHING and PENDING -> CLAIMED, once: exactly for a current, reserved record whose
      intent is pending on both sides. */
  lemma ClaimDispatchExactly(s: StoreState, quota: nat, current: RunRecord, intent: IntentState, now: Time, at: Time)
    requires StoreInv(s, quota)
    ensures var (t, won) := ClaimDispatch(s, current, intent, now, at); var r := current.runId;
      && (won.Some? <==>
            && r in s.runs && s.runs[r].version == current.version && current.state.Reserved? && intent.Pending?
            && s.intents[r].Pending?)
      && (if won.Some? then
            && won.value == s.runs[r].(state := Dispatching, version := s.runs[r].version + 1, updatedAt := now,
                                       stateChangedAt := now, reconcileAt := Some(at))
            && OnlyRun(s, t, won.value) && KeepsCapacity(s, t) && t.intents == s.intents[r := Claimed]
          else t == s)
  {
    assert EntryOk(s, current.runId);
  }

  /** What an admission adds: the record as proposed, last in order, its pending intent, its desktop claim
      and one unit of its tenant's quota. */
  lemma AdmittedTables(s: StoreState, quota: nat, c: AdmissionCommand)
    requires Shape(s) && Admit(s, quota, c).1.Admitted?
    ensures var (t, answer) := Admit(s, quota, c); var n := c.proposed;
      && answer.record == n && t.runs == s.runs[n.runId := n] && t.order == s.order + [n.runId]
      && t.intents == s.intents[n.runId := Pending] && t.claims == s.claims[n.runId := n.desktop]
      && t.used == s.used[n.tenantId := (if n.tenantId in s.used then s.used[n.tenantId] else 0) + 1]
      && t.leases == s.leases && t.nextToken == s.nextToken && t.releaseLog == s.releaseLog
  {
  }

  // ---------------------------------------------------------------- leases

  /** The run is due, and no lease on it is still alive. */
  predicate Free(s: StoreState, r: RunId, now: Time) {
    && r in s.runs && s.runs[r].reconcileAt.Some? && s.runs[r].reconcileAt.value <= now
    && (r in s.leases ==> s.leases[r].expiresAt <= now)
  }

  /** A page takes exactly the free runs from its first position to where the next page continues, and it
      stops before the end only when it is full. */
  lemma {:induction false} PageTakesExactly(s: StoreState, quota: nat, from: nat,
                                            now: Time, limit: nat, expiresAt: Time, i: nat)
    requires StoreInv(s, quota) && from <= i < |s.order|
    ensures var page := ClaimPage(s, from, now, limit, expiresAt).1;
      && (Claims(page, s.order[i]) <==> Free(s, s.order[i], now) && (page.next.Some? ==> i < page.next.value))
      && (page.next.Some? ==> from <= page.next.value < |s.order| && |page.claims| == limit)
    decreases |s.order| - from
  {
    var r := s.order[from];
    var page := ClaimPage(s, from, now, limit, expiresAt).1;
    if limit == 0 {
      assert page.claims == [];
    } else if Claimable(s, r, now) {
      var s1 := TakeLease(s, r, expiresAt);
      TakeLeaseKeepsInv(s, quota, r, expiresAt);
      assert EntryOk(s, r);
      var rest := ClaimPage(s1, from + 1, now, limit - 1, expiresAt).1;
      TakenFirst(page, rest, s.order[i]);
      if i > from {
        PageTakesExactly(s1, quota, from + 1, now, limit - 1, expiresAt, i);
      } else if from + 1 < |s.order| {
        PageTakesExactly(s1, quota, from + 1, now, limit - 1, expiresAt, from + 1);
      }
    } else {
      PassedOver(s, quota, from, now, limit, expiresAt);
      if i > from {
        PageTakesExactly(s, quota, from + 1, now, limit, expiresAt, i);
      } else if from + 1 < |s.order| {
        PageTakesExactly(s, quota, from + 1, now, limit, expiresAt, from + 1);
      }
    }
  }

  lemma TakenFirst(page: Page, rest: Page, r: RunId)
    requires page.claims != [] && page.claims[1..] == rest.claims
    ensures Claims(page, r) <==> page.claims[0].record.runId == r || Claims(rest, r)
  {
    assert page.claims == [page.claims[0]] + rest.claims;
    if c :| c in rest.claims && c.record.runId == r {
      assert c in page.claims;
    }
    assert page.claims[0] in page.claims;
  }

  /** A run that is passed over is not claimed from a later position. */
  lemma PassedOver(s: StoreState, quota: nat, from: nat, now: Time, limit: nat, expiresAt: Time)
    requires StoreInv(s, quota) && from < |s.order|
    ensures !Claims(ClaimPage(s, from + 1, now, limit, expiresAt).1, s.order[from])
  {
    var page := ClaimPage(s, from + 1, now, limit, expiresAt).1;
    ClaimPageClaims(s, quota, from + 1, now, limit, expiresAt);
    forall k | 0 <= k < |page.claims| ensures page.claims[k].record.runId != s.order[from] {
      assert PageClaim(s, ClaimPage(s, from + 1, now, limit, expiresAt).0, from + 1, page.claims[k], s.nextToken + k,
                       now, expiresAt);
    }
  }

  /** Once a later page has leased the run again, no commit under an earlier claim is stored, however the
      clocks stand. */
  lemma PageFences(s: StoreState, quota: nat, from: nat, now: Time, limit: nat, expiresAt: Time,
                   c: ReconcileClaim, n: RunRecord, later: Time)
    requires StoreInv(s, quota) && from <= |s.order| && c.token < s.nextToken && n.runId == c.record.runId
    requires Claims(ClaimPage(s, from, now, limit, expiresAt).1, n.runId)
    ensures ReconcileCas(ClaimPage(s, from, now, limit, expiresAt).0, c, n, later).1.None?
  {
    var (t, page) := ClaimPage(s, from, now, limit, expiresAt);
    ClaimPageClaims(s, quota, from, now, limit, expiresAt);
    var k :| 0 <= k < |page.claims| && page.claims[k].record.runId == n.runId;
    assert PageClaim(s, t, from, page.claims[k], s.nextToken + k, now, expiresAt);
  }

  /** Giving a lease back takes it away exactly if it still is the claim's own. */
  lemma ReleaseLeaseExactly(s: StoreState, c: ReconcileClaim)
    ensures var (t, released) := ReleaseLease(s, c); var r := c.record.runId;
      && (released <==> r in s.leases && s.leases[r].token == c.token)
      && t == s.(leases := if released then s.leases - {r} else s.leases)
  {
  }
}
