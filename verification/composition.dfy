/** Whole logs as histories: a pass or a request whose events are made, one after the other, on the
    tables that the steps of others leave behind, is a history of the interleaved system, which ends in
    the tables of the log, with the end or the reply of the log. */
module Composition {
  import opened Domain
  import opened Identity
  import opened Store
  import opened Recovery
  import opened Service
  import opened System
  import opened Invariant
  import opened Safety
  import opened Histories
  import opened Surroundings
  import opened Passes
  import opened Requests
  import opened Simulation

  // ---------------------------------------------------------------- steps of others

  /** Neither a step nor a crash of activity `i`. */
  predicate ByOthers(steps: seq<Label>, i: nat) {
    forall k :: 0 <= k < |steps| ==> steps[k] != Crash(i) && !(steps[k].Resume? && steps[k].i == i)
  }

  lemma {:induction false} OthersLeave(p: Params, history: seq<Label>, steps: seq<Label>, i: nat)
    requires ValidParams(p) && i < |WorldAfter(p, history).procs| && ByOthers(steps, i)
    ensures var w, v := WorldAfter(p, history), WorldAfter(p, history + steps);
            i < |v.procs| && v.procs[i] == w.procs[i]
    decreases |steps|
  {
    hide Apply, WorldInv;
    if steps == [] {
      assert history + steps == history;
    } else {
      var prefix := steps[..|steps| - 1];
      OthersLeave(p, history, prefix, i);
      AfterOneMore(p, history, steps);
      ShapeHolds(p, WorldAfter(p, history + prefix));
      OthersStay(p, WorldAfter(p, history + prefix), steps[|steps| - 1], i);
    }
  }

  /** The event is the store's own answer on the tables of the world after this history. */
  ghost predicate InTurn(p: Params, history: seq<Label>, e: Event)
    requires ValidParams(p)
  {
    Genuine(p.quota, e) && MadeOn(e, WorldAfter(p, history))
  }

  /** The step leaves the tables that the event logged. */
  predicate Leaves(p: Params, history: seq<Label>, l: Label, e: Event)
    requires ValidParams(p)
  {
    WorldAfter(p, history + [l]).store == TablesAfter(e, WorldAfter(p, history).store)
  }

  // ---------------------------------------------------------------- a pass

  /** The events of the rest of a pass, each in its turn, with the given steps of others before it.  The
      provider says a call is over only when it is. */
  ghost predicate PassInTurn(p: Params, history: seq<Label>, i: nat, a: Await, es: seq<Event>, others: seq<seq<Label>>)
    requires ValidParams(p)
    decreases |es|
  {
    if Over(a) then es == [] && others == []
    else
      && others != [] && ByOthers(others[0], i) && AwaitOk(p.policy, a) && Makes(a, es)
      && InTurn(p, history + others[0], es[0])
      && (es[0].Polled? ==> Truthful(WorldAfter(p, history + others[0]), a.claim, PollAnswer(es[0].outcome)))
      && PassInTurn(p, history + others[0] + [Resume(i, PassInputs(a, es))], i,
                    NextAwait(p.policy, a, Heard(a, es)), es[Spent(a, es)..], others[1..])
  }

  /** The history that goes on with the steps of others and, in between, the awaits of the pass. */
  ghost function AfterPass(p: Params, history: seq<Label>, i: nat, a: Await, es: seq<Event>, others: seq<seq<Label>>)
    : seq<Label>
    requires ValidParams(p) && PassInTurn(p, history, i, a, es, others)
    decreases |es|
  {
    if Over(a) then history
    else
      AfterPass(p, history + others[0] + [Resume(i, PassInputs(a, es))], i,
                NextAwait(p.policy, a, Heard(a, es)), es[Spent(a, es)..], others[1..])
  }

  /** Every await of the pass leaves the tables of its event. */
  ghost predicate PassLeaves(p: Params, history: seq<Label>, i: nat, a: Await, es: seq<Event>, others: seq<seq<Label>>)
    requires ValidParams(p) && PassInTurn(p, history, i, a, es, others)
    decreases |es|
  {
    Over(a) || (
      && Leaves(p, history + others[0], Resume(i, PassInputs(a, es)), es[0])
      && PassLeaves(p, history + others[0] + [Resume(i, PassInputs(a, es))], i,
                    NextAwait(p.policy, a, Heard(a, es)), es[Spent(a, es)..], others[1..]))
  }

  /** One await, with what others do before it. */
  lemma PassStep(p: Params, history: seq<Label>, i: nat, lease: ReconcileClaim,
                 a: Await, es: seq<Event>, others: seq<seq<Label>>)
    requires ValidParams(p) && PassInTurn(p, history, i, a, es, others) && !Over(a)
    requires i < |WorldAfter(p, history).procs| && WorldAfter(p, history).procs[i] == Reconciling(lease, a)
    ensures Leaves(p, history + others[0], Resume(i, PassInputs(a, es)), es[0])
    ensures var v := WorldAfter(p, history + others[0] + [Resume(i, PassInputs(a, es))]);
            i < |v.procs| && v.procs[i] == Reconciling(lease, NextAwait(p.policy, a, Heard(a, es)))
  {
    hide Apply, WorldInv, AwaitOk, NextAwait, Makes, Heard, PassInputs, Genuine;
    OthersLeave(p, history, others[0], i);
    var w := WorldAfter(p, history + others[0]);
    ShapeHolds(p, w);
    SystemTakesPass(p, w, i, lease, a, es);
    AfterStep(p, history + others[0], Resume(i, PassInputs(a, es)));
  }

  lemma LogGoesOn(p: RecoveryPolicy, a: Await, es: seq<Event>, raised: bool)
    requires PassLog(p, a, es, raised) && !Over(a)
    ensures PassLog(p, NextAwait(p, a, Heard(a, es)), es[Spent(a, es)..], raised)
  {
    if CommitRaised(a, es) {
      assert NextAwait(p, a, Heard(a, es)) == Raised(StoreError) && es[1..] == [];
    }
  }

  lemma {:induction false} PassReaches(p: Params, history: seq<Label>, i: nat, lease: ReconcileClaim, a: Await,
                                       es: seq<Event>, raised: bool, others: seq<seq<Label>>)
    requires ValidParams(p) && PassInTurn(p, history, i, a, es, others) && PassLog(p.policy, a, es, raised)
    requires i < |WorldAfter(p, history).procs| && WorldAfter(p, history).procs[i] == Reconciling(lease, a)
    ensures PassLeaves(p, history, i, a, es, others)
    ensures var v := WorldAfter(p, AfterPass(p, history, i, a, es, others));
            i < |v.procs| && v.procs[i].Reconciling? && v.procs[i].lease == lease
            && Over(v.procs[i].at) && v.procs[i].at.Raised? == raised
    decreases |es|
  {
    hide AwaitOk, NextAwait, Heard, PassInputs, InTurn, Truthful, Leaves, WorldAfter;
    if !Over(a) {
      PassStep(p, history, i, lease, a, es, others);
      LogGoesOn(p.policy, a, es, raised);
      PassReaches(p, history + others[0] + [Resume(i, PassInputs(a, es))], i, lease,
                  NextAwait(p.policy, a, Heard(a, es)), es[Spent(a, es)..], raised, others[1..]);
    }
  }

  /** A pass begins by reading the clock. */
  function Begun(history: seq<Label>, i: nat, es: seq<Event>): seq<Label>
    requires es != [] && es[0].ClockRead?
  {
    history + [Resume(i, NO_INPUTS.(now := es[0].now))]
  }

  /** The events of a processed claim, each in its turn, up to the release of the lease. */
  ghost predicate ProcessedInTurn(p: Params, history: seq<Label>, i: nat, d: Processed,
                                  others: seq<seq<Label>>, last: seq<Label>)
    requires ValidParams(p) && ProcessedOk(p.policy, d)
  {
    var a := ReconcileClaimed(p.policy, d.claim, d.events[0].now);
    && PassInTurn(p, Begun(history, i, d.events), i, a, d.events[1..], others) && ByOthers(last, i)
    && InTurn(p, AfterPass(p, Begun(history, i, d.events), i, a, d.events[1..], others) + last, d.release)
  }

  /** A processed claim is a history from the leased claim to the tables that the release of its lease
      left, with the pass's own end: the reconciler goes on, or it crashes at the release. */
  lemma PassIsHistory(p: Params, history: seq<Label>, i: nat, d: Processed,
                      others: seq<seq<Label>>, last: seq<Label>) returns (l: Label)
    requires ValidParams(p) && ProcessedOk(p.policy, d) && ProcessedInTurn(p, history, i, d, others, last)
    requires i < |WorldAfter(p, history).procs| && WorldAfter(p, history).procs[i] == Leased(d.claim)
    ensures var a := ReconcileClaimed(p.policy, d.claim, d.events[0].now);
            var most := AfterPass(p, Begun(history, i, d.events), i, a, d.events[1..], others) + last;
            var w, v := WorldAfter(p, most), WorldAfter(p, most + [l]);
      && PassLeaves(p, Begun(history, i, d.events), i, a, d.events[1..], others)
      && i < |w.procs| && w.procs[i].Reconciling? && Over(w.procs[i].at) && w.procs[i].at.Raised? == d.raised
      && (l == Resume(i, NO_INPUTS) || (l == Crash(i) && Broke(d)))
      && v.store == d.release.after && i < |v.procs| && v.procs[i] == Done
  {
    hide Apply, WorldInv, ReconcileClaimed, PassInTurn, AfterPass, PassLeaves, Genuine, MadeOn;
    var begin := Resume(i, NO_INPUTS.(now := d.events[0].now));
    var a := ReconcileClaimed(p.policy, d.claim, d.events[0].now);
    var most := AfterPass(p, Begun(history, i, d.events), i, a, d.events[1..], others);
    ShapeHolds(p, WorldAfter(p, history));
    SystemBegins(p, WorldAfter(p, history), i, d.claim, d.events[0].now);
    AfterStep(p, history, begin);
    PassReaches(p, Begun(history, i, d.events), i, d.claim, a, d.events[1..], d.raised, others);
    OthersLeave(p, most, last, i);
    var w := WorldAfter(p, most + last);
    ShapeHolds(p, w);
    l := Released(p, w, i, d.release);
    AfterStep(p, most + last, l);
  }

  lemma Released(p: Params, w: World, i: nat, e: Event) returns (l: Label)
    requires Shape(w.store) && e.LeaseReleased? && Genuine(p.quota, e) && MadeOn(e, w)
    requires i < |w.procs| && w.procs[i].Reconciling? && w.procs[i].lease == e.claim && Over(w.procs[i].at)
    ensures l == Resume(i, NO_INPUTS) || (l == Crash(i) && e.released.Raises?)
    ensures var v := Apply(p, w, l); v.store == e.after && i < |v.procs| && v.procs[i] == Done
  {
    SystemReleases(p, w, i, w.procs[i].at, e, NO_INPUTS);
    OnlyMoves(p, w, i, NO_INPUTS);
    l := if e.after == Apply(p, w, Resume(i, NO_INPUTS)).store then Resume(i, NO_INPUTS) else Crash(i);
  }

  // ---------------------------------------------------------------- a request

  /** The reload that may end a request, in its turn. */
  ghost predicate ReloadInTurn(p: Params, history: seq<Label>, i: nat, es: seq<Event>, others: seq<seq<Label>>)
    requires ValidParams(p)
  {
    if es == [] then others == []
    else |others| == 1 && ByOthers(others[0], i) && InTurn(p, history + others[0], es[0])
  }

  /** The events of the rest of a request, each in its turn, with the given steps of others before it.
      The provider names a new call by its position in its own list. */
  ghost predicate RequestInTurn(p: Params, history: seq<Label>, i: nat, a: ServiceAwait,
                                es: seq<Event>, others: seq<seq<Label>>)
    requires ValidParams(p)
    decreases |es|
  {
    && others != [] && ByOthers(others[0], i) && Calls(a, es)
    && InTurn(p, history + others[0], es[0])
    && (es[0].SpawnSent? && es[0].spawned.Returns? ==>
          es[0].spawned.value == |WorldAfter(p, history + others[0]).calls|)
    && var next := history + others[0] + [Resume(i, RequestInputs(a, es))];
       if Waiting(Next(a, es)) then RequestInTurn(p, next, i, Next(a, es), es[Takes(a, es)..], others[1..])
       else ReloadInTurn(p, next, i, es[Takes(a, es)..], others[1..])
  }

  ghost function AfterReload(history: seq<Label>, others: seq<seq<Label>>): seq<Label> {
    if others == [] then history else history + others[0]
  }

  ghost function AfterRequest(p: Params, history: seq<Label>, i: nat, a: ServiceAwait,
                              es: seq<Event>, others: seq<seq<Label>>): seq<Label>
    requires ValidParams(p) && RequestInTurn(p, history, i, a, es, others)
    decreases |es|
  {
    var next := history + others[0] + [Resume(i, RequestInputs(a, es))];
    if Waiting(Next(a, es)) then AfterRequest(p, next, i, Next(a, es), es[Takes(a, es)..], others[1..])
    else AfterReload(next, others[1..])
  }

  /** Every await of the request leaves the tables of its event. */
  ghost predicate RequestLeaves(p: Params, history: seq<Label>, i: nat, a: ServiceAwait,
                                es: seq<Event>, others: seq<seq<Label>>)
    requires ValidParams(p) && RequestInTurn(p, history, i, a, es, others)
    decreases |es|
  {
    && Leaves(p, history + others[0], Resume(i, RequestInputs(a, es)), es[0])
    && (Waiting(Next(a, es)) ==>
          RequestLeaves(p, history + others[0] + [Resume(i, RequestInputs(a, es))], i, Next(a, es),
                        es[Takes(a, es)..], others[1..]))
  }

  predicate StoredAs(w: World, r: RunRecord) {
    r.runId in w.store.runs && w.store.runs[r.runId] == r
  }

  /** A reply with a record gives the one that is stored. */
  predicate ReplyFits(w: World, response: Response) {
    response.Run? || response.Cancelling? ==> StoredAs(w, response.record)
  }

  /** One await, with what others do before it. */
  lemma RequestTakesStep(p: Params, history: seq<Label>, i: nat, a: ServiceAwait,
                         es: seq<Event>, others: seq<seq<Label>>)
    requires ValidParams(p) && RequestInTurn(p, history, i, a, es, others)
    requires i < |WorldAfter(p, history).procs| && WorldAfter(p, history).procs[i] == Request(a)
    ensures Leaves(p, history + others[0], Resume(i, RequestInputs(a, es)), es[0])
    ensures var w := WorldAfter(p, history + others[0]);
            var v := WorldAfter(p, history + others[0] + [Resume(i, RequestInputs(a, es))]);
      && i < |w.procs| && w.procs[i] == Request(a) && i < |v.procs| && v.procs[i] == Request(Next(a, es))
  {
    hide Apply, WorldInv, Calls, Next, RequestInputs, Genuine;
    OthersLeave(p, history, others[0], i);
    var w := WorldAfter(p, history + others[0]);
    ShapeHolds(p, w);
    SystemTakesRequest(p, w, i, a, es);
    AfterStep(p, history + others[0], Resume(i, RequestInputs(a, es)));
  }

  /** A stored write is what the reply gives. */
  lemma WroteReply(quota: nat, w: World, e: Event)
    requires e.WriteSent? && Genuine(quota, e) && MadeOn(e, w) && e.cas.CasStored?
    ensures e.after.runs == w.store.runs[e.next.runId := e.next]
  {
  }

  /** A reload finds the run of the record that the request holds, and replies what is stored. */
  lemma ReloadFinds(p: Params, history: seq<Label>, more: seq<Label>, i: nat, r: RunRecord, e: Event)
    requires ValidParams(p) && InTurn(p, history + more, e) && Reads([e], r.tenantId, r.runId)
    requires Held(WorldAfter(p, history), r)
    ensures e.found.Returns? ==> e.found.value.Some? && StoredAs(WorldAfter(p, history + more), e.found.value.value)
  {
    hide Apply;
    LaterLifeHolds(p, history, more, r.runId);
    RunIsOk(p, WorldAfter(p, history + more), r.runId);
  }

  /** The record that a waiting request holds is known to the store. */
  lemma RequestHolds(p: Params, w: World, i: nat)
    requires WorldInv(p, w) && i < |w.procs| && w.procs[i].Request? && Waiting(w.procs[i].a)
    ensures Held(w, w.procs[i].a.record)
  {
    hide ServiceAwaitOk, Held;
    ProcIsOk(p, w, i);
  }

  /** How a request replies: with the record its last write stored, or with what a reload found. */
  predicate RepliesWith(r: RunRecord, e: Event, rest: seq<Event>, response: Response) {
    if rest == [] then
      response.Errored? || (
        && e.WriteSent? && e.cas.CasStored?
        && (response.Run? || response.Cancelling?) && response.record == e.next)
    else
      && Reads(rest, r.tenantId, r.runId)
      && (if rest[0].found.Returns? && rest[0].found.value.Some?
          then (response.Run? || response.Cancelling?) && response.record == rest[0].found.value.value
          else rest[0].found.Returns? || response.Errored?)
  }

  lemma FinishReplies(a: ServiceAwait, es: seq<Event>, response: Response)
    requires RequestLog(a, es, response) && Next(a, es).Answered?
    ensures Waiting(a) && Takes(a, es) <= |es| && RepliesWith(a.record, es[0], es[Takes(a, es)..], response)
  {
  }

  /** After the last await and the reload, if there is one, the reply gives what is stored. */
  lemma ReplyIsStored(p: Params, now: seq<Label>, l: Label, i: nat, r: RunRecord, e: Event, rest: seq<Event>,
                      response: Response, others: seq<seq<Label>>)
    requires ValidParams(p) && InTurn(p, now, e) && Leaves(p, now, l, e) && ReloadInTurn(p, now + [l], i, rest, others)
    requires RepliesWith(r, e, rest, response) && Held(WorldAfter(p, now), r)
    ensures ReplyFits(WorldAfter(p, AfterReload(now + [l], others)), response)
    ensures response.Run? || response.Cancelling? || response.Errored?
  {
    hide Apply, WorldAfter, Held;
    if rest != [] {
      assert now + [l] + others[0] == now + ([l] + others[0]);
      assert [rest[0]] == rest;
      ReloadFinds(p, now, [l] + others[0], i, r, rest[0]);
    } else if !response.Errored? {
      WroteReply(p.quota, WorldAfter(p, now), e);
    }
  }

  /** The last await of a request and, if it lost its race, the reload. */
  lemma RequestCloses(p: Params, history: seq<Label>, i: nat, a: ServiceAwait, es: seq<Event>,
                      response: Response, others: seq<seq<Label>>)
    requires ValidParams(p) && RequestInTurn(p, history, i, a, es, others) && RequestLog(a, es, response)
    requires i < |WorldAfter(p, history).procs| && WorldAfter(p, history).procs[i] == Request(a)
    requires !Waiting(Next(a, es))
    ensures var v := WorldAfter(p, AfterRequest(p, history, i, a, es, others));
            i < |v.procs| && v.procs[i] == Request(Answered) && ReplyFits(v, response)
            && (response.Run? || response.Cancelling? || response.Errored?)
  {
    hide Apply, WorldAfter, InTurn, Leaves, RequestInputs, RequestLog, Finishes, RepliesWith, Held, ReplyFits;
    var l, now := Resume(i, RequestInputs(a, es)), history + others[0];
    RequestTakesStep(p, history, i, a, es, others);
    NeverRaises(p, now + [l], i);
    FinishReplies(a, es, response);
    RequestHolds(p, WorldAfter(p, now), i);
    if others[1..] != [] {
      OthersLeave(p, now + [l], others[1], i);
    }
    ReplyIsStored(p, now, l, i, a.record, es[0], es[Takes(a, es)..], response, others[1..]);
  }

  /** A request from an await on is a history that ends with its reply, and every await leaves the tables
      of its event. */
  lemma {:induction false} RequestReaches(p: Params, history: seq<Label>, i: nat, a: ServiceAwait, es: seq<Event>,
                                          response: Response, others: seq<seq<Label>>)
    requires ValidParams(p) && RequestInTurn(p, history, i, a, es, others) && RequestLog(a, es, response)
    requires i < |WorldAfter(p, history).procs| && WorldAfter(p, history).procs[i] == Request(a)
    ensures RequestLeaves(p, history, i, a, es, others)
    ensures var v := WorldAfter(p, AfterRequest(p, history, i, a, es, others));
            i < |v.procs| && v.procs[i] == Request(Answered) && ReplyFits(v, response)
            && (response.Run? || response.Cancelling? || response.Errored?)
    decreases |es|
  {
    hide WorldAfter, InTurn, Leaves, RequestInputs, Finishes, ReplyFits, Next;
    RequestTakesStep(p, history, i, a, es, others);
    if Waiting(Next(a, es)) {
      RequestReaches(p, history + others[0] + [Resume(i, RequestInputs(a, es))], i, Next(a, es),
                     es[Takes(a, es)..], response, others[1..]);
    } else {
      RequestCloses(p, history, i, a, es, response, others);
    }
  }

  // ---------------------------------------------------------------- whole requests

  /** Where a create waits first, if its run is still reserved. */
  function CreateAwait(p: Params, o: Owner, es: seq<Event>): ServiceAwait
    requires |es| >= 2 && es[1].AdmitSent?
  {
    var started := Started(p, o, es);
    if started == [] then Answered else started[0].a
  }

  /** The events of a create, each in its turn: the admission, and all that follows it. */
  ghost predicate CreateInTurn(p: Params, history: seq<Label>, i: nat, ring: IdentityKeyring, o: Owner, runId: RunId,
                               es: seq<Event>, others: seq<seq<Label>>)
    requires ValidParams(p) && |es| >= 2 && es[0].ClockRead? && es[1].AdmitSent?
  {
    && InTurn(p, history, es[1])
    && (|es| >= 4 ==>
          RequestInTurn(p, history + [CreateLabel(ring, o, runId, es)], i, CreateAwait(p, o, es), es[4..], others))
  }

  /** The request that started as activity `i` is over, if it ever became one. */
  predicate RequestOver(w: World, i: nat) {
    i < |w.procs| ==> w.procs[i] == Request(Answered) || w.procs[i] == Done
  }

  lemma ReplayIsStored(p: Params, w: World, e: Event)
    requires WorldInv(p, w) && e.AdmitSent? && Genuine(p.quota, e) && MadeOn(e, w)
    requires e.verdict.Returns? && e.verdict.value.Replayed?
    ensures e.after == w.store && StoredAs(w, e.verdict.value.record)
  {
    hide KeysAvailable, IsReplayOf, Matches;
    var found := FindReplay(w.store.order, w.store.runs, e.command);
    if found.Some? {
      RunIsOk(p, w, found.value);
    }
  }

  lemma StopReplies(p: Params, ring: IdentityKeyring, o: Owner, runId: RunId, es: seq<Event>, response: Response)
    requires ProofsOk(p, ring, o) && CreateLog(p, ring, o, runId, es, response) && Genuine(p.quota, es[1])
    ensures |es| == 2 || |es| >= 4
    ensures |es| == 2 ==>
      && (response.Run? ==>
            es[1].verdict.Returns? && es[1].verdict.value.Replayed? && es[1].verdict.value.record == response.record)
      && !response.Cancelling? && !response.NotFound? && !response.Conflict?
      && (Started(p, o, es) == [] || Started(p, o, es) == [Request(Answered)])
  {
    hide Propose, Prove, KeysAvailable, FindReplay, Matches;
    ProposedFresh(p, ring, o, runId, es[0].now);
  }

  /** A create that goes no further than its admission.  If that raised, the request is crashed, or it
      was never there. */
  lemma CreateStops(p: Params, history: seq<Label>, ring: IdentityKeyring, o: Owner, runId: RunId,
                    es: seq<Event>, response: Response) returns (whole: seq<Label>)
    requires ValidParams(p) && UsableRing(p, ring) && ProofsOk(p, ring, o)
    requires CreateLog(p, ring, o, runId, es, response) && |es| == 2 && InTurn(p, history, es[1])
    ensures var i, l := |WorldAfter(p, history).procs|, CreateLabel(ring, o, runId, es);
            var v := WorldAfter(p, whole);
      && (whole == history + [l] || (es[1].verdict.Raises? && whole in [history, history + [l] + [Crash(i)]]))
      && v.store == es[1].after && RequestOver(v, i) && ReplyFits(v, response)
  {
    hide Apply, WorldInv, Propose, ProofsOk, Genuine, VerdictLog;
    var w, l := WorldAfter(p, history), CreateLabel(ring, o, runId, es);
    var i := |w.procs|;
    ShapeHolds(p, w);
    StopReplies(p, ring, o, runId, es, response);
    SystemAdmits(p, w, ring, o, runId, es);
    AfterStep(p, history, l);
    whole := history + [l];
    if es[1].verdict.Raises? {
      if es[1].after == w.store {
        whole := history;
      } else {
        AfterStep(p, whole, Crash(i));
        ShapeHolds(p, WorldAfter(p, whole));
        CrashEnds(p, WorldAfter(p, whole), i);
        whole := whole + [Crash(i)];
      }
    } else if response.Run? {
      ReplayIsStored(p, w, es[1]);
    }
  }

  lemma CrashEnds(p: Params, w: World, i: nat)
    requires Shape(w.store)
    ensures Apply(p, w, Crash(i)).store == w.store && RequestOver(Apply(p, w, Crash(i)), i)
  {
  }

  /** Where a create that goes on starts. */
  lemma GoesOn(p: Params, ring: IdentityKeyring, o: Owner, runId: RunId, es: seq<Event>, response: Response)
    requires ProofsOk(p, ring, o) && CreateLog(p, ring, o, runId, es, response) && |es| >= 4
    ensures es[1].verdict.Returns? && Started(p, o, es) == [Request(CreateAwait(p, o, es))]
    ensures RequestLog(CreateAwait(p, o, es), es[4..], response)
  {
    hide Propose, Prove, RequestLog, AfterAdmission;
    assert es[2..][2..] == es[4..];
  }

  /** A create is a history: its admission is one step on the tables it found, and from there on it ends in
      the tables of its log, with its reply. */
  lemma CreateIsHistory(p: Params, history: seq<Label>, ring: IdentityKeyring, o: Owner, runId: RunId,
                        es: seq<Event>, response: Response, others: seq<seq<Label>>) returns (whole: seq<Label>)
    requires ValidParams(p) && UsableRing(p, ring) && ProofsOk(p, ring, o)
    requires CreateLog(p, ring, o, runId, es, response)
    requires CreateInTurn(p, history, |WorldAfter(p, history).procs|, ring, o, runId, es, others)
    ensures var i, next := |WorldAfter(p, history).procs|, history + [CreateLabel(ring, o, runId, es)];
            var v := WorldAfter(p, whole);
      && RequestOver(v, i) && ReplyFits(v, response) && !response.NotFound? && !response.Conflict?
      && (if |es| >= 4 then
            && WorldAfter(p, next).store == es[1].after
            && RequestLeaves(p, next, i, CreateAwait(p, o, es), es[4..], others)
            && whole == AfterRequest(p, next, i, CreateAwait(p, o, es), es[4..], others)
          else
            && v.store == es[1].after
            && (whole == next || (es[1].verdict.Raises? && whole in [history, next + [Crash(i)]])))
  {
    hide Apply, WorldInv, Propose, ProofsOk, Genuine, VerdictLog, RequestLog, RequestInTurn, CreateAwait, Started;
    var w, l := WorldAfter(p, history), CreateLabel(ring, o, runId, es);
    if |es| >= 4 {
      GoesOn(p, ring, o, runId, es, response);
      ShapeHolds(p, w);
      SystemAdmits(p, w, ring, o, runId, es);
      AfterStep(p, history, l);
      RequestReaches(p, history + [l], |w.procs|, CreateAwait(p, o, es), es[4..], response, others);
      whole := AfterRequest(p, history + [l], |w.procs|, CreateAwait(p, o, es), es[4..], others);
    } else {
      StopReplies(p, ring, o, runId, es, response);
      whole := CreateStops(p, history, ring, o, runId, es, response);
    }
  }

  // ---------------------------------------------------------------- a cancel

  /** How many events a cancel that goes on takes before its first write: the read and its clock readings. */
  function CancelHead(es: seq<Event>): nat
    requires es != [] && es[0].ReadDone?
  {
    if es[0].found.Returns? && es[0].found.value.Some? && es[0].found.value.value.state.Running? then 3 else 2
  }

  function CancelTimes(es: seq<Event>): (Time, Time)
    requires es != [] && es[0].ReadDone?
  {
    var last := CancelHead(es) - 1;
    if |es| > last && es[1].ClockRead? && es[last].ClockRead? then (es[1].now, es[last].now) else (0, 0)
  }

  function CancelAwait(p: Params, r: RunRecord, es: seq<Event>): ServiceAwait
    requires es != [] && es[0].ReadDone?
  {
    AfterCancelRead(p.policy, r, CancelTimes(es).0, CancelTimes(es).1)
  }

  /** The events of a cancel, each in its turn: the read, and all that follows it. */
  ghost predicate CancelInTurn(p: Params, history: seq<Label>, i: nat, tenant: TenantId, runId: RunId,
                               es: seq<Event>, others: seq<seq<Label>>)
    requires ValidParams(p)
  {
    && es != [] && es[0].ReadDone? && InTurn(p, history, es[0])
    && (|es| > 1 ==>
          && es[0].found.Returns? && es[0].found.value.Some? && CancelHead(es) <= |es|
          && RequestInTurn(p, history + [CancelRun(tenant, runId, CancelTimes(es).0, CancelTimes(es).1)], i,
                           CancelAwait(p, es[0].found.value.value, es), es[CancelHead(es)..], others))
  }

  /** A cancel that only reads: what its reply says of the run. */
  predicate ReadReplies(w: World, tenant: TenantId, runId: RunId, response: Response) {
    match response
    case NotFound => Authorized(w.store, tenant, runId).None?
    case Conflict => runId in w.store.runs && w.store.runs[runId].state.Dispatching?
    case Cancelling(r, accepted) => if accepted then r.state.CancellationRequested? else IsTerminal(r.state)
    case Errored => true
    case _ => false
  }

  lemma CancelGoesOn(p: Params, tenant: TenantId, runId: RunId, es: seq<Event>, response: Response)
    requires CancelRunLog(p.policy, tenant, runId, es, response) && |es| > 1
    ensures es[0].ReadDone? && es[0].found.Returns? && es[0].found.value.Some? && CancelHead(es) <= |es|
    ensures RequestLog(CancelAwait(p, es[0].found.value.value, es), es[CancelHead(es)..], response)
  {
    hide RequestLog, AfterCancelRead;
  }

  lemma CancelOnlyReads(p: Params, w: World, tenant: TenantId, runId: RunId, es: seq<Event>, response: Response)
    requires WorldInv(p, w) && CancelRunLog(p.policy, tenant, runId, es, response) && |es| == 1
    requires Genuine(p.quota, es[0]) && MadeOn(es[0], w)
    ensures ReplyFits(w, response) && ReadReplies(w, tenant, runId, response)
  {
    hide RequestLog;
    assert es[..1][0] == es[0];
    RunIsOk(p, w, runId);
  }

  /** A cancel is a history: its read is one step on the tables it found, and from there on it ends in the
      tables of its log, with its reply. */
  lemma CancelIsHistory(p: Params, history: seq<Label>, tenant: TenantId, runId: RunId,
                        es: seq<Event>, response: Response, others: seq<seq<Label>>) returns (whole: seq<Label>)
    requires ValidParams(p) && CancelRunLog(p.policy, tenant, runId, es, response)
    requires CancelInTurn(p, history, |WorldAfter(p, history).procs|, tenant, runId, es, others)
    ensures var i := |WorldAfter(p, history).procs|;
            var next := history + [CancelRun(tenant, runId, CancelTimes(es).0, CancelTimes(es).1)];
            var v := WorldAfter(p, whole);
      && RequestOver(v, i) && ReplyFits(v, response)
      && (if |es| > 1 then
            var a, rest := CancelAwait(p, es[0].found.value.value, es), es[CancelHead(es)..];
            && (response.Run? || response.Cancelling? || response.Errored?)
            && RequestLeaves(p, next, i, a, rest, others) && whole == AfterRequest(p, next, i, a, rest, others)
          else whole == history && ReadReplies(v, tenant, runId, response))
  {
    hide Apply, WorldInv, Genuine, RequestLog, RequestInTurn, CancelAwait, CancelTimes, CancelHead, ReadReplies;
    var w, l := WorldAfter(p, history), CancelRun(tenant, runId, CancelTimes(es).0, CancelTimes(es).1);
    if |es| > 1 {
      var a, rest := CancelAwait(p, es[0].found.value.value, es), es[CancelHead(es)..];
      CancelGoesOn(p, tenant, runId, es, response);
      CancelStarts(p, history, tenant, runId, es, response);
      RequestReaches(p, history + [l], |w.procs|, a, rest, response, others);
      whole := AfterRequest(p, history + [l], |w.procs|, a, rest, others);
    } else {
      whole := history;
      CancelOnlyReads(p, w, tenant, runId, es, response);
    }
  }

  lemma CancelStarts(p: Params, history: seq<Label>, tenant: TenantId, runId: RunId, es: seq<Event>, response: Response)
    requires ValidParams(p) && CancelRunLog(p.policy, tenant, runId, es, response) && |es| > 1
    requires es[0].ReadDone? && es[0].found.Returns? && es[0].found.value.Some? && InTurn(p, history, es[0])
    ensures var w := WorldAfter(p, history);
            WorldAfter(p, history + [CancelRun(tenant, runId, CancelTimes(es).0, CancelTimes(es).1)]) ==
            w.(procs := w.procs + [Request(CancelAwait(p, es[0].found.value.value, es))])
  {
    hide Apply, WorldInv, Genuine, RequestLog, MadeOn, AfterCancelRead;
    var w := WorldAfter(p, history);
    ShapeHolds(p, w);
    assert es[..1][0] == es[0];
    SystemCancels(p, w, tenant, runId, es[..1], CancelTimes(es).0, CancelTimes(es).1);
    AfterStep(p, history, CancelRun(tenant, runId, CancelTimes(es).0, CancelTimes(es).1));
  }
}
