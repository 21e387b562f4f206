/** The OpenAI computer-use loop (examples/03_openai_computer_loop.py): budgets over a whole trajectory
    of model responses, with the clock, the model, the policy hook and the desktop as environment. */
module Trajectory {
  import opened Outcomes

  // ---------------------------------------------------------------- actions

  /** A parsed action; `hold_key` carries actions of its own. */
  datatype Action = Plain(kind: string) | HoldKey(nested: Forest)

  /** Nested actions, parsed one by one as they are visited; parsing may fail. */
  datatype Forest = NoMore | More(first: Action, rest: Forest) | Unparsable

  /** `_count_expanded_action_tree`. */
  function CountTree(a: Action): Outcome<nat> {
    match a
    case Plain(_) => Returns(1)
    case HoldKey(nested) =>
      var inside :- CountForest(nested);
      Returns(1 + inside)
  }

  function CountForest(f: Forest): Outcome<nat> {
    match f
    case NoMore => Returns(0)
    case Unparsable => Raises
    case More(first, rest) =>
      var here :- CountTree(first);
      var there :- CountForest(rest);
      Returns(here + there)
  }

  /** Every action of a tree, in the order the policy hook sees them. */
  function Nodes(a: Action): seq<Action> {
    match a
    case Plain(_) => [a]
    case HoldKey(nested) => [a] + ForestNodes(nested)
  }

  function ForestNodes(f: Forest): seq<Action> {
    match f
    case More(first, rest) => Nodes(first) + ForestNodes(rest)
    case _ => []
  }

  /** The count is the number of actions the desktop is asked for. */
  lemma {:induction false} CountIsNodes(a: Action)
    requires CountTree(a).Returns?
    ensures CountTree(a).value == |Nodes(a)|
    decreases a, 0
  {
    if a.HoldKey? {
      ForestCountIsNodes(a.nested);
    }
  }

  lemma {:induction false} ForestCountIsNodes(f: Forest)
    requires CountForest(f).Returns?
    ensures CountForest(f).value == |ForestNodes(f)|
    decreases f, 1
  {
    if f.More? {
      CountIsNodes(f.first);
      ForestCountIsNodes(f.rest);
    }
  }

  /** Nothing in the tree fails to parse. */
  predicate Parses(a: Action) {
    a.HoldKey? ==> ForestParses(a.nested)
  }

  predicate ForestParses(f: Forest) {
    match f
    case NoMore => true
    case Unparsable => false
    case More(first, rest) => Parses(first) && ForestParses(rest)
  }

  /** A tree can be counted exactly if all of it parses. */
  lemma {:induction false} CountableExactly(a: Action)
    ensures CountTree(a).Returns? <==> Parses(a)
    decreases a, 0
  {
    if a.HoldKey? {
      ForestCountableExactly(a.nested);
    }
  }

  lemma {:induction false} ForestCountableExactly(f: Forest)
    ensures CountForest(f).Returns? <==> ForestParses(f)
    decreases f, 1
  {
    if f.More? {
      CountableExactly(f.first);
      ForestCountableExactly(f.rest);
    }
  }

  /** An action comes before the actions it carries, and those follow at once, in their order. */
  lemma OuterFirst(a: Action)
    ensures Nodes(a)[0] == a
    ensures a.HoldKey? && a.nested.More? ==>
              Nodes(a)[1..] == Nodes(a.nested.first) + ForestNodes(a.nested.rest) && Nodes(a)[1] == a.nested.first
    ensures Nodes(a) == [a] || (a.HoldKey? && a.nested.More?)
  {
    if a.HoldKey? && a.nested.More? {
      assert Nodes(a.nested.first)[0] == a.nested.first;
    }
  }

  function AllNodes(actions: seq<Action>): seq<Action> {
    if actions == [] then [] else AllNodes(actions[..|actions| - 1]) + Nodes(actions[|actions| - 1])
  }

  lemma {:induction false} AllNodesAppend(a: seq<Action>, b: seq<Action>)
    ensures AllNodes(a + b) == AllNodes(a) + AllNodes(b)
  {
    hide Nodes;
    if b == [] {
      assert a + b == a;
    } else {
      var n := |b| - 1;
      AllNodesAppend(a, b[..n]);
      assert (a + b)[..|a| + n] == a + b[..n] && (a + b)[|a| + n] == b[n];
      Regrouped(AllNodes(a), AllNodes(b[..n]), Nodes(b[n]));
    }
  }

  lemma Regrouped(a: seq<Action>, b: seq<Action>, c: seq<Action>)
    ensures (a + b) + c == a + (b + c)
  {
  }

  lemma AllNodesAlone(a: Action)
    ensures AllNodes([a]) == Nodes(a)
  {
    assert [a][..0] == [];
  }

  predicate Countable(actions: seq<Action>) {
    forall k :: 0 <= k < |actions| ==> CountTree(actions[k]).Returns?
  }

  // ---------------------------------------------------------------- normalizing

  datatype Parsing = Accepted(action: Action) | Rejected

  datatype Amount = NoAmount | Amount(value: int)

  /** What the model sent: for a scroll, its deltas and what the parser makes of each axis. */
  datatype ProviderAction =
    | Scroll(x: int, y: int, amount: Amount, alongY: Parsing, alongX: Parsing)
    | Other(parsing: Parsing)
    | Unsupported

  /** `_split_scroll_axes`: y before x, and no scroll without a delta. */
  function Axes(x: int, y: int, amount: Amount, alongY: Parsing, alongX: Parsing): seq<Parsing> {
    var dy := if x == 0 && y == 0 && amount.Amount? then amount.value else y;
    (if dy != 0 then [alongY] else []) + (if x != 0 then [alongX] else [])
  }

  function Parsed(parts: seq<Parsing>): Outcome<seq<Action>> {
    if parts == [] then Returns([])
    else
      var earlier :- Parsed(parts[..|parts| - 1]);
      match parts[|parts| - 1]
      case Accepted(a) => Returns(earlier + [a])
      case Rejected => Raises
  }

  function NormalizedOne(p: ProviderAction): Outcome<seq<Action>> {
    match p
    case Unsupported => Raises
    case Other(parsing) => Parsed([parsing])
    case Scroll(x, y, amount, alongY, alongX) =>
      if Axes(x, y, amount, alongY, alongX) == [] then Raises else Parsed(Axes(x, y, amount, alongY, alongX))
  }

  function Normalized(actions: seq<ProviderAction>): Outcome<seq<Action>> {
    if actions == [] then Returns([])
    else
      var earlier :- Normalized(actions[..|actions| - 1]);
      var last :- NormalizedOne(actions[|actions| - 1]);
      Returns(earlier + last)
  }

  /** What one provider action becomes: a scroll along both axes is two actions, the vertical one first; a
      scroll along one axis is that one; a scroll without deltas is vertical by its amount, if that is
      not zero; anything else is itself; and it fails exactly when there is nothing left of a scroll or
      a part of it does not parse. */
  lemma OneDecides(p: ProviderAction)
    ensures var r := NormalizedOne(p);
      match p
      case Unsupported => r.Raises?
      case Other(parsing) => if parsing.Rejected? then r.Raises? else r == Returns([parsing.action])
      case Scroll(x, y, amount, alongY, alongX) =>
        if x != 0 && y != 0 then
          if alongY.Accepted? && alongX.Accepted? then r == Returns([alongY.action, alongX.action]) else r.Raises?
        else if x != 0 then
          if alongX.Accepted? then r == Returns([alongX.action]) else r.Raises?
        else if y != 0 || (amount.Amount? && amount.value != 0) then
          if alongY.Accepted? then r == Returns([alongY.action]) else r.Raises?
        else r.Raises?
  {
    match p
    case Unsupported =>
    case Other(parsing) => ParsedParts([parsing]);
    case Scroll(_, _, _, alongY, alongX) =>
      ParsedParts([alongY]);
      ParsedParts([alongX]);
      ParsedParts([alongY, alongX]);
  }

  lemma ParsedParts(parts: seq<Parsing>)
    requires 1 <= |parts| <= 2
    ensures var first, last := parts[0], parts[|parts| - 1];
      if first.Rejected? || last.Rejected? then Parsed(parts).Raises?
      else Parsed(parts) == Returns(if |parts| == 1 then [first.action] else [first.action, last.action])
  {
    ParsedOne(parts[0]);
    if |parts| == 1 {
      assert parts == [parts[0]];
    } else {
      assert parts[..|parts| - 1] == [parts[0]];
      if parts[0].Accepted? && parts[1].Accepted? {
        assert [parts[0].action] + [parts[1].action] == [parts[0].action, parts[1].action];
      }
    }
  }

  lemma ParsedOne(parsing: Parsing)
    ensures Parsed([parsing]) == if parsing.Rejected? then Raises else Returns([parsing.action])
  {
    assert [parsing][..0] == [];
    if parsing.Accepted? {
      assert [] + [parsing.action] == [parsing.action];
    }
  }

  /** A list is normalized action by action, in order; it fails exactly if one of them does. */
  lemma {:induction false} NormalizedAppends(a: seq<ProviderAction>, b: seq<ProviderAction>)
    ensures Normalized(a + b).Returns? <==> Normalized(a).Returns? && Normalized(b).Returns?
    ensures Normalized(a + b).Returns? ==> Normalized(a + b).value == Normalized(a).value + Normalized(b).value
  {
    hide NormalizedOne;
    if b == [] {
      assert a + b == a;
    } else {
      var n := |b| - 1;
      NormalizedAppends(a, b[..n]);
      assert (a + b)[..|a| + n] == a + b[..n] && (a + b)[|a| + n] == b[n];
    }
  }

  lemma NormalizedAlone(p: ProviderAction)
    ensures Normalized([p]) == NormalizedOne(p)
  {
    assert [p][..0] == [];
    if NormalizedOne(p).Returns? {
      assert [] + NormalizedOne(p).value == NormalizedOne(p).value;
    }
  }

  lemma {:induction false} FailsFromPrefix(actions: seq<ProviderAction>, n: nat)
    requires n <= |actions| && Normalized(actions[..n]).Raises?
    ensures Normalized(actions).Raises?
  {
    if n < |actions| {
      assert actions[..|actions| - 1][..n] == actions[..n];
      FailsFromPrefix(actions[..|actions| - 1], n);
    } else {
      assert actions[..n] == actions;
    }
  }

  /** Nothing is dropped: every action the model sent becomes at least one action. */
  lemma {:induction false} NormalizedIsNonempty(actions: seq<ProviderAction>)
    requires Normalized(actions).Returns?
    ensures |Normalized(actions).value| >= |actions|
  {
    if actions != [] {
      NormalizedIsNonempty(actions[..|actions| - 1]);
      ParsedKeepsLength(match actions[|actions| - 1]
        case Other(parsing) => [parsing]
        case Scroll(x, y, amount, alongY, alongX) => Axes(x, y, amount, alongY, alongX)
        case Unsupported => []);
    }
  }

  lemma {:induction false} ParsedKeepsLength(parts: seq<Parsing>)
    ensures Parsed(parts).Returns? ==> |Parsed(parts).value| == |parts|
  {
    if parts != [] {
      ParsedKeepsLength(parts[..|parts| - 1]);
    }
  }

  /** `_normalize_for_preflight`. */
  method Normalize(actions: seq<ProviderAction>) returns (r: Outcome<seq<Action>>)
    ensures r == Normalized(actions)
  {
    var normalized: seq<Action> := [];
    for k := 0 to |actions|
      invariant Normalized(actions[..k]) == Returns(normalized)
    {
      assert actions[..k + 1][..k] == actions[..k];
      var one := NormalizedOne(actions[k]);
      if one.Raises? {
        FailsFromPrefix(actions, k + 1);
        return Raises;
      }
      normalized := normalized + one.value;
    }
    assert actions[..|actions|] == actions;
    return Returns(normalized);
  }

  // ---------------------------------------------------------------- one run, as seen from outside

  datatype Limits = Limits(
    maxTurns: int,
    maxTrajectoryActions: int,
    maxBatchActions: int,
    maxElapsedSeconds: real,
    maxActionTimeoutMs: int,
    maxBatchDurationMs: int)

  predicate ValidLimits(l: Limits) {
    && l.maxTurns >= 1 && l.maxTrajectoryActions >= 1 && l.maxBatchActions >= 1
    && l.maxElapsedSeconds > 0.0 && l.maxActionTimeoutMs >= 1 && l.maxBatchDurationMs >= 1
  }

  datatype CallId = CallId(value: string)

  datatype ResponseId = ResponseId(value: string)

  datatype Call = Call(callId: CallId, actions: seq<ProviderAction>)

  /** A model response, with its computer calls. */
  datatype Response = Response(id: ResponseId, calls: seq<Call>)

  datatype Input = Task | Outputs(previous: ResponseId, answered: seq<CallId>)

  /** A batch sent to the desktop: every action carries the timeout.  `readAt` is the clock reading
      its timeout was computed from. */
  datatype Step = Step(callId: CallId, actions: seq<Action>, timeoutMs: int, readAt: real)

  datatype Event =
    | Requested(input: Input, timeout: real, answer: Outcome<Response>)
    | PolicyAsked(action: Action, allowed: bool)
    | Stepped(step: Step)

  datatype Turn = Turn(input: Input, timeout: real, readAt: real,
                       answer: Outcome<Response>, asks: seq<Event>, steps: seq<Step>)

  function SteppedEvents(steps: seq<Step>): seq<Event> {
    if steps == [] then [] else SteppedEvents(steps[..|steps| - 1]) + [Stepped(steps[|steps| - 1])]
  }

  /** A turn's events: the request, then every policy question, then every step. */
  function TurnEvents(t: Turn): seq<Event> {
    [Requested(t.input, t.timeout, t.answer)] + t.asks + SteppedEvents(t.steps)
  }

  function RunEvents(turns: seq<Turn>): seq<Event> {
    if turns == [] then [] else RunEvents(turns[..|turns| - 1]) + TurnEvents(turns[|turns| - 1])
  }

  // ---------------------------------------------------------------- what has to hold of it

  /** The actions a call comes to, when its preflight gets that far. */
  function ActionsOf(c: Call): seq<Action> {
    match Normalized(c.actions)
    case Returns(actions) => actions
    case Raises => []
  }

  function Expanded(c: Call): nat {
    |AllNodes(ActionsOf(c))|
  }

  function ExpandedAll(calls: seq<Call>): nat {
    if calls == [] then 0 else ExpandedAll(calls[..|calls| - 1]) + Expanded(calls[|calls| - 1])
  }

  predicate CallOk(l: Limits, c: Call) {
    && c.actions != [] && Normalized(c.actions).Returns? && Countable(ActionsOf(c))
    && 1 <= Expanded(c) <= l.maxBatchActions
  }

  function Allowed(nodes: seq<Action>): seq<Event> {
    seq(|nodes|, k requires 0 <= k < |nodes| => PolicyAsked(nodes[k], true))
  }

  /** The policy questions of a response that passes: one for every action of every call, all allowed. */
  function AllowedAll(calls: seq<Call>): seq<Event> {
    if calls == [] then []
    else AllowedAll(calls[..|calls| - 1]) + Allowed(AllNodes(ActionsOf(calls[|calls| - 1])))
  }

  predicate CallAt(l: Limits, calls: seq<Call>, k: int) {
    0 <= k < |calls| ==> CallOk(l, calls[k])
  }

  ghost predicate AllCallsOk(l: Limits, calls: seq<Call>) {
    forall k {:trigger CallAt(l, calls, k)} :: CallAt(l, calls, k)
  }

  /** The whole response passes preflight: every call, the policy, and the trajectory budget. */
  ghost predicate Preflighted(l: Limits, policy: bool, used: nat, calls: seq<Call>, asks: seq<Event>) {
    && AllCallsOk(l, calls)
    && used + ExpandedAll(calls) <= l.maxTrajectoryActions
    && asks == if policy then AllowedAll(calls) else []
  }

  /** A step is its call's actions. */
  predicate Sends(c: Call, s: Step) {
    s.callId == c.callId && Normalized(c.actions) == Returns(s.actions)
  }

  /** `int`: truncation toward zero. */
  function Truncated(x: real): int {
    if x >= 0.0 then x.Floor else -((-x).Floor)
  }

  /** What is left of the run for one batch, in milliseconds, at a clock reading. */
  function RemainingMs(l: Limits, startedAt: real, readAt: real): int {
    var left := Truncated((l.maxElapsedSeconds - (readAt - startedAt)) * 1000.0);
    if l.maxBatchDurationMs <= left then l.maxBatchDurationMs else left
  }

  /** What is left is the most whole milliseconds that fit both the batch and the run; nothing is left
      exactly when less than one millisecond of the run is. */
  lemma RemainingIsMost(l: Limits, startedAt: real, readAt: real, ms: int)
    requires ValidLimits(l) && ms >= 1
    ensures ms <= RemainingMs(l, startedAt, readAt) <==>
              ms <= l.maxBatchDurationMs && readAt + ms as real / 1000.0 <= startedAt + l.maxElapsedSeconds
    ensures RemainingMs(l, startedAt, readAt) >= 1 <==> readAt + 0.001 <= startedAt + l.maxElapsedSeconds
  {
  }

  /** All slots together, one a action and one to spare, fit into the batch duration and into what was
      left of the run when the timeout was computed. */
  predicate SlotsFit(l: Limits, startedAt: real, slots: int, timeoutMs: int, readAt: real) {
    && 1 <= timeoutMs <= l.maxActionTimeoutMs
    && slots * timeoutMs <= l.maxBatchDurationMs
    && readAt + (slots * timeoutMs) as real / 1000.0 <= startedAt + l.maxElapsedSeconds
  }

  /** And no action could be given a millisecond more. */
  predicate LargestShare(l: Limits, startedAt: real, slots: int, timeoutMs: int, readAt: real) {
    timeoutMs == l.maxActionTimeoutMs || slots * (timeoutMs + 1) > RemainingMs(l, startedAt, readAt)
  }

  predicate StepOk(l: Limits, startedAt: real, c: Call, s: Step) {
    && Sends(c, s)
    && 1 <= |AllNodes(s.actions)| <= l.maxBatchActions
    && SlotsFit(l, startedAt, |AllNodes(s.actions)| + 1, s.timeoutMs, s.readAt)
    && LargestShare(l, startedAt, |AllNodes(s.actions)| + 1, s.timeoutMs, s.readAt)
  }

  predicate StepAt(l: Limits, startedAt: real, calls: seq<Call>, steps: seq<Step>, k: int) {
    0 <= k < |steps| <= |calls| ==> StepOk(l, startedAt, calls[k], steps[k])
  }

  ghost predicate StepsOk(l: Limits, startedAt: real, calls: seq<Call>, steps: seq<Step>) {
    |steps| <= |calls|
    && forall k {:trigger StepAt(l, startedAt, calls, steps, k)} :: StepAt(l, startedAt, calls, steps, k)
  }

  /** A request may take exactly what was left of the run when it was made. */
  predicate RequestFits(l: Limits, startedAt: real, t: Turn) {
    0.0 < t.timeout && startedAt <= t.readAt && t.readAt + t.timeout == startedAt + l.maxElapsedSeconds
  }

  ghost predicate TurnOk(l: Limits, policy: bool, startedAt: real, used: nat, t: Turn) {
    && RequestFits(l, startedAt, t)
    && (forall k :: 0 <= k < |t.asks| ==> t.asks[k].PolicyAsked?)
    && (t.steps != [] ==> t.answer.Returns? && Preflighted(l, policy, used, t.answer.value.calls, t.asks))
    && (t.answer.Returns? ==> StepsOk(l, startedAt, t.answer.value.calls, t.steps))
  }

  function CallIds(calls: seq<Call>): seq<CallId> {
    seq(|calls|, k requires 0 <= k < |calls| => calls[k].callId)
  }

  /** Every call of the answer was worked off. */
  predicate TurnDone(t: Turn) {
    t.answer.Returns? && |t.steps| == |t.answer.value.calls| > 0
  }

  /** What the next request has to carry: the output of every call, in order. */
  function AnswerTo(t: Turn): Input
    requires TurnDone(t)
  {
    Outputs(t.answer.value.id, CallIds(t.answer.value.calls))
  }

  predicate InputFits(turns: seq<Turn>, input: Input) {
    if turns == [] then input == Task
    else TurnDone(turns[|turns| - 1]) && input == AnswerTo(turns[|turns| - 1])
  }

  function StepCount(steps: seq<Step>): nat {
    if steps == [] then 0 else StepCount(steps[..|steps| - 1]) + |AllNodes(steps[|steps| - 1].actions)|
  }

  /** Actions dispatched so far. */
  function Dispatched(turns: seq<Turn>): nat {
    if turns == [] then 0 else Dispatched(turns[..|turns| - 1]) + StepCount(turns[|turns| - 1].steps)
  }

  ghost predicate RunOk(l: Limits, policy: bool, startedAt: real, turns: seq<Turn>) {
    turns == [] || (
      var n := |turns| - 1;
      && RunOk(l, policy, startedAt, turns[..n])
      && TurnOk(l, policy, startedAt, Dispatched(turns[..n]), turns[n])
      && InputFits(turns[..n], turns[n].input))
  }

  lemma SentIsExpanded(c: Call, s: Step)
    requires Sends(c, s)
    ensures |AllNodes(s.actions)| == Expanded(c)
  {
  }

  lemma {:induction false} StepsCountCalls(calls: seq<Call>, steps: seq<Step>, n: nat)
    requires n <= |steps| <= |calls|
        && forall k {:trigger steps[k]} :: 0 <= k < |steps| ==> |AllNodes(steps[k].actions)| == Expanded(calls[k])
    ensures StepCount(steps[..n]) == ExpandedAll(calls[..n])
  {
    hide AllNodes, Expanded;
    if n > 0 {
      StepsCountCalls(calls, steps, n - 1);
      assert steps[..n][..n - 1] == steps[..n - 1] && steps[..n][n - 1] == steps[n - 1];
      assert calls[..n][..n - 1] == calls[..n - 1] && calls[..n][n - 1] == calls[n - 1];
    }
  }

  lemma {:induction false} FewerCallsFewerActions(calls: seq<Call>, n: nat)
    requires n <= |calls|
    ensures ExpandedAll(calls[..n]) <= ExpandedAll(calls)
  {
    if n < |calls| {
      FewerCallsFewerActions(calls[..|calls| - 1], n);
      assert calls[..|calls| - 1][..n] == calls[..n];
    } else {
      assert calls[..n] == calls;
    }
  }

  lemma StepsSpendPlan(l: Limits, startedAt: real, calls: seq<Call>, steps: seq<Step>)
    requires StepsOk(l, startedAt, calls, steps)
    ensures StepCount(steps) <= ExpandedAll(calls)
    ensures |steps| == |calls| ==> StepCount(steps) == ExpandedAll(calls)
  {
    forall k {:trigger steps[k]} | 0 <= k < |steps| ensures |AllNodes(steps[k].actions)| == Expanded(calls[k]) {
      assert StepAt(l, startedAt, calls, steps, k);
      SentIsExpanded(calls[k], steps[k]);
    }
    StepsCountCalls(calls, steps, |steps|);
    FewerCallsFewerActions(calls, |steps|);
    assert steps[..|steps|] == steps;
    assert |steps| == |calls| ==> calls[..|steps|] == calls;
  }

  /** The actions that a log sends to the desktop, nested ones included. */
  function ActionsSent(log: seq<Event>): nat {
    if log == [] then 0
    else (if log[0].Stepped? then |AllNodes(log[0].step.actions)| else 0) + ActionsSent(log[1..])
  }

  lemma {:induction false} ActionsSentAppend(a: seq<Event>, b: seq<Event>)
    ensures ActionsSent(a + b) == ActionsSent(a) + ActionsSent(b)
  {
    if a == [] {
      assert a + b == b;
    } else {
      assert (a + b)[1..] == a[1..] + b;
      ActionsSentAppend(a[1..], b);
    }
  }

  lemma {:induction false} StepsAreSent(steps: seq<Step>)
    ensures ActionsSent(SteppedEvents(steps)) == StepCount(steps)
  {
    if steps != [] {
      var last := Stepped(steps[|steps| - 1]);
      StepsAreSent(steps[..|steps| - 1]);
      ActionsSentAppend(SteppedEvents(steps[..|steps| - 1]), [last]);
      assert [last][1..] == [];
    }
  }

  lemma {:induction false} AsksSendNothing(asks: seq<Event>)
    requires forall k :: 0 <= k < |asks| ==> asks[k].PolicyAsked?
    ensures ActionsSent(asks) == 0
  {
    if asks != [] {
      assert forall k :: 0 <= k < |asks| - 1 ==> asks[1..][k] == asks[k + 1];
      AsksSendNothing(asks[1..]);
    }
  }

  lemma TurnSends(t: Turn)
    requires forall k :: 0 <= k < |t.asks| ==> t.asks[k].PolicyAsked?
    ensures ActionsSent(TurnEvents(t)) == StepCount(t.steps)
  {
    var first := [Requested(t.input, t.timeout, t.answer)];
    AsksSendNothing(t.asks);
    StepsAreSent(t.steps);
    assert first[1..] == [];
    ActionsSentAppend(first, t.asks);
    ActionsSentAppend(first + t.asks, SteppedEvents(t.steps));
  }

  /** Over the whole run the log never sends the desktop more actions than the trajectory allows. */
  lemma {:induction false} TrajectoryBudget(l: Limits, policy: bool, startedAt: real, turns: seq<Turn>)
    requires ValidLimits(l) && RunOk(l, policy, startedAt, turns)
    ensures ActionsSent(RunEvents(turns)) == Dispatched(turns) <= l.maxTrajectoryActions
  {
    if turns != [] {
      TurnSends(turns[|turns| - 1]);
      ActionsSentAppend(RunEvents(turns[..|turns| - 1]), TurnEvents(turns[|turns| - 1]));
      var t := turns[|turns| - 1];
      TrajectoryBudget(l, policy, startedAt, turns[..|turns| - 1]);
      if t.steps != [] {
        StepsSpendPlan(l, startedAt, t.answer.value.calls, t.steps);
      }
    }
  }

  /** The turn a step belongs to, and everything that had to hold before it was sent. */
  ghost predicate SentIn(l: Limits, policy: bool, startedAt: real, turns: seq<Turn>, i: nat, s: Step)
    requires i < |turns|
  {
    var t := turns[i];
    && s in t.steps && t.answer.Returns?
    && Preflighted(l, policy, Dispatched(turns[..i]), t.answer.value.calls, t.asks)
    && exists c :: c in t.answer.value.calls && StepOk(l, startedAt, c, s)
  }

  lemma {:induction false} LoggedStep(steps: seq<Step>, s: Step)
    requires Stepped(s) in SteppedEvents(steps)
    ensures s in steps
  {
    if s != steps[|steps| - 1] {
      LoggedStep(steps[..|steps| - 1], s);
    }
  }

  /** A step's slots, one an action and one to spare, fit the batch and what was left of the run. */
  predicate InTime(l: Limits, startedAt: real, s: Step) {
    && 1 <= |AllNodes(s.actions)| <= l.maxBatchActions && 1 <= s.timeoutMs <= l.maxActionTimeoutMs
    && (|AllNodes(s.actions)| + 1) * s.timeoutMs <= l.maxBatchDurationMs
    && s.readAt + ((|AllNodes(s.actions)| + 1) * s.timeoutMs) as real / 1000.0 <= startedAt + l.maxElapsedSeconds
  }

  /** Every request may take exactly what is left of the run at its last clock reading. */
  lemma {:induction false} EveryRequestFits(l: Limits, policy: bool, startedAt: real, turns: seq<Turn>, k: nat)
    requires RunOk(l, policy, startedAt, turns) && k < |turns|
    ensures turns[k].timeout == l.maxElapsedSeconds - (turns[k].readAt - startedAt) > 0.0
    ensures turns[k].readAt >= startedAt
  {
    if k < |turns| - 1 {
      EveryRequestFits(l, policy, startedAt, turns[..|turns| - 1], k);
    }
  }

  /** The first request carries the task; every later one carries the outputs of all calls of the response
      before it, call by call, and all of these were sent. */
  lemma {:induction false} EveryRequestAnswers(l: Limits, policy: bool, startedAt: real, turns: seq<Turn>, k: nat)
    requires RunOk(l, policy, startedAt, turns) && k < |turns|
    ensures k == 0 ==> turns[k].input.Task?
    ensures k > 0 ==>
      && turns[k].input.Outputs? && turns[k - 1].answer.Returns?
      && var before := turns[k - 1].answer.value;
         && turns[k].input.previous == before.id && before.calls != []
         && |turns[k].input.answered| == |turns[k - 1].steps| == |before.calls|
         && forall i :: 0 <= i < |before.calls| ==>
              turns[k].input.answered[i] == before.calls[i].callId == turns[k - 1].steps[i].callId
  {
    hide TurnOk;
    if k < |turns| - 1 {
      EveryRequestAnswers(l, policy, startedAt, turns[..|turns| - 1], k);
    } else if k > 0 {
      var before := turns[k - 1];
      assert turns[..k][k - 1] == before && RunOk(l, policy, startedAt, turns[..k]);
      assert TurnOk(l, policy, startedAt, Dispatched(turns[..k - 1]), before) by {
        assert turns[..k][..k - 1] == turns[..k - 1];
      }
      CallIdsOfSteps(l, policy, startedAt, Dispatched(turns[..k - 1]), before);
    }
  }

  lemma CallIdsOfSteps(l: Limits, policy: bool, startedAt: real, used: nat, t: Turn)
    requires TurnOk(l, policy, startedAt, used, t) && t.answer.Returns?
    ensures forall i :: 0 <= i < |t.steps| <= |t.answer.value.calls| ==>
              t.steps[i].callId == t.answer.value.calls[i].callId
  {
    forall i | 0 <= i < |t.steps| <= |t.answer.value.calls|
      ensures t.steps[i].callId == t.answer.value.calls[i].callId
    {
      assert StepAt(l, startedAt, t.answer.value.calls, t.steps, i);
    }
  }

  /** Every step in the log belongs to a response whose calls had all passed preflight, budget and
      policy included, and keeps within its limits. */
  lemma {:induction false} EveryStepWasPreflighted(l: Limits, policy: bool, startedAt: real, turns: seq<Turn>, s: Step)
    requires RunOk(l, policy, startedAt, turns) && Stepped(s) in RunEvents(turns)
    ensures exists i :: 0 <= i < |turns| && SentIn(l, policy, startedAt, turns, i, s)
    ensures InTime(l, startedAt, s)
  {
    hide StepOk, InTime, InputFits, Preflighted;
    var n := |turns| - 1;
    if Stepped(s) in RunEvents(turns[..n]) {
      EveryStepWasPreflighted(l, policy, startedAt, turns[..n], s);
      var i :| 0 <= i < n && SentIn(l, policy, startedAt, turns[..n], i, s);
      assert turns[..n][..i] == turns[..i];
      assert SentIn(l, policy, startedAt, turns, i, s);
    } else {
      StepOfTurn(l, policy, startedAt, Dispatched(turns[..n]), turns[n], s);
      assert SentIn(l, policy, startedAt, turns, n, s);
    }
  }

  lemma StepOfTurn(l: Limits, policy: bool, startedAt: real, used: nat, t: Turn, s: Step)
    requires TurnOk(l, policy, startedAt, used, t) && Stepped(s) in TurnEvents(t)
    ensures s in t.steps && t.answer.Returns? && exists c :: c in t.answer.value.calls && StepOk(l, startedAt, c, s)
    ensures InTime(l, startedAt, s)
  {
    assert Stepped(s) in SteppedEvents(t.steps);
    LoggedStep(t.steps, s);
    var k :| 0 <= k < |t.steps| && t.steps[k] == s;
    assert StepAt(l, startedAt, t.answer.value.calls, t.steps, k);
    assert t.answer.value.calls[k] in t.answer.value.calls;
  }

  // ---------------------------------------------------------------- the environment

  datatype Error =
    | InvalidLimits
    | Deadline
    | ProviderFailed
    | TurnLimit
    | PreflightFailed
    | BatchLimit
    | TrajectoryLimit
    | StepFailed
    | FellThrough

  datatype Decision = NoDecision | Allow | Deny | HookRaises

  /** The clock, the model, the policy hook and the desktop; what they are asked is logged. */
  class Environment {
    var now: real
    var log: seq<Event>

    constructor ()
      ensures log == []
    {
      now, log := 0.0, [];
    }

    /** `monotonic`. */
    method Monotonic() returns (t: real)
      modifies this`now
      ensures t == now >= old(now)
    {
      var passed: real := *;
      now := if passed > 0.0 then now + passed else now;
      t := now;
    }

    method CreateResponse(input: Input, timeout: real) returns (answer: Outcome<Response>)
      modifies this`log
      ensures log == old(log) + [Requested(input, timeout, answer)]
    {
      var raises: bool, response: Response := *, *;
      answer := if raises then Raises else Returns(response);
      log := log + [Requested(input, timeout, answer)];
    }

    /** `before_action`: no decision counts as allowed. */
    method BeforeAction(a: Action) returns (allowed: bool)
      modifies this`log
      ensures log == old(log) + [PolicyAsked(a, allowed)]
    {
      var decision: Decision := *;
      allowed := decision.NoDecision? || decision.Allow?;
      log := log + [PolicyAsked(a, allowed)];
    }

    /** `computer.step`: the batch succeeds, or it raises or reports a failure. */
    method Step(s: Step) returns (ok: bool)
      modifies this`log
      ensures log == old(log) + [Stepped(s)]
    {
      ok := *;
      log := log + [Stepped(s)];
    }
  }

  // ---------------------------------------------------------------- time

  /** `_remaining_batch_timeout_ms`. */
  method RemainingBatchTimeoutMs(env: Environment, l: Limits, startedAt: real)
    returns (r: Result<int, Error>, readAt: real)
    modifies env`now
    ensures readAt == env.now >= old(env.now)
    ensures r.Err? ==> r.error.Deadline? && RemainingMs(l, startedAt, readAt) < 1
    ensures r.Ok? ==> r.value == RemainingMs(l, startedAt, readAt) <= l.maxBatchDurationMs
    ensures r.Ok? ==> readAt + r.value as real / 1000.0 <= startedAt + l.maxElapsedSeconds
    ensures r.Ok? && l.maxBatchDurationMs >= 1 ==> r.value >= 1
  {
    readAt := env.Monotonic();
    var remainingMs := Truncated((l.maxElapsedSeconds - (readAt - startedAt)) * 1000.0);
    if remainingMs < 1 {
      return Err(Deadline), readAt;
    }
    r := Ok(if l.maxBatchDurationMs <= remainingMs then l.maxBatchDurationMs else remainingMs);
  }

  /** `_check_deadline`. */
  method DeadlinePassed(env: Environment, l: Limits, startedAt: real) returns (passed: bool)
    modifies env`now
    ensures env.now >= old(env.now) && (passed <==> env.now - startedAt > l.maxElapsedSeconds)
  {
    var t := env.Monotonic();
    passed := t - startedAt > l.maxElapsedSeconds;
  }

  /** The timeout of one batch: the largest equal share of what is left, and at least a millisecond. */
  method Allocate(env: Environment, l: Limits, startedAt: real, expanded: nat)
    returns (r: Result<int, Error>, readAt: real)
    requires ValidLimits(l)
    modifies env`now
    ensures readAt == env.now >= old(env.now)
    ensures r.Err? ==> r.error.Deadline?
    ensures r.Err? <==> RemainingMs(l, startedAt, readAt) < expanded + 1
    ensures r.Ok? ==> r.value == (var share := RemainingMs(l, startedAt, readAt) / (expanded + 1);
                                  if l.maxActionTimeoutMs <= share then l.maxActionTimeoutMs else share)
    ensures r.Ok? ==>
              SlotsFit(l, startedAt, expanded + 1, r.value, readAt)
              && LargestShare(l, startedAt, expanded + 1, r.value, readAt)
  {
    var remaining;
    remaining, readAt := RemainingBatchTimeoutMs(env, l, startedAt);
    if remaining.Err? {
      return Err(remaining.error), readAt;
    }
    var slots := expanded + 1;
    var share := remaining.value / slots;
    var timeoutMs := if l.maxActionTimeoutMs <= share then l.maxActionTimeoutMs else share;
    ShareIsLargest(slots, remaining.value);
    if timeoutMs < 1 {
      return Err(Deadline), readAt;
    }
    ShareFits(slots, remaining.value, timeoutMs);
    r := Ok(timeoutMs);
  }

  lemma ShareIsLargest(slots: int, remaining: int)
    requires slots >= 1 && remaining >= 0
    ensures slots * (remaining / slots + 1) > remaining
    ensures remaining / slots >= 1 <==> remaining >= slots
  {
  }

  lemma ShareFits(slots: int, remaining: int, timeoutMs: int)
    requires slots >= 1 && 0 <= timeoutMs <= remaining / slots
    ensures slots * timeoutMs <= remaining
  {
    assert slots * timeoutMs <= slots * (remaining / slots);
  }

  // ---------------------------------------------------------------- preflight

  predicate AreAsks(events: seq<Event>) {
    forall k :: 0 <= k < |events| ==> events[k].PolicyAsked?
  }

  /** The questions are those about the first of these actions, in order; all but the last were allowed,
      and that one was denied. */
  predicate DeniedAt(nodes: seq<Action>, asks: seq<Event>) {
    && 0 < |asks| <= |nodes|
    && asks == Allowed(nodes[..|asks| - 1]) + [PolicyAsked(nodes[|asks| - 1], false)]
  }

  /** `_preflight_policy_tree`: asks about every action, outer before inner, until one is denied. */
  method AskTree(env: Environment, a: Action) returns (ok: bool, ghost asks: seq<Event>)
    modifies env`log
    ensures env.log == old(env.log) + asks
    ensures if ok then asks == Allowed(Nodes(a)) else DeniedAt(Nodes(a), asks)
    decreases a, 0
  {
    ok := env.BeforeAction(a);
    asks := [PolicyAsked(a, ok)];
    if ok && a.HoldKey? {
      ghost var more;
      ok, more := AskForest(env, a.nested);
      JoinAsks([a], ForestNodes(a.nested), asks, more, ok);
      asks := asks + more;
    }
  }

  method AskForest(env: Environment, f: Forest) returns (ok: bool, ghost asks: seq<Event>)
    modifies env`log
    ensures env.log == old(env.log) + asks
    ensures if ok then asks == Allowed(ForestNodes(f)) else DeniedAt(ForestNodes(f), asks)
    decreases f, 1
  {
    ok, asks := true, [];
    if f.More? {
      ok, asks := AskTree(env, f.first);
      if ok {
        ghost var more;
        ok, more := AskForest(env, f.rest);
        JoinAsks(Nodes(f.first), ForestNodes(f.rest), asks, more, ok);
        asks := asks + more;
      }
    }
  }

  lemma JoinAsks(a: seq<Action>, b: seq<Action>, first: seq<Event>, second: seq<Event>, ok: bool)
    requires first == Allowed(a) && if ok then second == Allowed(b) else DeniedAt(b, second)
    ensures if ok then first + second == Allowed(a + b) else DeniedAt(a + b, first + second)
  {
    if !ok {
      var n := |second| - 1;
      assert (a + b)[..|a| + n] == a + b[..n];
      assert Allowed(a + b[..n]) == Allowed(a) + Allowed(b[..n]);
    }
  }

  lemma DeniedInFront(a: seq<Action>, b: seq<Action>, asks: seq<Event>)
    requires DeniedAt(a, asks)
    ensures DeniedAt(a + b, asks)
  {
    assert (a + b)[..|asks| - 1] == a[..|asks| - 1];
  }

  lemma {:induction false} NodesOfFirst(actions: seq<Action>, k: nat) returns (rest: seq<Action>)
    requires k <= |actions|
    ensures AllNodes(actions) == AllNodes(actions[..k]) + rest
  {
    if k == |actions| {
      rest := [];
      assert actions[..k] == actions;
    } else {
      var n := |actions| - 1;
      var earlier := NodesOfFirst(actions[..n], k);
      assert actions[..n][..k] == actions[..k];
      rest := earlier + Nodes(actions[n]);
    }
  }

  /** `_preflight_policy`. */
  method AskPolicy(env: Environment, policy: bool, actions: seq<Action>) returns (ok: bool, ghost asks: seq<Event>)
    modifies env`log
    ensures env.log == old(env.log) + asks
    ensures if ok then asks == if policy then Allowed(AllNodes(actions)) else []
            else policy && DeniedAt(AllNodes(actions), asks)
  {
    ok, asks := true, [];
    if !policy {
      return;
    }
    for k := 0 to |actions|
      invariant ok && asks == Allowed(AllNodes(actions[..k])) && env.log == old(env.log) + asks
    {
      ghost var more;
      ok, more := AskTree(env, actions[k]);
      JoinAsks(AllNodes(actions[..k]), Nodes(actions[k]), asks, more, ok);
      assert actions[..k + 1][..k] == actions[..k];
      asks := asks + more;
      if !ok {
        ghost var rest := NodesOfFirst(actions, k + 1);
        DeniedInFront(AllNodes(actions[..k + 1]), rest, asks);
        return;
      }
    }
    assert actions[..|actions|] == actions;
  }

  function CountActions(actions: seq<Action>): Outcome<nat> {
    if actions == [] then Returns(0)
    else
      var earlier :- CountActions(actions[..|actions| - 1]);
      var last :- CountTree(actions[|actions| - 1]);
      Returns(earlier + last)
  }

  lemma {:induction false} CountActionsIsNodes(actions: seq<Action>)
    ensures CountActions(actions).Returns? <==> Countable(actions)
    ensures Countable(actions) ==> CountActions(actions).value == |AllNodes(actions)|
  {
    if actions != [] {
      var n := |actions| - 1;
      CountActionsIsNodes(actions[..n]);
      if CountTree(actions[n]).Returns? {
        CountIsNodes(actions[n]);
      }
      assert Countable(actions) <==> Countable(actions[..n]) && CountTree(actions[n]).Returns?;
    }
  }

  /** At least one action a call, so at least one node. */
  lemma {:induction false} NodesNotFewer(actions: seq<Action>)
    ensures |AllNodes(actions)| >= |actions|
  {
    if actions != [] {
      NodesNotFewer(actions[..|actions| - 1]);
    }
  }

  datatype Checked = Checked(call: Call, actions: seq<Action>, expanded: nat)

  /** The call's actions are too many for one batch, and nothing else is wrong with them. */
  predicate TooMany(l: Limits, c: Call) {
    && c.actions != [] && Normalized(c.actions).Returns? && Countable(ActionsOf(c))
    && Expanded(c) > l.maxBatchActions
  }

  /** Why a call fails: it is itself not in order, and nothing is asked about it, or one of its actions is
      denied. */
  predicate CallFails(l: Limits, policy: bool, c: Call, asks: seq<Event>, e: Error) {
    if !CallOk(l, c) then asks == [] && e == if TooMany(l, c) then BatchLimit else PreflightFailed
    else policy && DeniedAt(AllNodes(ActionsOf(c)), asks) && e.PreflightFailed?
  }

  function AsksOf(policy: bool, calls: seq<Call>): seq<Event> {
    if policy then AllowedAll(calls) else []
  }

  /** Call `k` is the first to fail, after every question about the calls before it was allowed. */
  ghost predicate FailsAt(l: Limits, policy: bool, calls: seq<Call>, k: nat, asks: seq<Event>, e: Error) {
    && k < |calls| && AllCallsOk(l, calls[..k])
    && exists last :: asks == AsksOf(policy, calls[..k]) + last && CallFails(l, policy, calls[k], last, e)
  }

  /** Why a preflight fails: at its first failing call, or over the trajectory's budget, if all of them
      pass. */
  ghost predicate PreflightFails(l: Limits, policy: bool, used: nat, calls: seq<Call>, asks: seq<Event>, e: Error) {
    if e.TrajectoryLimit? then
      AllCallsOk(l, calls) && asks == AsksOf(policy, calls) && used + ExpandedAll(calls) > l.maxTrajectoryActions
    else exists k :: FailsAt(l, policy, calls, k, asks, e)
  }

  /** A call is in order exactly if it has actions, all of them normalize, every nested one parses, and
      together they are no more than a batch allows. */
  lemma CallOkExactly(l: Limits, c: Call)
    ensures CallOk(l, c) <==>
      && c.actions != [] && Normalized(c.actions).Returns?
      && (forall k :: 0 <= k < |Normalized(c.actions).value| ==> Parses(Normalized(c.actions).value[k]))
      && |AllNodes(Normalized(c.actions).value)| <= l.maxBatchActions
  {
    if Normalized(c.actions).Returns? {
      var actions := Normalized(c.actions).value;
      forall k | 0 <= k < |actions| ensures CountTree(actions[k]).Returns? <==> Parses(actions[k]) {
        CountableExactly(actions[k]);
      }
      NormalizedIsNonempty(c.actions);
      NodesNotFewer(actions);
    }
  }

  /** The preflight of one call: it passes exactly when its actions parse and stay within the batch
      cap, and the policy allows all of them. */
  method PreflightCall(env: Environment, l: Limits, policy: bool, c: Call)
    returns (r: Result<Checked, Error>, ghost asks: seq<Event>)
    modifies env`log
    ensures env.log == old(env.log) + asks && AreAsks(asks)
    ensures r.Ok? ==> CallOk(l, c) && r.value == Checked(c, ActionsOf(c), Expanded(c))
    ensures r.Ok? ==> asks == if policy then Allowed(AllNodes(ActionsOf(c))) else []
    ensures r.Err? ==> CallFails(l, policy, c, asks, r.error)
    ensures r.Err? && r.error.BatchLimit? ==> |AllNodes(ActionsOf(c))| > l.maxBatchActions
  {
    asks := [];
    if c.actions == [] {
      return Err(PreflightFailed), [];
    }
    var normalized := Normalize(c.actions);
    if normalized.Raises? {
      return Err(PreflightFailed), [];
    }
    var actions := normalized.value;
    var expanded := CountActions(actions);
    CountActionsIsNodes(actions);
    NormalizedIsNonempty(c.actions);
    NodesNotFewer(actions);
    if expanded.Raises? {
      return Err(PreflightFailed), [];
    }
    if expanded.value > l.maxBatchActions {
      return Err(BatchLimit), [];
    }
    var ok;
    ok, asks := AskPolicy(env, policy, actions);
    if !ok {
      return Err(PreflightFailed), asks;
    }
    r := Ok(Checked(c, actions, expanded.value));
  }

  predicate CheckedAt(calls: seq<Call>, checked: seq<Checked>, k: int) {
    0 <= k < |calls| && k < |checked| ==> checked[k] == Checked(calls[k], ActionsOf(calls[k]), Expanded(calls[k]))
  }

  ghost predicate AllChecked(calls: seq<Call>, checked: seq<Checked>) {
    |checked| == |calls| && forall k {:trigger CheckedAt(calls, checked, k)} :: CheckedAt(calls, checked, k)
  }

  lemma OneMoreCall(l: Limits, calls: seq<Call>, k: nat)
    requires k < |calls| && AllCallsOk(l, calls[..k]) && CallOk(l, calls[k])
    ensures AllCallsOk(l, calls[..k + 1])
  {
    var some := calls[..k + 1];
    forall i ensures CallAt(l, some, i) {
      assert CallAt(l, calls[..k], i);
    }
  }

  lemma OneMoreChecked(calls: seq<Call>, checked: seq<Checked>, k: nat, one: Checked)
    requires k < |calls| && AllChecked(calls[..k], checked)
    requires one == Checked(calls[k], ActionsOf(calls[k]), Expanded(calls[k]))
    ensures AllChecked(calls[..k + 1], checked + [one])
  {
    var some, more := calls[..k + 1], checked + [one];
    forall i ensures CheckedAt(some, more, i) {
      assert CheckedAt(calls[..k], checked, i);
    }
  }

  lemma OneMoreCounted(calls: seq<Call>, k: nat)
    requires k < |calls|
    ensures ExpandedAll(calls[..k + 1]) == ExpandedAll(calls[..k]) + Expanded(calls[k])
    ensures AllowedAll(calls[..k + 1]) == AllowedAll(calls[..k]) + Allowed(AllNodes(ActionsOf(calls[k])))
  {
    assert calls[..k + 1][..k] == calls[..k];
  }

  lemma MoreAsks(before: seq<Event>, first: seq<Event>, second: seq<Event>)
    requires AreAsks(first) && AreAsks(second)
    ensures AreAsks(first + second)
    ensures before + first + second == before + (first + second)
  {
  }

  datatype Plan = Plan(checked: seq<Checked>, count: nat)

  /** The loop of the first phase. */
  method CheckCalls(env: Environment, l: Limits, policy: bool, calls: seq<Call>)
    returns (r: Result<Plan, Error>, ghost asks: seq<Event>)
    modifies env`log
    ensures env.log == old(env.log) + asks && AreAsks(asks)
    ensures r.Ok? ==>
              AllCallsOk(l, calls) && AllChecked(calls, r.value.checked)
              && r.value.count == ExpandedAll(calls)
    ensures r.Ok? ==> asks == AsksOf(policy, calls)
    ensures r.Err? ==> exists k :: FailsAt(l, policy, calls, k, asks, r.error)
  {
    var checked: seq<Checked> := [];
    var count := 0;
    asks := [];
    for k := 0 to |calls|
      invariant AllCallsOk(l, calls[..k]) && AllChecked(calls[..k], checked) && count == ExpandedAll(calls[..k])
      invariant asks == AsksOf(policy, calls[..k])
      invariant env.log == old(env.log) + asks && AreAsks(asks)
    {
      var one;
      ghost var more;
      one, more := PreflightCall(env, l, policy, calls[k]);
      MoreAsks(old(env.log), asks, more);
      asks := asks + more;
      if one.Err? {
        assert FailsAt(l, policy, calls, k, asks, one.error);
        return Err(one.error), asks;
      }
      OneMoreCall(l, calls, k);
      OneMoreChecked(calls, checked, k, one.value);
      OneMoreCounted(calls, k);
      checked := checked + [one.value];
      count := count + one.value.expanded;
    }
    assert calls[..|calls|] == calls;
    r := Ok(Plan(checked, count));
  }

  /** The first phase: every call of the response, before any step.  It fails only when the response
      does not fit the limits or the policy denied an action. */
  method Preflight(env: Environment, l: Limits, policy: bool, used: nat, calls: seq<Call>)
    returns (r: Result<Plan, Error>, ghost asks: seq<Event>)
    modifies env`log
    ensures env.log == old(env.log) + asks && AreAsks(asks)
    ensures r.Ok? ==> AllChecked(calls, r.value.checked) && r.value.count == ExpandedAll(calls)
    ensures r.Ok? ==> Preflighted(l, policy, used, calls, asks)
    ensures r.Err? ==> PreflightFails(l, policy, used, calls, asks, r.error)
    ensures r.Err? && r.error.TrajectoryLimit? ==> used + ExpandedAll(calls) > l.maxTrajectoryActions
    ensures r.Err? ==> r.error.PreflightFailed? || r.error.BatchLimit? || r.error.TrajectoryLimit?
  {
    r, asks := CheckCalls(env, l, policy, calls);
    if r.Ok? && used + r.value.count > l.maxTrajectoryActions {
      r := Err(TrajectoryLimit);
    }
  }

  // ---------------------------------------------------------------- dispatch and the loop

  lemma OneMoreStep(l: Limits, startedAt: real, calls: seq<Call>, steps: seq<Step>, s: Step)
    requires StepsOk(l, startedAt, calls, steps) && |steps| < |calls| && StepOk(l, startedAt, calls[|steps|], s)
    ensures StepsOk(l, startedAt, calls, steps + [s])
  {
    forall k ensures StepAt(l, startedAt, calls, steps + [s], k) {
      assert StepAt(l, startedAt, calls, steps, k);
    }
  }

  /** One call's step, with its own timeout. */
  method SendStep(env: Environment, l: Limits, startedAt: real, c: Call, checked: Checked)
      returns (r: Result<CallId, Error>, ghost sent: seq<Step>)
    requires ValidLimits(l) && CallOk(l, c) && checked == Checked(c, ActionsOf(c), Expanded(c))
    modifies env`now, env`log
    ensures env.now >= old(env.now)
    ensures sent == [] ==> env.log == old(env.log)
    ensures sent != [] ==>
              |sent| == 1 && StepOk(l, startedAt, c, sent[0])
              && env.log == old(env.log) + [Stepped(sent[0])]
    ensures r.Ok? ==> sent != [] && r.value == c.callId
    ensures r.Err? ==>
              (r.error.Deadline? && RemainingMs(l, startedAt, env.now) <= l.maxBatchActions)
              || (r.error.StepFailed? && sent != [])
  {
    sent := [];
    var timeoutMs, readAt := Allocate(env, l, startedAt, checked.expanded);
    if timeoutMs.Err? {
      return Err(timeoutMs.error), [];
    }
    var s := Step.Step(checked.call.callId, checked.actions, timeoutMs.value, readAt);
    var ok := env.Step(s);
    sent := [s];
    if !ok {
      return Err(StepFailed), sent;
    }
    var late := DeadlinePassed(env, l, startedAt);
    if late {
      return Err(Deadline), sent;
    }
    r := Ok(checked.call.callId);
  }

  /** The second phase: one step a call, in order. */
  method Dispatch(env: Environment, l: Limits, startedAt: real, calls: seq<Call>, checked: seq<Checked>)
    returns (r: Result<seq<CallId>, Error>, ghost steps: seq<Step>)
    requires ValidLimits(l) && AllCallsOk(l, calls) && AllChecked(calls, checked)
    modifies env`now, env`log
    ensures env.log == old(env.log) + SteppedEvents(steps) && env.now >= old(env.now)
    ensures StepsOk(l, startedAt, calls, steps)
    ensures r.Ok? ==> |steps| == |calls| && r.value == CallIds(calls)
    ensures r.Err? ==>
              (r.error.Deadline? && RemainingMs(l, startedAt, env.now) <= l.maxBatchActions)
              || (r.error.StepFailed? && steps != [])
  {
    steps := [];
    var outputs: seq<CallId> := [];
    for k := 0 to |checked|
      invariant |steps| == k && StepsOk(l, startedAt, calls, steps)
      invariant env.log == old(env.log) + SteppedEvents(steps) && env.now >= old(env.now)
      invariant outputs == CallIds(calls)[..k]
    {
      assert CallAt(l, calls, k) && CheckedAt(calls, checked, k);
      var one;
      ghost var sent;
      one, sent := SendStep(env, l, startedAt, calls[k], checked[k]);
      if sent != [] {
        OneMoreStep(l, startedAt, calls, steps, sent[0]);
        LogOneMoreStep(old(env.log), steps, sent[0]);
        steps := steps + [sent[0]];
      }
      if one.Err? {
        return Err(one.error), steps;
      }
      OneMoreOutput(calls, k);
      outputs := outputs + [one.value];
    }
    r := Ok(outputs);
  }

  lemma OneMoreOutput(calls: seq<Call>, k: nat)
    requires k < |calls|
    ensures CallIds(calls)[..k + 1] == CallIds(calls)[..k] + [calls[k].callId]
  {
  }

  lemma LogOneMoreStep(before: seq<Event>, steps: seq<Step>, s: Step)
    ensures before + SteppedEvents(steps) + [Stepped(s)] == before + SteppedEvents(steps + [s])
  {
    assert (steps + [s])[..|steps|] == steps;
    assert before + SteppedEvents(steps) + [Stepped(s)] == before + (SteppedEvents(steps) + [Stepped(s)]);
  }

  /** Why a turn may end the run with an error. */
  ghost predicate Explains(l: Limits, policy: bool, startedAt: real, used: nat, now: real,
                           turns: seq<Turn>, e: Error)
  {
    match e
    case Deadline => RemainingMs(l, startedAt, now) <= l.maxBatchActions
    case ProviderFailed => turns != [] && turns[0].answer.Raises?
    case TurnLimit => turns != [] && turns[0].answer.Returns? && turns[0].answer.value.calls != []
    case PreflightFailed => turns != [] && FailsPreflight(l, policy, used, turns[0], e)
    case BatchLimit => turns != [] && FailsPreflight(l, policy, used, turns[0], e)
    case TrajectoryLimit => turns != [] && FailsPreflight(l, policy, used, turns[0], e)
    case StepFailed => turns != [] && turns[0].steps != []
    case _ => false
  }

  ghost predicate FailsPreflight(l: Limits, policy: bool, used: nat, t: Turn, e: Error) {
    t.answer.Returns? && t.steps == [] && PreflightFails(l, policy, used, t.answer.value.calls, t.asks, e)
  }

  /** What a turn comes to: the model's last word, or the next turn's input. */
  datatype Progress = Finished(response: Response) | Next(input: Input)

  /** What is logged of a turn, if it got as far as its request. */
  ghost predicate Logged(before: seq<Event>, after: seq<Event>, turns: seq<Turn>) {
    |turns| <= 1 && after == before + if turns == [] then [] else TurnEvents(turns[0])
  }

  /** The request of a turn. */
  method AskModel(env: Environment, l: Limits, startedAt: real, input: Input)
    returns (r: Result<Response, Error>, ghost turns: seq<Turn>)
    requires ValidLimits(l) && env.now >= startedAt
    modifies env`now, env`log
    ensures env.now >= old(env.now) && Logged(old(env.log), env.log, turns)
    ensures turns != [] ==>
      && turns[0].input == input && turns[0].asks == [] && turns[0].steps == [] && RequestFits(l, startedAt, turns[0])
    ensures r.Ok? ==> turns != [] && turns[0].answer == Returns(r.value) && env.now - startedAt <= l.maxElapsedSeconds
    ensures r.Err? ==>
              (r.error.Deadline? || r.error.ProviderFailed?)
              && Explains(l, false, startedAt, 0, env.now, turns, r.error)
  {
    turns := [];
    var late := DeadlinePassed(env, l, startedAt);
    if late {
      return Err(Deadline), [];
    }
    var t := env.Monotonic();
    var remaining := l.maxElapsedSeconds - (t - startedAt);
    if remaining <= 0.0 {
      return Err(Deadline), [];
    }
    var answer := env.CreateResponse(input, remaining);
    turns := [Turn(input, remaining, t, answer, [], [])];
    if answer.Raises? {
      return Err(ProviderFailed), turns;
    }
    late := DeadlinePassed(env, l, startedAt);
    if late {
      return Err(Deadline), turns;
    }
    r := Ok(answer.value);
  }

  /** One turn: ask the model, preflight its whole answer, and only then send steps. */
  method RunTurn(env: Environment, l: Limits, policy: bool, startedAt: real, input: Input, used: nat, last: bool)
    returns (r: Result<Progress, Error>, spent: nat, ghost turns: seq<Turn>)
    requires ValidLimits(l) && env.now >= startedAt
    modifies env`now, env`log
    ensures env.now >= old(env.now) && Logged(old(env.log), env.log, turns)
    ensures turns != [] ==> turns[0].input == input && TurnOk(l, policy, startedAt, used, turns[0])
    ensures r.Ok? ==> turns != []
    ensures r.Ok? && r.value.Finished? ==>
      turns[0].answer == Returns(r.value.response) && r.value.response.calls == []
      && env.now - startedAt <= l.maxElapsedSeconds
    ensures r.Ok? && r.value.Next? ==>
      !last && TurnDone(turns[0]) && r.value.input == AnswerTo(turns[0]) && spent == StepCount(turns[0].steps)
    ensures r.Err? ==> Explains(l, policy, startedAt, used, env.now, turns, r.error) && (r.error.TurnLimit? ==> last)
  {
    spent := 0;
    var answer;
    answer, turns := AskModel(env, l, startedAt, input);
    if answer.Err? {
      return Err(answer.error), spent, turns;
    }
    var response := answer.value;
    if response.calls == [] {
      return Ok(Finished(response)), spent, turns;
    }
    if last {
      return Err(TurnLimit), spent, turns;
    }
    r, spent, turns := WorkOff(env, l, policy, startedAt, used, response, turns[0], old(env.log));
  }

  /** Both phases, on an answer that has calls. */
  method WorkOff(env: Environment, l: Limits, policy: bool, startedAt: real, used: nat,
                 response: Response, ghost asked: Turn, ghost before: seq<Event>)
    returns (r: Result<Progress, Error>, spent: nat, ghost turns: seq<Turn>)
    requires ValidLimits(l) && response.calls != [] && env.log == before + TurnEvents(asked)
    requires asked.answer == Returns(response) && asked.asks == [] && asked.steps == []
             && RequestFits(l, startedAt, asked)
    modifies env`now, env`log
    ensures env.now >= old(env.now) && |turns| == 1 && Logged(before, env.log, turns)
    ensures turns[0].input == asked.input && turns[0].answer == asked.answer
            && TurnOk(l, policy, startedAt, used, turns[0])
    ensures r.Ok? ==>
              r.value.Next? && TurnDone(turns[0]) && r.value.input == AnswerTo(turns[0])
              && spent == StepCount(turns[0].steps)
    ensures r.Err? ==> Explains(l, policy, startedAt, used, env.now, turns, r.error) && !r.error.TurnLimit?
  {
    spent := 0;
    var plan;
    ghost var asks;
    plan, asks := Preflight(env, l, policy, used, response.calls);
    LogAsks(before, asked, asks);
    ghost var t := asked.(asks := asks);
    turns := [t];
    if plan.Err? {
      return Err(plan.error), spent, turns;
    }
    spent := plan.value.count;
    var outputs;
    ghost var steps;
    outputs, steps := Dispatch(env, l, startedAt, response.calls, plan.value.checked);
    LogSteps(before, t, steps);
    StepsSpendPlan(l, startedAt, response.calls, steps);
    turns := [t.(steps := steps)];
    if outputs.Err? {
      return Err(outputs.error), spent, turns;
    }
    r := Ok(Next(Outputs(response.id, outputs.value)));
  }

  lemma LogAsks(before: seq<Event>, t: Turn, asks: seq<Event>)
    requires t.asks == [] && t.steps == []
    ensures before + TurnEvents(t) + asks == before + TurnEvents(t.(asks := asks))
  {
  }

  lemma LogSteps(before: seq<Event>, t: Turn, steps: seq<Step>)
    requires t.steps == []
    ensures before + TurnEvents(t) + SteppedEvents(steps) == before + TurnEvents(t.(steps := steps))
  {
  }

  lemma OneMoreTurn(l: Limits, policy: bool, startedAt: real, turns: seq<Turn>, t: Turn)
    requires RunOk(l, policy, startedAt, turns) && InputFits(turns, t.input)
    requires TurnOk(l, policy, startedAt, Dispatched(turns), t)
    ensures RunOk(l, policy, startedAt, turns + [t])
    ensures RunEvents(turns + [t]) == RunEvents(turns) + TurnEvents(t)
    ensures Dispatched(turns + [t]) == Dispatched(turns) + StepCount(t.steps)
    ensures TurnDone(t) ==> InputFits(turns + [t], AnswerTo(t))
  {
    assert (turns + [t])[..|turns|] == turns;
  }

  lemma NoTurns(l: Limits, policy: bool, startedAt: real)
    ensures RunOk(l, policy, startedAt, []) && RunEvents([]) == [] && Dispatched([]) == 0 && InputFits([], Task)
  {
  }

  /** The error is explained by the last turn, or by what came before its request. */
  ghost predicate Explained(l: Limits, policy: bool, startedAt: real, now: real, turns: seq<Turn>, e: Error) {
    || Explains(l, policy, startedAt, Dispatched(turns), now, [], e)
    || (turns != [] && Explains(l, policy, startedAt, Dispatched(turns[..|turns| - 1]), now, [turns[|turns| - 1]], e))
  }

  lemma ExplainedByTurn(l: Limits, policy: bool, startedAt: real, now: real,
                        turns: seq<Turn>, more: seq<Turn>, e: Error)
    requires |more| <= 1 && Explains(l, policy, startedAt, Dispatched(turns), now, more, e)
    ensures more == [] ==> Explained(l, policy, startedAt, now, turns, e)
    ensures more != [] ==> Explained(l, policy, startedAt, now, turns + [more[0]], e)
  {
    if more != [] {
      assert (turns + [more[0]])[..|turns|] == turns && [more[0]] == more;
    }
  }

  /** `run_openai_computer_loop`. */
  method RunLoop(env: Environment, l: Limits, policy: bool)
    returns (r: Result<Response, Error>, startedAt: real, ghost turns: seq<Turn>)
    requires env.log == []
    modifies env`now, env`log
    ensures env.log == RunEvents(turns) && RunOk(l, policy, startedAt, turns)
    ensures r == Err(InvalidLimits) <==> !ValidLimits(l)
    ensures ValidLimits(l) ==> |turns| <= l.maxTurns
    ensures ValidLimits(l) ==> ActionsSent(env.log) == Dispatched(turns) <= l.maxTrajectoryActions
    ensures r.Ok? ==>
              turns != [] && turns[|turns| - 1].answer == Returns(r.value) && r.value.calls == []
              && env.now - startedAt <= l.maxElapsedSeconds
    ensures r.Err? && ValidLimits(l) ==> Explained(l, policy, startedAt, env.now, turns, r.error)
    ensures r != Err(FellThrough)
    ensures r == Err(TurnLimit) ==> |turns| == l.maxTurns
  {
    hide RunOk, RunEvents, Dispatched, InputFits, Explained, TurnOk, TurnDone;
    turns, startedAt := [], 0.0;
    NoTurns(l, policy, startedAt);
    if !ValidLimits(l) {
      return Err(InvalidLimits), startedAt, turns;
    }
    startedAt := env.Monotonic();
    NoTurns(l, policy, startedAt);
    var used := 0;
    var input := Task;
    for turn := 0 to l.maxTurns
      invariant |turns| == turn < l.maxTurns && env.now >= startedAt
      invariant env.log == RunEvents(turns) && RunOk(l, policy, startedAt, turns) && used == Dispatched(turns)
      invariant InputFits(turns, input)
    {
      TrajectoryBudget(l, policy, startedAt, turns);
      var one, spent;
      ghost var more;
      one, spent, more := RunTurn(env, l, policy, startedAt, input, used, turn == l.maxTurns - 1);
      if one.Err? {
        ExplainedByTurn(l, policy, startedAt, env.now, turns, more, one.error);
      }
      if more != [] {
        OneMoreTurn(l, policy, startedAt, turns, more[0]);
        turns := turns + [more[0]];
        TrajectoryBudget(l, policy, startedAt, turns);
      }
      if one.Err? {
        return Err(one.error), startedAt, turns;
      }
      if one.value.Finished? {
        return Ok(one.value.response), startedAt, turns;
      }
      input := one.value.input;
      used := used + spent;
    }
    r := Err(FellThrough);
  }
}
