# Verified models of the run gateway, the benchmark reports, the block editor and the trajectory loop

This project models four parts of the repository in Dafny 4.11 and proves their properties for all
inputs, all histories and all interleavings. `dafny verify dfyconfig.toml` checks all of it.

## The run gateway

`examples/run_gateway` admits, dispatches, cancels and recovers runs. HTTP callers create, replay and
cancel them; a dispatcher spawns a provider call; reconcilers lease due runs and move them on;
everything meets in a store through version compare-and-set.

* `outcomes.dfy`, `sequences.dfy`: values that may be missing, computations that may fail, and sequences
  without repetition, for all four parts.
* `domain.dfy`, `identity.dfy`: run records, the closed state graph, framing, digests and proofs.
* `store.dfy`: every store transaction as a function on values, and the invariant all of them keep.
  `run_store.dfy`: the same store as a class with tables updated in place, each method proved equal to
  its function. The repository states the store as a contract only; an idempotency conflict is taken to
  be a retained key whose desktop or task binding does not match the new proofs.
  `tables.dfy`: exactly when each transaction takes effect, and what it does to every table.
* `recovery.dfy`, `service.dfy`: the code between two consecutive awaits, one function each.
  `decisions.dfy`: what each of these steps decides, for each answer and each side of every deadline, as
  predicates on whole records.
* `environment.dfy`: what surrounds both classes: the store class, the provider, the clock and the other
  activities. It logs every call with the answer it gave, and for a call of the store the tables before
  and after it. Any call of the store may raise, before or after it took effect.
* `reconciler.dfy`, `gateway.dfy`: the two classes as the code runs them, as methods over that
  environment, with other activities acting at every await. `passes.dfy`, `requests.dfy` say what their
  logs look like: which calls follow one another, given exactly the answers and the clock readings in the
  log, how the pass or the request ends and what it replies. Each method is proved to leave such a log.
  `traces.dfy`: the same logs spelled out event by event, without the functions that compute the next
  step; every pass, create and cancel is such a trace.
* `system.dfy`: any number of requests and reconciler passes as one transition system, interleaved at
  every await, crashing anywhere, on clocks that may go in any direction. A label carries whatever the
  code does not decide. The only assumption about the provider is that it says a call succeeded, failed
  or was terminated only when the call is over. `simulation.dfy`: each piece of the logs of the two
  classes, made on the tables of a world, is a step of this system to the tables after it, and each step
  of this system is an interference that the methods of both classes were proved for. `composition.dfy`:
  so every whole pass and every whole request, interleaved with any steps of others, is a history of
  this system, with the tables, the end and the reply of its log.
* `invariant.dfy`, `preservation.dfy`, `dispatch.dfy`, `admission.dfy`: the inductive invariant and its
  preservation. `safety.dfy`, `histories.dfy`: what follows for every history. `leases.dfy`: leases as
  fences over every history: held once, superseded for good, and needed by every commit of a pass.
* `progress.dfy`: complete passes and the writes of requests, in any order, end every run within an
  explicit number of writes. `termination.dfy`: the same bound over every history of the system whose
  writes are on time. `clocks.dfy`: on a clock that never goes back they always are. `overflow.dfy`,
  `witness.dfy`: the histories behind the two findings below.

Findings, each with its exact condition:

* `_backoff` multiplies before it takes the minimum, so its product can leave the range of
  `timedelta` (`Recovery.SomeValidPolicyOverflows`: 5 s initial delay, cap of 60 errors, the 45th delay),
  although the policy passes all of its own checks. In every deployment that can admit a run, some
  history makes a pass raise `OverflowError` if and only if the last delay below one of the two error
  caps is out of range (`Overflow.OverflowsExactly`), and with room for the delays before it on a clock
  that never goes back (`Overflow.SomePassOverflows`; for example with that policy and runs of two
  hours, `Overflow.PatientOverflows`). Apart from the store's own exceptions nothing else ever raises
  (`Safety.NeverRaises`).
* `cancel_run` can answer "not accepted" together with a record whose cancellation is requested:
  exactly when it had read the run as reserved, lost its write, and on reloading finds that the run was
  dispatched and its cancellation requested meanwhile (`Requests.NotAcceptedYetRequestedExactly`).
  `Witness.NotAcceptedYetRequested` is such a history, step by step, in every deployment that can admit
  a run.

## The benchmark reports

`scripts/benchmarks/x11_shm_screenshot_runner.py` builds scripts that measure captures inside a sandbox
and print a JSON report, and validates that report before keeping it. `statistics.dfy` has sorting,
counting and both percentile forms, over the reals. `summaries.dfy` has the producer and what makes a
report valid. `retention.dfy` has the validators as methods from JSON values. `correlation.dfy` and
`counters.dfy` do the same for the correlation table and the cgroup counters. The daemon-local and the
scheduling diagnostic share one shape, so one validator models both: the first has no CPU metrics and
interpolates its percentiles, the second has both kinds of metric and takes nearest ranks. Whatever the
producer emits, the validator keeps, unchanged.

## The block editor

`scripts/edit_blog_preview.py` splits a Markdown file into top-level blocks, lets a page edit them, and
merges what is submitted back under a lock, guarded by a digest. `blocks.dfy` and `merging.dfy` have the
text operations, for an arbitrary list of parser tokens; `editor.dfy` the save endpoint as a class over
the file, and sequences of saves with other programs writing in between.

## The trajectory loop

`examples/03_openai_computer_loop.py` drives a model against a desktop under budgets. `trajectory.dfy`
has the loop as methods over an environment that is the clock, the model, the policy hook and the
desktop, and that logs what it is asked. The budgets are proved about that log, over the whole run.

## Model

| member | source | states |
|---|---|---|
| Domain.TransitionIsSuccessor | examples/run_gateway/domain.py:353-415 | a transition that does not raise follows a legal edge, raises the version by one, keeps identity, bindings, creation time and deadline, and touches the call identity only when a dispatch starts running |
| Domain.RescheduleIsSuccessor | examples/run_gateway/domain.py:417-444 | a reschedule is such a successor too, of a live record, never into the past |
| Domain.GraphIsClosed | examples/run_gateway/domain.py:51-66 | the state graph has exactly these twelve edges |
| Domain.TransitionRefuses | examples/run_gateway/domain.py:366-384 | a transition is refused exactly for an edge outside the graph, for a call identity with any other edge than the one into running or none with that one, and for a reason without an end |
| Domain.RescheduleRefuses | examples/run_gateway/domain.py:417-424 | a reschedule is refused exactly for an ended run, and fails for a time in the past |
| Identity.UnframeInvertsFrames | examples/run_gateway/domain.py:199-205 | the length-prefixed concatenation can be parsed back: framing loses nothing for components shorter than 2^64 bytes |
| Identity.MessageInjective | examples/run_gateway/domain.py:194-209 | two messages are equal only for the same tenant, purpose and value |
| Identity.MatchesInConstantTime | examples/run_gateway/domain.py:145-153 | the accumulating loop decides exactly whether the stored digest is one of the candidates |
| Identity.ProveIsSound | examples/run_gateway/domain.py:182-192 | proving raises exactly for empty or oversized inputs; otherwise the mint is a candidate and binds the inputs |
| Identity.ProofMatchesExactly | examples/run_gateway/domain.py:145-162 | a proof recognises a stored digest by its key alone, and matches it if and only if tenant, purpose and value are equal and its key is active or retiring |
| Identity.RotationKeepsBindings | examples/run_gateway/domain.py:165-192 | after a rotation an old binding still matches the same value and no other, as long as its key is kept |
| Store.AdmitKeepsInv | examples/run_gateway/ports.py:52-58 | admission keeps the store consistent, and everything but an admission leaves it untouched |
| Store.WriteKeepsInv | examples/run_gateway/ports.py:61-64 | a legal write keeps claims, intents, quota and release log in agreement |
| Store.ClaimDispatchKeepsInv | examples/run_gateway/ports.py:58-59 | record and intent change together |
| Store.ClaimPageClaims | examples/run_gateway/ports.py:87-96 | a page leases due, unleased runs as stored, each under a token of its own, within the limit |
| Store.ClaimPageComplete | examples/run_gateway/ports.py:87-96 | a scan without a next cursor has left no due run unleased |
| Tables.CompareAndSetExactly | examples/run_gateway/ports.py:61-85 | a write is stored if and only if the version is still the one read; then the tables change by the record, the revoked intent of a cancelled reservation, and the capacity given back, and otherwise not at all |
| Tables.CommitStoredExactly | examples/run_gateway/ports.py:98-109 | a commit is stored if and only if the run's lease exists, has not expired and carries the claim's token, and the version is the expected one |
| Tables.OneTokenCommits | examples/run_gateway/ports.py:98-109 | two claims on one run that could both be stored carry the same token and version |
| Tables.ClaimDispatchExactly | examples/run_gateway/ports.py:58-76 | a dispatch is won if and only if the record read is the current reservation and its intent is pending |
| Tables.AdmittedTables | examples/run_gateway/ports.py:52-58 | what an admission adds to every table |
| Tables.PageTakesExactly | examples/run_gateway/ports.py:87-96 | a page takes exactly the runs that are due and not under a live lease, from its start to where the next one continues, and stops early only when it is full |
| Tables.PageFences | examples/run_gateway/ports.py:87-109 | once a page has leased a run, no commit under an earlier lease of it is stored, however the clocks stand |
| Tables.ReleaseLeaseExactly | examples/run_gateway/ports.py:111-111 | a lease is given back if and only if it still is the claim's own |
| RunStoreImpl.RunStore.Admit | examples/run_gateway/ports.py:52-67 | the class performs admission in the stated order, as the value-level transaction; a rejection rolls back everything |
| RunStoreImpl.RunStore.RetainedKeysAvailable | examples/run_gateway/ports.py:54-57 | the guard holds exactly when every retained binding of the tenant uses a known key |
| RunStoreImpl.RunStore.LookUpReplay | examples/run_gateway/ports.py:53-53 | the lookup finds the oldest run the idempotency proof matches |
| RunStoreImpl.RunStore.ClaimDispatch | examples/run_gateway/ports.py:58-76 | RESERVED -> DISPATCHING and PENDING -> CLAIMED in place, for the winner that `Tables.ClaimDispatchExactly` names |
| RunStoreImpl.RunStore.CompareAndSet | examples/run_gateway/ports.py:61-85 | the class writes in place, as the transaction that `Tables.CompareAndSetExactly` decides |
| RunStoreImpl.RunStore.ClaimReconcilePage | examples/run_gateway/ports.py:87-96 | the keyset scan over the tables, as the value-level page that `Tables.PageTakesExactly` describes |
| RunStoreImpl.RunStore.ReconcileCompareAndSet | examples/run_gateway/ports.py:98-109 | the class commits in place as the transaction that `Tables.CommitStoredExactly` decides |
| RunStoreImpl.RunStore.ReleaseReconcileLease | examples/run_gateway/ports.py:111-111 | gives back exactly the lease of the claim's token |
| Recovery.BackoffMonotone | examples/run_gateway/recovery.py:469-470 | delays stay within [initial, maximum], never shrink as errors repeat, and an in-range count makes every smaller one in range |
| Recovery.BackoffInRangeExactly | examples/run_gateway/recovery.py:469-470 | the policy check that is missing: it holds if and only if every count below the caps has a delay |
| Recovery.SomeValidPolicyOverflows | examples/run_gateway/recovery.py:35-67 | a policy that passes every check and whose 45th delay overflows |
| Recovery.ReconcileClaimedOk | examples/run_gateway/recovery.py:208-261 | the first step of a pass never raises, commits only legal successors with its own lease, and wakes in time |
| Recovery.AfterPollOk | examples/run_gateway/recovery.py:263-302 | so does the step after a poll; it releases capacity only after an answer that the call is over |
| Recovery.AfterCancellationPollOk | examples/run_gateway/recovery.py:304-334 | so does the step after a cancellation poll |
| Recovery.AfterCancelOk | examples/run_gateway/recovery.py:336-393 | so does the step after the provider answered a cancel; counters stay below their caps |
| Recovery.AfterCommitOk | examples/run_gateway/recovery.py:115-118 | after a won commit the claim advances under the same lease to exactly the committed record |
| Recovery.AfterPollRaisesExactly | examples/run_gateway/recovery.py:395-413 | a poll's step raises if and only if its backoff delay overflows |
| Recovery.PollDecidesEnd | examples/run_gateway/recovery.py:415-441 | each end state has exactly one kind of poll answer, and a terminated call counts as cancelled only after a requested cancellation |
| Decisions.BeginDecides | examples/run_gateway/recovery.py:208-261 | the first step of a pass, for each state on either side of its deadline, as the whole record it commits |
| Decisions.PollDecides | examples/run_gateway/recovery.py:263-302 | what each answer of a poll leads to: which end, which due time, which count, or the request to cancel |
| Decisions.CancellationPollDecides | examples/run_gateway/recovery.py:304-334 | the same for a poll during a cancellation, with its deadline and the cancel that follows |
| Decisions.CancelDecides | examples/run_gateway/recovery.py:336-393 | an accepted cancel is looked at again after the poll interval with its errors forgotten, an indeterminate one seals the run, an unavailable one is counted, delayed and sealed at the cap, and the deadline seals whatever the answer |
| Decisions.CancelSealsExactly | examples/run_gateway/recovery.py:355-380 | before the deadline a cancel ends in an indeterminate run if and only if its answer is indeterminate, or unavailable once too often |
| Decisions.CommitDecides | examples/run_gateway/recovery.py:255-261 | after a commit the pass goes on only if it was stored, under the same lease over what it wrote |
| Decisions.BackoffDoubles | examples/run_gateway/recovery.py:469-470 | the first delay is the initial one, each further error doubles it up to the maximum, and there is none once the doubled delay is out of range |
| Service.AfterAdmissionOk | examples/run_gateway/service.py:159-172 | after admission the service computes only legal writes and never fails |
| Service.AfterSpawnOk | examples/run_gateway/service.py:245-271 | an identity is always written if the spawn returned one, and the run is sealed if it did not |
| Service.AfterCancelReadOk | examples/run_gateway/service.py:178-208 | a cancel computes only legal writes and never fails |
| Decisions.AdmissionDecides | examples/run_gateway/service.py:159-172 | a reservation expires from its deadline on and is dispatched before; any other run is the answer |
| Decisions.SpawnDecides | examples/run_gateway/service.py:245-271 | a spawn that returned leads to the write of exactly its identity, one that raised seals the run |
| Decisions.CallWriteDecides | examples/run_gateway/service.py:252-271 | an identity that was not stored seals the run |
| Decisions.CancelReadDecides | examples/run_gateway/service.py:178-197 | a cancel ends a reservation, requests the cancellation of a running call with its deadline, and writes nothing else |
| Admission.AdmissionRefinesPlain | examples/run_gateway/ports.py:52-58 | admission over digests decides exactly as admission over the plain tenants, keys, desktops and tasks would |
| Admission.ResendReplays | examples/run_gateway/service.py:134-172 | re-sending a create returns the run it created and changes nothing |
| Admission.CreateKeepsWorld | examples/run_gateway/service.py:111-172 | a create keeps the whole invariant |
| Preservation.ReconcilerKeepsWorld | examples/run_gateway/recovery.py:208-467 | every step of every reconciler keeps the whole invariant |
| Dispatch.SpawnKeepsWorld | examples/run_gateway/service.py:245-251 | a spawn by the winner is the first for its run and finds its desktop claimed |
| Safety.StepKeepsWorld | examples/run_gateway/service.py:111-315 | no step of any activity, no crash and nothing the provider does breaks the invariant |
| Safety.WorldAfter | examples/run_gateway/recovery.py:186-467 | the invariant holds after every history |
| Safety.DesktopExclusivity | examples/run_gateway/service.py:219-271 | no two provider calls are ever live, or still able to start, on one desktop |
| Safety.ReleasedOnlyWhenOver | examples/run_gateway/recovery.py:415-441 | a desktop is given back only if its run was never spawned or its call is over |
| Safety.SpawnedAtMostOnce | examples/run_gateway/service.py:219-251 | one spawn a run at most, and only for the winner of its dispatch |
| Safety.SpawnUsesBoundDesktop | examples/run_gateway/service.py:134-172 | every spawn, also on behalf of a replay, uses the desktop and task bound to the stored record |
| Safety.IdentityNeverSilentlyLost | examples/run_gateway/service.py:245-271 | a spawned call's identity is stored, or the winner of the dispatch is just about to store it, or the run keeps its claims and is indeterminate or orphaned |
| Safety.CapacityConserved | examples/run_gateway/domain.py:47-49 | used quota equals the number of unreleased runs, each claim has one owner, and each run releases exactly once or never |
| Safety.RecordsWellFormed | examples/run_gateway/domain.py:286-325 | every stored record is well formed, names its own call while running, and has both error counters below their caps |
| Safety.NeverRaises | examples/run_gateway/domain.py:353-444 | no transition or reschedule anyone computes ever raises; a pass raises only when the store did or on a backoff out of range |
| Safety.VersionDecidesStaleness | examples/run_gateway/ports.py:80-85 | comparing versions accepts exactly what comparing whole records would, for every delayed writer |
| Safety.CancelOnlyAfterRequest | examples/run_gateway/recovery.py:336-393 | cancel is sent only for a requested cancellation, and a releasing commit rests on a finished call |
| Safety.ResendAfterAnyHistory | examples/run_gateway/service.py:111-172 | after any history a re-sent create returns its run, or reports an unknown key |
| Leases.LeasesStayApart | examples/run_gateway/ports.py:87-96 | after every history no two activities hold one lease |
| Leases.CommitsAreFenced | examples/run_gateway/ports.py:98-109 | after every history a pass changes a run only while the run's lease is its own and has not expired |
| Leases.SupersededNeverCommits | examples/run_gateway/ports.py:98-109 | an activity whose lease was superseded never changes a run again, however the history goes on and whatever the clocks say |
| Histories.StepOfRun | examples/run_gateway/domain.py:51-66 | one step changes a run at most once, to a legal successor |
| Histories.AtMostFourStateChanges | examples/run_gateway/domain.py:51-66 | over any history a run changes state at most four times, along the legal graph |
| Histories.VersionCountsWrites | examples/run_gateway/domain.py:353-444 | the version is the number of writes |
| Histories.CancelledIsRevoked | examples/run_gateway/ports.py:61-64 | a cancelled run has its intent revoked exactly when it never had a call |
| Histories.CancelledBeforeDispatchNeverSpawns | examples/run_gateway/service.py:185-194 | a run cancelled without a call is never spawned, however the history goes on |
| Histories.FreshDispatchUndisturbed | examples/run_gateway/recovery.py:227-244 | however a history goes on, as long as the winner does not move and no reconciler that saw the stale boundary commits, the dispatching record and the waiting winner stay as they are |
| Histories.CallWriteDecided | examples/run_gateway/service.py:252-271 | whenever the write of the identity arrives, it wins if the run is still dispatching; otherwise the identity is stored already or the run is indeterminate with its claims |
| Histories.UndisturbedCallWriteWins | examples/run_gateway/service.py:252-271 | after any continuation that leaves the dispatch alone, the write of the identity wins |
| Histories.FreshDispatchRuns | examples/run_gateway/service.py:219-266 | from the won claim, through any such continuations before and after the spawn, the run ends up running under the identity of the call made for it |
| Histories.OrphanOnlySealed | examples/run_gateway/service.py:260-271 | a dispatch whose winner failed can in every continuation only stay as it is or become indeterminate, and keeps its claims for good |
| Progress.PassEnds | examples/run_gateway/recovery.py:208-393 | a pass is over after six answers at most |
| Progress.StepsIsCeiling | examples/run_gateway/recovery.py:290-298 | the measure is the remaining time over the minimum delay, rounded up |
| Progress.PassMakesProgress | examples/run_gateway/recovery.py:208-393 | one complete pass ends the run or uses up part of its bound, whatever the provider answers |
| Progress.MoveLowers | examples/run_gateway/service.py:159-271 | every complete pass and every write of a request leaves less to do |
| Progress.EveryRunEnds | examples/run_gateway/recovery.py:208-393 | complete passes and service writes of a run, interleaved in any order, number at most its bound, and once they reach it the run is terminal |
| Progress.LiveRunMoves | examples/run_gateway/recovery.py:208-393 | until then a due run can always make a complete pass |
| Progress.WriteLowers | examples/run_gateway/domain.py:353-444 | any single write, whoever made it, leaves less to do; a commit in the middle of a pass at least not more |
| Progress.EarlyPassGainsNothing | examples/run_gateway/recovery.py:263-302 | being on time is needed: a pass whose clock reads a poll interval before the run is due puts the run back to that due time, and the bound stays |
| Progress.CancelRequestShortens | examples/run_gateway/service.py:185-208 | a caller's cancel ends a reservation and leaves a running call only its cancellation |
| Termination.WritesAreBounded | examples/run_gateway/recovery.py:186-467 | in every history whose writes to the run are on time, with lost races, faults and crashes, what was written to it, commits in the middle of a pass not counted, and what is left add up to no more than its bound |
| Termination.BoundedWritesEnd | examples/run_gateway/recovery.py:186-467 | a history that has written a run as often as its bound has ended it |
| Termination.RunWritesBounded | examples/run_gateway/service.py:145-158 | from its admission on, the writes of a run are bounded by the run timeout and the policy alone, and it is terminal once it has had them all |
| Termination.AllWritesBounded | examples/run_gateway/recovery.py:304-393 | a run is written at most as often as that bound says, commits in the middle of a pass included, plus once for every activity ever started |
| Clocks.ForwardIsOnTime | examples/run_gateway/recovery.py:184-302 | if the clock readings of a history never go back, every write of every run is on time |
| Clocks.ForwardRunsEnd | examples/run_gateway/recovery.py:186-467 | so in any such history a run is written at most as often as the run timeout and the policy allow, is terminal once it has been, and with commits in the middle of a pass at most once more for every activity ever started |
| Passes.PassIsChained | examples/run_gateway/recovery.py:115-118 | every commit of a pass carries its lease and the version last committed, a commit lost or raised is the last call, and cancel follows a stored request and a poll that was not final |
| Passes.RaisesOnlyFor | examples/run_gateway/recovery.py:395-470 | a pass raises only if its last call was a commit that raised, or on a backoff out of range |
| Passes.LoggedPassProgresses | examples/run_gateway/recovery.py:208-393 | a logged pass that was due and whose commits were all stored is a complete pass, so it leaves less to do |
| Passes.TickReleasesEachLeaseOnce | examples/run_gateway/recovery.py:196-202 | in everything a tick sends, the release of each lease it took up is asked for exactly once, and of no other, also when a commit, a page or a release raised |
| Passes.PageBound | examples/run_gateway/recovery.py:189-206 | a tick takes up at most a page size of claims for every page |
| Passes.RoundsOneByOne | examples/run_gateway/recovery.py:186-206 | each page asks for the policy's page size and lease duration, from where the page before it ended, and its claims are worked off in order |
| Traces.PassIsTrace | examples/run_gateway/recovery.py:208-467 | the log of a pass event by event, from each answer and clock reading to the next call and record, without the step functions |
| ReconcilerTick.RunReconciler.Reconcile | examples/run_gateway/recovery.py:186-206 | a tick takes page after page until none is left or the bound is reached, runs every claim's pass and releases its lease, also when the pass raised, and raises exactly when a call that is not guarded did |
| ReconcilerTick.RunReconciler.ReconcileClaimStep | examples/run_gateway/recovery.py:208-261 | the calls of a pass, and how it ends, are for the answers and clock readings it got those that `Traces.PassTrace` spells out; and they are chained |
| ReconcilerTick.RunReconciler.PollRunning | examples/run_gateway/recovery.py:263-302 | `_poll` sends one poll and then what follows from exactly its answer (`Decisions.PollDecides`); a poll that raises counts as unavailable |
| ReconcilerTick.RunReconciler.PollCancellation | examples/run_gateway/recovery.py:304-334 | `_poll_cancellation` likewise (`Decisions.CancellationPollDecides`) |
| ReconcilerTick.RunReconciler.SendCancel | examples/run_gateway/recovery.py:336-393 | `_cancel` sends one cancel and then what `Decisions.CancelDecides` spells out for its answer: a cancel that raises counts as unavailable, an answer of another type as indeterminate |
| ReconcilerTick.RunReconciler.FinishPolled | examples/run_gateway/recovery.py:415-441 | `_finish_from_poll` commits the state and reason the answer means |
| ReconcilerTick.RunReconciler.OnProviderUnavailable | examples/run_gateway/recovery.py:395-413 | `_provider_unavailable` counts, backs off or seals |
| Requests.SpawnOnlyByWinner | examples/run_gateway/service.py:219-251 | a create spawns at most once, right after the dispatch claim it won, for the record it won and on its own desktop and task |
| Requests.NotAcceptedYetRequestedExactly | examples/run_gateway/service.py:185-208 | a cancel is not accepted and yet returns a requested cancellation exactly when it read a reservation, lost its write and reloaded a requested cancellation |
| Requests.AcceptedMeansCancelled | examples/run_gateway/service.py:178-208 | an accepted cancel returns a run that is cancelled or whose cancellation is requested |
| Traces.CreateIsTrace | examples/run_gateway/service.py:111-315 | the log of a create event by event: the fresh reservation it proposes, the dispatch claim, the spawn, the identity or the seal, the reload, and the reply of each |
| Traces.CancelRunIsTrace | examples/run_gateway/service.py:178-217 | the log of a cancel request event by event, with its reply for every state and every outcome of its write |
| Witness.NotAcceptedYetRequested | examples/run_gateway/service.py:185-196 | a history of every deployment that can admit a run in which that happens |
| Overflow.OverflowsExactly | examples/run_gateway/recovery.py:361-413 | in every deployment that can admit a run, some history makes a pass raise OverflowError if and only if the policy's backoff leaves the range of delays below an error cap |
| Overflow.SomePassOverflows | examples/run_gateway/recovery.py:336-413 | either backoff alone does it, that of the polls or that of the cancels, and with room for the delays before it on a clock that never goes back |
| Overflow.PatientOverflows | examples/run_gateway/recovery.py:35-67 | for example the default policy with a cap of 60 provider errors, and runs of two hours |
| Simulation.SystemTakesPass | examples/run_gateway/recovery.py:263-393 | each await in the log of a pass, made on the tables of a world, is a step of the system to the same next await and the same tables |
| Simulation.SystemBegins | examples/run_gateway/recovery.py:208-210 | so is the beginning of a pass, with the claim as the page leased it |
| Simulation.SystemScans | examples/run_gateway/recovery.py:190-195 | so is a page: its claims become activities waiting to be looked at |
| Simulation.SystemReleases | examples/run_gateway/recovery.py:198-202 | so is the release of a lease, after a pass that returned or raised |
| Simulation.SystemTakesRequest | examples/run_gateway/service.py:219-315 | so is each await in the log of a request, with the call it spawned |
| Simulation.SystemAdmits | examples/run_gateway/service.py:134-172 | so is a create up to its admission |
| Simulation.SystemCancels | examples/run_gateway/service.py:178-197 | so is a cancel up to its read |
| Simulation.SystemInterferes | examples/run_gateway/ports.py:61-111 | conversely, whatever the other activities of the system do is an interference that the methods were proved for |
| Composition.PassIsHistory | examples/run_gateway/recovery.py:196-261 | a whole pass, from the leased claim to the release of its lease, whose events are made in turn with the steps of others, is a history that ends in the tables of its log and as its log does |
| Composition.RequestReaches | examples/run_gateway/service.py:219-315 | so is the rest of a request from any await on; in the end it has answered, and a reply with a record gives the record that is stored |
| Composition.CreateIsHistory | examples/run_gateway/service.py:111-172 | so is a whole create, from its admission on |
| Composition.CancelIsHistory | examples/run_gateway/service.py:178-208 | so is a whole cancel, from its read on; one that only reads replies what the tables hold |
| Gateway.RunGatewayService.CreateRun | examples/run_gateway/service.py:111-172 | the calls of a create and its reply are for the answers it got those that `Traces.CreateTrace` spells out: its own proposal, and nothing without its proofs; a rejection is its answer and its last call; an admitted or replayed run is answered, expired or dispatched |
| Gateway.RunGatewayService.CancelRun | examples/run_gateway/service.py:178-208 | the calls of a cancel and its reply are for the answers it got those that `Traces.CancelRunTrace` spells out: exactly the write that the record it read calls for |
| Gateway.RunGatewayService.ClaimAndDispatch | examples/run_gateway/service.py:219-271 | claim, spawn, store the very identity the spawn returned or seal the run, whatever fails in between |
| Gateway.RunGatewayService.WriteOrReload | examples/run_gateway/service.py:295-315 | one write, and after a lost race a stored record of the same run |
| Statistics.SortedIsOrdered | scripts/benchmarks/x11_shm_screenshot_runner.py:3893-3893 | sorting orders the samples and keeps every one |
| Statistics.NearestRankExactly | scripts/benchmarks/x11_shm_screenshot_runner.py:3892-3895 | the nearest rank is the one sample that at least that percentage do not exceed while less lie strictly below |
| Statistics.NearestRankMonotone | scripts/benchmarks/x11_shm_screenshot_runner.py:3892-3895 | nearest ranks never fall as the percentage grows, up to the maximum |
| Statistics.InterpolatedMonotone | scripts/benchmarks/x11_shm_screenshot_runner.py:3467-3475 | interpolated percentiles never fall as the fraction grows, and lie between the extremes |
| Statistics.InterpolatedExactly | scripts/benchmarks/x11_shm_screenshot_runner.py:3467-3475 | the interpolated percentile at the rank (n - 1)·q lies between the order statistics around it, exactly as far as the rank does, without sorting |
| Statistics.InterpolatedAtSample | scripts/benchmarks/x11_shm_screenshot_runner.py:3467-3475 | at a sample's own position the interpolated percentile is that order statistic |
| Statistics.CountsAppend | scripts/benchmarks/x11_shm_screenshot_runner.py:3485-3488 | samples are counted one by one, strictly over or below a threshold |
| Summaries.Capture | scripts/benchmarks/x11_shm_screenshot_runner.py:3607-3625 | the loop alternates the lanes and counts them |
| Summaries.SummaryMeans | scripts/benchmarks/x11_shm_screenshot_runner.py:3477-3489 | a summary's fields are the 50th, 95th and 99th percentile, the maximum and the counts over each threshold |
| Summaries.LaneCounts | scripts/benchmarks/x11_shm_screenshot_runner.py:3637-3643 | tail counts of the lanes add up to the combined count, at every threshold |
| Summaries.LaneMaxima | scripts/benchmarks/x11_shm_screenshot_runner.py:3637-3643 | the combined maximum is the larger lane maximum |
| Summaries.TailCounts | scripts/benchmarks/x11_shm_screenshot_runner.py:3644-3654 | the tail entries hold exactly what the summaries count, split by index parity as by lane |
| Summaries.TailMaximum | scripts/benchmarks/x11_shm_screenshot_runner.py:3644-3654 | the largest entry is the maximum; without entries the maximum is under the floor |
| Summaries.ProducedIsValid | scripts/benchmarks/x11_shm_screenshot_runner.py:3636-3654 | whatever a full schedule measured, its summaries and tail schedule pass every check |
| Summaries.LanesAlternate | scripts/benchmarks/x11_shm_screenshot_runner.py:3607-3643 | the full lane is every other capture from the first one on, the region lane those between |
| Summaries.EmittedMeans | scripts/benchmarks/x11_shm_screenshot_runner.py:3636-3643 | the three summaries of a metric are of all its readings, of those at even positions and of those at odd positions |
| Summaries.TailHolds | scripts/benchmarks/x11_shm_screenshot_runner.py:3644-3654 | the tail of a metric holds the index and value of exactly the samples over 50 ms |
| Retention.RetainMetric | scripts/benchmarks/x11_shm_screenshot_runner.py:2230-2270 | a metric's summary is kept, as written, exactly when it is valid |
| Retention.RetainLane | scripts/benchmarks/x11_shm_screenshot_runner.py:2583-2643 | likewise a lane, with its count and exactly its metrics |
| Retention.RetainSummaries | scripts/benchmarks/x11_shm_screenshot_runner.py:2571-2656 | likewise all three lanes, with their maxima and tail counts in agreement |
| Retention.RetainEntries | scripts/benchmarks/x11_shm_screenshot_runner.py:2296-2320 | entries are kept exactly when their indices rise within the schedule and every one crosses the floor |
| Retention.RetainTails | scripts/benchmarks/x11_shm_screenshot_runner.py:2659-2710 | a tail schedule is kept exactly when it is the one the summaries describe |
| Retention.PrintedReport | scripts/benchmarks/x11_shm_screenshot_runner.py:3660-3675 | every valid report can be printed so that it reads back as itself |
| Retention.RetainReport | scripts/benchmarks/x11_shm_screenshot_runner.py:2792-2795 | a report is kept, unchanged, if and only if it is valid |
| Retention.ValidExactly | scripts/benchmarks/x11_shm_screenshot_runner.py:2571-2710 | a report is valid if and only if it has exactly the metrics and counts of the layout and, metric by metric, ranks in order, maxima and tail counts that add up over the lanes, and rising tail entries over the floor that are as many as counted, the largest of them the maximum |
| Retention.RetainEmitted | scripts/benchmarks/x11_shm_screenshot_runner.py:3636-3654 | the report a script emits is kept, unchanged |
| Correlations.CauchySchwarz | scripts/benchmarks/x11_shm_screenshot_runner.py:3929-3951 | covariance squared never exceeds the product of the variance sums, for lists of any length |
| Correlations.CauchySchwarzEquality | scripts/benchmarks/x11_shm_screenshot_runner.py:3929-3951 | they are equal exactly when one list of deviations is a multiple of the other |
| Correlations.ClampIsIdle | scripts/benchmarks/x11_shm_screenshot_runner.py:3944-3951 | the clamp to [-1, 1] never changes the coefficient |
| Correlations.UndefinedExactly | scripts/benchmarks/x11_shm_screenshot_runner.py:3934-3937 | with samples there is always an answer, undefined exactly when a metric does not vary |
| Correlations.PerfectExactly | scripts/benchmarks/x11_shm_screenshot_runner.py:3929-3951 | the coefficient is 1 or -1 exactly when the deviations are proportional |
| Correlations.MeanBalances | scripts/benchmarks/x11_shm_screenshot_runner.py:3932-3933 | deviations add up to zero from the mean and from no other centre |
| Correlations.CoefficientMeans | scripts/benchmarks/x11_shm_screenshot_runner.py:3929-3951 | the coefficient q is the one number with q·√((n·Σx² - (Σx)²)·(n·Σy² - (Σy)²)) = n·Σxy - Σx·Σy, given if and only if both factors are positive |
| Correlations.CellMeans | scripts/benchmarks/x11_shm_screenshot_runner.py:4185-4191 | each cell of the emitted table is that coefficient of its row's and its column's metric over all samples |
| Correlations.RetainCorrelations | scripts/benchmarks/x11_shm_screenshot_runner.py:2713-2748 | the table is kept exactly when every cell is undefined or within [-1, 1] and covers all captures |
| Correlations.CorrelatedIsValid | scripts/benchmarks/x11_shm_screenshot_runner.py:4185-4191 | whatever was measured, every cell of the table the script computes is undefined or within [-1, 1] and covers all captures |
| Correlations.RetainEmittedCorrelations | scripts/benchmarks/x11_shm_screenshot_runner.py:4185-4191 | the table the script computes and prints is kept, unchanged |
| Counters.SampleRequests | scripts/benchmarks/x11_shm_screenshot_runner.py:4036-4045 | the loop yields one delta a request, and fails exactly when one is missing or negative |
| Counters.Measure | scripts/benchmarks/x11_shm_screenshot_runner.py:4192-4204 | the measurement fails exactly when a request was not sampled or the deltas exceed the whole |
| Counters.GrowthAddsUp | scripts/benchmarks/x11_shm_screenshot_runner.py:4192-4199 | growth during the requests and between them makes the whole |
| Counters.ConsistentExactly | scripts/benchmarks/x11_shm_screenshot_runner.py:4192-4204 | the aggregate check passes if and only if no counter lost more between the requests than it gained there |
| Counters.NondecreasingIsConsistent | scripts/benchmarks/x11_shm_screenshot_runner.py:4011-4045 | with counters that never fall the measurement never fails |
| Counters.RetainsSnapshotExactly | scripts/benchmarks/x11_shm_screenshot_runner.py:2552-2558 | a snapshot is kept exactly when it has the fields and no negative count |
| Counters.MeasuredIsRetained | scripts/benchmarks/x11_shm_screenshot_runner.py:2828-2848 | what was measured consistently is kept, unchanged |
| Counters.RetainCountersExactly | scripts/benchmarks/x11_shm_screenshot_runner.py:2828-2848 | the counters of a report are kept if and only if both snapshots and both differences are readable, the deltas are the differences, and no sum exceeds its delta |
| Blocks.LineStarts | scripts/edit_blog_preview.py:124-129 | the loop computes the positions where lines begin |
| Blocks.LineStartsAre | scripts/edit_blog_preview.py:124-129 | they are, in order, 0 and every position after a newline |
| Blocks.Compose | scripts/edit_blog_preview.py:132-139 | the pieces in order; lists of different lengths raise |
| Blocks.Decompose | scripts/edit_blog_preview.py:142-184 | the loop splits as specified, names the first block that does not follow, and its own reassembly check never fails |
| Blocks.ComposeInvertsDecompose | scripts/edit_blog_preview.py:142-184 | composing what was decomposed gives the text back, for any tokens |
| Blocks.BlockIsItsLines | scripts/edit_blog_preview.py:155-176 | the block of a top-level token has its kind and exactly its lines, from the start of the first to the start of the line after the last or the end of the text, split at a final newline, in token order |
| Blocks.FirstFault | scripts/edit_blog_preview.py:160-163 | it fails exactly at the first token whose lines are unknown or overlap |
| Blocks.FitsExactly | scripts/edit_blog_preview.py:155-163 | a list of tokens is accepted if and only if every top-level token has lines that exist, are not turned around, and start no earlier than any before it ended |
| Blocks.BlockStartsAtItsLine | scripts/edit_blog_preview.py:155-176 | in the text every block stands where its first line starts |
| Blocks.EditChangesOnlyItsBlock | scripts/edit_blog_preview.py:132-139 | putting another text in the place of one block changes the document there and nowhere else |
| Merging.UnifiedIsOnePass | scripts/edit_blog_preview.py:207-207 | the two newline replacements are the one-pass newline translation of a text file |
| Merging.NormalizeTypography | scripts/edit_blog_preview.py:187-194 | nine replacements in a row are one simultaneous substitution, and the labels are those of the characters found, each once, in table order |
| Merging.FoundLabelsMean | scripts/edit_blog_preview.py:188-193 | a label is found exactly when one of its characters is in the text, never twice |
| Merging.NothingBannedLeft | scripts/edit_blog_preview.py:73-83 | none of the nine characters is left |
| Merging.Merge | scripts/edit_blog_preview.py:197-219 | every block gets its final source; the changed list and the notes are exact, in order; lists of different lengths raise |
| Merging.NotesMean | scripts/edit_blog_preview.py:210-212 | the notes are exactly the labels found in texts that differ, none twice, and what earlier blocks note comes first |
| Merging.ChangedExactly | scripts/edit_blog_preview.py:213-218 | the changed list is exactly the blocks whose source is replaced, in order |
| Merging.ReplacedIsClean | scripts/edit_blog_preview.py:208-217 | a replaced source has no carriage return, no banned character and no trailing newline |
| Merging.OwnSources | scripts/edit_blog_preview.py:197-219 | merging a draft's own sources changes nothing, exactly when they have no carriage returns |
| Merging.LineEndings | scripts/edit_blog_preview.py:207-207 | a newline, a carriage return, or both in a row end a line alike, and the line itself stays |
| Merging.FinalSourceExactly | scripts/edit_blog_preview.py:206-214 | what a block ends up with: its own text if that was submitted, and otherwise the substituted text without its trailing newlines |
| Merging.PlainEditIsKept | scripts/edit_blog_preview.py:206-217 | a text without any of the replaced characters is kept as it was typed |
| Editor.EditorServer.HandleSave | scripts/edit_blog_preview.py:715-779 | file and reply after a save, for every body, content and fault, as `Editor.GoodSaveTakesEffect` and `Editor.RefusedExactly` spell out |
| Editor.GoodSaveTakesEffect | scripts/edit_blog_preview.py:742-779 | with the current hash, a text for every block and no fault, the file becomes the merge if and only if that differs from what was read and can be opened again; the reply is saved, unchanged, refused or an error accordingly |
| Editor.RefusedExactly | scripts/edit_blog_preview.py:715-741 | when each other refusal is given, and that none of them changes the file |
| Editor.TypedTextReachesTheFile | scripts/edit_blog_preview.py:729-764 | plain text typed into one block of the current page replaces exactly that block's text in the file |
| Editor.WritesMergeOfLoaded | scripts/edit_blog_preview.py:729-764 | a save writes only the merge of exactly the content its page loaded, and something the editor can open |
| Editor.WrittenReadsBack | scripts/edit_blog_preview.py:759-773 | what is written reads back as itself, so the returned hash is the next baseline |
| Editor.UntouchedPageIsUnchanged | scripts/edit_blog_preview.py:742-749 | submitting a page as it was loaded writes nothing |
| Editor.SavedListsTheReplaced | scripts/edit_blog_preview.py:768-779 | the reply lists exactly the replaced blocks, and those are clean |
| Editor.SecondSaveNeedsRestore | scripts/edit_blog_preview.py:735-741 | of two saves from one baseline the second takes effect only after something in between brought the baseline back |
| Editor.EveryEffectMergesItsBaseline | scripts/edit_blog_preview.py:715-764 | every effect of a save, anywhere in a history, is the merge of what its page loaded |
| Trajectory.CountIsNodes | examples/03_openai_computer_loop.py:243-249 | the count of a tree is the number of its actions, nested ones included |
| Trajectory.CountableExactly | examples/03_openai_computer_loop.py:243-249 | counting fails exactly when a nested action does not parse |
| Trajectory.OneDecides | examples/03_openai_computer_loop.py:208-240 | what one provider action becomes: both axes of a scroll, vertical first; one axis; the amount; itself; or a failure, exactly when nothing is left of a scroll or a part does not parse |
| Trajectory.NormalizedAppends | examples/03_openai_computer_loop.py:208-240 | a list is normalized action by action in order, and fails exactly if one of them does |
| Trajectory.Normalize | examples/03_openai_computer_loop.py:208-240 | a list of provider actions becomes, one after the other, what `Trajectory.OneDecides` says; anything that does not parse fails the list |
| Trajectory.RemainingBatchTimeoutMs | examples/03_openai_computer_loop.py:294-303 | at least a millisecond, within the batch duration, and no more than what is left of the run |
| Trajectory.RemainingIsMost | examples/03_openai_computer_loop.py:294-303 | what is left is the most whole milliseconds that fit both the batch and the run, and nothing exactly when less than one of the run is left |
| Trajectory.Allocate | examples/03_openai_computer_loop.py:155-166 | the timeout is the largest equal share of what is left, and none exactly when less than a millisecond a slot is left |
| Trajectory.AskPolicy | examples/03_openai_computer_loop.py:252-275 | the hook sees every action of every tree, outer before inner; a denial is the last question, and every one before it was allowed |
| Trajectory.OuterFirst | examples/03_openai_computer_loop.py:264-275 | an action comes before the actions it carries, and those follow at once in order |
| Trajectory.CallOkExactly | examples/03_openai_computer_loop.py:125-140 | a call is in order if and only if it has actions, all of them normalize, all nested ones parse, and together they are no more than a batch allows |
| Trajectory.Preflight | examples/03_openai_computer_loop.py:125-150 | a response passes only as a whole; it fails at its first call that is not in order or has an action denied, after every question about the calls before, or over the budget once all passed |
| Trajectory.Dispatch | examples/03_openai_computer_loop.py:152-192 | one step a call, in order, each within its limits; on success the outputs answer every call |
| Trajectory.RunLoop | examples/03_openai_computer_loop.py:73-197 | the whole log is a sequence of such turns, every error has its cause in the last turn, the actions sent stay within the budget, and the final raise is unreachable |
| Trajectory.EveryRequestAnswers | examples/03_openai_computer_loop.py:104-195 | the first request carries the task, every later one the output of each call of the response before it, in order, all of which were sent |
| Trajectory.EveryRequestFits | examples/03_openai_computer_loop.py:107-114 | every request may take exactly what is left of the run |
| Trajectory.TrajectoryBudget | examples/03_openai_computer_loop.py:143-152 | the actions in a log, nested ones included, are never more than the trajectory allows |
| Trajectory.EveryStepWasPreflighted | examples/03_openai_computer_loop.py:125-192 | every step belongs to a response whose calls had all passed preflight, and its slots, one an action and one to spare, fit the batch and the run |

## Left out

- `resolve_indeterminate` and `prune_safe_terminal_page`: only signatures and one-line contracts exist, so exclusivity is stated without operator action, and there are no tombstones.
- `examples/run_gateway/http.py`, authentication and catalog resolution: a request arrives with its tenant and its resolved desktop and task. Replies carry records, not their rendering.
- `examples/run_gateway/modal_adapter.py`, beyond the answers a poll and a cancel can give.
- HMAC and SHA-256: parameters, injective per key where a theorem says so. The 32-byte length check of a stored digest is omitted, because no injective function has that range; so are the character checks of key ids. A key id is assumed never to be reused for another secret.
- Aware `datetime` values and their range: times are integers, and only `timedelta` has its range modelled.
- A desktop is a tenant together with the internal id its catalog resolved; two tenants whose catalogs name one physical desktop are outside the claim store's sight.
- The run id factory is assumed never to repeat an id; a repeated id makes the store raise.
- The identity the provider gives a call is its position in the log of spawns: identities are unique, and nothing else about them is used.
- Service and reconcilers are assumed to share one recovery policy.
- In `system.dfy` a create proposes and is admitted in one step; since clocks are arbitrary this loses no behaviour. A page or an admission that raises after it took effect is there one whose activities crash.
- ReconcilerTick.RunReconciler.Reconcile: does not model a cancelled task; a crash at any await is covered in `system.dfy`.
- Surroundings.Environment.Interference: has an empty body on purpose; callers are proved from its contract, which allows any number of steps of others.
- Composition.PassIsHistory: is about one claim at a time; the claims of a whole tick, each of them such a history, are not put together into one.
- Progress.EveryRunEnds: assumes of a complete pass that it starts when the run is due, on a clock that does not go back (`Progress.EarlyPassGainsNothing` shows why), and that its commits win; a pass that loses a commit is not counted.
- Termination.WritesAreBounded: is about histories in which a reschedule is computed no earlier than the run was due and a running call's first poll is set no earlier than the run was created. On a clock that never goes back that always holds (`Clocks.ForwardIsOnTime`); on one that does, a run can be rescheduled for ever (`Progress.EarlyPassGainsNothing`). It does not count commits in the middle of a pass; `Termination.AllWritesBounded` does.
- Floating point: the statistics and the correlation are over the reals, so rounding is not modelled; the square root is a parameter without rounding.
- The metric names of the two diagnostics: validators take any lists of names. `RetainSummaries` and `RetainTails` model both diagnostics, whose texts of errors differ.
- The process identities, the CPU limit and the schedstat fields of the scheduling report: field comparisons and the same counter delta again.
- Markdown parsing and rendering, HTML, CSS and JavaScript of the editor: tokens are an arbitrary list of line ranges, a function of the text. A token index before the first line is not modelled.
- Editor.EditorServer.HandleSave: models the section under the lock as one step; a program that writes the file between its read and its write is not modelled, nor is a file that is not valid UTF-8.
- Trajectory.RunLoop: does not model the screenshots in the outputs, nor the text of the errors; items of a response that are not computer calls are dropped before it.
- The Anthropic loop, the sandbox scripts and the release tooling: a similar budget story, or thin wrappers.
