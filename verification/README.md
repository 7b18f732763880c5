# Verification of the browser agent's control, audit and evidence logic

This project models the parts of the browser-use agent whose correctness rests on several
files agreeing, and proves what they are for. It is checked with `dafny verify dfyconfig.toml`.

| Area | Files |
|---|---|
| Run-control protocol: loop, waits, operator services, worker guards | `RunModel`, `RunSteps`, `RunInvariant`, `RunTrace`, `RunSafety`, `RunTakeover`, `RunPause`, `RunAlone`, `RunRetry`, `RunDelivery`, `RunSwap`, `RunLateVerdict`, `RunServices`, `AgentLoop` |
| Hash-chained, signed audit log | `CanonicalJson`, `HashChain`, `SignedAudit`, `AuditTrail`, `SortedKeys` |
| JSON state diffs and envelopes | `TextLines`, `JsonPointer`, `StateDiff`, `Arithmetic` |
| Research reading and synthesis | `ResearchReading`, `ResearchAnswers` |
| Checkpoint and screenshot policy | `Fingerprints`, `Jaccard`, `CheckpointPolicy` |
| Retention over the artifact store | `Retention`, `ArtifactStore`, `ArtifactSteps` |
| Replay-then-live event stream | `EventStream`, `EventBus` |

## How the parts fit

**Run control.** `RunModel` holds the stored state of one run (row, approval rows, signals
objects, hub entry) with a trace of everything that matters for safety, and the operator
services as functions on it. `RunSteps` is the step system: every status poll, database write
and outside call of the loop is one step, and operator calls, worker starts and process
restarts fall between any two steps. `RunInvariant` proves an inductive invariant. A summary of
the trace carries a flag that stays true only while every event was justified by the events
before it; `RunTrace` turns that flag into statements about positions in the trace, and
`RunSafety` states them for all histories. `RunServices` writes the services as methods that
change fields in place, each equal to its function. `AgentLoop` writes the loop itself as nested
methods with the polling loops of the source; what happens around it is a script of operator
calls and outside results. Each method keeps the loop in the state that the step system reaches
by the played part of the script, and may give up only when the script has ended or a restart has
ended the worker; so the theorems about all histories are postconditions of this code: the trace
that `RunLoop` and `ExecuteRun` leave in the stored state is safe, whatever happened to the run
before and meanwhile, and a loop that returns has closed its log.

Those theorems say what the loop never does. `RunAlone` says what it does: the entries that a
step, an approval, a research step, an error and a whole undisturbed run leave, in order, from
outside results alone. `RunPause` says what a pause does to it. The service methods state their
accept and refuse table and their effect on each field besides being equal to their functions.

An approve or reject call commits first and hands its verdict to the signals hub afterwards. The
step system does both at once; `RunDelivery` takes them apart, so that anything may come in
between, and `RunLateVerdict` says for every state of a run exactly which late deliveries are
harmless: `RunSwap` shows that a decision which no gate will take is not seen by any step.

**Audit log.** The canonical printer is paired with a reader for compact JSON documents (RFC 8259,
sections 4 to 7) and proved to be undone by it. The hash is any function from texts to texts;
where it must have no collisions, injectivity is a hypothesis. A private key is a signing
function, a public key a test of message and signature; "unforged" says of the checkpoints
presented that those which verify under a known key were signed for a proper chain head.
`AuditTrail` describes every history the writer can build, proves that writer and verifier agree
and that the writer's own checkpoints are unforged, and then drops the writer: whatever rows are
presented later, if they are accepted they are those that were there when the checkpoints were
signed.

**State diffs.** True, 1 and 1.0 are different values that compare equal; every round trip is
stated up to that equality, and from any base equal to the one the diff was made from, because
that is what restoring a chain of diffs needs.

**Event stream.** The gap-free condition is exact: at most `replay_limit` events waiting when the
session *subscribes*, which is weaker to ask for than when it reads its replay.

Where code and documentation differ, the code is modelled. docs/takeover.md promises a fresh
observation after every release in mid-step. The gate keeps this exactly for holds that its own
takeover poll has seen (`RunTakeover.StepDiscardedIffPollSawHold`). A hold that falls between that
poll and the first poll of the wait that follows parks the loop, yet the earlier decision is then
executed; `RunTakeover.HoldBetweenPollsIsNotReobserved` is a concrete run in which this happens.

The description at the head of src/browser_use_agent/audit/hashchain.py speaks of trimmed fractional
seconds; the code always prints six digits. The model takes a timestamp as the text it is hashed as.

Further differences between what one would expect and what the code does are stated exactly.

- A verdict that is delivered late, after its gate has timed out and the run has been retried, can
  be taken for another gate's: `RunDelivery.TimedOutGrantReachesAnotherGate` is a run that executes
  what nobody approved, `RunLateVerdict.TimedOutDenialEndsAnotherLoop` one that ends with no
  terminal entry. This can happen if and only if the worker that will read the verdict has a gate
  ahead, or waits at one that was not judged so, and the run is not cancelled
  (`RunLateVerdict.LateGrantPassesGateIff`, `LateDenialEndsUnclosedIff`).
- The DOM hash is taken of the candidate signatures joined by newlines, and an element's name may
  hold newlines; so different pages can have the same hash under every hash function.
  `CheckpointPolicy.NewlineHidesAChange` shows two pages without a common signature that are both
  skipped; `CheckpointPolicy.SkipStraysIff` says exactly when a skip strays so far.
- A put that stores content again while a retention round is between its commit and its deletions
  can lose the blob (`ArtifactSteps.PutDuringRoundIsLost`). The puts and rounds under way can leave
  a live row without its blob if and only if content is being stored whose blob is condemned
  (`ArtifactSteps.CanLoseIffOverlap`).
- The asynchronous checkpoint adapter goes through the same states as the plain writer if and only
  if no due write fails (`CheckpointPolicy.AdapterAgrees`);
  `CheckpointPolicy.FailingWriteDelaysCheckpoint` shows a checkpoint that it misses. The screenshot
  adapter agrees in every case.
- The chunks of a page are read in order if and only if no step skips, that is, moves from another
  address to the page's between two reads of the same text, with another chunk of it to be read
  next (`ResearchReading.PagesAreReadInOrder`); `ResearchReading.MovedTextSkipsAChunk` is a run
  that skips.

## Model

| member | source | states |
|---|---|---|
| RunSafety.EveryStateIsSafe | src/browser_use_agent/agent/worker.py:612-867 | every state of every history of a created run satisfies the invariant, and the recorded summary is the summary of its trace |
| RunInvariant.LoopStepKeeps | src/browser_use_agent/agent/loop.py:244-1486 | each single step of the loop keeps the invariant |
| RunInvariant.OperateKeeps | src/browser_use_agent/services/runs.py:132-334 | each operator call, worker start and restart keeps the invariant |
| RunSafety.GatedExecutesWereApproved | src/browser_use_agent/agent/loop.py:495-682 | in every interleaving each execute of an action that needs approval is matched with its own earlier gate for that very decision and an approve call on that gate's row; no row authorises twice, is approved twice, or authorises although it was rejected; and a loop that has recorded a timeout, a cancel or another end of its own executes nothing any more |
| RunTrace.RejectedRowsAuthoriseNothing | src/browser_use_agent/services/approvals.py:107-162 | a row that is rejected, before or after, never authorised an execute |
| RunSafety.CancelIsForever | src/browser_use_agent/services/runs.py:213-250 | once cancelled, a run is cancelled after every continuation |
| RunSafety.AtMostOneExecuteAfterCancel | src/browser_use_agent/agent/loop.py:1455-1476 | after a cancel every status written is cancelled again, and at most one further execute starts |
| RunSafety.CancelTakesEffect | src/browser_use_agent/services/runs.py:213-250 | after any history a cancel call leaves a terminal status, which is cancelled unless the run had ended before |
| RunSafety.FinishedExactlyWhenTerminal | src/browser_use_agent/services/runs.py:229-317 | finished_at is set exactly when the status is terminal; a terminal status is left only by retrying a failed run |
| RunSafety.HoldsAreRespected | src/browser_use_agent/agent/loop.py:1338-1400 | a hold seen by a takeover poll is released, and the page observed anew, before any later execute; the inner port executes only after its guard polled and found no hold |
| RunSafety.LoopEndsWithOneTerminalEvent | src/browser_use_agent/agent/loop.py:258-367 | at a return: at most max_steps observations, and exactly one terminal event of the loop's own, as its last, fitting the outcome; or, after a rejection, none of its own but the service's approval_denied since it started |
| RunTakeover.StepDiscardedIffPollSawHold | src/browser_use_agent/agent/loop.py:1338-1400 | a mid-step gate that is neither cancelled nor lost discards the step if and only if its takeover poll saw the hold |
| RunTakeover.HoldBetweenPollsIsNotReobserved | src/browser_use_agent/agent/loop.py:1338-1346 | there is a run in which a hold parks the gate and an older observation is still acted on |
| RunTrace.HoldThenExecuteReobserves | src/browser_use_agent/agent/takeover.py:164-183 | a sound trace shows a release and a new observation between a seen hold and an execute |
| RunPause.PausedLoopStaysParked | src/browser_use_agent/agent/controls.py:250-292 | a loop at its pause polls stays there, changing nothing, under every sequence of steps and calls that keeps the run paused |
| RunPause.ClearedPauseLetsGo | src/browser_use_agent/agent/controls.py:250-292 | once the pause is cleared the loop leaves the wait at its next look, unless the run is cancelled |
| RunPause.PausesAreRespected | src/browser_use_agent/agent/loop.py:1404-1476 | over every history at most one execute starts between a write of paused and the next status written |
| RunAlone.StartSpawnsIff | src/browser_use_agent/agent/worker.py:232-296 | a start spawns a task exactly for an idle run that has not ended, writes running if it was not, and does nothing else |
| RunAlone.RestartFailsRun | src/browser_use_agent/agent/worker.py:298-368 | a restart loses worker and signals; a run under way fails with one entry, and the approval it waited for is denied |
| RunAlone.GatePasses | src/browser_use_agent/agent/loop.py:1291-1476 | a gate of a run that is not cancelled, held or paused is passed after its seven polls, and nothing is written |
| RunAlone.StepExecutes | src/browser_use_agent/agent/loop.py:369-672 | an undisturbed step observes, decides on that observation, requests, polls the guard and executes once, with exactly these entries |
| RunAlone.StepSucceeds | src/browser_use_agent/agent/loop.py:674-823 | a successful execute is recorded and ends the step, or the run if the browser says done or the action is the last |
| RunAlone.StepFails | src/browser_use_agent/agent/loop.py:748-810 | a failed execute ends the run, or the step if a retry was armed, which is then used up |
| RunAlone.UndisturbedRunUsesItsSteps | src/browser_use_agent/agent/loop.py:244-367 | a created run that is started and left alone with actions that succeed but never finish executes exactly max_steps of them, each on its own observation, fails, and stores that outcome; its whole trace is given |
| RunAlone.GatedStepParks | src/browser_use_agent/agent/loop.py:495-560 | a gated action opens a row of its own and parks the run before anything is requested |
| RunAlone.UnansweredGateWaits | src/browser_use_agent/agent/approvals.py:318-385 | without verdict, cancel or timeout the loop waits for any number of turns and changes nothing |
| RunAlone.ApprovedActionIsExecuted | src/browser_use_agent/services/approvals.py:83-162 | after an approve call the waiting loop passes its gate again and executes the very decision the row was opened for |
| RunAlone.RejectedActionEndsRun | src/browser_use_agent/services/approvals.py:83-162 | after a reject call the waiting loop returns failed, with no entry of its own and no request |
| RunAlone.TimedOutGateEndsRun | src/browser_use_agent/agent/loop.py:579-604 | a wait whose time is up denies its row, records the timeout and fails the run |
| RunAlone.ResearchIsSaved | src/browser_use_agent/agent/loop.py:825-1054 | an undisturbed research step saves its evidence and goes on; a synthesis calls the model, saves the result and ends the run as succeeded |
| RunAlone.ErrorEndsRun | src/browser_use_agent/agent/loop.py:283-345 | an error raised by any call of the loop ends the run as failed, with the entry of its own that some errors have |
| RunAlone.ReleasedStepStartsOver | src/browser_use_agent/agent/loop.py:1338-1400 | a gate that finds the run held waits for the release; in mid-step it then drops the step, with a fresh_observe entry before a decision or an execute, and else goes on |
| RunAlone.HeldActionIsRefused | src/browser_use_agent/agent/takeover.py:164-183 | an execute of a held run is refused by the guard, and the refusal is handled as a failed action |
| RunRetry.StepRetriesWereAskedFor | src/browser_use_agent/agent/controls.py:75-88 | over every history the loop takes no more step retries than retry calls were made, whichever signals objects come and go |
| RunDelivery.JudgeIsCommitThenDeliver | src/browser_use_agent/services/approvals.py:107-162 | an approve or reject call is a commit and then a delivery of its verdict |
| RunDelivery.DeliveryKeepsIff | src/browser_use_agent/agent/controls.py:169-176 | delivering a verdict keeps the invariant of the step system if and only if it is timely: a loop that waits on the receiving object waits for a row that was judged so, or no loop can reach a gate any more |
| RunDelivery.TimelyHistoriesAreSafe | src/browser_use_agent/services/approvals.py:107-162 | with commit and delivery of approve and reject calls as separate steps, every trace theorem and the closing of the log hold of every history whose deliveries are timely, however late |
| RunDelivery.LateGrantMisleadsIff | src/browser_use_agent/services/approvals.py:158-162 | a grant delivered between two workers of a run can lead to an execute that no approve call was made for if and only if the run has been queued again or its next worker has started |
| RunDelivery.TimedOutGrantReachesAnotherGate | src/browser_use_agent/services/approvals.py:158-162 | there is a run in which a grant committed at one gate, delivered after timeout and retry, authorises another action |
| RunSwap.LoopStepUnseen | src/browser_use_agent/agent/controls.py:99-107 | two states that differ only in the decision of one signals object stay so under every step of the loop but the one that takes it |
| RunLateVerdict.LateGrantPassesGateIff | src/browser_use_agent/services/approvals.py:158-162 | for every reached state: delivering a grant can let a loop past a gate nobody has approved if and only if the worker that will read it has a gate ahead or waits at one unapproved, and the run is not cancelled; otherwise every theorem holds of all that follows |
| RunLateVerdict.LateDenialEndsUnclosedIff | src/browser_use_agent/services/approvals.py:158-162 | for every reached state: delivering a denial can make a loop return with its log not closed under exactly the same condition |
| RunLateVerdict.TimedOutDenialEndsAnotherLoop | src/browser_use_agent/services/approvals.py:158-162 | there is a run in which a denial, delivered after timeout and retry, ends the next worker at its own gate with no terminal entry |
| AgentLoop.AgentLoop.RunLoop | src/browser_use_agent/agent/loop.py:244-367 | the loop as written ends in a returned state of the step system, with its outcome, reached by the played script; the trace it leaves satisfies the approval, cancel, takeover, pause and status theorems, and its log is closed when it returns |
| AgentLoop.AgentLoop.Step | src/browser_use_agent/agent/loop.py:369-823 | one observe, gate, decide, approve, gate, execute cycle stays in the step system and ends the run or goes back to the head |
| AgentLoop.AgentLoop.ControlGate | src/browser_use_agent/agent/loop.py:1291-1476 | a gate passes, not cancelled, to exactly the state the step system prescribes, stops on cancel, or starts over in mid-step only |
| AgentLoop.AgentLoop.PollTakeover | src/browser_use_agent/agent/loop.py:1338-1342 | the poll answers held if and only if the stored status is, and records it then |
| AgentLoop.AgentLoop.WaitWhileAwaitingHuman | src/browser_use_agent/agent/takeover.py:78-103 | the wait ends cancelled, or no longer held: then with the step abandoned if and only if it had waited in mid-step |
| AgentLoop.AgentLoop.WaitWhilePaused | src/browser_use_agent/agent/controls.py:250-292 | the wait ends only cancelled, or when the stored status is not paused |
| AgentLoop.AgentLoop.Observe | src/browser_use_agent/agent/loop.py:385-432 | the observation and its audit entry, remembered at its place in the trace, or the end of the run |
| AgentLoop.AgentLoop.Decide | src/browser_use_agent/agent/loop.py:434-495 | a gated decision leads to the approval gate, any other to the gate before execute |
| AgentLoop.AgentLoop.AwaitApproval | src/browser_use_agent/agent/loop.py:495-608 | the loop gets past the approval gate only with a grant |
| AgentLoop.AgentLoop.WaitForApprovalDecision | src/browser_use_agent/agent/approvals.py:318-385 | the wait ends with a grant, a denial, a cancel, or the timeout, as the step system does |
| AgentLoop.AgentLoop.TakeVerdict | src/browser_use_agent/agent/controls.py:99-107 | a verdict is consumed once and ends the wait; none lets it go on |
| AgentLoop.AgentLoop.RequestAction | src/browser_use_agent/agent/loop.py:634-672 | the request is audited before the port is called, or the run ends |
| AgentLoop.AgentLoop.GuardedExecute | src/browser_use_agent/agent/takeover.py:164-183 | the inner port is reached only when the guard's poll finds no hold; a hold is answered with a refusal |
| AgentLoop.AgentLoop.TakeResult | src/browser_use_agent/agent/loop.py:674-823 | success is recorded and ends the run when done and otherwise the step; failure goes to the retry decision |
| AgentLoop.AgentLoop.HandleFailure | src/browser_use_agent/agent/loop.py:748-810 | a failed action is recorded and leads to another step only by an armed one-shot retry, recorded too |
| AgentLoop.AgentLoop.ResearchStep | src/browser_use_agent/agent/loop.py:825-1054 | reads, two gates, the model call and the record, in the step system's order |
| AgentLoop.AgentLoop.Serve | src/browser_use_agent/services/runs.py:132-334 | every operator call on the stored state has the effect the step system gives it |
| AgentLoop.AgentLoop.ExecuteRun | src/browser_use_agent/agent/worker.py:612-867 | loop, persisted outcome and discarded signals together are a run of the step system back to idle, and the trace they leave, after any history of the run, satisfies the approval, cancel, takeover, pause and status theorems |
| RunServices.ControlPlane.Pause | src/browser_use_agent/services/runs.py:132-170 | a running run becomes paused with one entry; a paused one is left alone; any other is refused with nothing changed |
| RunServices.ControlPlane.Resume | src/browser_use_agent/services/runs.py:173-210 | a paused run becomes running with one entry; a running one is left alone; any other is refused with nothing changed |
| RunServices.ControlPlane.Cancel | src/browser_use_agent/services/runs.py:213-250 | a run that is not terminal becomes cancelled and finished with one entry, whatever its status; a terminal one is left as it is |
| RunServices.ControlPlane.Retry | src/browser_use_agent/services/runs.py:269-334 | a failed run is queued again, unfinished, with its signals dropped; a running or paused one gets a step retry armed on its registered signals and keeps its status; any other is refused with nothing changed |
| RunServices.ControlPlane.Take | src/browser_use_agent/services/takeover.py:33-77 | a running or paused run becomes held with one entry; a held one is left alone; any other is refused |
| RunServices.ControlPlane.Release | src/browser_use_agent/services/takeover.py:80-123 | a held run becomes running with one entry; a running one is left alone; any other is refused |
| RunServices.ControlPlane.Judge | src/browser_use_agent/services/approvals.py:83-162 | refused unless the run awaits approval and a row is requested; otherwise the newest such row, the status, the entries and the decision in the registered signals change together, and nothing else; RunDelivery takes commit and delivery apart |
| RunServices.ControlPlane.FindPending | src/browser_use_agent/services/approvals.py:61-80 | the newest row still requested, if any |
| RunServices.ControlPlane.OpenApproval | src/browser_use_agent/services/approvals.py:23-58 | a new requested row and its id in the signals |
| RunServices.ControlPlane.CloseTimedOut | src/browser_use_agent/services/approvals.py:224-259 | the named row, or else the newest requested one, is denied if it is still requested, and no other |
| RunServices.ControlPlane.ReportStatus | src/browser_use_agent/agent/worker.py:685-701 | the loop's status write spares cancelled and human-held runs and nothing else |
| RunServices.ControlPlane.Persist | src/browser_use_agent/agent/worker.py:830-867 | the outcome is written unless the stored status forbids it |
| RunServices.ControlPlane.Recover | src/browser_use_agent/agent/worker.py:298-368 | an interrupted run fails and is finished, with one entry, and the approval it waited for is denied |
| RunServices.ControlPlane.Start | src/browser_use_agent/agent/worker.py:232-296 | a terminal run is refused, any other is running afterwards, with a status written unless it was |
| RunServices.ControlPlane.ObtainSignals | src/browser_use_agent/agent/controls.py:122-139 | the registered signals object, created on first use |
| CanonicalJson.StringComesBack | src/browser_use_agent/audit/hashchain.py:110-123 | a string literal is read back as it was, with quotes, backslashes and control characters in it |
| CanonicalJson.ValueComesBack | src/browser_use_agent/audit/hashchain.py:110-123 | a JSON reader gives back every printed value, whatever delimiter follows it |
| CanonicalJson.PrintUnambiguous | src/browser_use_agent/audit/hashchain.py:110-123 | two printed values, each followed by a delimiter, that agree as texts are the same value and the same rest |
| CanonicalJson.PrintInjective | src/browser_use_agent/audit/hashchain.py:110-123 | two canonical values print alike if and only if they are equal |
| CanonicalJson.OrderFree | src/browser_use_agent/audit/hashchain.py:84-107 | reordering the entries of mappings at any depth does not change the canonical value |
| CanonicalJson.CanonicalIffSame | src/browser_use_agent/audit/hashchain.py:84-107 | two values have the same canonical form if and only if they are the same: scalars by kind and content, lists item by item, mappings by the last entry of each key |
| CanonicalJson.ArrayText | src/browser_use_agent/audit/hashchain.py:110-123 | an array prints as its items' texts joined by commas in brackets |
| CanonicalJson.ObjectText | src/browser_use_agent/audit/hashchain.py:110-123 | an object prints as its members joined by commas in braces, in the order of the sorted keys |
| CanonicalJson.PlainStringText | src/browser_use_agent/audit/hashchain.py:110-123 | a string with no quote, backslash or control character prints as itself between quotes |
| CanonicalJson.EscapesAreMinimal | src/browser_use_agent/audit/hashchain.py:110-123 | a character that is no quote, backslash or control character prints as itself; the others take two characters where JSON has a short form and six where it has none |
| SortedKeys.Sorted | src/browser_use_agent/audit/hashchain.py:122-123 | the keys of an object, each once, in code-point order |
| SortedKeys.BeforeIsLexicographic | src/browser_use_agent/audit/hashchain.py:122-123 | one key comes before another if it is a proper prefix of it, or has the smaller character where they first differ |
| HashChain.EventTextUnambiguous | src/browser_use_agent/audit/hashchain.py:110-123 | the texts of two field mappings are equal if and only if the values of all twelve hashed fields are the same, mappings and lists entry by entry |
| HashChain.PreimageUnambiguous | src/browser_use_agent/audit/hashchain.py:139-211 | two rows have the same preimage if and only if they agree on every hashed field, metadata value by value |
| HashChain.CollisionFreeHashBinds | src/browser_use_agent/audit/hashchain.py:126-136 | with an injective hash the digest of a row fixes its hashed fields |
| HashChain.VerifyEventsChain | src/browser_use_agent/audit/hashchain.py:214-239 | the verifier answers yes if and only if every link of the chain holds |
| HashChain.LastHashFixesHistory | src/browser_use_agent/audit/hashchain.py:214-239 | two verified chains with the same last hash have the same length and agree on every hashed field of every event |
| HashChain.AlteredChainIsRejected | src/browser_use_agent/audit/hashchain.py:214-239 | a history that differs from a verified one but keeps its last hash is rejected |
| SignedAudit.MessageUnambiguous | src/browser_use_agent/audit/signed_checkpoints.py:45-61 | a checkpoint message fixes run, sequence number and chain hash |
| SignedAudit.VerifyRunAudit | src/browser_use_agent/audit/signed_checkpoints.py:281-323 | the answer is yes if and only if the chain verifies, every checkpoint fits and is signed, and a finished history ends in a checkpoint |
| SignedAudit.VerifyCheckpoints | src/browser_use_agent/audit/signed_checkpoints.py:302-314 | all checkpoints name the hash of their event and are signed under a known key |
| SignedAudit.AcceptedHistoryWasSigned | src/browser_use_agent/audit/signed_checkpoints.py:281-323 | if no checkpoint presented is forged: in an accepted history the events up to each checkpoint are those signed; in a finished one, all events |
| AuditTrail.RowExtendsChain | src/browser_use_agent/audit/writer.py:142-185 | the row built by an append continues a verified chain, with the next sequence number |
| AuditTrail.HistoriesAreWellWritten | src/browser_use_agent/audit/writer.py:142-208 | every history the writer builds is a verified chain with exactly one checkpoint per event that was due when appended |
| AuditTrail.StoredAsRequested | src/browser_use_agent/audit/writer.py:97-211 | over every history the n-th row holds the n-th accepted request, each field in its column, payload and URL redacted; and a checkpoint for it exists if and only if a key was configured then and the event was of a terminal type, or the run terminal, or n a multiple of the interval; it then signs that row |
| AuditTrail.AcceptedIff | src/browser_use_agent/audit/signed_checkpoints.py:281-323 | such a history is accepted if and only if it has a checkpoint and, when finished, its last event was due |
| AuditTrail.AcceptedOnceCheckpointed | src/browser_use_agent/audit/writer.py:200-208 | with a signing key always configured it is accepted if and only if it has a checkpoint, unless the run turned terminal after its last row was appended |
| AuditTrail.OwnCheckpointsAreUnforged | src/browser_use_agent/audit/signed_checkpoints.py:240-278 | the checkpoints of every history the writer builds are unforged, each having the message of an event that was due, so the other theorems apply to one and the same run |
| AuditTrail.AcceptedRowsWereWritten | src/browser_use_agent/audit/signed_checkpoints.py:281-323 | rows presented later and accepted are, up to each checkpoint, a prefix of the rows written, cut at a signed event |
| AuditTrail.HashedHistoriesAreGenuine | src/browser_use_agent/audit/hashchain.py:126-211 | all of this for the digest the code computes, with a collision-free hash that is never empty: own histories are unforged and accepted exactly when checkpointed as wanted, and accepted rows presented instead are those written |
| AuditTrail.AuditWriter.AppendEvent | src/browser_use_agent/audit/writer.py:97-211 | refused exactly for a malformed request or a missing run; otherwise the row holds the request, continues the chain, and gets its checkpoint |
| AuditTrail.AuditWriter.LastRow | src/browser_use_agent/audit/writer.py:148-153 | the row with the highest sequence number |
| AuditTrail.AuditWriter.WriteCheckpoint | src/browser_use_agent/audit/signed_checkpoints.py:240-278 | a checkpoint is added if and only if there is a key and a hash, the moment is terminal or the number a multiple of the interval, and the event has none; it signs the row |
| JsonPointer.UnescapeEscape | src/browser_use_agent/artifacts/state_diff.py:36-38 | unescaping undoes escaping for every key, also with ~, /, ~0 or ~1 in it |
| JsonPointer.EscapeStep | src/browser_use_agent/artifacts/state_diff.py:36-38 | a key is escaped character by character: ~ as ~0, / as ~1, any other as itself |
| JsonPointer.PointerRoundTrip | src/browser_use_agent/artifacts/state_diff.py:36-79 | escape, join, split and unescape is the identity on non-empty key lists |
| StateDiff.ApplyStateDiff | src/browser_use_agent/artifacts/state_diff.py:68-87 | operations are applied in order and the first failure is the result |
| StateDiff.SetAtSucceedsIff | src/browser_use_agent/artifacts/state_diff.py:68-87 | an operation is carried out if and only if its name is known, its parent is a dictionary, and it removes a key that is there or has a value to put |
| StateDiff.Diff | src/browser_use_agent/artifacts/state_diff.py:41-54 | the recursive differ appends exactly the changes between the two subtrees, addressed from the root |
| StateDiff.DiffStates | src/browser_use_agent/artifacts/state_diff.py:57-65 | the whole list of operations |
| StateDiff.PyEqIff | src/browser_use_agent/artifacts/state_diff.py:51-54 | two states are == if and only if they are the same once all numbers are of one kind; between states of one kind == is equality |
| StateDiff.ChangesAreTheDifferences | src/browser_use_agent/artifacts/state_diff.py:41-54 | a change is in the diff if and only if the states differ there in that way: a key of only one of two dictionaries, or values, not both dictionaries, that are not == |
| StateDiff.DeltaTellsTheDifferences | src/browser_use_agent/artifacts/state_diff.py:41-65 | the stored operations are exactly the texts of these differences; there are none if and only if the states are == |
| StateDiff.RoundTrip | src/browser_use_agent/artifacts/state_diff.py:57-87 | applying the diff of a and b to a succeeds and gives b up to == |
| StateDiff.RoundTripFromEqual | src/browser_use_agent/artifacts/state_diff.py:41-87 | applying the diff of a and b to any base equal to a succeeds and gives b up to == |
| StateDiff.OperationTouchesOwnPointer | src/browser_use_agent/artifacts/state_diff.py:72-86 | an operation leaves its value at its own keys and changes nothing beside them |
| StateDiff.DiffIsStoredIff | src/browser_use_agent/artifacts/state_diff.py:90-117 | a diff is stored exactly when the feature is on, there is a previous state, and the number is no multiple of full_every; it holds the differences; otherwise the full state is stored, except that full_every 0 raises |
| StateDiff.WholeRunRestores | src/browser_use_agent/artifacts/state_diff.py:90-123 | restoring consecutive envelopes in order gives back every state |
| StateDiff.RebuiltWithinPeriod | src/browser_use_agent/artifacts/state_diff.py:90-123 | every state is rebuilt from a full envelope and at most full_every - 1 diffs |
| ResearchAnswers.ParseExtraction | src/browser_use_agent/policy/research.py:106-146 | accepted if and only if every finding is for a requested field with a verbatim excerpt and without credentials; each gets the page's provenance |
| ResearchAnswers.ParseSynthesis | src/browser_use_agent/policy/research.py:149-202 | accepted if and only if every requested field has an acceptable answer; citations are resolved to saved evidence |
| ResearchAnswers.ResolveField | src/browser_use_agent/policy/research.py:163-199 | one field's answer is accepted if and only if status, answer and citations fit the saved values |
| ResearchAnswers.AcceptableIff | src/browser_use_agent/policy/research.py:163-199 | an answer is acceptable if and only if its citations are of evidence saved for the field, the last under each identifier, and no, one or at least two distinct values are saved, the last all cited, for missing, found or conflicting, without credentials |
| ResearchAnswers.SourcesAreCited | src/browser_use_agent/policy/research.py:163-199 | the sources are what is saved under each cited identifier, once each |
| ResearchAnswers.DistinctKeepsFirsts | src/browser_use_agent/policy/research.py:163-170 | repeated citations count once, in the order of their first places |
| ResearchAnswers.AcceptedAnswerFitsEvidence | src/browser_use_agent/policy/research.py:163-190 | 0, 1 or at least 2 distinct saved values fix missing, found or conflicting; a conflicting answer cites all of them |
| ResearchReading.PagesAreReadInOrder | src/browser_use_agent/agent/loop.py:839-876 | whatever else is visited, the completed reads of an unchanged page start at 0, 10000, 20000 and so on if and only if no step skips a chunk because the text moved between its reads |
| ResearchReading.OrderIsKeptIff | src/browser_use_agent/agent/loop.py:839-876 | from a state read in order, one step keeps the order if and only if it does not skip |
| ResearchReading.ChunkIsOfPage | src/browser_use_agent/agent/browser_port.py:122-141 | a chunk is the next 10000 characters of the page from its offset, or what is left, with the number of characters after it |
| ResearchReading.ChunkContinuesPage | src/browser_use_agent/agent/loop.py:839-861 | a page with no unfinished chunk is read from its start, an unfinished one after its furthest chunk, and one whose text changed between the reads is started over |
| ResearchReading.SteadyPagesAreReadInOrder | src/browser_use_agent/agent/loop.py:839-876 | a page whose text never moves between two reads of one step is read in order |
| ResearchReading.NextVisit | src/browser_use_agent/agent/loop.py:839-1000 | a visit reads the first unread chunk with one model call; when all are read it is a cache hit that changes nothing |
| ResearchReading.WholePageIsRead | src/browser_use_agent/agent/browser_port.py:122-141 | ceil(L / 10000) chunks concatenate to the page |
| ResearchReading.MovedTextSkipsAChunk | src/browser_use_agent/agent/loop.py:851-860 | when the text moves to another address between two reads, that page's first recorded chunk can be its second |
| ResearchReading.EvidenceIsProven | src/browser_use_agent/agent/loop.py:873-1000 | every piece of evidence quotes, at its address, title, hash and offset, a chunk that some step read from the browser and sent to the extraction model |
| ResearchReading.FindingsAreKept | src/browser_use_agent/agent/loop.py:873-1030 | every finding of every step that read a new chunk and was not abandoned is in the evidence at the end, with the provenance of that chunk |
| ResearchReading.EvidenceIsSupported | src/browser_use_agent/policy/research.py:106-146 | over every history all evidence is for a requested field, from a web page, within the bounds, not blank, and free of credentials |
| ResearchReading.CitedExcerptsWereRead | src/browser_use_agent/policy/research.py:149-202 | every source of an accepted final answer quotes, at its address, title, hash and offset, a chunk that some step read |
| ResearchReading.Researcher.ReadPage | src/browser_use_agent/agent/loop.py:839-861 | the three reads settle on the prescribed chunk |
| ResearchReading.Researcher.UnreadOffset | src/browser_use_agent/agent/loop.py:849-853 | the first offset after all chunks of the page that leave a rest |
| ResearchReading.Researcher.FindCached | src/browser_use_agent/agent/loop.py:863-872 | whether this chunk of this page is recorded |
| ResearchReading.Researcher.ExtractStep | src/browser_use_agent/agent/loop.py:839-1030 | one EXTRACT step asks the model exactly for a new chunk, and saves all findings and the page record together, or nothing |
| Jaccard.Distance | src/browser_use_agent/audit/checkpoints.py:215-231 | the distance lies in [0, 1] and is 0 exactly for equal sets |
| Jaccard.DistanceIsShare | src/browser_use_agent/audit/checkpoints.py:215-231 | the distance is the share of elements that only one of the two sets has |
| Jaccard.Triangle | src/browser_use_agent/audit/checkpoints.py:215-231 | the triangle inequality |
| CheckpointPolicy.SkippedObservationsAgree | src/browser_use_agent/audit/checkpoints.py:234-289 | two observations skipped with no write in between, though calls may have raised, were not forced, share the checkpointed URL and title and show no new errors; and unless a text of an element shown so far holds a newline, they lie within twice the change ratio of each other |
| CheckpointPolicy.SkipStraysIff | src/browser_use_agent/audit/checkpoints.py:258-289 | when nothing but the elements may differ, a call is skipped if and only if they are closer than the ratio or their signatures give the same lines; straying further needs a newline inside a signature |
| CheckpointPolicy.CheckpointIsWrittenIff | src/browser_use_agent/audit/checkpoints.py:234-289 | an unforced call after a checkpoint writes for the first that applies of: address, title, elements apart by the ratio with other lines, more errors, interval reached since; and skips if none does |
| CheckpointPolicy.ScreenshotIsWrittenIff | src/browser_use_agent/audit/screenshots.py:250-301 | the same for screenshots, with address, title and interval |
| CheckpointPolicy.ForcedCallsWrite | src/browser_use_agent/audit/checkpoints.py:258-270 | with the policy on, a forced call and the first one write, with the reason that was given; with the policy off none does |
| CheckpointPolicy.NewlineHidesAChange | src/browser_use_agent/audit/checkpoints.py:181-193 | whatever the hash, two pages without a common signature are both skipped after one checkpoint |
| Fingerprints.DomTextsAgreeIff | src/browser_use_agent/audit/checkpoints.py:150-193 | the hashed texts of two observations are equal if and only if their signatures, broken at newlines, give the same lines |
| Fingerprints.SignaturesAgreeIff | src/browser_use_agent/audit/checkpoints.py:152-179 | the signatures of two elements without a bar in their texts are equal if and only if all their fields are |
| TextLines.JoinsAgreeIff | src/browser_use_agent/audit/checkpoints.py:191-193 | lists of non-empty parts join to the same text if and only if they have the same pieces |
| CheckpointPolicy.NoIntervalPassesQuietly | src/browser_use_agent/audit/checkpoints.py:284-289 | with a periodic interval of N no N observations in a row are skipped |
| CheckpointPolicy.CheckpointWriter.MaybeCheckpoint | src/browser_use_agent/audit/checkpoints.py:459-499 | decision, reason and policy state of one call: a write remembers this observation and restarts the count, anything else keeps the old one and counts on |
| CheckpointPolicy.AsyncCheckpointWriter.Write | src/browser_use_agent/audit/async_writers.py:88-115 | the adapter's call; it counts like the plain writer, except that a raising write is not counted |
| CheckpointPolicy.AdapterStepAgreesIff | src/browser_use_agent/audit/async_writers.py:95-115 | the adapter decides like the plain writer, and ends in the same state if and only if it is not the case that a write is due and fails |
| CheckpointPolicy.AdapterAgrees | src/browser_use_agent/audit/async_writers.py:88-115 | over any sequence of calls the adapter goes through the same states if and only if no due write fails, and decides alike up to and including the first that does |
| CheckpointPolicy.FailingWriteDelaysCheckpoint | src/browser_use_agent/audit/async_writers.py:95-115 | three calls after which the plain writer checkpoints periodically and the adapter, which lost count at a failing write, skips |
| CheckpointPolicy.ScreenshotsIgnoreDom | src/browser_use_agent/audit/screenshots.py:250-301 | over whole sequences the screenshots taken and their reasons do not depend on the page's elements |
| CheckpointPolicy.ScreenshotWriter.MaybeScreenshot | src/browser_use_agent/audit/screenshots.py:369-457 | decision, reason and policy state of one call, as for checkpoints |
| CheckpointPolicy.AsyncScreenshotWriter.Write | src/browser_use_agent/audit/async_writers.py:136-182 | the adapter that decides twice does exactly what the plain writer does, raising or not |
| Retention.KeysAreDistinct | src/browser_use_agent/artifacts/store.py:28-33 | different digests have different storage keys |
| Retention.PlanRetention | src/browser_use_agent/artifacts/retention.py:115-160 | the one-pass planner computes the verdict of every row from its place among the aged rows of its group |
| Retention.VerdictTable | src/browser_use_agent/artifacts/retention.py:115-160 | a row is downsampled if and only if it is live, a screenshot or browser state whose kind has a period, older than that many days, no boundary, and the number of older such rows of its group is no multiple of the kind's keep_every; each other verdict likewise |
| Retention.PlanCoversInventory | src/browser_use_agent/artifacts/retention.py:115-160 | the plan has one decision for each row of the inventory |
| Retention.PlanIgnoresInventoryOrder | src/browser_use_agent/artifacts/retention.py:128 | the plan does not depend on the order of the inventory |
| Retention.EnoughAreKept | src/browser_use_agent/artifacts/retention.py:146-159 | of n aged rows of a group at least ceil(n / keep_every) are kept |
| Retention.OldestAndBoundariesAreKept | src/browser_use_agent/artifacts/retention.py:146-159 | the oldest live row of a group and every boundary row are never chosen |
| ArtifactStore.LiveRowsStayReadable | src/browser_use_agent/artifacts/store.py:200-348 | after any puts, streams, plans and rounds every live row leads to a blob with its digest |
| ArtifactStore.ProtectedRowsSurvive | src/browser_use_agent/artifacts/retention.py:115-214 | boundary rows, and the oldest row of each kind and run as long as new ones of its group are later, stay live and readable through any number of rounds under any settings |
| ArtifactStore.StoredContentComesBack | src/browser_use_agent/artifacts/store.py:200-246 | a live row leads to the very content it was stored for, if nothing else has that digest |
| ArtifactStore.FilesystemArtifactStore.Put | src/browser_use_agent/artifacts/store.py:200-246 | the blob once, then the row |
| ArtifactStore.FilesystemArtifactStore.PutStream | src/browser_use_agent/artifacts/store.py:248-323 | a stream is stored as the concatenation of its chunks would be |
| ArtifactStore.StreamEndsAtEmptyChunk | src/browser_use_agent/artifacts/store.py:265-285 | what is stored of a stream is its chunks up to the first empty one |
| ArtifactStore.FilesystemArtifactStore.WriteIfAbsent | src/browser_use_agent/artifacts/store.py:325-348 | an existing blob is left alone |
| ArtifactStore.FilesystemArtifactStore.Delete | src/browser_use_agent/artifacts/store.py:185-198 | that blob and no other is removed |
| ArtifactStore.FilesystemArtifactStore.ApplyRetention | src/browser_use_agent/artifacts/retention.py:172-214 | chosen rows are marked and exactly the blobs that no live row needs any more are removed, in one step; ArtifactSteps takes mark and deletions apart |
| ArtifactStore.PlanIsApplied | src/browser_use_agent/artifacts/retention.py:172-214 | after a round a row is deleted if and only if it was, or was live and chosen, nothing else of it changes, and a blob is gone if and only if it is that of a chosen row and of no live one |
| ArtifactSteps.PutIsTwoMoves | src/browser_use_agent/artifacts/store.py:225-246 | a put is its blob step and then its row step |
| ArtifactSteps.RoundIsMarkThenDeletions | src/browser_use_agent/artifacts/retention.py:196-214 | a round is its committed marks and then the deletions of the condemned blobs in sorted order |
| ArtifactSteps.MoveKeepsClearIff | src/browser_use_agent/artifacts/retention.py:207-213 | one step of interleaved puts and rounds keeps every live row's blob, and none of them condemned, if and only if it inserts no row whose blob is condemned and deletes no blob a pending row needs |
| ArtifactSteps.CarefulHistoriesStayReadable | src/browser_use_agent/artifacts/store.py:200-348 | over every interleaving of careful steps every live row stays readable |
| ArtifactSteps.CanLoseIffOverlap | src/browser_use_agent/artifacts/retention.py:207-213 | the puts and rounds under way can leave a live row without its blob if and only if content is being stored whose blob is condemned |
| ArtifactSteps.PutDuringRoundCanLose | src/browser_use_agent/artifacts/store.py:325-340 | storing the content of a condemned blob again before the deletion finds the blob and can lose it |
| ArtifactSteps.PutDuringRoundIsLost | src/browser_use_agent/artifacts/retention.py:207-213 | there is such a run from the empty store |
| EventStream.SentInOrder | src/browser_use_agent/api/ws.py:106-164 | in every interleaving the sent numbers increase strictly and are the replay followed by the live events from the later of replay end and subscription |
| EventStream.NoGapIff | src/browser_use_agent/api/ws.py:106-164 | nothing is skipped if at most replay_limit events waited at the subscription; once a live event was sent, only then |
| EventStream.IdleMeansComplete | src/browser_use_agent/api/ws.py:150-164 | with an empty queue and within the limit the client has every event |
| EventStream.OpenSessionCatchesUp | src/browser_use_agent/api/ws.py:106-164 | whatever has happened, the handler alone empties the queue of a session that is still open, and a client within its limit then has every stored event |
| EventStream.ViewIncreases | src/browser_use_agent/api/ws.py:78-92 | across reconnects from the last seen number a client never sees an event twice or out of order |
| EventStream.ReconnectsLeaveNoGap | src/browser_use_agent/api/ws.py:78-164 | across reconnects the client sees every event once and in order when each connection was within its limit |
| EventBus.RunEventBus.Subscribe | src/browser_use_agent/api/events_bus.py:166-178 | a new empty queue at the end of the run's list |
| EventBus.RunEventBus.Unsubscribe | src/browser_use_agent/api/events_bus.py:180-196 | that queue leaves the list, the others keep their places, other runs are untouched |
| EventBus.RunEventBus.Publish | src/browser_use_agent/api/events_bus.py:198-207 | every queue of the run, and no other, gets the message at its end |
| EventBus.RunEventBus.Drain | src/browser_use_agent/api/events_bus.py:218-239 | the oldest messages up to the cap, in order |
| EventBus.EventSocket.SendReplay | src/browser_use_agent/api/ws.py:133-141 | the replay is sent whole and sets the last sequence number |
| EventBus.EventSocket.SendLive | src/browser_use_agent/api/ws.py:150-157 | a drained batch is sent without what was sent before |
| EventBus.BatchIsSentStepwise | src/browser_use_agent/api/ws.py:150-157 | the handler's loop over a batch is a run of the stream's single sends |

## Left out

- At most one worker per run is assumed alive; the done-callback of the source pops its entry by run id and would not ensure it.
- Each operator call is one atomic step on fresh rows: row, status, audit event and signal together; approve and reject calls are also modelled in their two steps. Stale identity-map reads, failed commits and rollbacks are not modelled.
- A pause may be overwritten by the loop's own status write, which spares only cancelled and human-held runs; no claim says that it survives.
- RunSafety.HoldsAreRespected: speaks of holds that a takeover poll has seen; RunTakeover states exactly what happens to the others.
- RunServices.ControlPlane.Judge: commit and delivery are one step here, as in the step system; RunDelivery takes them apart.
- RunServices.ControlPlane.ReportStatus: whether finished_at is set is modelled, its clock value is not.
- Which actions need approval is a flag of the decision: rule files, regular expressions and the evaluation of approval rules are not modelled.
- RunServices.ControlPlane.Retry: that a retry also resets the research evidence of a failed run is not modelled.
- Non-terminal audit entries are represented where they matter for the order of the loop's own entries; bitwarden entries, model-call rows, browser-action rows, checkpoints and screenshots taken inside the loop, and telemetry are not.
- ResearchReading.PagesAreReadInOrder: pages without text end the run and are left out.
- ResearchAnswers.ParseExtraction: JSON and schema parsing, URL splitting, white-space tests, redaction and value normalisation are functions known by name only.
- HashChain.PreimageUnambiguous: identifiers and timestamps are given by the text they are hashed as, so two timestamps for the same instant count as equal.
- CanonicalJson.PrintInjective: a float is an opaque token that is not the text of an integer.
- SignedAudit.MessageUnambiguous: uses the printer that does not escape non-ASCII characters; run ids and digests are ASCII, where both printers agree.
- SignedAudit.AcceptedHistoryWasSigned: a history cut back, rows and checkpoints together, to an earlier signed event is still accepted by the code, so the theorem speaks of some signed history, not of the latest one.
- AuditTrail.AuditWriter.AppendEvent: the row lock makes an append one step; the clock, the redaction functions and new identifiers are inputs, and the publishing hook belongs to the event stream.
- Key files, key formats and the Ed25519 scheme itself (section 5.1 of RFC 8032) are replaced by "verifies only if signed".
- StateDiff.ApplyStateDiff: works on values; the in-place update of a deep copy, and hence aliasing, is not modelled. NaN, which is not equal to itself, is excluded.
- CheckpointPolicy.SkippedObservationsAgree: takes the hash as collision-free on texts and the distance as an exact rational.
- Payload building, redaction and compression of checkpoints, image encoding, and what a raising write leaves in the database.
- ArtifactStore.ProtectedRowsSurvive: rounds plan from the current rows, and new rows of a group come later than its protected oldest one; for plans that are out of date only LiveRowsStayReadable is claimed. Repeated rounds thin further, so no idempotence is claimed.
- ArtifactStore.FilesystemArtifactStore.ApplyRetention: one step here; ArtifactSteps takes marks, deletions, blob writes and row inserts apart, but the rows a round reads and the marks it commits stay one step.
- ArtifactStore.FilesystemArtifactStore.Put: file system failures, temporary files and the S3 backend.
- EventStream.SentInOrder: append, commit and publish are one step, a message is its sequence number, and control messages without one are not modelled; authentication and the 404 path are left out.
- Chrome, HTTP and model transports, settings loaders, cost sums, profiles, sessions, routes and templates would only add easy members.
