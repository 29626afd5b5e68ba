# Praxec verification model

A Dafny model of the parts of Praxec whose correctness cannot be read off one
function: the static validator of amplifier workflows, the agent tool loop with
its bounded history and durable suspension, the model chain-walk with its circuit
breaker, the interaction bus with the mission drivers on it, and the rotation and
retention of audit files.

`dafny verify dfyconfig.toml` checks the whole project.

## What is modelled

**Amplifier validator** (`Graph`, `Kahn`, `ProductSearch`, `Amplifier`). A workflow
is a map of states with role-labelled transitions, branches, terminals and an
optional timeout. The validator's two passes keep their loops: Kahn's algorithm
over a multigraph, and the worklist search over (state, model count, verified).
Each pass is exact, every rejection has a witness, and a separate run semantics
(take a transition, time out, halt, in any order) shows what acceptance buys: every
run is shorter than the number of states, stays within the model-step budget, can
always continue until a terminal, and is in a success terminal only after
"generate, then verify last".

**Agent tool loop** (`Contract`, `Conversation`, `Spill`, `Memory`, `Codecs`,
`Parking`, `ToolRecord`, `Scripts`, `ToolLoop`, `SessionRunner`, `Suspensions`,
`LostAnswer`, `ForgottenWrite`). The
provider and the tool host are arbitrary functions of the request and call number, so
every behaviour of theirs is covered. `Scripts` says, without any state, what a pass
through the loop is: a chat of requests, each with the talk as it was sent, where every
prompt follows up on the reply before it (results of exactly the calls asked for, the
output contract, or the reminder to write), where calls are on record once, as their
reply asked for them and as they were routed, and which ends in the one way its last reply allows. Its lemmas
hold for every pass: requests are well-formed, bounded, and carry the recent part of
everything said, which is each prompt and its reply as it came; what was elided is named
line by line in the ledger; an answer was offered by the last reply, conforms, and is earned; at
most two requests are reminders; a parked frame holds the conversation and can be
resumed. `Segment` is the loop itself, with its history, prompt, ledger, spill store and
counters; it is proved to make such a pass, to send exactly that pass's requests, and to
lose nothing it elides (the goal, the pairs recalled through the ledger and the rest of
the history together are everything said, as long as no two stored payloads share a
slot). The encoding of turn-pairs is any faithful one, and `Codecs` gives one. `Runner`
adds the parked store and records every pass with the frame it resumes: a frame is
stored before a session is reported suspended, a resumed pass starts from exactly the
frame and answers every call of the parked turn with its own output, the human's reply at
the first await only, calls of a parked turn are never repeated, the turn budget
spans all passes of a session, and through any sequence of calls a session keeps a frame
until one of its frames is resumed to an answer. `Suspensions` shows the last of these for
runs and resumptions that overlap, as a state machine over their store operations.

**Tool names** (`ToolNames`, `Digits`). Host tool names are cleaned, cut and
numbered until they are valid, free and unreserved; each routes back to its own
tool. The suffix can be read off a candidate after truncation, which is why the
search stops.

**Chain-walk and breaker** (`Breaker`, `ChainWalk`). A breaker entry is proved to
be a function of the event history; the plan is stated over that history. The walk
keeps its per-model effort queues and its one shared clock, in milliseconds, and each
attempt is a hop of the chain with the hop's own effort.

**Bus and missions** (`Bus`, `Mission`). Every lock region and channel operation of
the bus is one atomic step; drivers, other requesters, consumers and cancellations
interleave in any order. Conservation of requests and the human gate are invariants
of all interleavings: a move behind a gate is the move the gate was opened for. The bus is also given as an object whose methods are
sequences of those steps.

**Audit files** (`Calendar`, `Audit`, `AuditSink`). Days are counted in the proleptic
Gregorian calendar, weeks as in section 4.1.4 of ISO 8601:2004, with 1 January 1970 as
the Thursday that fixes them. The printer of file
names and the parser of their stamps agree, and no file whose window starts inside the
retention is removed, however the single file operations of several processes
interleave. The clock reads nanoseconds, so a file whose window starts in the very
second of the cutoff is judged as the code judges it.

Where the code and its comments differ, the model follows the code. Four cases:

- `SpillStore::get` is documented to fail only for an unknown slot, but a range whose
  end lies before the character its start falls in makes the slice panic. The model
  returns `BadSlice` there, `Spill.ReadDefinedWhen` gives the exact condition, and a
  segment ends as `Panicked` only after such a read.
- The history guard is documented as keeping the goal and roughly the two most recent
  turn-pairs. It can go down to the goal and three messages:
  `Conversation.GuardCanKeepThree` has such a history and `Scripts.TrimmedFits`
  says exactly when it happens.
- A frame is documented to be removed when its session completes. If the store removes
  the row and then reports an error, the completed answer is reported as a store error
  and the frame is gone. `LostAnswer.Lose` does this for every session that asks a
  human and then answers, `LostAnswer.CanLose` has one, and `SessionRunner.Runner.Resume`
  states that it is the one way an answer is lost with its frame.
- The write counter is documented to span the whole run, and a refusal for missing
  writes to mean a pristine worktree. The counter starts at zero in each pass and leaves
  out the turn that suspends. `Scripts.RefusedWhen` has the exact condition: an answer is
  refused exactly when writes are required and its own pass made none. So every session
  that writes in its suspending turn and then just answers is refused
  (`ForgottenWrite.Forget`), and there is one (`ForgottenWrite.CanForget`).

## Model

| member | source | states |
|---|---|---|
| `Kahn.CountIndegrees` | crates/praxec-core/src/amplifier.rs:241-246 | each in-degree is the number of edges into the state, parallel edges and self-loops counted |
| `Kahn.Relax` | crates/praxec-core/src/amplifier.rs:254-260 | popping a state leaves each in-degree equal to the edges from states not yet popped, so no decrement underflows and no lookup fails |
| `Kahn.CountVisited` | crates/praxec-core/src/amplifier.rs:240-264 | for any queue order, the visited count is the number of states exactly when the multigraph has no cycle |
| `Kahn.PoppedAllOrCycle` | crates/praxec-core/src/amplifier.rs:261-264 | an empty queue means all states are popped or the rest contains a cycle |
| `Graph.PredecessorsForceCycle` | crates/praxec-core/src/amplifier.rs:261-264 | a non-empty set of states that each have a predecessor in it contains a cycle |
| `Graph.AcyclicWalkIsShort` | crates/praxec-core/src/amplifier.rs:261-264 | without a cycle no walk meets a state twice, so it has fewer steps than there are states |
| `ProductSearch.ReachMeans` | crates/praxec-core/src/amplifier.rs:282-290 | the triple computed step by step along a path is its end, its number of generative steps, and whether its last non-intent step is a verification after a generative one |
| `ProductSearch.Search` | crates/praxec-core/src/amplifier.rs:265-296 | terminates; accepts exactly when every path is acceptable and one succeeds; on finishing, the seen set is exactly the triples of paths; each rejection has a path or a proved absence |
| `ProductSearch.SeenIsEverything` | crates/praxec-core/src/amplifier.rs:268-271 | a seen set closed under steps contains the triple of every path, so skipping seen triples hides none |
| `ProductSearch.UniverseSize` | crates/praxec-core/src/amplifier.rs:265-275 | the triples the search can visit number (budget + 2) times twice the states, which bounds it |
| `Amplifier.BuildGraph` | crates/praxec-core/src/amplifier.rs:62-228 | accepts exactly when every state passes its checks, and then yields the graph of the workflow |
| `Amplifier.GraphRepresents` | crates/praxec-core/src/amplifier.rs:208-227 | an edge is in the graph exactly when some non-halting transition moves along it, by its target or a branch, with its role |
| `Amplifier.Validate` | crates/praxec-core/src/amplifier.rs:28-298 | accepts exactly the workflows of sound shape, without cycles, whose paths are all fine; each kind of rejection is justified |
| `Amplifier.AcceptedRunsAreSafe` | crates/praxec-core/src/amplifier.rs:223-297 | in an accepted workflow every run, with halt or timeout at any point, is shorter than the number of states, within the model budget, can continue unless halted or terminal, and is in a success terminal only verified last after generating |
| `Amplifier.RunFollowsGraph` | crates/praxec-core/src/amplifier.rs:62-228 | every run is a walk of the extracted graph, a timeout leading only to a failure terminal |
| `Amplifier.VerifiedPathVerifiedRun` | crates/praxec-core/src/amplifier.rs:223-297 | a run is verified exactly when its path in the graph is, and has generated something exactly when its path has |
| `Amplifier.PathIsRun` | crates/praxec-core/src/amplifier.rs:62-228 | every walk of the graph is a run, so no rejection is about an impossible path |
| `Amplifier.OverBudgetIsReal` | crates/praxec-core/src/amplifier.rs:272-275 | an over-budget path the search reports is a run that takes too many generative steps |
| `Amplifier.UnverifiedIsReal` | crates/praxec-core/src/amplifier.rs:276-282 | a path rejected as unverified is a run that succeeds without being verified last |
| `Amplifier.NoSuccessIsReal` | crates/praxec-core/src/amplifier.rs:292-296 | a workflow rejected for having no success has no run that succeeds, by any choices or a timeout |
| `Contract.Conforms` | crates/praxec-agents/src/rig_runner.rs:307-333 | true exactly for objects with every expected key whose present keys of declared type match it |
| `Contract.KindsApart` | crates/praxec-agents/src/rig_runner.rs:320-333 | every value is of exactly one of the six kinds, integers are numbers, and names of no kind are not enforced |
| `Contract.Salvage` | crates/praxec-agents/src/rig_runner.rs:275-298 | the result is an object with status and output whose output conforms, read as a whole; else the object itself, as a success, if it conforms; else none |
| `Conversation.FeedbackLists` | crates/praxec-agents/src/rig_runner.rs:357-388 | the reply to a missing result names every required key in order with its declared type, or asks for any object if nothing is declared |
| `Conversation.TurnKeepsForm` | crates/praxec-agents/src/rig_runner.rs:978-1084 | recording a prompt and a turn and continuing with results for exactly its calls keeps the conversation well-formed |
| `Conversation.LedgerKeepsForm` | crates/praxec-agents/src/tool_budget.rs:383-400 | the ledger on the prompt's tail changes neither the goal nor what the prompt answers |
| `Conversation.ElisionKeepsForm` | crates/praxec-agents/src/tool_budget.rs:430-437 | removing whole oldest pairs keeps the goal, the alternation and every call answered |
| `Memory.ElideKeepsMemory` | crates/praxec-agents/src/tool_budget.rs:435-446 | moving the oldest pair into the store and the ledger keeps the log equal to goal, recalled pairs and history |
| `Memory.PushKeepsMemory` | crates/praxec-agents/src/rig_runner.rs:978-997 | what is pushed to the history extends the log by the same messages |
| `Memory.RecallSurvivesPut` | crates/praxec-agents/src/spill.rs:40-46 | a later put disturbs no ledger slot unless two stored payloads collide |
| `Codecs.BracketsAreFaithful` | crates/praxec-agents/src/tool_budget.rs:439-441 | there is an encoding of turn-pairs into bytes that reads every pair back |
| `Memory.PagingRecalls` | crates/praxec-agents/src/tool_budget.rs:298-319 | paging a ledger line's slot from start to end, at any cuts, gives back the pair that line stands for |
| `Conversation.GuardCanKeepThree` | crates/praxec-agents/src/tool_budget.rs:424-434 | a well-formed history for which that happens |
| `Scripts.TrimmedFits` | crates/praxec-agents/src/tool_budget.rs:418-447 | after trimming the bytes fit the budget or at most five messages remain; what is left is the goal and a suffix; nothing goes within the budget, and no more than it takes to reach low water; the goal and three messages are left exactly when an even history of six or more is over budget and stays above low water while six are left; ledger lines are numbered on |
| `Conversation.LowWater` | crates/praxec-agents/src/tool_budget.rs:424-431 | two thirds of the budget, rounded down, the doubling saturating |
| `Scripts.TrimsAreApart` | crates/praxec-agents/src/tool_budget.rs:424-431 | in every pass, once a request's history is down at low water, the budget is not crossed again before more than budget minus low water in bytes was said |
| `ToolLoop.Segment.EnforceHistoryBudget` | crates/praxec-agents/src/tool_budget.rs:418-447 | the history and ledger become exactly the trimmed ones, numbered lines and all, and everything elided can still be recalled |
| `ToolLoop.Segment.Ask` | crates/praxec-agents/src/rig_runner.rs:766-810 | the request is the trimmed history and the prompt with the ledger, put on the record of what was sent; the write record is untouched |
| `ToolLoop.Segment.RunTool` | crates/praxec-agents/src/rig_runner.rs:1031-1074 | a call the last reply asked for is recorded once and truly, with what it came back with, a handle with its head and the range to read next; a spill read with the payload its slot held, found exactly if the slot was named before; it counts as a write exactly if it is a routed write or edit that succeeded outside a suspending turn; it stops the run only if the clock cuts it or the read panics |
| `ToolRecord.SpillStopsWhen` | crates/praxec-agents/src/spill.rs:52-66 | a spill read stops the run exactly when its range ends before the character its start falls in |
| `ToolRecord.ReadOfLedgerSlot` | crates/praxec-agents/src/tool_budget.rs:298-319 | a recorded read of a ledger line's slot is a window of the encoded pair that line stands for |
| `ToolLoop.Segment.RunTools` | crates/praxec-agents/src/rig_runner.rs:1027-1084 | one result per call of the last reply, in call order, each the output of its own call; only those calls join the record, and its spill reads found exactly the slots named before them |
| `ToolLoop.Segment.ParkTools` | crates/praxec-agents/src/rig_runner.rs:609-670 | one entry per call of the last reply in order, a hole exactly at the first await, an error at later ones, every other entry the recorded output of its own call; awaits are not carried out; spill reads found exactly the slots named before them |
| `ToolLoop.Segment.Weigh` | crates/praxec-agents/src/rig_runner.rs:862-976 | an offered answer ends the loop if earned, is met with the reminder while fewer than two were given, and is refused for missing writes after that |
| `ToolLoop.Segment.OnAnswer` | crates/praxec-agents/src/rig_runner.rs:862-916 | a conforming answer is weighed, any other is met with the output contract; a continuing turn is recorded and its prompt follows up on the reply |
| `ToolLoop.Segment.OnProse` | crates/praxec-agents/src/rig_runner.rs:917-976 | the same for the result salvaged from text alone, and the contract if there is none |
| `ToolLoop.Segment.OnAwait` | crates/praxec-agents/src/rig_runner.rs:999-1018 | the parked frame is the conversation as sent, the prompt, the awaiting turn, its results, the ledger and the turn number; or the run stopped in a call |
| `ToolLoop.Segment.TakeTurn` | crates/praxec-agents/src/rig_runner.rs:758-1085 | one request per turn; a continuing turn extends the chat by exactly the request sent and leaves the talk with its prompt and reply; an ending one ends as its reply allows |
| `ToolLoop.Segment.SignOff` | crates/praxec-agents/src/rig_runner.rs:1086-1174 | one last request, untrimmed and without the ledger; its answer is accepted, refused for missing writes, or exhaustion, exactly by whether it conforms and is earned |
| `ToolLoop.Segment.Drive` | crates/praxec-agents/src/rig_runner.rs:719-1117 | for any provider and tools: the loop makes a pass as defined, from its own prompt; the requests sent are exactly that pass's, at most two of them reminders; the log is every prompt and turn said; spill reads found what had been stored, and found it exactly if its slot had been named; and what was elided is recalled through the ledger |
| `Scripts.RequestsWellFormed` | crates/praxec-agents/src/rig_runner.rs:758-1085 | every request of every pass is the goal followed by assistant turns each answered by exactly its results |
| `Scripts.RequestCarriesLog` | crates/praxec-agents/src/tool_budget.rs:383-447 | every request is the goal, the most recent part of everything said so far and the prompt, to which a request of the loop adds exactly the ledger, if it has lines, at the end; in the loop it fits the history budget or is down to six messages |
| `Scripts.LogRecords` | crates/praxec-agents/src/rig_runner.rs:862-997 | everything said in a pass is what was said before it, then each prompt in order and the reply to it: with an answer, the output spelled out and no calls; with calls, its words and exactly its calls; else its words or "(no content)" |
| `Scripts.LedgerListsElided` | crates/praxec-agents/src/tool_budget.rs:383-447 | what is sent is the log without its k oldest turn-pairs, and the ledger has gained exactly k lines, each with the number, calls, bytes and slot of its pair |
| `Scripts.FollowUpIs` | crates/praxec-agents/src/rig_runner.rs:862-1084 | every later prompt of a pass is the reminder to write if the reply had a conforming result (its own, or salvaged from words alone) and writes are required; the output contract if it had none and asked for nothing; else one result per call, in order, with the output on record for it |
| `Scripts.FewReminders` | crates/praxec-agents/src/rig_runner.rs:749-757 | in every pass at most two of the requests sent after the first are the reminder to write |
| `Scripts.RemindedBeforeWrites` | crates/praxec-agents/src/rig_runner.rs:862-976 | the reminder to write is sent only if no call before that reply was a write or edit that succeeded |
| `Scripts.AnswersAreEarned` | crates/praxec-agents/src/rig_runner.rs:862-976 | an answer conforms, is the last reply's own or salvaged from its text alone, and if writes are required a write or edit the loop was asked for succeeded in that pass |
| `Scripts.ExhaustedWhen` | crates/praxec-agents/src/rig_runner.rs:1086-1174 | a pass is exhausted only after all turns and a sign-off that failed or has no conforming answer; at the sign-off an answer is the reply's own, never salvaged |
| `Scripts.RefusedWhen` | crates/praxec-agents/src/rig_runner.rs:862-976 | the answer a pass came to is refused for missing writes exactly when writes are required and no call of that pass was a write or edit that succeeded |
| `Scripts.PanicsOnlyCutOff` | crates/praxec-agents/src/spill.rs:52-66 | a pass panics only in a spill read whose range ends before the character its start falls in |
| `Scripts.UnknownOnlyUnnamed` | crates/praxec-agents/src/tool_budget.rs:298-319 | a spill read of a pass is told the slot is unknown exactly if no handle shown before it and no ledger line of the pass sent with its turn names the slot |
| `Scripts.FramesAreResumable` | crates/praxec-agents/src/rig_runner.rs:676-697 | only a session that may await, in a turn with an await among its calls, is parked; the frame has the calls of the last reply, one hole, the recent part of everything said, and its turn count within the limit |
| `ToolRecord.WriteWasMade` | crates/praxec-agents/src/rig_runner.rs:1035-1053 | a positive write count means a write or edit a reply asked for was routed and came back successful |
| `ToolRecord.WasRouted` | crates/praxec-agents/src/rig_runner.rs:1031-1074 | a call on record was handed to the connection and tool its name is routed to, with its own arguments, and is shown what came back, whole or as a handle beyond 64 KiB; an unknown tool or a missing host is shown as that error |
| `ToolRecord.SpillReadIs` | crates/praxec-agents/src/tool_budget.rs:298-319 | a spill read comes back with an error for bad arguments, with unknown slot if it found nothing, and else with the window it asked for |
| `Parking.ParkedIsResumable` | crates/praxec-agents/src/rig_runner.rs:676-697 | the frame of a turn that awaits a human has one entry per call and exactly one hole |
| `Parking.ResumeContinues` | crates/praxec-agents/src/park.rs:67-98 | resuming such a frame never fails, and the filled prompt continues a well-formed conversation (what it holds is `SessionRunner.ResumedTurnIsTold`) |
| `Parking.ResumesWhen` | crates/praxec-agents/src/park.rs:67-78 | a parked turn is accepted exactly if exactly one of its entries has no output |
| `SessionRunner.ResumedTurnIsTold` | crates/praxec-agents/src/park.rs:67-98 | for every resumed pass ever made: its first prompt has one item per call of the parked turn, in order; each holds the output on record for that call in the parked pass, the human's reply at the first await only, an error at a later await; session, conversation and ledger are the parked ones |
| `SessionRunner.Runner.Park` | crates/praxec-agents/src/rig_runner.rs:676-711 | the outcome, the store and each of its states after a pass, for every failure; suspended is reported only with the frame stored under a fresh id; a taken id or a store failure is an error and overwrites nothing |
| `SessionRunner.ParksWhen` | crates/praxec-agents/src/rig_runner.rs:676-711 | what each end of a pass is reported as, both ways; the store changes only by the frame under a fresh id, which is there whenever the session is reported suspended |
| `SessionRunner.Runner.Run` | crates/praxec-agents/src/rig_runner.rs:1333-1434 | refused before any request exactly for tools without a host, else for awaiting without a store; otherwise makes one pass from the goal and settles as its end says, touching no stored frame |
| `SessionRunner.Runner.Resume` | crates/praxec-agents/src/rig_runner.rs:1194-1328 | refused, without effect, exactly without a store, if the load fails, for an unknown id, or for tools without a host, in this order; otherwise makes one pass that starts from the stored frame and the reply (`SessionRunner.ResumedTurnIsTold`), carries out no call of an earlier pass, and settles as its end says; a stored frame is never corrupt; an answer is lost with its frame exactly when the store removes the row and reports an error |
| `SessionRunner.Runner.Serve` | crates/praxec-agents/src/rig_runner.rs:1194-1434 | any sequence of runs and resumes is served call by call, each with its own pass or refusal and the outcome that follows, with any failures; a session that has a frame keeps one in every store state, unless one of these calls resumed one of its frames to an answer |
| `SessionRunner.ParkedTurnRanOnce` | crates/praxec-agents/src/rig_runner.rs:636-670 | however often sessions are resumed, each other call of a parked turn is on record exactly once in all passes, with the parked output |
| `SessionRunner.AwaitNeverRan` | crates/praxec-agents/src/rig_runner.rs:611-635 | an awaiting call of a parked turn is carried out in no pass |
| `SessionRunner.RecordsAreOfTheirPass` | crates/praxec-agents/src/rig_runner.rs:636-670 | every call on record was asked for by a reply of its own pass and of no other |
| `SessionRunner.SentIsWellFormed` | crates/praxec-agents/src/rig_runner.rs:1194-1434 | every request of every pass, run or resumed, is a well-formed conversation of its session |
| `SessionRunner.TurnsAddUp` | crates/praxec-agents/src/rig_runner.rs:1271-1274 | the turn count of a frame is within the limit and is all its session has spent over its passes, but for the one turn granted each time a spent frame was resumed |
| `SessionRunner.FinishesIsSafe` | crates/praxec-agents/src/rig_runner.rs:1307-1319 | whatever the store does, resuming a frame leaves every session its frame in every state, except a session that was answered |
| `SessionRunner.FrameGoesWhen` | crates/praxec-agents/src/rig_runner.rs:1307-1319 | the resumed frame goes exactly when its pass was answered or suspended anew and the store removed it; its successor is then stored; no other frame changes |
| `Suspensions.SuspendedKeepsFrame` | crates/praxec-agents/src/rig_runner.rs:1194-1434 | however runs and resumptions overlap in their store operations, and wherever they stop, a session ever suspended has its last frame in the store as it was parked, until one of its frames is resumed to an answer |
| `Suspensions.ResumeIsSteps` | crates/praxec-agents/src/rig_runner.rs:1194-1328 | a resumption that nothing interrupts is a load, a park or an answer, and a removal, and leaves exactly the store of a served resume |
| `Suspensions.RunIsSteps` | crates/praxec-agents/src/rig_runner.rs:1333-1434 | the same for a run |
| `Suspensions.ReusedIdLoses` | crates/praxec-agents/src/rig_runner.rs:676-676 | with a correlation id drawn twice, overlapping resumptions can take the frame of a session that was never answered |
| `LostAnswer.Lose` | crates/praxec-agents/src/rig_runner.rs:1307-1319 | a session that awaits a human and then answers ends with its answer given, no frame, and a store error reported, if the store removes the row and then errs |
| `LostAnswer.CanLose` | crates/praxec-agents/src/rig_runner.rs:1307-1319 | there is such a session and such a provider |
| `ForgottenWrite.Forget` | crates/praxec-agents/src/rig_runner.rs:747-757 | a session that makes a required write in the turn that suspends it, and after being resumed just answers, is refused for missing writes |
| `ForgottenWrite.CanForget` | crates/praxec-agents/src/rig_runner.rs:747-757 | there is such a session, provider and tool host |
| `Spill.Store.Put` | crates/praxec-agents/src/spill.rs:40-46 | the slot depends on the payload alone and then holds it |
| `Spill.Store.Get` | crates/praxec-agents/src/spill.rs:48-66 | the two loops compute the window between the last character boundaries at or before the range's ends |
| `Spill.ReadDefinedWhen` | crates/praxec-agents/src/spill.rs:52-66 | a read of a known slot fails exactly when it ends before the character its start falls in |
| `Spill.InvertedRangeFails` | crates/praxec-agents/src/spill.rs:52-66 | an input on which it does fail |
| `Spill.WindowsAreWholeChars` | crates/praxec-agents/src/spill.rs:52-66 | every window of a UTF-8 string (section 3 of RFC 3629) is the encoding of a run of its characters |
| `Spill.WindowsTile` | crates/praxec-agents/src/spill.rs:48-66 | adjacent windows join to the window over both |
| `Spill.SpillOnIngress` | crates/praxec-agents/src/tool_budget.rs:251-294 | a short result is shown as it is; a long one is stored whole and shown as a handle with its head and the range to read next |
| `Spill.HandleRebuilds` | crates/praxec-agents/src/tool_budget.rs:251-294 | the head followed by pages from the suggested start, cut anywhere, is the payload |
| `ToolNames.Sanitize` | crates/praxec-agents/src/rig_runner.rs:234-268 | the name is valid, unreserved and free: the cleaned tool name if that is free, else its first free numbered candidate; there is none only if over two thousand million names are taken |
| `ToolNames.CandidateReadsBack` | crates/praxec-agents/src/rig_runner.rs:252-267 | the number can be read off a candidate however the base was cut, so different numbers give different candidates |
| `ToolNames.CandidateKeepsBase` | crates/praxec-agents/src/rig_runner.rs:252-267 | a candidate is the base, cut only to fit, an underscore and the number |
| `ToolNames.FreeCandidate` | crates/praxec-agents/src/rig_runner.rs:257-267 | the suffix search stops at the first free candidate, a valid name, unless the 32-bit counter runs out |
| `ToolNames.PrepareTools` | crates/praxec-agents/src/rig_runner.rs:504-562 | exposed names are distinct, valid and unreserved, each routed to its own connection and tool, and the final validity check never refuses; it fails only for over two thousand million tools |
| `Breaker.EntryRefinesHistory` | crates/praxec-agents/src/breaker.rs:70-96 | despite the saturating counter an entry is open exactly when the failures since the last success reach the threshold, since the last of them |
| `Breaker.CoolsWhile` | crates/praxec-agents/src/breaker.rs:70-83 | a model is skipped exactly while its last two calls failed and the last failure is less than the cooldown ago |
| `Breaker.Registry.OnFailure` | crates/praxec-agents/src/breaker.rs:173-181 | the registry stays the summary of its event log, extended by the failure |
| `Breaker.Registry.OnSuccess` | crates/praxec-agents/src/breaker.rs:165-171 | the same for a success, with or without an entry |
| `Breaker.Registry.MakePlan` | crates/praxec-agents/src/breaker.rs:103-163 | the plan is the chain without the models cooling by their history, or the first of the longest-cooled when all are |
| `ChainWalk.QueueEfforts` | crates/praxec-agents/src/executor.rs:877-886 | each model's queue holds the efforts of its hops in chain order |
| `ChainWalk.QueuesServeSchedule` | crates/praxec-agents/src/executor.rs:877-894 | after planning, the queues still give each planned attempt its own hop's effort, the all-open fallback that of the first occurrence |
| `ChainWalk.ScheduleInOrder` | crates/praxec-agents/src/executor.rs:888-894 | the attempts are distinct hops of the chain in its order, and there is one for a non-empty chain |
| `ChainWalk.AttemptWindows` | crates/praxec-agents/src/executor.rs:104-121 | the wall is the configured one or all the whole seconds left of the budget, the stall the configured one or the wall, whichever is less |
| `ChainWalk.WallsConfigured` | crates/praxec-agents/src/executor.rs:104-121 | the configured wall is ten minutes unless said otherwise and at most an hour; the step budget is 900 seconds unless said otherwise |
| `ChainWalk.Execute` | crates/praxec-agents/src/executor.rs:872-1173 | attempt k ran scheduled hop k, which passed the cost gate and supports its effort, under the windows left, and its record is what came of exactly that; later attempts only after escalatable failures; each way to end is justified in the order the checks are made; the breaker hears exactly the health events of those attempts (which hop, effort and events: `ChainWalk.AttemptsAreHops`, `ChainWalk.BreakerHears`) |
| `ChainWalk.AttemptsAreHops` | crates/praxec-agents/src/executor.rs:877-1005 | the attempts of every walk are distinct hops of the chain in its order, each with its own model, and with its own effort if it has one, else the phase's, else the default |
| `ChainWalk.ClockRuns` | crates/praxec-agents/src/executor.rs:900-958 | one clock: the first attempt starts at zero, each later one when the one before ended |
| `ChainWalk.StopsShortWhen` | crates/praxec-agents/src/executor.rs:900-1005 | a walk that stops before its last hop has less than 15 seconds of budget left after an attempt, or the next hop is behind the cost gate, or its effort is one the model does not support |
| `ChainWalk.BreakerHears` | crates/praxec-agents/src/executor.rs:1006-1173 | every attempt that failed is heard as failing at the time it ended, a success or suspension as succeeding, an error of content not at all |
| `ChainWalk.WalkFitsBudget` | crates/praxec-agents/src/executor.rs:900-958 | if the attempts made keep to wall and tool setup, what they took together is at most the step budget and one tool setup, and at most the budget when setup is instant |
| `ChainWalk.LaterAttemptsGetTime` | crates/praxec-agents/src/executor.rs:932-957 | no attempt after the first is granted less than the configured wall or 15 seconds |
| `Bus.EveryInterleaving` | crates/praxec-core/src/bus.rs:137-291 | over all interleavings ids are distinct, each in exactly one home, nothing leaks, announced ids were registered, and a gate is answered only by a proven human |
| `Bus.DecisionsAreFinal` | crates/praxec-core/src/bus.rs:243-291 | at most one reply reaches a request, and delivered, abandoned and cancelled requests stay so |
| `Bus.ReturnsWith` | crates/praxec-core/src/bus.rs:199-226 | over all interleavings a requester returns with the reply it was sent, or declined if it was abandoned, and with nothing before |
| `Bus.DeliveredWasGiven` | crates/praxec-core/src/bus.rs:243-272 | what reached a requester was handed in for that request |
| `Bus.AnnouncedIsFound` | crates/praxec-core/src/bus.rs:199-226 | a consumer that saw the announcement finds the request parked, or already settled |
| `Bus.InteractionBus.Park` | crates/praxec-core/src/bus.rs:199-226 | a fresh id is registered and then announced, other requests unchanged |
| `Bus.InteractionBus.Answer` | crates/praxec-core/src/bus.rs:243-272 | accepted exactly if the request is parked, an approval gate is answered by a human, and its requester is there; refused without effect for a non-human at a gate; then exactly the two steps of accepting and sending: delivered once, or expired if and only if the requester is gone |
| `Bus.InteractionBus.Unpark` | crates/praxec-core/src/bus.rs:225-226 | a waiting requester completes with its reply, or declined, or stays |
| `Bus.InteractionBus.GiveUp` | crates/praxec-core/src/bus.rs:289-291 | the request is gone and its requester sees declined |
| `Bus.InteractionBus.Cancel` | crates/praxec-core/src/bus.rs:137-146 | a dropped requester is exactly the two steps of closing and dropping its guard: nothing stays parked and no delivered reply is lost |
| `Bus.ConsumeHeadless` | crates/praxec-agents/src/orchestrator.rs:335-404 | every gate seen is abandoned, every other request answered by policy, or cancelled if its requester was gone; none stays parked and no gate is approved |
| `Mission.EverySubmitIsInOrder` | crates/praxec-agents/src/orchestrator.rs:573-684 | over all interleavings each move goes to the mission its driver was started for, legal in its state and with that state's version; a human-only move has a gate its own driver opened for that mission in that state and for exactly that move, the first legal one, approved by a proven human, and no approval pays twice |
| `Mission.UnparkSubmits` | crates/praxec-agents/src/orchestrator.rs:602-626 | after a gate the move submitted is the one it was opened for, and only if the reply approves |
| `Mission.ActSubmits` | crates/praxec-agents/src/orchestrator.rs:628-651 | without a gate or a chooser only the first deterministic move is submitted, and only if no agent has one |
| `Mission.ChoiceSubmits` | crates/praxec-agents/src/orchestrator.rs:223-272 | after the chooser the move submitted is the agent's move it named |
| `Mission.OnlyTheseSubmit` | crates/praxec-agents/src/orchestrator.rs:573-684 | no other event submits anything |
| `Mission.OthersStay` | crates/praxec-agents/src/orchestrator.rs:573-684 | a driver is moved by its own events only |
| `Mission.ActStops` | crates/praxec-agents/src/orchestrator.rs:573-684 | a driver stops by itself only with its steps used up, in a resolved mission with that status, or with no move for an agent or a rule |
| `Mission.ChoiceStops` | crates/praxec-agents/src/orchestrator.rs:652-669 | after the chooser it stops for a timeout, a failed chooser, no choice, or a choice that is no agent's move |
| `Mission.UnparkStops` | crates/praxec-agents/src/orchestrator.rs:602-626 | after a gate it stops only as declined, when the reply declines or the gate was abandoned |
| `Mission.FewSubmits` | crates/praxec-agents/src/orchestrator.rs:573-684 | over all interleavings a driver submits at most as many moves as it was given steps |
| `Mission.DecidedInLastRead` | crates/praxec-agents/src/orchestrator.rs:573-684 | a move is decided in the state the driver last read |
| `Mission.HeadlessNeverSubmitsHumanMove` | crates/praxec-agents/src/orchestrator.rs:335-404 | without a human consumer no human-only move is ever submitted |
| `Calendar.WeekRoundTrip` | crates/praxec-core/src/audit.rs:310-313 | the week of a day, read back as a week, starts on the Monday on or before the day, and the year has that week (which day that is: `Calendar.WeekdaysFollow`) |
| `Calendar.WeekdaysFollow` | crates/praxec-core/src/audit.rs:310-313 | 1 January 1970 was a Thursday, and each day is followed by the next weekday |
| `Calendar.WeekIsIso` | crates/praxec-core/src/audit.rs:310-313 | the week of every day starts on the Monday on or before it, belongs to the year its Thursday is in, and is numbered from the week that holds 4 January |
| `Calendar.KnownWeeks` | crates/praxec-core/src/audit.rs:310-313 | two known days have their known weekday and week |
| `Calendar.MonthStartClosedForm` | crates/praxec-core/src/audit.rs:306-325 | the days before a month, summed month by month, follow the closed formula |
| `Audit.WindowStart` | crates/praxec-core/src/audit.rs:306-325 | the window contains the instant |
| `Audit.WindowsStartWhere` | crates/praxec-core/src/audit.rs:306-325 | windows start at midnight, at the full hour, at the midnight of a Monday within six days before, or at a multiple of the granule after midnight |
| `Audit.DaySpells` | crates/praxec-core/src/audit.rs:308-308 | a daily stamp is the date, digit by digit |
| `Audit.HourSpells` | crates/praxec-core/src/audit.rs:309-309 | an hourly stamp is the date and the hour |
| `Audit.WeekSpells` | crates/praxec-core/src/audit.rs:310-313 | a weekly stamp is the ISO year and week |
| `Audit.MinutesSpell` | crates/praxec-core/src/audit.rs:314-323 | a stamp of minutes is the date, the hour and minute of the last multiple of the granule, and no seconds |
| `Audit.NamesAreReadBack` | crates/praxec-core/src/audit.rs:361-405 | for every interval, instant, pid and category the generated name is read as its window, a daily pid of 10 to 23 as an hour of the same day |
| `Audit.NamesCarryTheirWindow` | crates/praxec-core/src/audit.rs:306-405 | a generated name is dated at its window's start, or later by that hour, never earlier |
| `Audit.SameStampSameWindow` | crates/praxec-core/src/audit.rs:306-325 | instants with the same stamp are in the same window |
| `AuditSink.FileSink.Sweep` | crates/praxec-core/src/audit.rs:496-536 | removes exactly the removable logs of other windows dated before the cutoff, one by one, and changes no other file |
| `AuditSink.FileSink.Record` | crates/praxec-core/src/audit.rs:565-587 | the whole new directory and sweep mark, for every failure of the file system, as a sequence of single file operations |
| `AuditSink.TargetIs` | crates/praxec-core/src/audit.rs:538-560 | the file of an event is named by the stamp, the process and the stream: transitions, heartbeat or audit |
| `AuditSink.GeneratedExpires` | crates/praxec-core/src/audit.rs:496-560 | a generated file expires exactly when its window is another one and is dated before the cutoff |
| `AuditSink.RecordAppends` | crates/praxec-core/src/audit.rs:565-587 | a record is appended to its file whatever its own sweep removes |
| `AuditSink.SweepRemoves` | crates/praxec-core/src/audit.rs:496-536 | a due sweep removes every removable generated file of another window that started longer ago than the retention |
| `AuditSink.SweepTakesOnlyLogs` | crates/praxec-core/src/audit.rs:496-536 | a sweep takes only dated `.log` files outside the current window, and only when a retention is set and this window was not swept |
| `AuditSink.StepRetains` | crates/praxec-core/src/audit.rs:565-587 | a call takes nothing from a file inside the retention, and nothing from any generated file when its window was swept already |
| `AuditSink.RunRetains` | crates/praxec-core/src/audit.rs:496-587 | however single file operations of any number of processes interleave, a file keeps its contents while its window starts inside the retention, to the nanosecond |

## Left out

- Amplifier.Validate: the per-field JSON shape checks (input schema, executor kinds, bindings, budgets in seconds) are not modelled, because each is a one-branch check; a workflow without an amplifier policy is accepted by the original unchecked.
- Amplifier.BuildGraph: the same per-field checks are left out of the state checks.
- ToolNames.PrepareTools: a host that fails to list its tools is not modelled.
- ToolLoop.Segment.Drive: which tools a request offers is not modelled, so neither is the restriction to `final_answer` on the last turn or after a stall.
- ToolLoop.Segment.Ask: in-session retries re-send the same request and are one request here; transcripts, token usage, heartbeats, reasoning parameters and system messages are left out.
- ToolLoop.Segment.RunTool: the texts of errors are parameters, and tool arguments that are not JSON are kept as they are instead of being replaced by an empty object; the defaults of a `spill_read` range belong to a parameter.
- Memory.ElideKeepsMemory: the JSON encoding of messages is taken to be faithful, and the argument snippets in ledger lines are not cut.
- SessionRunner.Runner.Resume: the spill store is fresh in each pass, as in the original, so ledger lines from before a suspension are carried but not recalled; rows written by something else and so unreadable are not modelled; `Parking.ResumeInput` has the error for a frame without exactly one hole.
- SessionRunner.Runner.Serve: calls on this object do not overlap; overlapping calls are `Suspensions`, and share nothing but the store.
- Suspensions.SuspendedKeepsFrame: correlation ids, random UUIDs in the original, are never drawn twice.
- SessionRunner.Runner.Run: the wall clock can cut a segment at provider calls, tool calls and the park; cuts at other waits leave no other state behind.
- ChainWalk.Execute: time passes only inside attempts; no other walk uses the breaker registry during one; the model catalog, failure classes and the projection of a report into a result are uninterpreted; evidence and telemetry are left out.
- Bus.EveryInterleaving: the 64-bit id counter is unbounded here; a lagging subscriber that misses an event is not modelled, so nothing is said about liveness.
- Bus.ConsumeHeadless: no requester parks while this method is at work; with requesters beside it, consumers are steps of `Bus.EveryInterleaving` and of the mission runs.
- Mission.EverySubmitIsInOrder: drivers are transition systems over their waits rather than loops; fetching the links of deterministic moves, event publishing and heartbeats are left out.
- Audit.NamesCarryTheirWindow: years are 0 to 9999, with weekly stamps up to a week-year of 9999; names are ASCII; the date library's acceptance of blanks and signs inside names the sink did not generate is not modelled.
- AuditSink.FileSink.Record: an append either happens or leaves the file as it was.
- AuditSink.FileSink.Sweep: a retention of so many hours that the cutoff leaves the date library's range makes the original panic and is not modelled.
- A workflow's execution engine, the cockpit, model ranking, accounts, configuration, file tools and provider streaming are not part of this model.
