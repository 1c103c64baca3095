# Verified model of the coding-agent engine

This project models the parts of the engine in which a mistake loses a user's message, runs a tool nobody
allowed, burns a login or garbles a patch, and proves what those parts promise. Each component is a
specification (functions over values, or a state machine whose runs are every interleaving), the code's own
loops and objects proved against it, and theorems about the specification. `dafny verify dfyconfig.toml`
checks all of it.

- **Messages, steering and restarts** (`SteeringState`, `SteeringTheorems`, `SteeringSteps`, `AgentCore`). The core thread, the
  worker thread and a worker left behind by an interrupt share an inbox and an event channel. A run is any
  sequence of their steps. No message is lost or recorded twice; unread steers stay in order; compaction never
  restarts a turn twice without progress.
- **Approvals and deferred actions** (`ApprovalState`, `ApprovalTheorems`, `Approvals`). Every request has its own
  answer channel (a ticket), so "answered exactly once" is a statement about what each channel carried.
- **Patches and hunk selection** (`PatchFormat`, `PatchRoundTrip`, `HunkHeaders`, `HunkSelection`,
  `SelectionTheorems`). The
  count-driven diff reader, the printer of a subset, and exactly when what is printed reads back.
- **The turn loop** (`TurnSpec`, `TurnTheorems`, `TurnAnswers`, `TurnLoop`). Every tool call's way through plan mode, hook,
  sandbox gate, classifier, approval, hunk filter and execution; a turn is a run over a script of the world.
- **Gating** (`Gating`). The turn and the approvals together: a gated call's decision is what its ticket's channel
  carries in a run of the approval protocol, and every call that ran has a reason in that run.
- **Streaming the plan** (`PartialJson`, `PartialJsonTheorems`, `PartialJsonObjects`, `PartialJsonKeys`,
  `PlanStream`). Reading a string field of JSON still being written, against objects with any spacing and any
  escaping, of keys and of values, that section 7 of RFC 8259 allows.
- **Token rotation** (`AuthRefresh`, `AuthTheorems`, `AuthSession`). Any number of processes, step by step, against
  a server whose refresh tokens can be used once.
- **Dates and timestamps** (`Calendar`, `Timestamps`), **attached files and file URIs** (`Attachments`,
  `AttachmentTheorems`, `FileUris`), **fresh image names** (`ImagePaths`), and the **Agent Client Protocol**
  (`Acp.dfy`, `AcpTheorems`, `AcpApprovals`). `Common` holds stock datatypes and the small part of Rust's text library they use.

## What the proofs found

- "Interrupt and send" does not always run the chosen message next: unread steers are requeued ahead of it. It
  does exactly when no steer is unread, or the first unread one is that very message
  (`ChosenIsNextExactly`, with a run in `ChosenIsNotAlwaysNext`). The comment in core.rs says "now, ahead of the
  others".
- A message sent right after an interrupt runs before those that were waiting: nothing runs, so it starts at once, and
  the queue waits for the next idle poll (`SentLastExactly`, with a run in `NewMessageOvertakes`). Without that, messages
  run in the order they were sent (`FirstComeFirstServed`).
- Rewriting a patch to its approved hunks drops blank lines between file sections, so a section whose header
  starts with a backslash can be read as the end of the hunk before it. `ReadBackExactly` and
  `FilteredPatchReadsBack` give the exact condition, `BackslashHeaderIsLost` a patch, and `OrdinaryPatchReadsBack`
  the check a caller can make beforehand.
- A deferred action's id is its millisecond and eight digits of its digest. A second action with the same id
  replaces the first one (`DeferForgetsExactly`, `ActionIdExact`); `ActionIsForgotten` is a run in which it does, and
  the first call's answer then names the second call.
- A command rule that says "ask" does not always reach a person, although a comment in llm.rs says so. The call
  always goes to the core, but the core parks it only if somebody watches, the tool is not allowed for good and the
  mode asks for it (`AskRuleReachesTheUserExactly`); in full-access mode it runs unasked (`AskRuleRunsUnasked`).
- The plan's field is found by how its key is written. A key with an escape in it is missed, and a key that ends
  with an escaped quote and the field's key is mistaken for it (`EscapedKeyIsMissed`, `QuotedKeyIsMistaken`).
  `FieldIsReadExactly`, `CutFieldIsReadExactly` and `AbsentFieldExactly` give the exact condition.
- The pieces of a plan are documented as joined by call id. A call that goes on after another call spoke sends its plan
  from the start again under the same id, and text sent before a call is named stays under "draft";
  `PlanByIdExactly` is the exact condition, `PlanIsSentTwice` an input.
- `approve always` frees no other parked call of the same tool; only a mode switch does
  (`ResolveTouchesOnlyItsCall`, `SwitchFreesExactly`).
- Two tool calls of one response with the same call id can be told each other's hunk summary: a file written whole
  and then one of two edits (`OneIdTwiceMisreports`). Every summary is the call's own exactly when no call approved in
  part has an earlier call with its id (`SummariesAreOwnExactly`).
- A tool budget of the largest 64-bit number never binds (`BudgetBindsExactly`).
- A refreshed pair that does not reach the disk makes a later session present a consumed refresh token
  (`LostGrantIsReplayed`, a run from rest); if every granted pair is saved, that never happens.
- The date conversion's copy in core.rs is right up to the end of the year 2147483647, day 784351576776; the next day
  it goes back to the year -2147483648 (`CopyAgreesExactly`, `CopyFailsNext`).
- A timestamp with a day its month does not have, or with second 60, is read and written back as another text
  (`CanonicalExactly`). In a file URI `%+A` is read as the byte 10 (`UnescapesExactly`), although section 2.1 of RFC 3986
  asks for two digits.
- A `session/cancel` that carries an id gets no reply of its own (`EveryIdIsAnsweredExactly`).
- A file line reads back whatever quotes and separators its name holds, for every non-empty path without a line
  break, also one that ends in `..` or `/` (`MessageComesApartExactly`).
- In `acp`, the "cancelled" stop reason in the answer to a finished turn is never used: while a prompt is open it
  is not cancelled (`ReadyEndsTheTurn`).

## Modelling choices

- Calls into code that is not modelled are inputs of a step: whether a hook allows, what spawning a turn meets,
  the clock, what the user, the server or a tool answers, and in which order a hash map is walked.
- The core's object and the worker are steps of one state machine. `steer_main` appends to the inbox and
  `drain_user_inbox` takes all of it. A worker left behind by an interrupt keeps the manager it holds; `lingering`
  says whether that is still the core's.
- Classes keep the source's fields and their methods change them in place; `history` (a ghost field) remembers the
  steps, so what is proved of every run holds of every object.
- A call's JSON arguments are the parts the engine reads. Lengths that the source counts in bytes are counted in
  characters where only a prefix already seen is skipped (`PlanDraft`'s `sent`).
- 64-bit and 32-bit limits are written out where they matter: hunk counts, hexadecimal digits, the saturating tool
  budget, the 32-bit year of the second date conversion. Day numbers are unbounded integers.

## Model

| member | source | states |
|---|---|---|
| SteeringTheorems.NothingLost | crates/agent-core/src/core.rs:677-871 | Over every run, the submitted messages are, as a multiset, those queued, unread, recorded, taken back, blocked by the hook or cleared with a session |
| SteeringTheorems.RunKeepsInv | crates/agent-core/src/core.rs:677-871 | Every run keeps both invariants: each message is in exactly one place, and unread steers are where and in the order they were sent |
| SteeringTheorems.NothingRecordedTwice | crates/agent-core/src/core.rs:1714-1724 | No message is recorded more often than it was submitted |
| SteeringTheorems.SteersStayInOrder | crates/agent-core/src/llm.rs:1577-1596 | In every turn, at every interleaving, the unread steers are, in order, those announced, those drained and those in the inbox, and the one announced next is the first |
| SteeringTheorems.SteeredHitsFirst | crates/agent-core/src/core.rs:1714-1717 | The search for an announced message by equality removes the first unread steer |
| SteeringTheorems.UnreadSteersComeFirst | crates/agent-core/src/core.rs:2056-2066 | An interrupt puts the unread steers ahead of the queue, in the order they were sent |
| SteeringTheorems.ChosenIsNextExactly | crates/agent-core/src/core.rs:771-800 | The message chosen by "interrupt and send" is recorded next if and only if no steer is unread or the first unread one equals it |
| SteeringTheorems.ChosenIsNotAlwaysNext | crates/agent-core/src/core.rs:785-800 | A run in which another message than the chosen one runs next |
| SteeringTheorems.QueueIndexExact | crates/agent-core/src/core.rs:5816-5824 | A position exists exactly within the queue, negative ones count from the last, none means the first |
| SteeringTheorems.MoveKeepsOthersInOrder | crates/agent-core/src/core.rs:818-826 | A moved message is at its place and the others keep their order |
| SteeringTheorems.CompactionMakesProgress | crates/agent-core/src/core.rs:1823-1861 | Between two compact-and-retry restarts of any kind the model answered, or a turn was started or continued for the user or the goal |
| SteeringTheorems.OverflowsMakeProgress | crates/agent-core/src/core.rs:1725-1731 | Between a restart and an upstream overflow's restart after it the model answered, or the user started or continued a turn; a goal continuation is not enough |
| SteeringTheorems.ForcedTurnNeverStopsMidway | crates/agent-core/src/core.rs:2344-2363 | A turn spawned with forced compaction never hands itself back for compaction until another takes its place |
| SteeringSteps.EndedTurnIsRetriedExactly | crates/agent-core/src/core.rs:1823-1861 | When a turn's last event is received, a retry is set, with queue and steers untouched, if and only if it is a mid-turn hand-back or an overflow of a turn not retried yet with something to compact; otherwise the unread steers go ahead of the queue |
| SteeringSteps.OtherEventsExactly | crates/agent-core/src/core.rs:1667-1735 | Any other event leaves the turn running and the queue alone; an answer opens the way for another retry |
| SteeringSteps.RetryComesFirst | crates/agent-core/src/core.rs:1957-1961 | The next idle poll that meets a worker starts the retried turn ahead of the queue and without headroom |
| SteeringSteps.HeadroomExactly | crates/agent-core/src/core.rs:2344-2363 | A turn may hand itself back if and only if it is under the budget, uncompacted, with something to compact and nothing forcing it |
| SteeringSteps.IdlePollExactly | crates/agent-core/src/core.rs:1957-1970 | With nothing to retry an idle poll starts the first queued message the hook allows, or goes on with the goal, or does nothing |
| SteeringSteps.ForbiddenMessageStartsNothing | crates/agent-core/src/core.rs:847-855 | A message the hook forbids is not recorded, not steered and starts nothing |
| SteeringSteps.SubmitExactly | crates/agent-core/src/core.rs:677-696 | A message waits behind the others while a turn runs and starts at once otherwise |
| SteeringSteps.SteerExactly | crates/agent-core/src/core.rs:735-769 | A chosen message of text alone goes into the running turn, one with images restarts it |
| SteeringSteps.ContinueExactly | crates/agent-core/src/core.rs:701-710 | Continuing starts a turn on the conversation as it is if and only if nothing runs and there is one |
| SteeringSteps.IdleCommandsExactly | crates/agent-core/src/core.rs:2511-2567 | Switching sessions and compacting do something only while nothing runs |
| SteeringSteps.MoveTargetExactly | crates/agent-core/src/core.rs:818-826 | A message is moved if and only if both places exist, differ and a place to go is given |
| SteeringSteps.SentLastExactly | crates/agent-core/src/core.rs:677-696 | A message sent is the last to run if and only if nothing is queued or a turn runs |
| SteeringSteps.NewMessageOvertakes | crates/agent-core/src/core.rs:677-696 | A run in which a message sent right after an interrupt runs before one that waited |
| SteeringSteps.FirstComeFirstServed | crates/agent-core/src/core.rs:677-1970 | Over every run of sending, interrupting, compacting and continuing in which no message overtakes, the messages recorded and queued are those sent, in order |
| SteeringSteps.SteeredIsRecorded | crates/agent-core/src/llm.rs:1577-1596 | Whatever is steered into a running turn is recorded, in order, once the worker comes to read it |
| AgentCore.Core.NothingIsLost | crates/agent-core/src/core.rs:1958-1970 | Every object, whatever was called on it, has lost no message, and its unread steers are in order |
| AgentCore.Core.RequeueUnreadSteers | crates/agent-core/src/core.rs:2061-2066 | Popping the unread steers from the back and pushing each at the front keeps their order |
| AgentCore.Core.SpawnCurrentContextTurn | crates/agent-core/src/core.rs:2246-2363 | What each way of spawning does to the queue, the steers, the flags and the headroom |
| AgentCore.Core.StopCurrentTurn | crates/agent-core/src/core.rs:831-843 | Stopping requeues, leaves the worker behind and runs nothing |
| AgentCore.Core.SubmitUserMessage | crates/agent-core/src/core.rs:677-696 | A message is queued behind a turn or starts one after the hook; the object stays on a run |
| AgentCore.Core.Steer | crates/agent-core/src/core.rs:735-769 | The chosen message goes to the front and into the inbox, or restarts the turn if it has images |
| AgentCore.Core.InterruptSend | crates/agent-core/src/core.rs:773-800 | The chosen message goes to the front, the turn stops and the first message starts |
| AgentCore.Core.Unqueue | crates/agent-core/src/core.rs:804-815 | Exactly the named message is taken back and returned |
| AgentCore.Core.QueueMove | crates/agent-core/src/core.rs:818-826 | The named message is moved to its place |
| AgentCore.Core.Interrupt | crates/agent-core/src/core.rs:857-871 | A running turn is stopped, and nothing happens without one |
| AgentCore.Core.RecordSteered | crates/agent-core/src/core.rs:1714-1724 | The position search removes the first equal steer and records the message |
| AgentCore.Core.ReceiveNext | crates/agent-core/src/core.rs:1667-1883 | One received event has the effect of its step, of which `SteeringSteps.EndedTurnIsRetriedExactly` and `OtherEventsExactly` say what it is |
| AgentCore.Core.PollEvents | crates/agent-core/src/core.rs:1661-1973 | One poll handles everything sent and then takes the idle step, which `SteeringSteps.RetryComesFirst` and `IdlePollExactly` pin: the retry, the first queued message, or the goal |
| ApprovalTheorems.EachRequestHasOneFate | crates/agent-core/src/core.rs:2705-2757 | Over every run a request is waiting, parked, or answered exactly once, by a decision or by its sender's end |
| ApprovalTheorems.ParkedIsWatchedAndGated | crates/agent-core/src/core.rs:2711-2741 | Nothing is parked while unattended, and every parked tool still requires approval in the current mode |
| ApprovalTheorems.SelectionsAreHonest | crates/agent-core/src/core.rs:5179-5197 | Every selection sent allows a duplicate-free, non-empty subset of the parked ids |
| ApprovalTheorems.OpenActionsStayApart | crates/agent-core/src/core.rs:2761-2805 | Open actions have pairwise distinct digests, none of them decided |
| ApprovalTheorems.DecisionsAreFinal | crates/agent-core/src/core.rs:2866-2884 | However a run goes on, a recorded decision and a given answer never change |
| ApprovalTheorems.AllowedForAReason | crates/agent-core/src/core.rs:2711-2733 | In every run a call that may run was allowed at a step that, when it was taken, had a reason: the allowlist, the mode, the user or an approved identical call |
| ApprovalTheorems.DecidedByTheUser | crates/agent-core/src/core.rs:2866-2884 | A recorded decision is what the user said of an open action with that digest |
| ApprovalTheorems.AcceptedExactly | crates/agent-core/src/core.rs:5139-5178 | A decision is accepted if and only if the call is parked and a selection allows, is not `always`, and names only its hunks |
| ApprovalTheorems.DecisionIsDelivered | crates/agent-core/src/core.rs:5179-5197 | An accepted decision is sent once, with the user's own allow, no selection if and only if none was made, and otherwise the set of ids the user named; the tool joins the allowlist if and only if the user said always |
| ApprovalTheorems.AskedIsWaiting | crates/agent-core/src/llm.rs:1824-1847 | While the core listens a request waits with its call, tool, hunks and digest; otherwise it is dropped |
| ApprovalTheorems.TakenUpExactly | crates/agent-core/src/core.rs:2705-2757 | A request taken up is answered at once if and only if the tool is allowed, the mode does not ask, or nobody watches, and with which answer; else it is parked |
| ApprovalTheorems.DecideExactly | crates/agent-core/src/core.rs:2866-2884 | Deciding an open action records that decision under its digest, closes it and nothing else |
| ApprovalTheorems.ResetDropsExactly | crates/agent-core/src/core.rs:831-843 | Stopping a turn drops the waiting and parked requests and no other |
| ApprovalTheorems.PolicyTable | crates/agent-core/src/config.rs:108-150 | Which tools each mode asks for |
| ApprovalTheorems.RefusedChangesNothing | crates/agent-core/src/core.rs:5136-5178 | The state is unchanged if and only if the decision is refused |
| ApprovalTheorems.DedupIsExact | crates/agent-core/src/core.rs:5185-5191 | Dropping repeats keeps every id, once |
| ApprovalTheorems.ActionIdExact | crates/agent-core/src/core.rs:2782-2788 | Two actions share an id if and only if their milliseconds and the first eight digits of their digests agree |
| ApprovalTheorems.DeferForgetsExactly | crates/agent-core/src/core.rs:2775-2805 | Deferring forgets an open action if and only if a new action takes its id |
| ApprovalTheorems.ActionIsForgotten | crates/agent-core/src/core.rs:2782-2805 | A run in which an open action is forgotten, and the id its call was told names another call |
| ApprovalTheorems.DeferredNamesItsAction | crates/agent-core/src/core.rs:2770-2805 | The answer repeats the decision or names an open action with the call's digest |
| ApprovalTheorems.SwitchFreesExactly | crates/agent-core/src/core.rs:2968-2982 | A mode switch sets the mode and allows exactly the parked calls it does not gate |
| ApprovalTheorems.LeavingBlocksNoCall | crates/agent-core/src/core.rs:2841-2858 | When the client leaves, every parked call is answered as an identical call was decided, or deferred |
| ApprovalTheorems.ResolveTouchesOnlyItsCall | crates/agent-core/src/core.rs:5179-5197 | Deciding a call leaves every other parked call parked and unanswered |
| ApprovalTheorems.LooserModesAskLess | crates/agent-core/src/config.rs:108-150 | The modes are ordered by what they ask for |
| Approvals.ApprovalDesk.PollApprovalRequests | crates/agent-core/src/core.rs:2705-2757 | Every waiting request is handled, one step each, and none is left waiting |
| Approvals.ApprovalDesk.RequestApproval | crates/agent-core/src/llm.rs:1824-1847 | A request waits on a ticket of its own, or with no core listening is denied at once |
| Approvals.ApprovalDesk.DeferCall | crates/agent-core/src/core.rs:2761-2805 | The call is answered by an earlier decision, an open action found in any map order, or a new action |
| Approvals.ApprovalDesk.SetAttended | crates/agent-core/src/core.rs:2841-2861 | Walking the parked calls in any order is a step of the protocol and leaves none parked |
| Approvals.ApprovalDesk.SetApprovalMode | crates/agent-core/src/core.rs:2968-2986 | Freed calls are answered and forgotten, in any order, and the others stay |
| Approvals.ApprovalDesk.ResolveApprovalDecision | crates/agent-core/src/core.rs:5139-5197 | The validated decision, which `ApprovalTheorems.DecisionIsDelivered` shows to reach the worker as the user made it, or its refusal with nothing changed |
| Approvals.ApprovalDesk.DecideAction | crates/agent-core/src/core.rs:2866-2884 | The decision is recorded under the action's digest and the action closed |
| Approvals.ApprovalDesk.ClearApprovals | crates/agent-core/src/core.rs:831-843 | Stopping drops every waiting and parked request |
| Approvals.WithoutRepeats | crates/agent-core/src/core.rs:5185-5191 | The filter over a growing set keeps first occurrences |
| PatchFormat.ReadHunkBody | crates/agent-core/src/hunks.rs:393-415 | The countdown over body lines consumes exactly the lines the header's counts cover, with a marker line behind |
| PatchFormat.ParsePatch | crates/agent-core/src/hunks.rs:389-446 | The line cursor reads the sections and hunks of the patch, or nothing for a malformed one; `HunkHeaders` says what it takes from header lines |
| HunkHeaders.HeaderCounts | crates/agent-core/src/hunks.rs:372-383 | For all starts, counts and tails the header "@@ -a,b +c,d @@" gives (b, d), with 1 for a count left out, and is refused if and only if a count passes 64 bits |
| HunkHeaders.BodyExactly | crates/agent-core/src/hunks.rs:393-411 | A body is read for two counts if and only if its lines are of the four kinds, count up to exactly both, and end with a line that counts |
| HunkHeaders.HunksHoldTheirCounts | crates/agent-core/src/hunks.rs:389-446 | In every hunk of every patch that is read, context and `-` lines are as many as the count after `-`, context and `+` lines as the count after `+` |
| HunkHeaders.FileLineLabel | crates/agent-core/src/hunks.rs:359-369 | A `+++` or `---` line names its path without its side, and /dev/null names none |
| HunkHeaders.GitLineLabel | crates/agent-core/src/hunks.rs:354-358 | A `diff --git` line names the path on the new side |
| PatchRoundTrip.ParsedIsWellFormed | crates/agent-core/src/hunks.rs:389-446 | What is read is well formed: labels from headers, bodies as long as their counts |
| PatchRoundTrip.ReadAddsNoText | crates/agent-core/src/hunks.rs:389-446 | What is read prints no more text than was read |
| PatchRoundTrip.ReadBackExactly | crates/agent-core/src/hunks.rs:177-224 | Printed sections read back if and only if no line ends in a carriage return and no section's first line is swallowed by the hunk before it |
| HunkSelection.FilterPatchCall | crates/agent-core/src/hunks.rs:170-224 | The loop prints the approved hunks and lists what was applied and rejected |
| HunkSelection.FilterEditCall | crates/agent-core/src/hunks.rs:67-91 | Each tool's call is rewritten to the approved hunks, or refused |
| HunkSelection.FilterItems | crates/agent-core/src/hunks.rs:134-164 | The array filter keeps the approved items and splits the ids |
| HunkSelection.HunkIdInjective | crates/agent-core/src/hunks.rs:45-47 | A hunk id names one file and one number |
| HunkSelection.IdsDistinct | crates/agent-core/src/hunks.rs:448-463 | The hunk ids of a patch are pairwise distinct |
| SelectionTheorems.CallIdsDistinct | crates/agent-core/src/hunks.rs:45-92 | The hunk ids of every kind of call are pairwise distinct |
| SelectionTheorems.AcceptedSelection | crates/agent-core/src/hunks.rs:120-164 | A selection is accepted if and only if it is non-empty and known; then applied is the approved set, and applied and rejected partition the ids in order |
| SelectionTheorems.KeptEditsExactly | crates/agent-core/src/hunks.rs:134-164 | The rewritten call holds, under the ids applied, exactly the edits those ids name, and is otherwise unchanged |
| SelectionTheorems.EditsAppliedWereShown | crates/agent-core/src/hunks.rs:45-164 | Every edit that is kept is one whose own preview the user was shown under the id that is applied |
| SelectionTheorems.PlanShowsCallIds | crates/agent-core/src/hunks.rs:53-62 | For every tool the ids the filter derives are those the plan showed |
| SelectionTheorems.FilteredPatchReadsBack | crates/agent-core/src/hunks.rs:170-224 | The rewritten patch reads back as the original restricted to the approved hunks if and only if the kept sections are separable and free of carriage returns |
| SelectionTheorems.OrdinaryPatchReadsBack | crates/agent-core/src/hunks.rs:170-224 | It does for every selection of a patch without carriage returns and backslash headers |
| SelectionTheorems.ApprovedIsWhatWasShown | crates/agent-core/src/hunks.rs:177-201 | Planning the rewritten patch shows what was shown under the approved ids |
| SelectionTheorems.ApprovingAllNormalises | crates/agent-core/src/hunks.rs:170-224 | Approving every hunk keeps the patch's meaning and is idempotent |
| SelectionTheorems.ClashingSectionsAreLost | crates/agent-core/src/hunks.rs:202-218 | Sections that clash without their blank line do not survive approving everything |
| SelectionTheorems.BackslashHeaderIsLost | crates/agent-core/src/hunks.rs:202-218 | A concrete patch that does not read back |
| TurnTheorems.CallsAreAnswered | crates/agent-core/src/llm.rs:660-937 | At every request of every run, and when the turn ends well, each call id has as many answers as calls |
| TurnTheorems.BatchAnswersEach | crates/agent-core/src/llm.rs:755-925 | Whichever gate each call takes, the results' ids are the calls' ids as a multiset |
| TurnTheorems.ImagesNeverSplitAnswers | crates/agent-core/src/llm.rs:2263-2285 | No image ever stands right before an answer |
| TurnTheorems.BudgetBoundsTurn | crates/agent-core/src/llm.rs:660-755 | With a budget of m calls at most m are run and at most 3(m + 1) requests made, however the turn ends |
| TurnTheorems.CountIsAnswers | crates/agent-core/src/llm.rs:753-755 | At every request the answers in the conversation have grown by exactly the number of calls counted |
| TurnAnswers.EveryAnswerIsItsCalls | crates/agent-core/src/llm.rs:660-937 | At every request of every run, and when the turn ends well: the model's calls are those tried, the pairs of call id and answer are, as a multiset, those made from each call's own circumstance, and the images are those of the calls that ran, in order |
| TurnAnswers.BatchTellsItsCalls | crates/agent-core/src/llm.rs:2268-2285 | A batch pushes one answer per call, with that call's own output, refusal or denial, and then the images of the calls that ran |
| TurnAnswers.PartsAreToldExactly | crates/agent-core/src/llm.rs:876-925 | Of the calls that ran the pushed answers carry their own summary, in order, if and only if no call approved in part has an earlier one with its id |
| TurnAnswers.NothingSaidIsLost | crates/agent-core/src/llm.rs:660-755 | At every request of every run the conversation before stays, and behind it stand every steered message and everything the model wrote, in order and once |
| TurnAnswers.AskedUnlessNeedNot | crates/agent-core/src/llm.rs:814-838 | A call goes to the user unless the rules let it run, the mode does not ask by the server's hint or the tool's name, the classifier answers, or nobody is there |
| TurnAnswers.PlanEndsTheTurn | crates/agent-core/src/llm.rs:928-937 | After a batch the turn ends if and only if one of its calls delivered the plan |
| TurnAnswers.EmptyRepliesExactly | crates/agent-core/src/llm.rs:702-711 | A reply without calls lets the turn go on, with a reminder, if and only if it is blank and fewer than two such replies were passed over |
| TurnAnswers.AsksTheModelExactly | crates/agent-core/src/llm.rs:662-680 | A request is made if and only if time is left and the turn has not outgrown its headroom; else it ends as it stands |
| TurnAnswers.RequestsExactly | crates/agent-core/src/llm.rs:719-747 | Calls are taken up if and only if all have ids and the deadline holds |
| TurnAnswers.BudgetStopsExactly | crates/agent-core/src/llm.rs:748-755 | Below the largest number a batch is refused if and only if it would pass the budget |
| TurnAnswers.ParallelCallsChangeNothing | crates/agent-core/src/llm.rs:2084-2096 | No tool that the strictest mode asks for runs beside another |
| TurnTheorems.StartedAreCleared | crates/agent-core/src/llm.rs:876-925 | The calls that run are exactly those their routes clear |
| TurnTheorems.BudgetBindsExactly | crates/agent-core/src/llm.rs:748-755 | The saturating count can exceed the budget if and only if it is below the largest number |
| Gating.EveryCallThatRanIsJustified | crates/agent-core/src/llm.rs:759-873 | In every run of a turn beside every run of the approvals, a call that ran was not forbidden, and if it was asked about, the step that allowed it found the mode not asking, was the user's answer to that request, or came after the user allowed the tool for good or approved the same call as an action |
| Gating.OneAnswerRunsOneCall | crates/agent-core/src/core.rs:5179-5197 | One answer of the user lets one call run |
| Gating.AskedCallRunsExactly | crates/agent-core/src/llm.rs:826-873 | A call that is asked about runs if and only if the answer allows it: a part the user chooses can always be split off |
| Gating.NamedHunksAreApplied | crates/agent-core/src/llm.rs:840-873 | A call of which the user named hunks runs with exactly those applied and the others rejected |
| Gating.ReachesTheUserExactly | crates/agent-core/src/core.rs:2705-2757 | A request is parked for the user at some point of a run if and only if, when it is taken up, somebody watches, the tool is not allowed for good and the mode asks for it |
| Gating.AllowlistIsTheUsers | crates/agent-core/src/core.rs:5179-5184 | A tool is on the allowlist only after the user allowed a parked call of it for good |
| Gating.AskRuleReachesTheUserExactly | crates/agent-core/src/llm.rs:809-838 | A call under a rule that says "ask" goes to the core whatever the classifier says, and reaches the user if and only if watching, allowlist and mode require it |
| Gating.AskRuleRunsUnasked | crates/agent-core/src/core.rs:2711-2716 | A run in full-access mode in which such a call runs and is never parked |
| TurnTheorems.SummariesAreOwnExactly | crates/agent-core/src/llm.rs:876-911 | In any batch each result carries its own call's summary if and only if no call approved in part has an earlier call with its id |
| TurnTheorems.OneIdTwiceMisreports | crates/agent-core/src/llm.rs:795-911 | Two calls with one id, a whole write and a part of two edits, whose results carry each other's summary |
| TurnLoop.RunTurnEvents | crates/agent-core/src/llm.rs:640-937 | The loop computes the turn's specification over every script |
| TurnLoop.PassGates | crates/agent-core/src/llm.rs:790-874 | The second pass clears or stops each call and keeps the partial approvals by id |
| TurnLoop.TwoPassesRoute | crates/agent-core/src/llm.rs:759-874 | Two passes over a batch give what routing call by call gives |
| TurnLoop.RunParallelBuiltinTools | crates/agent-core/src/llm.rs:2098-2185 | In whatever order the workers finish, the results are in request order |
| TurnLoop.PushToolResultItems | crates/agent-core/src/llm.rs:2268-2285 | Every answer is pushed in order, and then the images; `TurnAnswers.BatchTellsItsCalls` says that each answer is its own call's |
| PartialJson.PartialStringField | crates/agent-core/src/plan_mode.rs:31-43 | The search by `find` computes the field's specification |
| PartialJson.UnescapePartial | crates/agent-core/src/plan_mode.rs:47-82 | The loop over the iterator computes the unescaped text |
| PartialJsonTheorems.FieldGrows | crates/agent-core/src/plan_mode.rs:31-89 | However the text goes on, what is shown is a prefix of what is shown then |
| PartialJsonTheorems.ReadUnits | crates/agent-core/src/plan_mode.rs:47-89 | Every legal encoding of a string is decoded to that string |
| PartialJsonTheorems.CutReadsWhole | crates/agent-core/src/plan_mode.rs:45-82 | Cut anywhere, exactly the characters whose encoding fully arrived are read |
| PartialJsonTheorems.WholeIsExact | crates/agent-core/src/plan_mode.rs:45-82 | The number of fully arrived characters is the largest that fits |
| PartialJsonKeys.FieldIsReadExactly | crates/agent-core/src/plan_mode.rs:29-43 | A field is the one that is read, whatever the values are, if and only if its key is written without escapes and no key before it ends with an escaped quote and its key |
| PartialJsonKeys.FoundFieldIsRead | crates/agent-core/src/plan_mode.rs:29-43 | Then it is read exactly, whole and cut anywhere |
| PartialJsonObjects.FirstOpenerIsRead | crates/agent-core/src/plan_mode.rs:31-43 | Of every object, whatever its keys, the value read is the one behind the first key that is taken for the field's |
| PartialJsonKeys.CutFieldIsReadExactly | crates/agent-core/src/plan_mode.rs:29-43 | Exactly the fully arrived part of the field is shown, for all values and cuts, if and only if the same condition holds |
| PartialJsonKeys.AbsentFieldExactly | crates/agent-core/src/plan_mode.rs:29-43 | A key the object does not have is found in no part of it if and only if no key ends with an escaped quote and it |
| PartialJsonKeys.EscapedKeyIsMissed | crates/agent-core/src/plan_mode.rs:31-43 | An object whose plan is missed because its key is escaped |
| PartialJsonKeys.QuotedKeyIsMistaken | crates/agent-core/src/plan_mode.rs:31-43 | An object in which another key is taken for the plan's |
| PlanStream.PlanDraft.Push | crates/agent-core/src/core.rs:5332-5360 | A fragment is added and the event carries what is new; `PlanStream.StreamStandsAt` and `TellsExactly` say of every list of fragments what that is |
| PlanStream.PushAllKeepsInStep | crates/agent-core/src/core.rs:5329-5360 | A client in step with the draft stays so |
| PlanStream.StreamStandsAt | crates/agent-core/src/core.rs:5332-5360 | After any fragments of any calls, title and plan are those of the joined fragments since the last one that names a call other than the one named before it |
| PlanStream.TellsExactly | crates/agent-core/src/core.rs:5332-5360 | Each event names the call named last, or "draft", and carries the title and exactly what is new of the plan; there is none if and only if nothing is |
| PlanStream.PlanByIdExactly | crates/agent-core/src/event.rs:242-249 | A client that joins what is sent under one id, as the protocol says, has the plan if and only if nothing was sent under that id before another call spoke, and no plan text came before the call was named |
| PlanStream.PlanIsSentTwice | crates/agent-core/src/core.rs:5332-5338 | A call that sends its plan again after another call spoke is joined to the plan twice over |
| PlanStream.StreamedEqualsWhole | crates/agent-core/src/core.rs:5321-5360 | For every chunking the pieces add up to what reading the whole text gives |
| PlanStream.PlanArrives | crates/agent-core/src/core.rs:5321-5360 | Whatever the fragments, spacing and escapes, of a plan that the search finds the client has exactly the part that fully arrived |
| PlanStream.PlanArrivesExactly | crates/agent-core/src/core.rs:5321-5360 | For all values, fragments and cuts, that holds if and only if the plan's key is written without escapes and no key before it ends with an escaped quote and "plan" |
| AuthTheorems.NoTokenIsPresentedTwice | crates/agent-core/src/oauth.rs:219-346 | In every interleaving, if granted pairs are saved, no refresh token is presented after the server consumed it |
| AuthTheorems.OneAtATime | crates/agent-core/src/oauth.rs:219-239 | Two processes are never between the reload and the release at once |
| AuthTheorems.LostGrantIsReplayed | crates/agent-core/src/oauth.rs:299-310 | A run from rest in which a granted pair is not saved and the consumed token is presented |
| AuthTheorems.OneRefreshServesAll | crates/agent-core/src/oauth.rs:247-256 | Any number of callers refused with one access token cause at most one refresh, if the new pair outlives the margin |
| AuthSession.AuthFile.Session | crates/agent-core/src/oauth.rs:258-326 | The call's effect on the disk, its result and what it showed the server |
| AuthSession.AuthFile.Logout | crates/agent-core/src/oauth.rs:332-346 | The login is dropped, and only this computer's is revoked |
| AuthSession.SessionIsItsSteps | crates/agent-core/src/oauth.rs:258-326 | A session left alone takes the steps of the protocol to the same disk, presents the same tokens and releases the lock |
| AuthSession.LogoutIsItsSteps | crates/agent-core/src/oauth.rs:332-346 | A sign-out left alone takes the steps of the protocol, and a login it shows the server is of no use from then on |
| AuthSession.SessionIsGood | crates/agent-core/src/oauth.rs:281-310 | A session that succeeds returns what is on the disk, good for two minutes and not refused, or just granted |
| AuthSession.ServedExactly | crates/agent-core/src/oauth.rs:258-290 | A session is served without the server if and only if there is a login of this computer with an access token good for two more minutes and not refused; it is that login |
| AuthSession.AskedExactly | crates/agent-core/src/oauth.rs:290-326 | The server is shown the refresh token if and only if such a login is no longer good and its refresh token is in time; the call then succeeds if and only if tokens are granted and saved |
| AuthSession.OtherwiseKept | crates/agent-core/src/oauth.rs:258-326 | Unless tokens were granted or the login dropped, the disk keeps it, with this computer recorded |
| AuthSession.DroppedExactly | crates/agent-core/src/oauth.rs:293-321 | The login is dropped if and only if it is out of time or the server refused it |
| AuthSession.CopiedLoginIsLeftAlone | crates/agent-core/src/oauth.rs:272-277 | A login copied from another computer is neither used nor changed |
| Calendar.DaysRoundTrip | crates/agent-core/src/logging.rs:230-252 | Every day number is the day number of its date, a valid Gregorian date |
| Calendar.DateRoundTrip | crates/agent-core/src/logging.rs:230-252 | Every valid date is the date of its day number |
| Calendar.ConsecutiveDays | crates/agent-core/src/logging.rs:231-242 | Consecutive day numbers give consecutive Gregorian dates |
| Calendar.EpochIsFirstOf1970 | crates/agent-core/src/logging.rs:231-242 | Day 0 is 1 January 1970 |
| Calendar.YearOfEraExact | crates/agent-core/src/logging.rs:234-235 | The closed formula finds the year of every day of an era |
| Calendar.CopyAgreesExactly | crates/agent-core/src/core.rs:4905-4917 | The copy agrees if and only if the day is in the years -2147483648 to 2147483647 |
| Calendar.CopyFailsNext | crates/agent-core/src/core.rs:4905-4917 | The next day, on which the copy goes back to the first of these years |
| Calendar.YearReached | crates/agent-core/src/logging.rs:231-252 | A day is in a year or later if and only if it is not before its 1 January |
| Timestamps.FormatReadsBackExactly | crates/agent-core/src/logging.rs:193-228 | A timestamp reads back if and only if it is before the year 10000 |
| Timestamps.FormatSays | crates/agent-core/src/logging.rs:193-205 | What is written up to the year 9999 has its fields where RFC 3339 puts them, saying the date of the day and the time of the day |
| Timestamps.ReadsExactly | crates/agent-core/src/logging.rs:207-228 | A text is read as the seconds to its date and time, and refused if and only if a field is out of range or the day before 1970 |
| Timestamps.CanonicalExactly | crates/agent-core/src/logging.rs:193-228 | A text that is read is what its moment is written as if and only if its date exists and its second is not a leap second |
| Attachments.SplitFilesCall | crates/agent-core/src/attachments.rs:49-64 | Popping file lines off the end computes the text and the files in order |
| AttachmentTheorems.LineReadsBack | crates/agent-core/src/attachments.rs:20-32 | The line of every non-empty path names it back |
| AttachmentTheorems.NameIsLastComponent | crates/agent-core/src/attachments.rs:12-17 | A path is named by its last component, empty ones and `.` passed over; `..` has no name |
| AttachmentTheorems.EarlierNamesNothing | crates/agent-core/src/attachments.rs:26-32 | No earlier occurrence of the separator parts a path from its own name |
| AttachmentTheorems.MessageComesApartExactly | crates/agent-core/src/attachments.rs:35-64 | Splitting undoes attaching if and only if no path is empty or has a line break |
| AttachmentTheorems.PlainTextIsKeptExactly | crates/agent-core/src/attachments.rs:49-58 | A message without files is kept if and only if its last line is no file line |
| FileUris.FileUri | crates/agent-core/src/attachments.rs:67-83 | The loop percent-encodes every byte that is not plain |
| FileUris.UriPath | crates/agent-core/src/attachments.rs:86-110 | The loop decodes the path, or nothing for a malformed URI or bytes that are not UTF-8 |
| FileUris.PathComesBackExactly | crates/agent-core/src/attachments.rs:67-110 | A byte string comes back from its URI if and only if it is an absolute path in UTF-8 |
| FileUris.UriIsPlain | crates/agent-core/src/attachments.rs:74-82 | A URI holds unreserved characters, slashes, colons and escapes only |
| FileUris.EscapesExactly | crates/agent-core/src/attachments.rs:67-83 | Unreserved bytes are written as they are and every other byte as two upper-case digits |
| FileUris.UnescapesExactly | crates/agent-core/src/attachments.rs:86-104 | A path is read if and only if it is made of plain characters and escapes, and then it is their bytes; a plus sign passes for the first digit of an escape |
| ImagePaths.FreePath | crates/agent-core/src/images.rs:742-759 | The search ends within the number of occupied names, at the first free one |
| ImagePaths.AllocatePaths | crates/agent-core/src/images.rs:710-721 | The paths are distinct, new, each the first free one; an error if and only if a format is unknown |
| ImagePaths.AllocatedAreOne | crates/agent-core/src/images.rs:710-759 | The images and the names that exist determine the paths |
| ImagePaths.TakenNumbers | crates/agent-core/src/images.rs:755-758 | As many numbers as are taken, so many names are occupied |
| ImagePaths.NamedForItsFormat | crates/agent-core/src/images.rs:725-740 | The extension says the format, and naming again changes nothing |
| ImagePaths.ExtensionIsReplaced | crates/agent-core/src/images.rs:725-740 | Another image extension is replaced, any other ending kept in front of the new one |
| ImagePaths.NumberGoesBehindStem | crates/agent-core/src/images.rs:742-759 | A number goes between stem and extension |
| ImagePaths.AllocatedSayTheirFormat | crates/agent-core/src/images.rs:710-759 | Every allocated path, numbered or not, says its image's format |
| AcpTheorems.EachRequestIsAnsweredOnce | src/acp.rs:103-239 | Over every run each message that asks for a reply has exactly one, but for the prompt in flight |
| AcpTheorems.EveryIdIsAnsweredExactly | src/acp.rs:190-199 | Every message with a method and an id is answered once if and only if no cancel of the run carries an id |
| AcpTheorems.AtMostOnePromptIsOpen | src/acp.rs:147-196 | Asked minus answered is 0 or 1, and 1 exactly while a prompt is set |
| AcpTheorems.ReadyEndsTheTurn | src/acp.rs:269-283 | A finished turn is answered "end_turn"; only a cancel answers "cancelled" |
| AcpTheorems.PermissionIsUsedOnce | src/acp.rs:225-236 | A permission id is consumed at most once in a run |
| AcpApprovals.ResponseReachesTheEngine | src/acp.rs:225-236 | In every run a response to a permission that was asked for and not answered yet approves or denies, as it says, the one call it was asked for; nothing else tells the engine anything |
| AcpApprovals.OpenExactly | src/acp.rs:247-268 | A permission is open if and only if the client was asked for it and has not answered it |
| AcpApprovals.NoSessionNoEvents | src/acp.rs:253-257 | A request without a session would be denied at once, and no run comes to that |
| AcpApprovals.PromptExactly | src/acp.rs:147-189 | A prompt is let in if and only if it is for the session opened last, everything asked before is answered and it is not empty; any other is refused and changes nothing else |
| AcpApprovals.RequestsAreAnswered | src/acp.rs:103-146 | What every other request is answered, by JSON-RPC's codes |
| AcpProtocol.AcpState.HandleMessage | src/acp.rs:103-239 | Each message has the effect of its step on the kept state |
| AcpProtocol.AcpState.HandleCoreEvent | src/acp.rs:241-293 | Each engine event settles the prompt, asks for permission or is forwarded |

## Left out

- The network, processes, file contents, browser login, provider catalogs and the terminal UI: foreign effects; what they answer is an input of a step.
- The events sent to clients about messages and tools (status lines, `ToolStart`, `ToolOutput`, usage): the model keeps what the session, the model's input and the answer channels receive.
- Failing writes to the client and a client that hangs up in the middle of a turn: a turn's script simply ends there.
- Logins and provider credentials that write auth.json outside the lock: the rotation theorems are about the lock's holders.
- Session ids of deferred actions and restoring them after a restart: one session is assumed, starting without restored actions.
- AgentCore.Core.PollEvents: deferred-action outcomes that arrive inside a poll are submissions between polls, which may start a turn while a retry is pending.
- SelectionTheorems.PlanShowsCallIds: the previews of edits and written files are inputs; reading the edited files is not modelled.
- PlanStream.StreamedEqualsWhole: fragments of one call; a fragment of another call starts over, which `PlanStream.StreamStandsAt` covers. A retried request's draft is a new one.
- AuthTheorems.NoTokenIsPresentedTwice: assumes that every pair the server grants reaches the disk; `AuthTheorems.LostGrantIsReplayed` shows why.
- Values of objects that are not strings: the engine asks for string fields only, and `PartialJsonKeys` covers objects of them.
- The Windows form of file URIs.
- Timestamps.FormatReadsBackExactly: texts are characters, so timestamps with multi-byte characters, which the source refuses by their byte length, are not told apart.
- ImagePaths.NamedForItsFormat: names are ordinary last components (not `.` or `..`), in one directory.
- AttachmentTheorems.MessageComesApartExactly: Unix paths; the order and content of the text around the files is exact.
- `merge_selective_summary`'s JSON text: a summary is the applied and rejected ids a result carries.
- The classifier, the command rules and the read-only command lists: a call's circumstances say what they answer.
- `slug`, config files, model tables, commands, secrets and help texts: easy or bound to libraries.
