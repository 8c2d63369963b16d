# The agent SDK, modelled and proved

The SDK runs an agent loop over a streamed chat protocol: it sends a history to a model server, assembles
the streamed reply, runs the tool calls in it behind hooks, permission rules and a callback, and repeats
until a reply has no calls, a budget is spent, or turns run out. Around the loop it keeps sessions with
checkpoints, forks and rewinds, refreshes the status of tool servers in the background, keeps permission
rules in memory and in three files, and merges channels for its consumer. This project models that logic
in Dafny and proves what it guarantees. `dafny verify dfyconfig.toml` checks everything.

## How it is put together

**One run.** `Trace` defines the events of a run as one ordered log: what is sent to the consumer, errors,
hook calls with their replies, requests, replies, policy checks, callback answers, tool calls, and saved
state. `StreamAssembly` and `ToolCalls` assemble a reply from a stream; `Hooks` decides what hook outputs
mean. `Protocol` says which event may come next: a state computed from the log so far, and the events that
this state allows. A log is lawful when every event in it was allowed. `AgentLoop` is the loop itself, a
class that changes sessions, policy and log in place; what servers, hooks, callbacks, tools and the
context do is arbitrary at every point, and so is what the consumer does to a run from outside: before every
request, send, hook, policy check and callback, any number of `SetPermissionMode` and `SetModel` calls may
take effect, and each is an event of the log. `RunMessages` is proved to end, to leave a lawful log, and to
leave exactly the sessions, the policy and the model that the log leads to. `Moves` puts the protocol in
tables, and what lawful logs guarantee is then proved once and for all logs: `StepLaws` (which event must
follow which), `RunLaws` (one outcome, bounds, fallback, budget, replies), `ToolLaws` (the steps of a call,
gating, answers, policy), `OpeningLaws` (inputs, checkpoints, the first request), `HistoryLaws` (pairing of
calls and answers, what later requests repeat), `SessionLaws` (what is left in the sessions) and
`Conversations` (many runs with rewinds and forks between them). These laws speak of the log itself and of
plain fields of its events, not of the functions by which the loop computes them.

**Around the run.** `Sessions` says by value what the session manager does; `SessionStore` is the manager
on the heap, with real lists and message objects, proved equal to it whatever a caller does to live lists
and their messages, to listed copies, and to lists it handed in. `Permission`, `Registry`, `Identifiers`, `FileCheckpoints`, `McpRefresh`, `Sse`, `Client`, `Tags`
and `BalancedJson` follow one source component each; `Text` and `Common` hold shared pieces. The loop
works on the tables of `Sessions`, which the heap manager implements.

Arithmetic: costs are reals, so rounding is not modelled; the fork counter and `itoa` work on 64-bit
integers with wrap-around. Go's map iteration is an arbitrary order everywhere. Texts are sequences of
characters; decoding of tool arguments, of JSON payloads and of chunks is an arbitrary function or an
arbitrary input.

## Where the code surprises

Each of these is what the code does, as stated by the member named.

- A tool delta with a negative index is assembled and then dropped (`ToolCalls.NegativeIndexIsDropped`).
- A text delta that starts with everything received so far is taken for a snapshot, so "ha", "ha" assembles to
  "ha" (`StreamAssembly.RepeatedDeltaIsLost`); plain concatenation holds exactly when that never happens
  (`StreamAssembly.DeltasConcatenate`).
- An opening bracket inside a quoted string of the prose before the JSON is taken for the start of it
  (`BalancedJson.QuotedOpenerWins`); the scan starts at the JSON exactly when the prose has no opener
  (`BalancedJson.ScanStartsAtJson`).
- An input message whose role is "tool" breaks the pairing of calls and answers, and only such an input does
  (`HistoryLaws.EntryKeepsPairing`).
- A success result reports no cost when the last reply carried none, whatever earlier turns cost
  (`RunLaws.SuccessReports`).
- Rewinding does not rewind the counter of user turns, which is what keeps identifiers unique; cloning over
  an existing session may set it back, and then runs do issue an identifier twice
  (`Conversations.CloneOverReissues`, `Conversations.IdentifiersRepeat`).
- Cloning a message copies the references to nested values, so a nested value written later shows through in
  checkpoints and clones that hold it, and in no others (`Sessions.NestedEditsShowThrough`).
- In memory, a removed or replaced rule can differ from a reload, because other layers show through
  (`Permission.CoherentAfterUpdate`, `Permission.RemovedRuleReturns`).
- A host that starts with statuses, as the SDK's own client does, keeps them: no caller ever refreshes
  (`McpRefresh.StatusesStay`). A published status can be lost, to a slow first caller, if and only if the host
  starts without statuses (`McpRefresh.LostIffStartedEmpty`).
- Two servers whose names contain the separator can claim one public tool name; the server ranged over last
  owns it, and the registry depends on map order if and only if two offers collide
  (`Registry.UnsafeNamesCollide`, `Registry.LastOwns`, `Registry.OrderMattersIffCollision`).
- `itoa` of the least integer is a bare sign (`Identifiers.ItoaDecodes`).
- `[DONE]` hides a later scanner error only when a blank line ended its block (`Sse.Expected`); unlike the event
  stream format of the WHATWG HTML standard, section 9.2.6, values are trimmed and a cut-off block is dispatched.
- `internal/runtime/parsing_extras_test.go` lists two thoughts as joined by a line break and tolerates both forms;
  the code joins them with nothing, and so does the model.

## Model

| member | source | states |
|---|---|---|
| AgentLoop.QueryRunner.RunMessages | internal/runtime/query_runner.go:270-911 | every run ends; its log is lawful for the protocol, and sessions, permission policy and model afterwards are those the log leads to, whatever is set from outside meanwhile |
| AgentLoop.QueryRunner.Interfere | internal/controlplane/controlplane.go:121-150 | any number of mode and model changes between two events, each logged and in force from then on, and nothing else changed |
| AgentLoop.QueryRunner.RunMessageIterator | internal/runtime/query_runner.go:179-266 | the runs of one iterator form a possible conversation over the same sessions, each on the session last named, stopping at the end, at a reported error or on cancellation |
| AgentLoop.QueryRunner.SessionIsLastNamed | internal/runtime/query_runner.go:179-266 | the session of a message is the one named last, or else that of the call, or else "default" |
| AgentLoop.QueryRunner.RequestTurn | internal/runtime/query_runner.go:408-497 | a turn that goes on has the reply, history and cost of exactly one attempt, at the model in force when the turn began or its fallback; otherwise the run is over |
| AgentLoop.QueryRunner.RunOneCall | internal/runtime/query_runner.go:599-844 | one announced call ends in one answer that the log accounts for, or in the end of the run |
| AgentLoop.QueryRunner.Execute | internal/tools/executor.go:63-160 | what an execution returns and how far the gate was opened agree: output only after a call, denial only from policy or callback, error otherwise |
| AgentLoop.QueryRunner.SubmitAll | internal/runtime/query_runner.go:352-405 | after the inputs the run is ready for its first request with the history the log says, or it is over |
| Protocol.StreamIsLawful | internal/runtime/query_runner.go:1470-1605 | whatever an open stream shows is lawful and accumulates as shown |
| Protocol.PriorEvent | internal/runtime/query_runner.go:107-117 | changes of mode and model from outside do not alter how a run stands, policy and model apart |
| RunLaws.SingleOutcome | internal/runtime/query_runner.go:520-553 | nothing is sent after a result, hence at most one result; an ending error is the last event of a run |
| RunLaws.RunsHaveOutcomes | internal/runtime/query_runner.go:855-911 | a run that is over has sent a result or ended with an error |
| RunLaws.RunIsBounded | internal/runtime/query_runner.go:407-418 | at most the turns that the options set (the turns, or else the tool iterations, or else eight) and at most two requests per turn; a result counts the turns begun, and a run gives up only when all are used |
| RunLaws.OneAttemptPerTurn | internal/runtime/query_runner.go:434-497 | the fallback model is asked only right after a failed first attempt at the same request, with the model set at that moment, that sent nothing and cost nothing |
| RunLaws.FallbackIsAsked | internal/runtime/query_runner.go:434-497 | after a first attempt that failed and sent nothing, a fallback that is another model is asked for the same request before anything else |
| RunLaws.ModelIsSet | internal/controlplane/controlplane.go:136-150 | the model in force is the one at the start until another is set |
| RunLaws.BudgetBound | internal/runtime/query_runner.go:512-553 | with a budget of at least zero no request is made over budget; a budget error reports the true total, above the budget by at most the last turn's cost |
| RunLaws.SuccessReports | internal/runtime/query_runner.go:855-880 | the success result carries the last reply's text, and the total cost if and only if the last reply carried a cost |
| RunLaws.RepliesMean | internal/runtime/query_runner.go:1443-1674 | a reply without error is what all chunks of its stream say, with the cost reported last |
| RunLaws.StreamsAreShown | internal/runtime/query_runner.go:1473-1605 | between a request and the end of its stream the consumer gets exactly what the items mean, or a first part of it if the stream fails |
| RunLaws.RepliesArePresented | internal/runtime/query_runner.go:573-596 | before its calls are planned a reply is presented in one final message, if and only if partial messages are off and it has text, reasoning or images; the plan is its calls in ascending index order |
| StepLaws.RunsBegin | internal/runtime/query_runner.go:270-300 | the first event of a run opens its session or says why the run cannot start |
| StepLaws.RunsGoStepByStep | internal/runtime/query_runner.go:352-911 | which event must follow which: each input is numbered, sent, hooked and checkpointed; planned calls are taken up one by one in order, only then the next turn or giving up; over budget nothing but the budget error; a success is saved before the stop hook |
| OpeningLaws.FirstRequestOpens | internal/runtime/query_runner.go:323-391 | the first request is what the session held, the system prompt if and only if that was nothing and there is one, and one entry per input in order with its full text and its role |
| OpeningLaws.InputsAreShown | internal/runtime/query_runner.go:352-371 | the inputs are sent one after another, each with its text and the identifier just issued |
| OpeningLaws.CheckpointsOpen | internal/runtime/query_runner.go:393-404 | a checkpoint follows the prompt hook of the message it is named for, and holds the conversation through that message |
| SessionLaws.SavedStateIsKept | internal/runtime/query_runner.go:893 | what a run saves is what its session holds afterwards, so what the next run starts from |
| SessionLaws.CheckpointsAreKept | internal/runtime/query_runner.go:393-395 | after the run, a rewind to a checkpoint taken in it brings back exactly the messages of that checkpoint |
| SessionLaws.OthersStay | internal/session/manager.go:193-201 | a run touches no session but its own |
| ToolLaws.NoUngatedCall | internal/runtime/query_runner.go:595-725 | every call that reaches a server was announced, permitted by every hook output, allowed by the policy of that moment and by the callback, is registered, and has the arguments those settled on |
| ToolLaws.CallsGoStepByStep | internal/runtime/query_runner.go:595-830 | a call goes through announcement, permission hook, pre-use hook, policy, callback, server and post-use hook, each with the input it is due, and through the failure hook wherever a step refuses or fails; nothing is skipped |
| ToolLaws.RefusalsEndRuns | internal/runtime/query_runner.go:655-815 | behind the failure hook a refusal ends the run, by an interruption or by an error as the refusing hook or callback says, a policy always by an error; any other failure goes on to the post-use hook |
| ToolLaws.RejectionEndsRuns | internal/runtime/hook_outputs.go:8-40 | a run ends with a hook error exactly right after a hook that fails where it may not, or whose output asks for what the loop does not do |
| ToolLaws.LastDecisionHolds | internal/tools/executor.go:165-232 | a call is checked against what hooks, callback and mode changes decided last about its tool, and in the mode set last |
| ToolLaws.FilteredToolsAreNotCalled | internal/tools/registry.go:73-86 | a called tool's public name is none of the disallowed ones, is one of the configured and of the allowed ones where there are any, and its server lists it |
| ToolLaws.AnswersComeFromCalls | internal/runtime/query_runner.go:727-830 | a tool result answers the call announced last; it is the output of the call just made, or an error text after both the failure hook and the post-use hook |
| ToolLaws.PolicyIsDecided | internal/tools/executor.go:188-232 | the policy in force is the initial one with all updates decided by hooks and callbacks, and all modes set from outside, in the order of the log |
| HistoryLaws.HistoriesArePaired | internal/runtime/query_runner.go:831-850 | from well-paired sessions, every history sent, checkpointed or saved has each assistant entry with calls followed at once by one answer per call, same identifiers, same order |
| HistoryLaws.EntryKeepsPairing | internal/runtime/query_runner.go:352-391 | an input keeps a history well paired if and only if its role is not "tool" |
| HistoryLaws.TurnKeepsPairing | internal/runtime/query_runner.go:831-850 | an assistant entry with its complete answers keeps a history well paired |
| HistoryLaws.RequestsRepeatTheRun | internal/runtime/query_runner.go:555-590 | from the second turn on a request is the previous one, an entry with text, reasoning, images and calls of the last reply, and one tool entry per call with the identifier and output that the consumer saw |
| HistoryLaws.RequestsGrow | internal/runtime/query_runner.go:444-447 | a later request of a run extends every earlier one |
| HistoryLaws.SavedStateIsFinal | internal/runtime/query_runner.go:853-893 | state is saved only after a success result, with nothing but outside changes in between, and is the last request with an entry for the last reply, field by field |
| Conversations.ConversationsStayPaired | internal/session/manager.go:171-201 | pairing holds across any sequence of runs, rewinds and forks, also over existing sessions, in every history and every session |
| Conversations.NoIdentifierTwice | internal/runtime/query_runner.go:356-357 | over any sequence of runs, rewinds and forks that set no counter back, no user message identifier is issued twice |
| Conversations.IssuedExactly | internal/runtime/query_runner.go:356-357 | unless forked over, a session has issued exactly the identifiers that its counter passed |
| Conversations.CloneOverReissues | internal/session/manager.go:111-140 | after a fork over a session, its next identifier was issued before if and only if the counter is set back into the range issued |
| Conversations.IdentifiersRepeat | internal/session/manager.go:111-140 | a run, a fork over its session from one as far as it was before, and a run: one identifier issued twice |
| Hooks.Decide | internal/runtime/query_runner.go:1685-1717 | denial if and only if some output denies; everything else from the last output that has it |
| Hooks.VerdictMeans | internal/runtime/query_runner.go:1685-1717 | some output has the behaviour "deny", or none; message, interruption, input, updates and suggestions are those of the last output that gives one, or the defaults |
| StreamAssembly.RunStream | internal/runtime/query_runner.go:1443-1674 | undisturbed, a stream sends and returns exactly what its items mean; disturbed, it sent a first part of that and returns nothing but cost and whether it sent; a transport failure comes after everything before it; no cost without output |
| StreamAssembly.OutcomeMeans | internal/runtime/query_runner.go:1519-1596 | the returned text, reasoning, images and calls in terms of all chunks: of the images the first with each URL, inline calls only in the absence of structured ones |
| StreamAssembly.ShownRefinesAssembled | internal/runtime/query_runner.go:1519-1555 | assembled text is the shown text behind leading white space, so both trim to the same |
| StreamAssembly.PartialsTrimToText | internal/runtime/query_runner.go:1539-1555 | the partial texts sent in a stream, put together, trim to the text that the turn returns |
| StreamAssembly.StreamsTell | internal/runtime/query_runner.go:1473-1579 | with partial messages on, the thoughts sent are all the reasoning received and the images sent are those returned; with them off nothing of the kind is sent; one message per event and one error per event that does not parse |
| StreamAssembly.ChunksInOrder | internal/runtime/query_runner.go:1499-1579 | an event of one chunk sends itself, then at most one thought, one text and its new images, in this order |
| StreamAssembly.CostIsLast | internal/runtime/query_runner.go:1483 | the cost of a stream is the one reported last |
| StreamAssembly.SnapshotsAssemble | internal/runtime/query_runner.go:1366-1377 | cumulative snapshots assemble to the last one |
| StreamAssembly.ReplaysAddNothing | internal/runtime/query_runner.go:1366-1377 | replaying the full text any number of times adds nothing |
| StreamAssembly.DeltasConcatenate | internal/runtime/query_runner.go:1366-1377 | deltas assemble by concatenation if and only if none repeats all the text before it |
| StreamAssembly.RepeatedDeltaIsLost | internal/runtime/query_runner.go:1373-1375 | "ha" and "ha" assemble to "ha" |
| StreamAssembly.AppendNewImages | internal/runtime/query_runner.go:1417-1441 | the images whose URL is new, as a function of the URLs seen |
| StreamAssembly.NewImagesDistinct | internal/runtime/query_runner.go:1417-1441 | new images have distinct unseen URLs, and every incoming URL is then covered |
| StreamAssembly.ImageKept | internal/runtime/query_runner.go:1417-1441 | one more image is kept, as it is and behind the others, if and only if its URL is not empty and new |
| ToolCalls.AssemblyPerIndex | internal/runtime/query_runner.go:1581-1596 | a call has all its fragments in arrival order and its last non-empty identifier and name, whatever else arrives |
| ToolCalls.OrderCalls | internal/runtime/query_runner.go:1186-1203 | lists each non-negative index once, ascending |
| ToolCalls.InterleavingInvariance | internal/runtime/query_runner.go:1186-1203 | delta streams with equal fragments per index give the same calls in the same order |
| ToolCalls.NegativeIndexIsDropped | internal/runtime/query_runner.go:1190-1197 | an assembled call is listed if and only if its index is not negative |
| ToolCalls.ExtractInlineToolCalls | internal/runtime/event_mapper.go:543-600 | the deltas of all readable blocks, numbered by block |
| ToolCalls.InlineRunsInDocumentOrder | internal/runtime/query_runner.go:1656-1671 | inline calls run in document order, one per readable block, with resolved names and empty identifiers |
| ToolCalls.InlineCallsAreBlocks | internal/runtime/event_mapper.go:543-600 | a block with a JSON name, or else with a name in the other form, is the call at its position: that name resolved, its arguments, "{}" for empty JSON ones |
| ToolCalls.UnreadBlocksAreNoCalls | internal/runtime/event_mapper.go:543-600 | a block that cannot be read is no call, and no call comes from elsewhere |
| Tags.SplitTags | internal/runtime/event_mapper.go:498-516 | refines the cleaned text and thoughts of a text |
| Tags.CleanHasNoTag | internal/runtime/event_mapper.go:498-516 | no opening tag survives, even one formed by a removal |
| Tags.SplitTwice | internal/runtime/event_mapper.go:498-516 | a second pass changes nothing and finds no thought |
| Tags.SplitConservesLength | internal/runtime/event_mapper.go:498-516 | before trimming, input length is cleaned text, thoughts and removed tags exactly |
| Tags.SplitRecovers | internal/runtime/event_mapper.go:498-516 | prose and thoughts interleaved come apart, both trimmed; prose without a block stays untouched |
| Tags.StrayTailIsThought | internal/runtime/event_mapper.go:508-514 | a thought that was not finished joins the thoughts, after all the others, and the prose ends before it |
| BalancedJson.FindBalancedJSON | internal/runtime/query_runner.go:1309-1357 | the shortest balanced slice from the first opener, or "" if there is none |
| BalancedJson.FindsEveryJson | internal/runtime/query_runner.go:1309-1357 | every JSON array or object behind bracket-free prose is found exactly, whatever follows (RFC 8259, sections 2 to 7) |
| BalancedJson.ScanStartsAtJson | internal/runtime/query_runner.go:1309-1316 | the scan starts at the JSON if and only if the prose before it has no opener; otherwise the answer starts at that opener |
| BalancedJson.QuotedOpenerWins | internal/runtime/query_runner.go:1309-1316 | a bracket in quoted prose is taken for the start |
| SessionStore.Manager.RunAll | internal/session/manager.go:77-219 | the heap manager does what the table does by value under any mix of operations, edits of live lists and messages, and edits of listed copies with their checkpoints and of lists handed in |
| SessionStore.Manager.LiveSays | internal/session/manager.go:77-219 | the live list of a session is the manager's own and says, message by message and field by field, what the table says |
| SessionStore.Manager.Rewind | internal/session/manager.go:171-189 | succeeds exactly for a known checkpoint and then has its messages, in fresh objects |
| SessionStore.Manager.CloneSession | internal/session/manager.go:111-140 | a clone by value that shares no object with its source |
| SessionStore.Manager.List | internal/session/manager.go:204-219 | clones of all sessions, all of them fresh objects |
| SessionStore.CloneMessages | internal/session/manager.go:491-502 | a fresh list of fresh messages that say the same |
| Sessions.CheckpointSurvives | internal/session/manager.go:155-168 | a checkpoint changes only by taking it again or by cloning over its session |
| Sessions.SnapshotThenRewind | internal/session/manager.go:155-189 | whatever happens in between, rewinding restores the messages of the snapshot and keeps the counter of user turns of that moment |
| Sessions.NestedEditsShowThrough | internal/session/manager.go:490-502 | restored messages read as they did at the snapshot if and only if no nested value they hold was written since |
| Sessions.CloneIsIndependent | internal/session/manager.go:111-140 | a clone and its source do not influence each other |
| Sessions.SetStateLasts | internal/session/manager.go:193-201 | messages and counter that were set, and the checkpoints there were, stay whatever is done to other sessions; the empty name is "default" |
| Identifiers.Itoa | internal/session/manager.go:508-525 | the decimal text of every 64-bit integer but the least; the buffer index stays in range |
| Identifiers.ItoaDecodes | internal/session/manager.go:508-525 | parsing undoes printing if and only if the integer is not the least |
| Identifiers.ForkIdInjective | internal/session/manager.go:143-152 | a fork identifier determines base and number |
| Identifiers.UserIdInjective | internal/runtime/query_runner.go:356 | a user message identifier determines session and number |
| Identifiers.Forks.IssueAll | internal/session/manager.go:143-152 | over all bases, no fork identifier is issued twice while counters have room |
| FileCheckpoints.FileSystem.Capture | internal/session/manager.go:344-384 | every file outside the root `.git`, in any order |
| FileCheckpoints.FileSystem.Restore | internal/session/manager.go:386-425 | on success the tree is the snapshot plus ungoverned `.git` files, and no entry goes up through ".."; `.git` is untouched even on failure |
| FileCheckpoints.RewindRestores | internal/session/manager.go:386-425 | whatever happened to the tree, a restore brings back every file outside the root `.git` and leaves `.git` as it is |
| FileCheckpoints.Store.SnapshotThenRewind | internal/session/manager.go:222-264 | snapshot, arbitrary change, rewind without error: every file outside the root `.git` is as it was, and `.git` as the change left it |
| McpRefresh.RunKeepsInv | internal/controlplane/controlplane.go:153-236 | in every interleaving the flag says whether somebody holds the refresh, and only one does |
| McpRefresh.OneRefreshAtATime | internal/controlplane/controlplane.go:208-236 | at most one refresh is in flight |
| McpRefresh.ConnectingIsTemporary | internal/controlplane/controlplane.go:217-236 | a connecting status is that of a refresh that will still publish |
| McpRefresh.DiscoveryIsFinal | internal/tools/registry.go:42-147 | the status map of a new registry has exactly the configured names, each final, whichever servers answer |
| McpRefresh.PublishedIsFinal | internal/controlplane/controlplane.go:229-231 | in every interleaving, what a worker is about to publish has exactly the configured names, each final |
| McpRefresh.RepliesAreComplete | internal/controlplane/controlplane.go:153-176 | every status reply lists exactly the configured servers |
| McpRefresh.RepliesWereHad | internal/controlplane/controlplane.go:153-176 | a caller is answered with statuses that the host had at some point of the run |
| McpRefresh.RepliesAreKnown | internal/controlplane/controlplane.go:153-236 | a reply is the statuses of the start, or every server configured, or every server connecting, or what one discovery found: ready exactly the SDK servers and the external ones that answered |
| McpRefresh.RefreshCompletes | internal/controlplane/controlplane.go:208-236 | from every reachable state the refresh in hand can finish in at most six steps of its own |
| McpRefresh.StatusesStay | internal/controlplane/controlplane.go:153-176 | a host that starts with final statuses keeps them in every interleaving, and nobody refreshes |
| McpRefresh.LostIffStartedEmpty | internal/controlplane/controlplane.go:158-165 | a published status can be lost if and only if the host starts without statuses |
| McpRefresh.SlowFirstCallerWins | internal/controlplane/controlplane.go:158-165 | from a host without statuses, an interleaving in which a published result is lost |
| Permission.PolicyState.constructor | internal/tools/executor.go:28-55 | a new executor has the merged policy over the mode of its options |
| Permission.PolicyState.ApplyPermissionUpdates | internal/tools/executor.go:195-232 | the last update that says anything about a tool decides its rule (its behaviour or "ask", or none once removed or replaced), the last mode set is the mode; the files have all updates if every write succeeded |
| Permission.RulesReachTheGate | internal/tools/executor.go:165-179 | after rules were added or set, their tools are denied in every mode but "bypassPermissions" if they say "deny", and in none otherwise |
| Permission.Store.LoadMerged | internal/permission/store.go:52-73 | later layers win rule by rule; an unreadable file is an error |
| Permission.Store.ApplyUpdate | internal/permission/store.go:112-151 | rule by rule: what the update says about a tool, or else what was there; the mode if it sets one |
| Permission.UpdateIsWritten | internal/permission/store.go:75-97 | an update goes to the file of its destination, a missing one included, and to no other |
| Permission.TopmostFileWins | internal/permission/store.go:52-73 | a new executor has each rule from the topmost file that has it, the mode likewise or else from its options, and no rules if a file is unreadable |
| Permission.CoherentAfterUpdate | internal/tools/executor.go:195-232 | after a written update memory equals a reload if and only if nothing of another layer shows through it |
| Permission.CoherentOverRuns | internal/tools/executor.go:195-232 | rules added and modes set in local settings keep memory equal to a reload over any run |
| Permission.SessionUpdateCoherence | internal/permission/store.go:75-97 | after an update that no file takes, memory equals a reload if and only if the reloaded policy already says what the update says, kind by kind |
| Permission.RemovedRuleReturns | internal/permission/store.go:112-151 | a rule removed from local settings returns from user settings on reload |
| Registry.NewRegistry | internal/tools/registry.go:28-147 | for some order of the servers the registry is that of this order: exactly the tools listed under a name that is not empty and let through by the three lists, each under its public name; and a status per configured server |
| Registry.RegistryHolds | internal/tools/registry.go:73-86 | of any registry: no name is one of the disallowed, each is one of the configured and allowed where there are any, each is listed as described, and every tool of this kind is there |
| Registry.RegistryIsUnique | internal/tools/registry.go:28-147 | without colliding names the registry does not depend on map order |
| Registry.LastOwns | internal/tools/registry.go:42-147 | the server ranged over last owns every name it offers |
| Registry.CollisionDependsOnOrder | internal/tools/registry.go:116-129 | with colliding names two orders of the servers give different registries |
| Registry.OrderMattersIffCollision | internal/tools/registry.go:42-147 | all orders of the servers give one registry if and only if no two offers collide |
| Registry.PublicNameIsInjective | internal/tools/registry.go:73 | safe server names make the public name determine server and tool |
| Registry.SafeNamesDoNotCollide | internal/tools/registry.go:116 | safe server names exclude collisions |
| Registry.CollapseUnderscores | internal/tools/registry.go:211-226 | the scan with a previous character computes the collapsed text |
| Registry.CollapseKeepsText | internal/tools/registry.go:211-226 | collapsing keeps everything but underscores |
| Registry.CollapseHasNoRun | internal/tools/registry.go:211-226 | no two underscores in a row remain |
| Registry.CollapseIsIdempotent | internal/tools/registry.go:211-226 | collapsing twice is collapsing once |
| Registry.ResolveName | internal/tools/registry.go:191-209 | an exact name, or else the one registered name with the same collapsed form |
| Registry.CollapsedNamesResolve | internal/tools/registry.go:191-226 | every registered name is found from its collapsed form if and only if collapsed forms are distinct |
| Registry.SpellingResolves | internal/tools/registry.go:191-209 | then any spelling with the same collapsed form is found too |
| Sse.ParseSse | internal/util/sse.go:14-79 | emits the decodable payloads of the blocks before the first `[DONE]` in order, one error per undecodable one; when cancelled, a first part of that and at most the scanner error after it |
| Sse.NoiseLine | internal/util/sse.go:47-64 | a line that is not blank and does not start with "data:" has no effect, wherever it stands |
| Sse.NothingAfterDone | internal/util/sse.go:22-45 | behind a `[DONE]` that a blank line ends nothing is read, a scanner error included |
| Sse.CutOffIsRead | internal/util/sse.go:66-79 | an event that the stream cuts off before its blank line is read too, but as `[DONE]` it hides no scanner error |
| Sse.LinesOfPayload | internal/util/sse.go:22-30 | a payload is the data lines of its block in order with line breaks between: cutting it gives them back |
| Sse.ParseUndoesRender | internal/util/sse.go:47-64 | parsing undoes the rendering of events as data lines |
| Client.ReceiveMessages | client_impl.go:154-190 | for every schedule and consumer, the interleaving as far as the consumer went |
| Client.ReceiveResponse | client_impl.go:192-237 | the same, muted after the first result |
| Client.InterleaveConserves | client_impl.go:154-190 | merging loses, repeats and reorders nothing within a channel |
| Client.InterleaveFollows | client_impl.go:154-190 | each step of the schedule yields the next of its channel, or the cancellation, or nothing |
| Client.ResponseIsComplete | client_impl.go:192-237 | exactly the messages through the first result, and all errors if there is no result |
| Client.NothingAfterResult | client_impl.go:192-237 | after a result only a cancellation error can follow |
| Client.ResponseEndsCancelled | client_impl.go:192-237 | a cancellation is yielded also after a result |
| Client.ClientState.Start | client_impl.go:49-88 | connects exactly a new, open, accepted client, on the given session, and touches no stream |
| Client.ClientState.Query | client_impl.go:108-152 | opening a stream cancels the one before it and moves to its session |
| Client.ClientState.Close | client_impl.go:327-343 | closing cancels every stream, and twice is as good as once |

## Left out

- Client.ClientState.Query: does not model a query racing a close, because the code does not serialise them.
- RunLaws.BudgetBound: does not bound a negative budget before the first cost is reported, because the code checks the budget only once a cost was seen; the general form is `RunLaws.BudgetHolds`.
- Conversations.NoIdentifierTwice: does not cover forks that set the counter of an existing session back, because they reissue identifiers; `Conversations.CloneOverReissues` and `Conversations.IdentifiersRepeat` say when and how.
- Conversations.CloneOverReissues: covers the first fork over a session; after several from different sources the issued numbers have gaps.
- AgentLoop.QueryRunner.Interfere: a change of mode or model that arrives while a stream or a tool call is going on is logged when it can first take effect, at the next event of the loop itself.
- ToolLaws.CallsGoStepByStep: does not say with which input the post-use and the failure hook are called; nothing in a run depends on it.
- Identifiers.Forks.NewForkID: requires room in the counter, because a wrapped counter starts over.
- AgentLoop.QueryRunner.RunMessages: works on session tables by value; that the heap manager implements them is proved separately in `SessionStore`, and live message objects are not shared with a run in progress. It requires that no counter of user turns is negative, which every run keeps and nothing in the SDK breaks; `tag` stands for `Tags.TOOL_CALL`.
- AgentLoop.QueryRunner.RunMessageIterator: each run completes before the next step; the code may return on a first error while its run is still going.
- SessionStore.Manager.List: does not model the order by time stamps; copies are a map by name.
- SessionStore.CloneMessages: nested values are addresses whose contents live outside the manager; what sharing them means is stated in `Sessions.NestedEditsShowThrough`.
- SessionStore.Manager.ReplaceLive: puts new messages into a live list; a caller that puts a message object of another list there shares it.
- FileCheckpoints.FileSystem.Restore: a flat map from clean relative paths; directories, permissions, links and unclean paths are not modelled.
- McpRefresh.RefreshCompletes: says that a refresh can complete, not that a discovery call returns.
- ToolCalls.ExtractInlineToolCalls: the two readings of a block body are arbitrary functions.
- Persistence of sessions and fork counters to disk (`EnablePersistence`), and reloading them.
- Concurrent runs on one session.
- HTTP transport, model listing, lifecycle and stateful chat endpoints, external tool server connections.
- Telemetry, audit envelopes, logging, durations and token usage.
- How chunks are parsed out of server events (`parseChunk`, `parseResponsesChunk`, `collectImageDeltas`): chunks are arbitrary inputs.
- Request parameters other than model and history, including a forced tool.
- Structured output decoding beyond the balanced scanner (`tryParseJSON`, `stripCodeFence`).
- Texts of error messages, other than the prefix of tool errors.
- Option builders, retry helpers and other single-branch code, which would only add easy members.
