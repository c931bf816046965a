# Verified models of the agent loop, the browser tool runtime and their helpers

A Dafny project that models the parts of the repository with the most state, and proves what they
promise for every input, every run and every interleaving. `dafny verify dfyconfig.toml` checks all of it.

* **The agent run** (`Messages`, `PendingQueue`, `Protocol`, `ProtocolTheorems`, `EventGrammar`, `AgentView`,
  `ToolHost`, `ToolTasks`, `AgentLoop`, `AgentLifecycle`). `Protocol` is an automaton that says which event, poll
  or decision may come next in a run. `AgentLoop` is the loop itself, in imperative form, against a `Host` that stands for
  the provider stream, tools, hooks, listeners and users: each answers with a function of the moment, and at each await
  the host may steer, queue, remove, send tool updates or abort. Its class invariant says that everything it does is
  admitted by the automaton, follows the answers of the host (`Follows`), has replies that the provider's streams account for,
  and that the `Agent` object, which sees events only, rebuilds the same transcript. The theorems about transcripts, brackets,
  tool results and queues are proved once, for all runs of the automaton.
* **The shared tool runtime** (`Numerals`, `Runtime`, `RuntimeSystem`, `RuntimeRouting`, `ToolRuntime`). `Runtime` has
  the handlers of one process as functions, `ToolRuntime` is the module-level state changed in place by methods proved equal to
  them, and `RuntimeSystem` connects any number of processes, sockets and hosts, with lines delayed, reordered or lost.
* **Framing** (`Framing`, `NativeFraming`, `Classification`), **proxy streams** (`ProxyStream`), the **fullscreen
  viewport** (`Painting`, `Viewport`), the **network records** (`NetworkIndex`), the **session migration** (`Migration`)
  and the **fuzzy matcher** (`Fuzzy`).

Where the code does not keep a property in full, one lemma says exactly when it holds and another exhibits a breach:

* a provider that sends `start` twice for one reply leaves a stale partial message in the loop's context and nests message
  brackets: `NestsExactlyOnSecondStart` and `AgentRun.Agree` give the condition on the streams read, `SecondStartBreaks` the
  hosts with which every completed run breaks;
* a message drained just before the abort signal is lost: `LostExactlyWhenCutShort`, `LostExactlyAtAbortedPoll`, and
  `AbortLosesADrainedMessage`;
* an id used by two calls at once makes `pendingToolCalls` forget one: `TracksExactlyWhenEndsAlone` and `RepeatedIdIsForgotten`;
* an answer to a dead primary settles another call of its successor: `NextRoutedExactly`, `RoutedExactlyWhenAllLand` and
  `AnswerToADeadPrimaryMisroutes`;
* a tool-call delta after its end is appended to the text "undefined": `ArgumentsFromDeltas` and `DeltaAfterEnd`;
* a selection that ends below a short transcript changes with appends: `SelectionSurvivesAppends`.

`AbortLosesADrainedMessage`, `RepeatedIdIsForgotten` and `SecondStartNests` exhibit runs of the automaton, which admits every
run of the loop and some besides; `SecondStartBreaks` is about the loop's own runs with a given host.

## Model

| member | source | states |
|---|---|---|
| `PendingQueue.PendingMessageQueue.Enqueue` | packages/agent/src/agent.ts:125-130 | A non-empty batch joins the back of the queue and the ledger; an empty one changes nothing |
| `PendingQueue.PendingMessageQueue.HasItems` | packages/agent/src/agent.ts:132-134 | True exactly when some batch ever enqueued is still queued |
| `PendingQueue.PendingMessageQueue.Drain` | packages/agent/src/agent.ts:136-149 | In mode all everything queued leaves and nothing is left; otherwise exactly the oldest batch leaves, when there is one; whole, flattened, and with no other fate changed |
| `PendingQueue.PendingMessageQueue.Clear` | packages/agent/src/agent.ts:151-153 | Every queued batch becomes a removed one; drained batches are untouched |
| `PendingQueue.PendingMessageQueue.RemoveWhere` | packages/agent/src/agent.ts:155-167 | Exactly the batches holding a match leave, whole and in order; the others stay in order |
| `PendingQueue.Conservation` | packages/agent/src/agent.ts:120-168 | For any ledger: enqueued batches = drained + removed or cleared + still queued, as multisets |
| `PendingQueue.FifoOrder` | packages/agent/src/agent.ts:136-149 | What is never removed leaves in the order in which it was enqueued |
| `PendingQueue.RemoveSelects` | packages/agent/src/agent.ts:155-167 | Removing keeps FIFO order, splits no batch, and accounts for each batch it takes |
| `PendingQueue.MatchingParts` | packages/agent/src/agent.ts:155-167 | A batch is taken out when some message of it matches and stays when none does, and the two parts make up the queue |
| `ProtocolTheorems.TranscriptFromEvents` | packages/agent/src/agent-loop.ts:336-371 | In every admitted run the loop's committed messages are exactly those of its message_end events, in order |
| `ProtocolTheorems.EveryCallAnswered` | packages/agent/src/agent-loop.ts:357-377 | Every turn that is followed by another has one result per tool call of its reply, in call order, before anything is injected |
| `ProtocolTheorems.AlwaysWhole` | packages/agent/src/agent-loop.ts:336-345 | In every state a finished turn has injected its batches whole, and the current one has its injected and pending messages make up its batches |
| `ProtocolTheorems.PolledOnceWholeInOrder` | packages/agent/src/agent-loop.ts:318-345 | A run that ends without abort or failure injects its prompts and every polled batch once, whole, in poll order, and they are in the transcript |
| `ProtocolTheorems.InjectedOrPending` | packages/agent/src/agent-loop.ts:324-345 | In every state of every run, what has been injected and what is pending are the prompts and the polled batches, in order |
| `ProtocolTheorems.LostExactlyWhenCutShort` | packages/agent/src/agent-loop.ts:324-345 | A run that stops or throws loses exactly the tail of the last input that is longer than the number of message_end events since; it loses nothing if and only if that many came |
| `ProtocolTheorems.LostExactlyAtAbortedPoll` | packages/agent/src/agent-loop.ts:406-414 | A run that ended without a throw has lost a message if and only if its agent_end follows a poll that returned something, with nothing but signals between; and then it was aborted |
| `AgentLifecycle.AbortLosesADrainedMessage` | packages/agent/src/agent-loop.ts:406-414 | The protocol admits a run whose signal fires right after a steering poll and which ends with the drained message lost |
| `ProtocolTheorems.AtMostOneBatch` | packages/agent/src/agent.ts:143-148 | When each poll of a run returns at most one batch, every turn after the first injects at most one |
| `AgentLifecycle.OneBatchBetweenReplies` | packages/agent/src/agent.ts:143-148 | In a run begun by prompt or continue whose two queues are in one-at-a-time mode and are kept in it, at most one queued batch comes between two replies |
| `ProtocolTheorems.PollDiscipline` | packages/agent/src/agent-loop.ts:406-454 | Follow-ups are polled only right after an empty steering poll and with no tool results owed a reply; continuations only right after an empty follow-up poll |
| `ProtocolTheorems.StopIsFinal` | packages/agent/src/agent-loop.ts:385-404 | After shouldStopAfterTurn or shouldStopBeforeTurn says yes no queue is polled and no turn starts: only agent_end follows |
| `ProtocolTheorems.NoTurnAfterAbort` | packages/agent/src/agent-loop.ts:328-334 | Once the signal has fired, no turn but the first starts |
| `ProtocolTheorems.EndHasAReason` | packages/agent/src/agent-loop.ts:350-460 | A run that ends without a throw or an abort ends right after a failed reply, a stop hook that said yes, or a continuation with nothing in it |
| `ProtocolTheorems.OwedExactly` | packages/agent/src/agent-loop.ts:357-366 | The results of a turn want another reply if and only if it made calls and not every tool_execution_end in it asked to stop |
| `ProtocolTheorems.FirstTurnBatches` | packages/agent/src/agent-loop.ts:318-345 | The first turn injects the prompts, then what the opening steering poll returned, and nothing else |
| `EventGrammar.TallyAgrees` | packages/agent/src/agent-loop.ts:261-268 | In a run that has not thrown, starts minus ends of runs, turns, messages and each call's executions are what the state of the run says |
| `EventGrammar.AgentBrackets` | packages/agent/src/agent.ts:504-548 | In every run, thrown ones included, agent_start comes once and agent_end at most once |
| `EventGrammar.AgentStartFirstEndLast` | packages/agent/src/agent.ts:529-548 | In every run agent_start is the first event and nothing follows agent_end |
| `AgentLifecycle.EventsAreNested` | packages/agent/src/agent-loop.ts:307-461 | When no stream read said start twice, every event up to a throw stands where it may: turns alternate, messages do not nest, updates fall inside an open message, tool updates and ends within that call |
| `AgentLifecycle.NestsExactlyOnSecondStart` | packages/agent/src/agent-loop.ts:537-542 | Message brackets of a run that did not throw never nest if and only if no stream the loop read said start twice |
| `AgentLifecycle.SecondStartBreaks` | packages/agent/src/agent-loop.ts:537-542 | With a host whose streams all start twice and that never aborts, every completed run nests its brackets and ends with a context that is not the transcript |
| `AgentLifecycle.SecondStartNests` | packages/agent/src/agent-loop.ts:537-542 | The shortest run that the protocol admits with nested brackets |
| `AgentLifecycle.RestartsAreExtraStarts` | packages/agent/src/agent-loop.ts:537-542 | No bracket was restarted if and only if no stream said start twice, which a host whose streams start once guarantees |
| `EventGrammar.ThrewIsFailure` | packages/agent/src/agent.ts:529-548 | A run has thrown if and only if a failure message is due or was sent |
| `AgentLifecycle.BracketsClosed` | packages/agent/src/agent-loop.ts:350-355 | A completed run has closed every bracket it opened, when no stream read said start twice |
| `AgentView.Agent.ProcessEvents` | packages/agent/src/agent.ts:565-602 | After any events the transcript is the one at the start followed by the message of every message_end seen |
| `AgentView.RebuildsTranscript` | packages/agent/src/agent.ts:575-578 | The transcript rebuilt from the events is the snapshot followed by what the loop committed, in every admitted run |
| `AgentView.RebuildsStreaming` | packages/agent/src/agent.ts:565-578 | The streaming message is the one whose bracket is open |
| `AgentView.RebuildsError` | packages/agent/src/agent.ts:594-598 | The error shown is that of the last turn_end whose message has one |
| `AgentView.PendingIsExecuting` | packages/agent/src/agent.ts:580-592 | Only ids of started and unended calls are pending |
| `AgentView.ExecutingIsPending` | packages/agent/src/agent.ts:580-592 | With distinct ids per reply, pendingToolCalls is exactly started minus ended |
| `AgentView.TracksExactlyWhenEndsAlone` | packages/agent/src/agent.ts:580-592 | pendingToolCalls is started minus ended all along if and only if every tool_execution_end ends the only execution of its id |
| `AgentView.NothingPendingAtTurnEnd` | packages/agent/src/agent.ts:594-598 | pendingToolCalls is empty at every turn_end |
| `AgentView.RepeatedIdIsForgotten` | packages/agent/src/agent.ts:587-592 | The protocol admits a run with one id used twice in a reply in which pendingToolCalls forgets a call that is still executing |
| `AgentLoop.AgentRun.constructor` | packages/agent/src/agent-loop.ts:255-259 | Context and newMessages start as the snapshot with the prompts and the prompts |
| `AgentLoop.AgentRun.Emit` | packages/agent/src/agent.ts:565-578 | An emitted event is one the protocol allows, and reaches the agent's state and any listener before the loop goes on |
| `AgentLoop.AgentRun.DeliverTurnEnd` | packages/agent/src/agent-loop.ts:373-373 | At every turn_end the agent's transcript is the snapshot plus newMessages, and equals the loop's context if and only if no stream read so far said start twice |
| `AgentLifecycle.AccountsAgree` | packages/agent/src/agent-loop.ts:255-259 | With a host whose streams start once, context, transcript and snapshot plus newMessages are equal at every turn_end of every run, aborted and thrown ones included |
| `AgentLifecycle.AccountsAgreeAtEnd` | packages/agent/src/agent-loop.ts:460-460 | And at agent_end of every run that completes |
| `AgentLoop.AgentRun.Race` | packages/agent/src/agent-loop.ts:48-92 | An awaited operation comes back unless the signal had fired before, or fires meanwhile and the operation does not settle first; meanwhile users may steer, queue, remove and abort |
| `AgentLoop.AgentRun.Perform` | packages/agent/src/agent.ts:285-328 | Each action changes its own queue, the modes or the signal and nothing else; an update shows exactly when its execution accepts updates and the signal has not fired |
| `AgentLoop.AgentRun.PrepareToolCall` | packages/agent/src/agent-loop.ts:795-848 | Prepared only when the tool is known, its arguments are validated and the hook lets the call pass; otherwise an error with the text of an unknown name, of the validation, of the hook, of its block, or of the abort |
| `ToolTasks.VerdictIsTheHosts` | packages/agent/src/agent-loop.ts:803-847 | For hosts that look at the call alone: unknown tool, refused arguments, failing hook and blocking hook each give an error with that text, and everything else is prepared with the validated arguments |
| `ToolTasks.BlockedNeverRuns` | packages/agent/src/agent-loop.ts:827-833 | In any batch, a call that nothing clears is never waiting, running or executed, and its result is an error |
| `ToolTasks.FinalIsTheHosts` | packages/agent/src/agent-loop.ts:850-952 | What a cleared call comes to is what its tool returned or its error, with each field that the hook replaced |
| `AgentLifecycle.OnlyClearedCallsSucceed` | packages/agent/src/agent-loop.ts:795-848 | In every run, a tool_execution_end without an error belongs to a call of the current reply whose tool is known, whose arguments were validated and which the hook let pass |
| `AgentLifecycle.BlockedToolsOnlyFail` | packages/agent/src/agent-loop.ts:827-833 | In every run with a hook that lets no call of a tool pass, every tool_execution_end of that tool is an error |
| `AgentLoop.AgentRun.BeginExecution` | packages/agent/src/agent-loop.ts:850-861 | An execution begins accepting updates, or is found aborted and ends at once |
| `AgentLoop.AgentRun.SettleExecution` | packages/agent/src/agent-loop.ts:879-903 | Updates are accepted no more; the outcome is what the tool returned, its error, or the abort, and always the abort when the signal had fired before |
| `AgentLoop.AgentRun.ReviewExecution` | packages/agent/src/agent-loop.ts:906-952 | The outcome is the executed one with each field that one answer of the hook replaces, or the error of the hook or of the abort |
| `AgentLoop.AgentRun.StartCall` | packages/agent/src/agent-loop.ts:641-661 | tool_execution_start comes first; a call refused in preparation ends at once |
| `AgentLoop.AgentRun.StepTask` | packages/agent/src/agent-loop.ts:720-732 | One execution takes one step and no other changes |
| `AgentLoop.AgentRun.EmitResult` | packages/agent/src/agent-loop.ts:971-986 | The result message carries what the call's tool_execution_end announced |
| `AgentLoop.AgentRun.ExecuteToolCallsSequential` | packages/agent/src/agent-loop.ts:630-688 | One result per executed call in source order; unless aborted, all of them, with the results and terminate flag the tools give |
| `AgentLoop.AgentRun.ExecuteToolCallsParallel` | packages/agent/src/agent-loop.ts:690-749 | For every interleaving: exactly one result per call in source order; unless aborted, the same results and terminate flag as in sequence |
| `AgentLoop.AgentRun.Interleave` | packages/agent/src/agent-loop.ts:735-737 | Whatever the schedule, every execution finishes |
| `AgentLoop.AgentRun.ExecuteToolCalls` | packages/agent/src/agent-loop.ts:608-628 | The same promise whichever mode is chosen; without a reason to run one call at a time there is one result per call even when aborted; no result without an error belongs to a call that was not cleared |
| `AgentLifecycle.SequentialCallsNeverOverlap` | packages/agent/src/agent-loop.ts:608-628 | In every state of every run, when the configuration or the first tool of some call's name asks for one call at a time, at most one call is executing |
| `AgentLifecycle.SequentialCallsStopAtAbort` | packages/agent/src/agent-loop.ts:641-643 | A tool_execution_start after the signal has fired belongs to a reply whose calls may run in parallel |
| `ToolTasks.ShouldTerminate` | packages/agent/src/agent-loop.ts:777-779 | The batch stops the loop if and only if it is not empty and every outcome asked for that |
| `ToolTasks.CourseGivesResults` | packages/agent/src/agent-loop.ts:684-687 | Undisturbed executions end in the results and terminate flag that are a function of the calls alone |
| `ToolTasks.SameBatch` | packages/agent/src/agent-loop.ts:971-981 | Batches with the tools' own results differ in timestamps only |
| `ToolTasks.StepLowersRank` | packages/agent/src/agent-loop.ts:735-737 | Each step brings a batch closer to its end |
| `AgentLoop.AgentRun.FinishReply` | packages/agent/src/agent-loop.ts:574-583 | The final message takes the place of the partial one or is added, and is committed once |
| `AgentLoop.AgentRun.StreamAssistantResponse` | packages/agent/src/agent-loop.ts:467-603 | For every stream and every moment of abort: the reply is committed once, in context and events alike, and is what the provider resolves to, or in an aborted run possibly the terminal event's message or the last partial one marked as aborted; it throws only after a failure of the host |
| `AgentLifecycle.RepliesAreTheProviders` | packages/agent/src/agent-loop.ts:467-603 | In every run the reply of turn i is accounted for by what was read of the i-th stream; when the run was not aborted every stream was read to its end and every reply is what the provider resolved to |
| `AgentLoop.AgentRun.ReadEvent` | packages/agent/src/agent-loop.ts:536-562 | A start or an update becomes the last message of the context and the one shown; an update before any start is ignored |
| `ToolHost.LastPartialIsTheLast` | packages/agent/src/agent-loop.ts:536-562 | The partial message that events leave is that of the last start or update, and there is none before the first start |
| `AgentLifecycle.UpdatesAreTheProviders` | packages/agent/src/agent-loop.ts:553-561 | Every message_update of every run carries a partial message that the provider gave |
| `AgentLoop.AgentRun.EndStream` | packages/agent/src/agent-loop.ts:564-583 | After a terminal event the reply is the provider's result, or with the signal fired the event's own message or the last partial marked as aborted; a throw only after a failure of the host |
| `AgentLoop.AgentRun.ReadStream` | packages/agent/src/agent-loop.ts:526-596 | What is read of a stream is a prefix of it, all up to its end unless the signal has fired |
| `AgentLoop.AgentRun.ResultAfter` | packages/agent/src/agent-loop.ts:564-573 | The message that the provider resolves to; the terminal event's own only when the signal has fired; a throw only for a rejection that does not count as the abort |
| `AgentLoop.AgentRun.ResultAtEnd` | packages/agent/src/agent-loop.ts:588-601 | The same for a stream without a terminal event, where the partial message marked as aborted stands in |
| `AgentLoop.AgentRun.InjectMessage` | packages/agent/src/agent-loop.ts:338-343 | One message gets its bracket and enters both lists |
| `AgentLoop.AgentRun.InjectPending` | packages/agent/src/agent-loop.ts:337-345 | All pending messages are injected in order, and both lists have all that is committed |
| `AgentLoop.AgentRun.PollQueue` | packages/agent/src/agent-loop.ts:167-179 | A poll neither aborted nor skipped takes everything queued in mode all and the oldest batch otherwise; an aborted one and a skipped first steering poll take nothing |
| `AgentLoop.AgentRun.DrainQueue` | packages/agent/src/agent.ts:136-149 | What a drain records as polled has left the queue: all of it in mode all, else the oldest batch |
| `AgentLoop.AgentRun.AskStopAfter` | packages/agent/src/agent-loop.ts:385-404 | The host's yes or the abort ends the run, its no goes on, its error throws |
| `AgentLoop.AgentRun.AfterTurn` | packages/agent/src/agent-loop.ts:385-420 | Stop, steering, stop, in this order; with messages or owed results the next turn is due |
| `AgentLoop.AgentRun.WhenIdle` | packages/agent/src/agent-loop.ts:422-454 | Stop, follow-ups, stop, continuation, in this order |
| `AgentLoop.AgentRun.AskContinuing` | packages/agent/src/agent-loop.ts:436-451 | The host's continuation becomes pending; none, or the abort, ends the run; its error throws |
| `AgentLifecycle.EndsBecauseTheHostSaysSo` | packages/agent/src/agent-loop.ts:350-460 | Every run that ended without an abort or a throw ended because its last reply failed, a hook of the host said stop, or the host gave nothing to continue with |
| `AgentLoop.AgentRun.ActOn` | packages/agent/src/agent-loop.ts:357-371 | The results enter both lists; the loop owes a reply unless the batch terminated |
| `AgentLoop.AgentRun.RunTurn` | packages/agent/src/agent-loop.ts:328-420 | One turn: inject, stream, act, turn_end, questions; once the signal has fired it throws at once with nothing done; it throws only then or after a failure of the host |
| `AgentLoop.AgentRun.RunLoop` | packages/agent/src/agent-loop.ts:307-461 | Every run keeps to the protocol; one that completes has newMessages equal to the committed messages; one throws only because of the signal or a failure of the host; one is cut off only after as many turns as it was given |
| `AgentLoop.AgentRun.RunAgentLoop` | packages/agent/src/agent-loop.ts:247-270 | From a snapshot and prompts: complete, throw, or go on after the given number of turns, all within the protocol |
| `AgentLoop.AgentRun.HandleRunFailure` | packages/agent/src/agent.ts:529-548 | A thrown run is reported by one empty message, aborted if the signal had fired and failed otherwise, with the error given, and by agent_end |
| `AgentLifecycle.RunWithLifecycle` | packages/agent/src/agent.ts:504-527 | A finished run leaves snapshot + committed messages, no pending call, no open message, each queue's drains equal to its polls, and the accounts of every turn_end; a completed one the agreement at agent_end; a thrown one had the signal or a failure of the host as its cause |
| `AgentLifecycle.Prompt` | packages/agent/src/agent.ts:353-361 | Refused exactly while a run is active; otherwise a run with these prompts, which never throws when the host never fails and nobody aborts |
| `AgentLifecycle.Continue` | packages/agent/src/agent.ts:364-414 | Queued steering first: one drain becomes the prompts and nothing else comes before the first reply; then follow-ups; then the transcript; refused exactly when none applies |
| `AgentLifecycle.TaggedParts` | packages/agent/src/agent.ts:492-500 | All poll answers form one sequence from which each queue's answers can be picked in order |
| `AgentLifecycle.DrainedReachesTranscript` | packages/agent/src/agent.ts:471-502 | After a run neither aborted nor thrown, everything drained from each queue is in the agent's transcript once, whole and in FIFO order |
| `Runtime.PrefixedInjective` | extensions/open-claude-in-chrome/host/tool-runtime.js:294-295 | c<client>_<id> determines client and id |
| `Runtime.PrefixedIsNotDecimal` | extensions/open-claude-in-chrome/host/tool-runtime.js:294-295 | No rewritten id is a decimal id |
| `Runtime.PrefixedNotIssued` | extensions/open-claude-in-chrome/host/tool-runtime.js:294-295 | No rewritten id is one that the primary has issued itself |
| `Numerals.ValueOfDecimal` | extensions/open-claude-in-chrome/host/tool-runtime.js:373-373 | A decimal id determines its number |
| `Runtime.HandleKeeps` | extensions/open-claude-in-chrome/host/tool-runtime.js:257-273 | Every handler keeps: pending exactly when unsettled and timed, no id reused, no promise settled twice |
| `Runtime.AlwaysAccounted` | extensions/open-claude-in-chrome/host/tool-runtime.js:359-450 | So does every sequence of inputs |
| `Runtime.NoCallHangs` | extensions/open-claude-in-chrome/host/tool-runtime.js:371-378 | An unsettled call has an armed timer, and once it fires the call is settled for good |
| `Runtime.SendKeeps` | extensions/open-claude-in-chrome/host/tool-runtime.js:371-450 | A new call is pending and timed at once, written or waiting |
| `Runtime.WaitOverKeeps` | extensions/open-claude-in-chrome/host/tool-runtime.js:387-408 | The end of a cold-start grace settles the call or leaves it pending and timed |
| `Runtime.SendsExactlyWhenConnected` | extensions/open-claude-in-chrome/host/tool-runtime.js:380-450 | A new call is written at once if and only if the connection of its process's role is there |
| `Runtime.WritesNeedConnections` | extensions/open-claude-in-chrome/host/tool-runtime.js:244-450 | Whatever any handler writes goes to a connection that is there |
| `RuntimeSystem.EveryHostWriteHadAHost` | extensions/open-claude-in-chrome/host/tool-runtime.js:380-414 | Over all runs, every tool_request line was written by a process whose native host was attached and alive at that step |
| `RuntimeSystem.AlwaysOnce` | extensions/open-claude-in-chrome/host/tool-runtime.js:371-450 | In every reachable state of any number of processes, a call waits to be written, or is on the way up, or was written to a host: never two of them |
| `RuntimeSystem.AtMostOneHostWrite` | extensions/open-claude-in-chrome/host/tool-runtime.js:257-273 | Every call causes at most one tool_request write to a native host, over all runs |
| `RuntimeSystem.NeverForASettledCall` | extensions/open-claude-in-chrome/host/tool-runtime.js:388-394 | A process writes an own request only while its promise is pending |
| `RuntimeRouting.HandleOk` | extensions/open-claude-in-chrome/host/tool-runtime.js:347-369 | Every handler keeps routes to connected clients and writes each answer to the client that asked, under the id it used |
| `RuntimeRouting.FromHostExactly` | extensions/open-claude-in-chrome/host/tool-runtime.js:347-369 | An answer from the host settles and reaches the call it was made for if and only if it answers a request this primary handed out, or nobody waits under its id |
| `RuntimeRouting.NextRoutedExactly` | extensions/open-claude-in-chrome/host/tool-runtime.js:347-369 | A step of the system keeps the routing right if and only if it is no answer to a process that does not expect it |
| `RuntimeRouting.RoutedExactlyWhenAllLand` | extensions/open-claude-in-chrome/host/tool-runtime.js:347-369 | A run, with answers to any process at any time, is routed right all along if and only if every answer lands where it is expected |
| `RuntimeRouting.AlwaysRouted` | extensions/open-claude-in-chrome/host/tool-runtime.js:276-331 | Every run in which answers come back to the process that wrote the request is routed right |
| `RuntimeRouting.AnswersReachTheirCaller` | extensions/open-claude-in-chrome/host/tool-runtime.js:347-369 | In such a run a call settled by an answer is settled by the answer made for it, under its own id |
| `RuntimeRouting.AnswerToADeadPrimaryMisroutes` | extensions/open-claude-in-chrome/host/tool-runtime.js:373-373 | An answer owed to a dead primary settles a different call of the next one |
| `ToolRuntime.ToolRuntime.SettledForGood` | extensions/open-claude-in-chrome/host/tool-runtime.js:359-450 | Whatever handlers run, a promise that is settled stays settled as it was |
| `ToolRuntime.ToolRuntime.NoneHangs` | extensions/open-claude-in-chrome/host/tool-runtime.js:371-378 | Every issued call is settled, or pending with its timer armed |
| `ToolRuntime.ToolRuntime.SendToExtension` | extensions/open-claude-in-chrome/host/tool-runtime.js:371-450 | A primary writes to its native host, and a client to its primary, exactly when that connection is there and alive; otherwise nothing is written and the grace of its kind begins; the new call is pending and timed |
| `ToolRuntime.ToolRuntime.GraceEnds` | extensions/open-claude-in-chrome/host/tool-runtime.js:387-442 | Written if still pending, not yet written, and the connection of the role it has by now is there; otherwise rejected; nothing at all for a call already settled |
| `ToolRuntime.ToolRuntime.TimerFires` | extensions/open-claude-in-chrome/host/tool-runtime.js:374-377 | A pending promise is settled as timed out, and no other is touched |
| `ToolRuntime.ToolRuntime.SetupNativeHostConnection` | extensions/open-claude-in-chrome/host/tool-runtime.js:222-236 | Accepted exactly when no live host is attached |
| `ToolRuntime.ToolRuntime.NativeHostCloses` | extensions/open-claude-in-chrome/host/tool-runtime.js:257-273 | Every pending call, and no other, is rejected as dropped, and the pending table is empty |
| `ToolRuntime.ToolRuntime.RejectAll` | extensions/open-claude-in-chrome/host/tool-runtime.js:268-272 | One by one, every pending promise is rejected and its timer cleared |
| `ToolRuntime.ToolRuntime.HandleResponse` | extensions/open-claude-in-chrome/host/tool-runtime.js:347-369 | A routed answer goes to its client under the client's id if that is still connected; another settles its pending call; a late one changes nothing |
| `ToolRuntime.ToolRuntime.ProcessClientData` | extensions/open-claude-in-chrome/host/tool-runtime.js:285-314 | Forwarded exactly when the host is up, under an id no own call waits for; there is a route exactly then, and no other route changes |
| `ToolRuntime.ToolRuntime.ClientCloses` | extensions/open-claude-in-chrome/host/tool-runtime.js:324-330 | The client and exactly its routes go |
| `ToolRuntime.ToolRuntime.PrimarySays` | extensions/open-claude-in-chrome/host/tool-runtime.js:486-495 | An answer settles its call, a late one changes nothing |
| `ToolRuntime.ToolRuntime.PrimaryCloses` | extensions/open-claude-in-chrome/host/tool-runtime.js:504-510 | Every pending call is rejected |
| `ToolRuntime.ToolRuntime.PromoteSelf` | extensions/open-claude-in-chrome/host/tool-runtime.js:516-534 | A client without a primary becomes the primary; no call is touched, and a waiting one goes to the native host when its grace ends with a host up |
| `ToolRuntime.ToolRuntime.ShutDownNow` | extensions/open-claude-in-chrome/host/tool-runtime.js:645-656 | Every pending call is rejected |
| `Framing.LinesConserve` | extensions/open-claude-in-chrome/host/native-host.js:87-108 | Complete lines and remainder put back together are the bytes received |
| `Framing.LinesOfJoin` | extensions/open-claude-in-chrome/host/tool-runtime.js:244-251 | Reading undoes writing, for lines without a separator inside |
| `Framing.LinesAppend` | extensions/open-claude-in-chrome/host/native-host.js:89-94 | Lines and remainder do not depend on where the stream is cut |
| `Framing.LineReader.OnData` | extensions/open-claude-in-chrome/host/tool-runtime.js:318-321 | After any chunks, what was delivered and what is buffered are the lines and the remainder of the whole stream |
| `Classification.AcceptedSocket.OnData` | extensions/open-claude-in-chrome/host/tool-runtime.js:194-219 | However the bytes come, the handler sees every line after the classification decision is made, the hello excepted, and loses or repeats no byte |
| `Classification.AcceptedSocket.OnTimeout` | extensions/open-claude-in-chrome/host/tool-runtime.js:185-190 | Without a first line in time the peer becomes the native host and keeps its bytes |
| `Classification.AcceptedSocket.Handle` | extensions/open-claude-in-chrome/host/tool-runtime.js:236-251 | All complete lines of the handed-over buffer are handled |
| `NativeFraming.HeaderRoundTrip` | extensions/open-claude-in-chrome/host/native-host.js:52-53 | The length header reads back as the length |
| `NativeFraming.LowByteFirst` | extensions/open-claude-in-chrome/host/native-host.js:52-53 | The low byte of a length comes first |
| `NativeFraming.HeaderOfBytes` | extensions/open-claude-in-chrome/host/native-host.js:36-36 | Any four bytes are the header of the length they read as |
| `NativeFraming.FramesAppend` | extensions/open-claude-in-chrome/host/native-host.js:283-286 | Frames and remainder do not depend on where the stream is cut |
| `NativeFraming.FramesConserve` | extensions/open-claude-in-chrome/host/native-host.js:32-47 | Consumed frames re-encoded and remainder are the bytes received |
| `NativeFraming.FramesOfEncode` | extensions/open-claude-in-chrome/host/native-host.js:49-55 | Decoding undoes encoding, whatever follows |
| `NativeFraming.ReadNativeMessage` | extensions/open-claude-in-chrome/host/native-host.js:32-47 | The messages are those of the whole frames that parse; the remainder is what follows the last whole frame |
| `NativeFraming.WriteNativeMessage` | extensions/open-claude-in-chrome/host/native-host.js:49-55 | Refused exactly when the length does not fit 32 bits; otherwise it reads back as this one message |
| `NativeFraming.StdinReader.OnData` | extensions/open-claude-in-chrome/host/native-host.js:283-286 | After any chunks, delivered messages and buffer are those of the whole stream |
| `ProxyStream.FoldRebuilds` | packages/agent/src/proxy.ts:238-366 | A stream is accepted if and only if it is well formed, and then every slot is determined by what the server said since its last start |
| `ProxyStream.StatusIsTheLastEnds` | packages/agent/src/proxy.ts:350-359 | Stop reason and usage are those of the last event that ended the message, the error is that of the last error event |
| `ProxyStream.OnlyItsIndex` | packages/agent/src/proxy.ts:246-348 | No event changes another index |
| `ProxyStream.ArgumentsFromDeltas` | packages/agent/src/proxy.ts:320-348 | Tool arguments come from the concatenated deltas if and only if none followed the end, or those before it spelled "undefined" |
| `ProxyStream.DeltaAfterEnd` | packages/agent/src/proxy.ts:323-339 | A stream with a delta after toolcall_end parses "undefined" and what follows |
| `ProxyStream.ConsumeIsFold` | packages/agent/src/proxy.ts:195-206 | Reading lines to the end is folding the events in their data lines |
| `ProxyStream.ReadsToTheEndExactly` | packages/agent/src/proxy.ts:195-224 | Some lines are read to the end if and only if none is malformed and every event finds its block |
| `ProxyStream.ProxyMessage.ProcessProxyEvent` | packages/agent/src/proxy.ts:238-366 | After any accepted events: refused exactly when the last start at that index is of another kind or missing, with nothing changed; otherwise every slot is what was said, and no other index changes |
| `ProxyStream.ProxyMessage.StreamProxy` | packages/agent/src/proxy.ts:183-224 | The message does not depend on the chunks: it is the fold of the events in the terminated lines, read to the end if and only if no line is malformed and the events are well formed; otherwise it is marked with the error |
| `Painting.Painter.Paint` | packages/tui/src/fullscreen.ts:642-675 | The screen shows the clipped bottom rows of the frame, and at an unchanged size rows that did not change are not rewritten |
| `Painting.RepaintShowsTheLastLines` | packages/tui/src/fullscreen.ts:642-660 | A frame that fits is shown from the top; of one too tall the last lines are shown |
| `Painting.Painter.Reset` | packages/tui/src/fullscreen.ts:678-680 | Only what is remembered is dropped; the screen stays |
| `Viewport.VisibleDock` | packages/tui/src/fullscreen.ts:14-17 | The longest bottom part of the dock that leaves the transcript at least three rows, or all there are |
| `Viewport.OrderedIsSymmetric` | packages/tui/src/fullscreen.ts:135-141 | Swapping anchor and head changes nothing |
| `Viewport.OrderedSorts` | packages/tui/src/fullscreen.ts:135-141 | There is a selection if and only if two different places are given, and it runs from the earlier to the later |
| `Viewport.SpanCoversTheSelection` | packages/tui/src/fullscreen.ts:144-150 | A column of a line is in its span if and only if it lies from the start of the selection up to its end |
| `Viewport.PieceAt` | packages/tui/src/fullscreen.ts:541-557 | Each line gives its own part: the first from its start, the last up to its end, the others whole |
| `Viewport.PiecesAreTheLines` | packages/tui/src/fullscreen.ts:541-557 | The parts can be read back from the text |
| `Viewport.FullWindowStays` | packages/tui/src/fullscreen.ts:124-131 | A full window shows the same rows after any append |
| `Viewport.SelectionSurvivesAppends` | packages/tui/src/fullscreen.ts:541-557 | Appends leave a selection's lines alone if and only if it ends inside the transcript |
| `Viewport.TextSurvivesAppends` | packages/tui/src/fullscreen.ts:541-557 | Then its text is unchanged too |
| `Viewport.FullscreenViewport.ComposeFrame` | packages/tui/src/fullscreen.ts:99-133 | Exactly height lines, window on top and dock below; scrollTop within bounds; a paused full window does not move |
| `Viewport.FullscreenViewport.DrawWindow` | packages/tui/src/fullscreen.ts:124-131 | Each row is its transcript line, highlighted where selected, padded below |
| `Viewport.FullscreenViewport.ScrollBy` | packages/tui/src/fullscreen.ts:683-687 | The position moves by delta within bounds and follows exactly at the bottom |
| `Viewport.FullscreenViewport.ScrollToTop` | packages/tui/src/fullscreen.ts:689-692 | At the top; following only if all fits |
| `Viewport.FullscreenViewport.ScrollToBottom` | packages/tui/src/fullscreen.ts:694-697 | At the bottom and following |
| `Viewport.FullscreenViewport.LineForRow` | packages/tui/src/fullscreen.ts:379-387 | A screen row maps to a line inside the window |
| `Viewport.FullscreenViewport.RowsMapToWhatIsDrawn` | packages/tui/src/fullscreen.ts:366-387 | A click maps to a line if and only if it is on a visible row of the window, and then to the line drawn there; clamped, to the nearest visible one |
| `Viewport.FullscreenViewport.BeginSelection` | packages/tui/src/fullscreen.ts:169-188 | Starts where the row maps, or clears the selection |
| `Viewport.FullscreenViewport.RowsInOrder` | packages/tui/src/fullscreen.ts:379-387 | Lower rows never map to earlier lines, and clamping changes nothing where a click would hit |
| `Viewport.FullscreenViewport.ExtendSelection` | packages/tui/src/fullscreen.ts:190-195 | The head stays in the window: on the line a click would hit, and otherwise beyond every such line on the pointer's side |
| `Viewport.FullscreenViewport.EndSelection` | packages/tui/src/fullscreen.ts:232-245 | Returns the text of the ordered selection and clears it |
| `NetworkIndex.RecordedKeeps` | extensions/open-claude-in-chrome/extension/background.js:548-576 | After any event: one record per id, at most 1000, and the id is there |
| `NetworkIndex.EvictedStartsAfresh` | extensions/open-claude-in-chrome/extension/background.js:566-574 | The oldest record goes, and its id starts a fresh record when it comes again |
| `NetworkIndex.ResponseJoinsItsRequest` | extensions/open-claude-in-chrome/extension/background.js:519-541 | A request and its response make one record with the request's address and verb and the response's status |
| `NetworkIndex.LookupIsSearch` | extensions/open-claude-in-chrome/extension/background.js:556-560 | Looking an id up in the map is a linear search of the list |
| `NetworkIndex.MatchingPlaces` | extensions/open-claude-in-chrome/extension/background.js:1975-1980 | What is listed are exactly the matching records, oldest first |
| `NetworkIndex.LastOfIsTheNewest` | extensions/open-claude-in-chrome/extension/background.js:1981-1981 | The newest are kept: as many as the limit says, or all there are |
| `NetworkIndex.Evict` | extensions/open-claude-in-chrome/extension/background.js:566-574 | The oldest records leave the list and exactly their lookups leave the map |
| `NetworkIndex.NetworkRecords.TabsShareNoRecord` | extensions/open-claude-in-chrome/extension/background.js:548-554 | No record is in two tabs |
| `NetworkIndex.NetworkRecords.RecordNetworkEvent` | extensions/open-claude-in-chrome/extension/background.js:548-576 | List and map of every tab keep the same records; the tab shows the event recorded, in place when the id is known; other tabs keep theirs |
| `NetworkIndex.NetworkRecords.ReadNetworkRequests` | extensions/open-claude-in-chrome/extension/background.js:1975-1986 | The last matches in order; with clear, list and map of that tab start empty |
| `NetworkIndex.NetworkRecords.OnRemoved` | extensions/open-claude-in-chrome/extension/background.js:466-467 | A closed tab leaves neither list nor map |
| `Migration.MoveConserves` | packages/coding-agent/src/migrations.ts:199-203 | A rename to a free name keeps the multiset of file contents |
| `Migration.CandidatesDiffer` | packages/coding-agent/src/migrations.ts:232-238 | Numbered names are pairwise different |
| `Migration.LegacyNames` | packages/coding-agent/src/migrations.ts:153-153 | A name is legacy if and only if it is something without line breaks between two pairs of dashes |
| `Migration.NumberedNames` | packages/coding-agent/src/migrations.ts:230-238 | A numbered name is stem, dash, number and extension |
| `Migration.SessionRoot.UniqueName` | packages/coding-agent/src/migrations.ts:230-238 | The search ends and gives the first free numbered name |
| `Migration.SessionRoot.SameContent` | packages/coding-agent/src/migrations.ts:219-228 | Same size and same decoded text; unreadable counts as different |
| `Migration.SessionRoot.MigrateFile` | packages/coding-agent/src/migrations.ts:186-204 | A session moves to its own name, or the first free numbered one when another session has it; nothing is overwritten |
| `Migration.SessionRoot.MigrateDir` | packages/coding-agent/src/migrations.ts:174-215 | One directory: contents conserved whatever fails, and the directory goes only when empty |
| `Migration.SessionRoot.Migrate` | packages/coding-agent/src/migrations.ts:163-217 | For any files and any failures: contents conserved, nothing overwritten, only legacy sessions moved; without failures every session can be found in the root |
| `Migration.SessionRoot.MigrateTwice` | packages/coding-agent/src/migrations.ts:163-217 | If nothing fails a second run changes nothing |
| `Fuzzy.GreedyIsLeftmost` | packages/tui/src/fuzzy.ts:30-57 | No embedding of the query lies to the left of the greedy one |
| `Fuzzy.GreedyIsComplete` | packages/tui/src/fuzzy.ts:30-61 | The greedy scan finds the whole query if and only if it is a subsequence of the text |
| `Fuzzy.MatchQuery` | packages/tui/src/fuzzy.ts:16-68 | Verdict and score of the leftmost positions |
| `Fuzzy.RunIsAdjacency` | packages/tui/src/fuzzy.ts:34-38 | A run counts the adjacent positions at the end |
| `Fuzzy.LastPositionAdds` | packages/tui/src/fuzzy.ts:31-54 | What each position adds: five off per position of its run, two per character skipped, ten off at a word start, a tenth per place |
| `Fuzzy.NothingBeatsTheStart` | packages/tui/src/fuzzy.ts:31-54 | No embedding of a query in any text scores better than the query at the start of itself |
| `Fuzzy.ExactMatchIsBest` | packages/tui/src/fuzzy.ts:63-65 | The text equal to the query scores better than any other text by at least a hundred |
| `Fuzzy.SwapsTheTwoForms` | packages/tui/src/fuzzy.ts:75-81 | A swap exists if and only if the query is letters then digits or digits then letters, and swapping twice gives the query back |
| `Fuzzy.MatchesSubsequences` | packages/tui/src/fuzzy.ts:70-92 | A match if and only if the query or its swap is a subsequence |
| `Fuzzy.ScoreOfTheFormFound` | packages/tui/src/fuzzy.ts:70-92 | The query decides the score where it occurs; its swap counts only where it does not, and costs five more |
| `Fuzzy.SwapMatchesToo` | packages/tui/src/fuzzy.ts:75-92 | A query and its swap match the same texts |
| `Fuzzy.FuzzyMatch` | packages/tui/src/fuzzy.ts:12-93 | The verdict on the lower-cased query, then on its swap with a penalty |
| `Fuzzy.TokensAreTheWords` | packages/tui/src/fuzzy.ts:106-109 | Tokens are non-empty, hold no space, and together hold every other character in order |
| `Fuzzy.OverallMatchesAll` | packages/tui/src/fuzzy.ts:119-130 | An item matches if and only if every token does |
| `Fuzzy.OverallAddsUp` | packages/tui/src/fuzzy.ts:117-130 | The score of several tokens is the sum of theirs |
| `Fuzzy.HitsAreTheWanted` | packages/tui/src/fuzzy.ts:117-135 | The items kept are exactly those in whose text every token, or its swap, is a subsequence |
| `Fuzzy.SortByScore` | packages/tui/src/fuzzy.ts:137-137 | Best first, and ties keep their order |
| `Fuzzy.OneStableSort` | packages/tui/src/fuzzy.ts:137-137 | There is only one such order |
| `Fuzzy.FuzzyFilterScored` | packages/tui/src/fuzzy.ts:105-139 | The matching items with their scores, stably sorted; all items with score 0 for a blank query |
| `Fuzzy.FuzzyFilter` | packages/tui/src/fuzzy.ts:145-150 | The same items without scores; a blank query changes nothing |

## Left out

- AgentLoop.AgentRun.RunLoop: stops after `budget` turns, for every budget, because a loop without end cannot be written; a run cut off there has run that many turns and kept every invariant, but nothing is said about infinite runs as such.
- AgentLoop.AgentRun.RunAgentLoop: the same.
- AgentLifecycle.AbortLosesADrainedMessage: is a run of the automaton and names no host that makes the loop take it.
- AgentView.RepeatedIdIsForgotten: is a run of the automaton and names no host that makes the loop take it.
- RuntimeRouting.AlwaysRouted: assumes that answers come back to the process that wrote the request; with answers to other processes the property holds exactly under the condition of `RoutedExactlyWhenAllLand`, and `AnswerToADeadPrimaryMisroutes` breaks it.
- RuntimeSystem.AtMostOneHostWrite: takes connecting to a primary and sending the hello as one step, because a request written while connecting can precede the hello line.
- Migration.SessionRoot.Migrate: sees no change of the directory by others while it runs, and no dangling link (which counts as absent and would be replaced).
- Fuzzy.MatchQuery: scores are exact reals, so floating-point rounding of the tenth per position is not modelled.
- Classification.AcceptedSocket.OnData: says nothing about a second native host, whose socket is closed instead of handled.
- Listeners that throw, `subscribe`, `waitForIdle` and `reset` of the agent.
- A `shouldStopBeforeTurn` hook that throws, operations that never settle (a run is then a prefix of one modelled here), and a host that replaces `state.messages` in mid-run.
- The text of a thrown error, diagnostics, usage and `state.errorMessage` as set by `handleRunFailure`.
- What `transformContext`, `convertToLlm`, `getApiKey` and the request to the provider contain: they are four awaited steps that may fail or be aborted.
- Changes that `beforeToolCall` makes to the arguments in place, and the content of partial tool results.
- Parallel tools interleave at the steps start, settle, review and end; what tools do to each other outside these is theirs.
- JSON, UTF-8 and `trim`: decoding is a parameter wherever a line or frame is read.
- Recording events, heartbeats, the pidfile, the election of a primary beyond its outcome, and the client-side buffer that is not reset when a client reconnects.
- Prompt failure of requests that a client had forwarded when the host drops: they wait for the client's own timer, and the model shows no more.
- `fetch` errors and aborts of the proxy stream, and the events it re-emits; the text of a JSON error is a parameter.
- Table and frame selections, auto-scroll while selecting, hyperlinks, highlighting and measuring of text (parameters), cursor placement and escape sequences.
- Browser debugging, console messages and tab groups around the network records; a negative `limit`.
- What makes a file a session (a parameter), other migrations, and the real disk.
- Unicode case folding (a parameter) and the library's sort algorithm, for which any stable sort stands.
- Key parsing, autocomplete, the daemon, model catalogues, pricing and the kill ring, which would add finite tables or easy claims.
