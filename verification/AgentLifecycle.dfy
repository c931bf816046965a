/** The public entry points of the agent: `prompt`, `continue`, and the lifecycle around a run. */
module AgentLifecycle {
  import opened Messages
  import opened Protocol
  import opened ProtocolTheorems
  import opened PendingQueue
  import opened AgentView
  import opened ToolHost
  import opened AgentLoop
  import EventGrammar

  datatype Attempt = Refused(reason: string) | Ran(run: AgentRun, ending: Ending)

  ghost predicate OneAtATimeQueues(agent: Agent)
    reads agent, agent.steeringQueue, agent.followUpQueue
  {
    agent.steeringQueue.mode == QueueMode.OneAtATime && agent.followUpQueue.mode == QueueMode.OneAtATime
  }

  /** What is on record of a run at any time, finished or not. */
  ghost predicate Recorded(run: AgentRun)
    reads run, run.log
  {
    && Accepted(run.prompts, run.trace) && run.st == State(run.prompts, run.trace) && run.st.aborted == run.aborted
    && run.Accountable()
    && |run.turnEnds| == TurnEnds(run.trace) && (forall i :: 0 <= i < |run.turnEnds| ==> run.Agree(run.turnEnds[i]))
    && (NeverAborts(run.host) ==> !run.aborted)
    && (run.single ==> SmallPolls(run.trace))
    && FollowsHost(run.host, run.prompts, run.trace)
  }

  /** At agent_end of a run that completed: the loop's account, the new messages and the agent's transcript. */
  ghost predicate EndsInAgreement(agent: Agent, run: AgentRun)
    reads agent, run, run.log
  {
    && run.newMessages == Committed(run.st)
    && agent.messages == run.before.messages + run.newMessages
    && (run.messages == agent.messages <==> SingleStarts(run.log.read))
    && agent.errorMessage == LastError(run.trace, None)
  }

  /** What a run leaves behind once it is over, whether it completed or threw. */
  ghost predicate Over(agent: Agent, run: AgentRun)
    reads agent, agent.steeringQueue, agent.followUpQueue, run, run.log
  {
    && agent.Idle() && !agent.activeRun
    && Recorded(run) && run.st.stage == Ended
    && agent.messages == run.before.messages + Committed(run.st)
    && Having(agent.steeringQueue.log, Drained) == run.steered + PolledFrom(run.trace, Steering)
    && Having(agent.followUpQueue.log, Drained) == run.followed + PolledFrom(run.trace, FollowUp)
  }

  /** `runWithLifecycle` around `runAgentLoop`. */
  method RunWithLifecycle(agent: Agent, host: Host, prompts: Batch, skip: bool, budget: nat)
    returns (run: AgentRun, ending: Ending)
    requires agent.Idle() && !agent.activeRun
    modifies agent, agent.steeringQueue, agent.followUpQueue
    ensures fresh(run) && fresh(run.log) && run.agent == agent && run.host == host && run.prompts == prompts && run.skips == skip
    ensures run.single <==> old(OneAtATimeQueues(agent)) && KeepsOneAtATime(host)
    ensures Recorded(run)
    ensures run.before.messages == old(agent.messages) && run.before.error == None
    ensures run.steered == old(Having(agent.steeringQueue.log, Drained))
    ensures run.followed == old(Having(agent.followUpQueue.log, Drained))
    ensures ending.Cut? ==> run.Valid() && agent.activeRun && |run.st.turns| >= budget
    ensures !ending.Cut? ==> Over(agent, run)
    ensures ending.Completed? ==> run.st.failure == [] && EndsInAgreement(agent, run)
    ensures ending.Threw? ==> |run.st.failure| == 1 && (run.aborted || MayFail(host))
    ensures skip && |run.st.turns| > 0 ==> run.st.turns[0].batches == [prompts]
  {
    hide Committed, Rebuild, State, Accepted, Having, PolledFrom, Orderly, FirstPoll, TurnEnds, Recorded, MayFail, FollowsHost, AllGiven,
         AllWhole, Told, AllResolved, KeepsOneAtATime, NeverAborts, SmallPolls;
    agent.activeRun := true;
    agent.streamingMessage := None;
    agent.errorMessage := None;
    run := new AgentRun(agent, host, prompts, skip);
    ending := run.RunAgentLoop(budget);
    if ending.Threw? {
      run.HandleRunFailure("");
    }
    RunFacts(run);
    assert ending.Completed? ==> EndsInAgreement(agent, run) by {
      NoExtras(run.log.read);
    }
    if !ending.Cut? {
      CleanUp(agent, run);
    }
  }

  /** What the invariant of a run says of it once it has stopped. */
  lemma RunFacts(run: AgentRun)
    requires run.Valid() && run.Accountable()
    ensures Recorded(run)
    ensures run.agent.messages == run.before.messages + Committed(run.st)
    ensures run.agent.errorMessage == LastError(run.trace, run.before.error)
    ensures run.skips && |run.st.turns| > 0 ==> run.st.turns[0].batches == [run.prompts]
  {
    hide Committed, Rebuild, Having, PolledFrom, TurnEnds, SmallPolls, KeepsOneAtATime, NeverAborts, AllGiven, AllWhole, Extras, Told,
         AllResolved, ReplyTold, ReplyResolved, FollowsHost;
    FirstTurnBatches(run.prompts, run.trace);
    assert [run.prompts] + [] == [run.prompts];
    RebuildsTranscript(run.prompts, run.before, run.trace);
    RebuildsError(run.before, run.trace);
  }

  /** `finishRun`. */
  method CleanUp(agent: Agent, run: AgentRun)
    requires run.agent == agent && run.Valid() && Recorded(run) && run.st.stage == Ended
    requires agent.messages == run.before.messages + Committed(run.st)
    modifies agent`streamingMessage, agent`pendingToolCalls, agent`activeRun
    ensures Over(agent, run)
  {
    hide Committed, Rebuild, Having, PolledFrom, Recorded, State, Accepted, Orderly, FirstPoll, TurnEnds;
    agent.streamingMessage := None;
    agent.pendingToolCalls := {};
    agent.activeRun := false;
  }

  /** `prompt`, on messages already in list form. */
  method Prompt(agent: Agent, host: Host, prompts: Batch, budget: nat) returns (r: Attempt)
    requires agent.Idle()
    modifies agent, agent.steeringQueue, agent.followUpQueue
    ensures r.Refused? <==> old(agent.activeRun)
    ensures r.Refused? ==> agent.messages == old(agent.messages)
    ensures r.Ran? ==> r.run.prompts == prompts && r.run.before.messages == old(agent.messages)
    ensures r.Ran? ==> r.run.host == host && Recorded(r.run)
    ensures r.Ran? && !r.ending.Cut? ==> Over(agent, r.run)
    ensures r.Ran? && r.ending.Completed? ==> EndsInAgreement(agent, r.run)
    ensures r.Ran? && old(OneAtATimeQueues(agent)) && KeepsOneAtATime(host) ==> r.run.single
    // a run throws only because of the signal or of a failure of the host
    ensures r.Ran? && r.ending.Threw? ==> r.run.aborted || MayFail(host)
    ensures r.Ran? && NeverAborts(host) && !MayFail(host) ==> !r.ending.Threw? && !r.run.aborted
  {
    hide MayFail;
    if agent.activeRun {
      return Refused("Agent is already processing a prompt.");
    }
    var run, ending := RunWithLifecycle(agent, host, prompts, false, budget);
    r := Ran(run, ending);
  }

  /** The last message lets a run go on without anything queued. */
  predicate CanContinue(messages: seq<Message>) {
    |messages| > 0 && !messages[|messages| - 1].Assistant?
  }

  /** The last message lets `continue` start from the queues. */
  predicate MayUseQueues(messages: seq<Message>) {
    |messages| == 0 || messages[|messages| - 1].Assistant? || messages[|messages| - 1].Custom?
  }

  /** One drain of a queue became the prompts of the run, whole; nothing else comes before the first reply. */
  ghost predicate StartedFrom(run: AgentRun, mode: QueueMode, queued: seq<Batch>, drained: seq<Batch>, already: seq<Batch>)
    reads run
  {
    run.prompts == Flatten(Taken(mode, queued)) && drained == already + Taken(mode, queued)
  }

  /**
   * `continue`: queued steering first, then queued follow-ups, else the transcript itself.
   */
  method Continue(agent: Agent, host: Host, budget: nat) returns (r: Attempt)
    requires agent.Idle()
    modifies agent, agent.steeringQueue, agent.followUpQueue
    ensures r.Refused? <==>
              || old(agent.activeRun)
              || ((|old(agent.messages)| == 0 || old(agent.messages)[|old(agent.messages)| - 1].Assistant?)
                  && old(agent.steeringQueue.batches) == [] == old(agent.followUpQueue.batches))
    ensures r.Refused? ==> agent.messages == old(agent.messages)
    // after a user's message or a tool result the queues are left to the run
    ensures r.Ran? && |old(agent.messages)| > 0
            && (old(agent.messages)[|old(agent.messages)| - 1].User? || old(agent.messages)[|old(agent.messages)| - 1].ToolResult?) ==>
              && r.run.prompts == [] && r.run.steered == old(Having(agent.steeringQueue.log, Drained))
              && r.run.followed == old(Having(agent.followUpQueue.log, Drained))
    ensures r.Ran? ==> r.run.before.messages == old(agent.messages)
    ensures r.Ran? ==> r.run.host == host && Recorded(r.run)
    ensures r.Ran? && !r.ending.Cut? ==> Over(agent, r.run)
    ensures r.Ran? && r.ending.Completed? ==> EndsInAgreement(agent, r.run)
    ensures r.Ran? && old(OneAtATimeQueues(agent)) && KeepsOneAtATime(host) ==> r.run.single
    // a run throws only because of the signal or of a failure of the host
    ensures r.Ran? && r.ending.Threw? ==> r.run.aborted || MayFail(host)
    ensures r.Ran? && NeverAborts(host) && !MayFail(host) ==> !r.ending.Threw? && !r.run.aborted
    // queued steering is drained once and injected before the first reply, and nothing else is
    ensures r.Ran? && MayUseQueues(old(agent.messages)) && old(agent.steeringQueue.batches) != [] ==>
              && StartedFrom(r.run, old(agent.steeringQueue.mode), old(agent.steeringQueue.batches),
                             r.run.steered, old(Having(agent.steeringQueue.log, Drained)))
              && (|r.run.st.turns| > 0 ==> r.run.st.turns[0].batches == [r.run.prompts])
    // queued follow-ups are drained only when no steering was queued
    ensures r.Ran? && MayUseQueues(old(agent.messages)) && old(agent.steeringQueue.batches) == []
            && old(agent.followUpQueue.batches) != [] ==>
              StartedFrom(r.run, old(agent.followUpQueue.mode), old(agent.followUpQueue.batches),
                          r.run.followed, old(Having(agent.followUpQueue.log, Drained)))
    // otherwise the run goes on from the transcript
    ensures r.Ran? && !(MayUseQueues(old(agent.messages))
                        && (old(agent.steeringQueue.batches) != [] || old(agent.followUpQueue.batches) != [])) ==>
              r.run.prompts == []
  {
    hide Having, Committed, Rebuild, State, Accepted, PolledFrom, Fifo, MayFail;
    if agent.activeRun {
      return Refused("Agent is already processing.");
    }
    if MayUseQueues(agent.messages) {
      var queued: seq<Message>;
      ghost var taken: seq<Batch>;
      queued, taken := agent.steeringQueue.Drain();
      assert |queued| > 0 <==> old(agent.steeringQueue.batches) != [];
      if |queued| > 0 {
        var run, ending := RunWithLifecycle(agent, host, queued, true, budget);
        return Ran(run, ending);
      }
      queued, taken := agent.followUpQueue.Drain();
      assert |queued| > 0 <==> old(agent.followUpQueue.batches) != [];
      if |queued| > 0 {
        var run, ending := RunWithLifecycle(agent, host, queued, false, budget);
        return Ran(run, ending);
      }
      if !CanContinue(agent.messages) {
        return Refused("Cannot continue from this message.");
      }
    }
    var run, ending := RunWithLifecycle(agent, host, [], false, budget);
    r := Ran(run, ending);
  }

  /** The poll answers of a run, each with the queue or hook that gave it. */
  function Tagged(trace: Trace): seq<(Source, Batch)> {
    if trace == [] then []
    else if Last(trace).Polled? then Tagged(Front(trace)) + Tag(Last(trace).source, Last(trace).batches)
    else Tagged(Front(trace))
  }

  function Tag(source: Source, batches: seq<Batch>): seq<(Source, Batch)> {
    if batches == [] then [] else [(source, batches[0])] + Tag(source, batches[1..])
  }

  function Untag(tagged: seq<(Source, Batch)>): seq<Batch> {
    if tagged == [] then [] else [tagged[0].1] + Untag(tagged[1..])
  }

  function Select(tagged: seq<(Source, Batch)>, source: Source): seq<Batch> {
    if tagged == [] then []
    else if tagged[0].0 == source then [tagged[0].1] + Select(tagged[1..], source)
    else Select(tagged[1..], source)
  }

  lemma {:induction false} UntagAppend(a: seq<(Source, Batch)>, b: seq<(Source, Batch)>)
    ensures Untag(a + b) == Untag(a) + Untag(b)
  {
    if a == [] {
      assert a + b == b;
    } else {
      UntagAppend(a[1..], b);
      assert (a + b)[0] == a[0] && (a + b)[1..] == a[1..] + b;
      var x, y, z := [a[0].1], Untag(a[1..]), Untag(b);
      assert x + (y + z) == (x + y) + z;
    }
  }

  lemma {:induction false} SelectAppend(a: seq<(Source, Batch)>, b: seq<(Source, Batch)>, source: Source)
    ensures Select(a + b, source) == Select(a, source) + Select(b, source)
  {
    if a == [] {
      assert a + b == b;
    } else {
      SelectAppend(a[1..], b, source);
      assert (a + b)[0] == a[0] && (a + b)[1..] == a[1..] + b;
      var x, y, z := [a[0].1], Select(a[1..], source), Select(b, source);
      assert x + (y + z) == (x + y) + z;
    }
  }

  lemma {:induction false} TagParts(given: Source, batches: seq<Batch>, source: Source)
    ensures Untag(Tag(given, batches)) == batches
    ensures Select(Tag(given, batches), source) == if given == source then batches else []
  {
    if batches != [] {
      TagParts(given, batches[1..], source);
    }
  }

  /** All poll answers are one sequence, from which each queue's answers can be picked out in order. */
  lemma {:induction false} TaggedParts(trace: Trace, source: Source)
    ensures Untag(Tagged(trace)) == PolledBatches(trace)
    ensures Select(Tagged(trace), source) == PolledFrom(trace, source)
  {
    if trace != [] {
      TaggedParts(Front(trace), source);
      if Last(trace).Polled? {
        UntagAppend(Tagged(Front(trace)), Tag(Last(trace).source, Last(trace).batches));
        SelectAppend(Tagged(Front(trace)), Tag(Last(trace).source, Last(trace).batches), source);
        TagParts(Last(trace).source, Last(trace).batches, source);
      }
    }
  }

  /**
   * A run that was neither aborted nor thrown: what it drained from each queue is injected once, whole,
   * in the order in which the queue received it, and what it injected is in the agent's transcript.
   */
  lemma DrainedReachesTranscript(agent: Agent, run: AgentRun)
    requires Over(agent, run) && !run.st.aborted && run.st.failure == []
    ensures BatchesOf(run.st.turns) == [run.prompts] + Untag(Tagged(run.trace))
    ensures Having(agent.steeringQueue.log, Drained) == run.steered + Select(Tagged(run.trace), Steering)
    ensures Having(agent.followUpQueue.log, Drained) == run.followed + Select(Tagged(run.trace), FollowUp)
    ensures forall i :: 0 <= i < |run.st.turns| ==> run.st.turns[i].injected == Flatten(run.st.turns[i].batches)
    ensures agent.messages == run.before.messages + Transcript(run.st.turns)
  {
    hide Allowed, After, Orderly, Whole;
    PolledOnceWholeInOrder(run.prompts, run.trace);
    TranscriptFromEvents(run.prompts, run.trace);
    TaggedParts(run.trace, Steering);
    TaggedParts(run.trace, FollowUp);
  }

  /** A message drained just before the signal fires is lost: it was taken from its queue and is never injected. */
  lemma AbortLosesADrainedMessage(m: Message)
    ensures exists trace: Trace ::
              && Accepted([], trace) && PolledBatches(trace) == [[m]]
              && var r := State([], trace); r.stage == Ended && r.failure == [] && r.pending == [m]
  {
    var t := UntilSteered(Assistant([], Stop, None), m);
  }

  /** One turn with the given reply, then a steering batch, the signal, and the end. */
  lemma UntilSteered(reply: AssistantMessage, m: Message) returns (t: Trace)
    requires reply.parts == [] && !Failed(reply)
    ensures Accepted([], t) && PolledBatches(t) == [[m]]
    ensures var r := State([], t); r.stage == Ended && r.failure == [] && r.pending == [m]
  {
    hide Accepted, State, Rebuild, PolledBatches, Committed, MayEmit, AfterEvent;
    var v := View([], None, {}, None);
    t := ReplyTrace(v, reply);
    assert CallsOf(reply) == [];
    TurnEndMove(State([], t), reply, []);
    t := Step([], v, t, Emitted(TurnEnd(reply, [])));
    StopAfterMove(State([], t), false);
    t := Step([], v, t, StopAfterTurn(false));
    StopBeforeMove(State([], t), StopBeforeSteering, false);
    t := Step([], v, t, StopBeforeTurn(false));
    PollMove(State([], t), Steering, [[m]]);
    t := Step([], v, t, Polled(Steering, [[m]]));
    t := Step([], v, t, AbortSignalled);
    EndMove(State([], t), Committed(State([], t)));
    t := Step([], v, t, Emitted(AgentEnd(Committed(State([], t)))));
    assert [] + [[m]] == [[m]] && Flatten([[m]]) == [m] + Flatten([]);
  }

  // ----- what holds of every run, in terms of its provider and its queues -----

  /** A provider whose streams start once: the three accounts agree at every turn_end. */
  lemma AccountsAgree(run: AgentRun, i: nat)
    requires Recorded(run) && OneStart(run.host) && i < |run.turnEnds|
    ensures run.turnEnds[i].context == run.turnEnds[i].agent == run.before.messages + run.turnEnds[i].newMessages
  {
    assert run.Agree(run.turnEnds[i]);
    OneStartGivesSingle(run.host, run.turnEnds[i].read);
  }

  /** And at agent_end of a run that completed. */
  lemma AccountsAgreeAtEnd(agent: Agent, run: AgentRun)
    requires Recorded(run) && EndsInAgreement(agent, run) && OneStart(run.host)
    ensures run.messages == agent.messages == run.before.messages + run.newMessages
  {
    OneStartGivesSingle(run.host, run.log.read);
  }

  /** No bracket was restarted exactly when no stream said `start` twice. */
  lemma RestartsAreExtraStarts(run: AgentRun)
    requires Recorded(run)
    ensures run.st.restarts == 0 <==> SingleStarts(run.log.read)
    ensures OneStart(run.host) ==> SingleStarts(run.log.read)
  {
    NoExtras(run.log.read);
    if OneStart(run.host) {
      OneStartGivesSingle(run.host, run.log.read);
    }
  }

  /** Message brackets of a run that did not throw never nest exactly when no stream said `start` twice. */
  lemma NestsExactlyOnSecondStart(run: AgentRun)
    requires Recorded(run) && !EventGrammar.Threw(run.trace)
    ensures EventGrammar.NeverNests(run.trace) <==> SingleStarts(run.log.read)
  {
    RestartsAreExtraStarts(run);
    EventGrammar.NestsOnlyOnRestart(run.prompts, run.trace);
  }

  /** Every event up to a throw stands where the brackets allow it, when no stream said `start` twice. */
  lemma EventsAreNested(run: AgentRun, i: nat, id: string)
    requires Recorded(run) && SingleStarts(run.log.read)
    requires i < |run.trace| && run.trace[i].Emitted? && !EventGrammar.Threw(run.trace[..i])
    ensures EventGrammar.Fits(run.trace[i].event, EventGrammar.Open(run.trace[..i], id))
    ensures var e := run.trace[i].event;
            (e.ToolUpdate? || e.ToolEnd?) && EventGrammar.ToolId(e) == Some(id) ==> EventGrammar.Open(run.trace[..i], id).tools >= 1
  {
    hide After, Allowed, MayEmit, AfterEvent, Committed;
    RestartsAreExtraStarts(run);
    EventGrammar.NoRestartBefore(run.prompts, run.trace, i);
    EventGrammar.WellNested(run.prompts, run.trace, i, id);
  }

  /** A run that completed has closed every bracket, when no stream said `start` twice. */
  lemma BracketsClosed(run: AgentRun, id: string)
    requires Recorded(run) && SingleStarts(run.log.read) && run.st.stage == Ended && run.st.failure == []
    ensures EventGrammar.Open(run.trace, id) == EventGrammar.Tally(1, 1, 0, 0, 0)
  {
    RestartsAreExtraStarts(run);
    EventGrammar.ThrewIsFailure(run.prompts, run.trace);
    EventGrammar.AllClosed(run.prompts, run.trace, id);
  }

  /**
   * A host whose streams all say `start` twice and that never aborts: every run that completed has nested
   * its message brackets, and the loop's context is not the agent's transcript.
   */
  lemma SecondStartBreaks(agent: Agent, run: AgentRun)
    requires Recorded(run) && EndsInAgreement(agent, run)
    requires |run.st.turns| > 0 && run.st.stage == Ended && run.st.failure == []
    requires NeverAborts(run.host) && forall t :: Starts(UpToEnd(run.host.stream(t))) >= 2
    ensures run.messages != agent.messages && !EventGrammar.NeverNests(run.trace)
  {
    var t :| run.log.read[0] == UpToEnd(run.host.stream(t));
    assert Starts(run.log.read[0]) >= 2;
    EventGrammar.ThrewIsFailure(run.prompts, run.trace);
    NestsExactlyOnSecondStart(run);
  }

  /** The shortest such trace: one reply whose stream says `start` twice. */
  lemma SecondStartNests(m: AssistantMessage)
    ensures exists trace: Trace ::
              Accepted([], trace) && !EventGrammar.Threw(trace) && |trace| == 5 && !EventGrammar.NeverNests(trace)
  {
    hide Accepted, State, Rebuild, PolledBatches, Committed, MayEmit, AfterEvent;
    var v := View([], None, {}, None);
    var t := OpeningTrace(v);
    OpenReplyMove(State([], t), m);
    t := Step([], v, t, Emitted(MessageStart(m)));
    StreamingMoves(State([], t), m);
    t := Step([], v, t, Emitted(MessageStart(m)));
    assert !EventGrammar.Threw(t);
    EventGrammar.NestsOnlyOnRestart([], t);
  }

  /** With both queues in one-at-a-time mode, at most one queued batch comes between two replies of a run. */
  lemma OneBatchBetweenReplies(run: AgentRun)
    requires Recorded(run) && run.single
    ensures forall i :: 1 <= i < |run.st.turns| ==> |run.st.turns[i].batches| <= 1
    ensures |run.st.turns| > 0 ==> |run.st.turn.batches| <= 1
  {
    AtMostOneBatch(run.prompts, run.trace);
  }

  // ----- what holds of every run, in terms of what its host answers -----

  /**
   * Each reply is accounted for by what was read of a stream of the provider. In a run that was not aborted
   * every stream was read to its end, and the reply is what the provider resolved to.
   */
  lemma RepliesAreTheProviders(run: AgentRun, i: nat)
    requires Recorded(run) && i < |run.st.turns|
    ensures run.st.turns[i].reply.Some? && run.st.turns[i].reply.value.Assistant?
    ensures i < |run.log.read| && Answered(run.host, run.log.read[i], run.st.turns[i].reply.value)
    ensures exists t :: run.log.read[i] <= UpToEnd(run.host.stream(t))
    ensures !run.aborted ==> exists t :: run.log.read[i] == UpToEnd(run.host.stream(t))
    ensures !run.aborted ==> Resolves(run.host, run.st.turns[i].reply.value)
  {
    hide Answered, Resolves, UpToEnd;
    assert ReplyTold(run.host, run.st.turns[i], run.log.read[i]);
    assert !run.aborted ==> ReplyResolved(run.host, run.st.turns[i]);
  }

  /** Calls that must run one at a time never overlap: there is at most one execution at any moment. */
  lemma {:induction false} SequentialCallsNeverOverlap(host: Host, prompts: Batch, trace: Trace)
    requires Accepted(prompts, trace) && FollowsHost(host, prompts, trace)
    ensures OneByOne(host, Calls(State(prompts, trace))) ==> |State(prompts, trace).openTools| <= 1
  {
    hide Allowed, After, OneByOne, Follows, CallsOf;
    if trace != [] {
      var r := State(prompts, Front(trace));
      SequentialCallsNeverOverlap(host, prompts, Front(trace));
      AlwaysOrderly(prompts, Front(trace));
      OverlapStep(host, r, Last(trace));
    }
  }

  lemma OverlapStep(host: Host, r: Run, o: Obs)
    requires Allowed(r, o) && Orderly(r) && Follows(host, r, o)
    requires OneByOne(host, Calls(r)) ==> |r.openTools| <= 1
    ensures OneByOne(host, Calls(After(r, o))) ==> |After(r, o).openTools| <= 1
  {
    hide Allowed, After, OneByOne, CallsOf, Orderly;
    OpenToolsStep(r, o);
    if o.Emitted? && (o.event.ToolStart? || o.event.ToolEnd?) {
      SameCalls(r, o);
    } else {
      SameCallsOrNone(r, o);
    }
  }

  lemma SameCalls(r: Run, o: Obs)
    requires Allowed(r, o) && o.Emitted? && (o.event.ToolStart? || o.event.ToolEnd?)
    ensures After(r, o).turn == r.turn
  {
    hide Committed, NextResult, AllTerminate, CallsOf, MayEmit, AfterEvent;
    QuietEvent(r, o.event);
  }

  /** Another observation leaves the reply as it is, or nothing is executing. */
  lemma SameCallsOrNone(r: Run, o: Obs)
    requires Allowed(r, o) && Orderly(r) && !(o.Emitted? && (o.event.ToolStart? || o.event.ToolEnd?))
    ensures After(r, o).turn.reply == r.turn.reply || |r.openTools| == 0
  {
    hide Committed, NextResult, AllTerminate, CallsOf, MayEmit, AfterEvent;
    if o.Emitted? {
      if o.event.MessageEnd? || o.event.TurnEnd? {
        NothingExecutes(r, o.event);
      } else {
        QuietEvent(r, o.event);
      }
    }
  }

  lemma NothingExecutes(r: Run, e: Event)
    requires MayEmit(r, e) && Orderly(r) && (e.MessageEnd? || e.TurnEnd?)
    ensures AfterEvent(r, e).turn.reply == r.turn.reply || |r.openTools| == 0
  {
    hide Committed, NextResult, AllTerminate, CallsOf;
  }

  /** Every update of a streaming message is one that the provider gave. */
  lemma UpdatesAreTheProviders(run: AgentRun, i: nat)
    requires Recorded(run) && i < |run.trace| && run.trace[i].Emitted? && run.trace[i].event.MessageUpdate?
    ensures run.trace[i].event.message.Assistant?
    ensures exists t :: StreamUpdate(run.trace[i].event.message) in run.host.stream(t)
  {
    hide Allowed, After;
    FollowsAt(run.host, run.prompts, run.trace, i);
  }

  /** Calls that must run one at a time stop at the signal: none starts once it has fired. */
  lemma SequentialCallsStopAtAbort(run: AgentRun, i: nat, j: nat)
    requires Recorded(run) && i < j < |run.trace| && run.trace[i] == AbortSignalled
    requires run.trace[j].Emitted? && run.trace[j].event.ToolStart?
    ensures Accepted(run.prompts, run.trace[..j]) && !OneByOne(run.host, Calls(State(run.prompts, run.trace[..j])))
  {
    hide Allowed, After, OneByOne;
    FollowsAt(run.host, run.prompts, run.trace, j);
    AbortIsSeen(run.prompts, run.trace[..j], i);
  }

  /** A tool_execution_end without an error belongs to a call of the reply that was cleared to run. */
  lemma OnlyClearedCallsSucceed(run: AgentRun, i: nat)
    requires Recorded(run) && i < |run.trace| && run.trace[i].Emitted? && run.trace[i].event.ToolEnd? && !run.trace[i].event.isError
    ensures Accepted(run.prompts, run.trace[..i])
    ensures exists k, args ::
              var calls, e := Calls(State(run.prompts, run.trace[..i])), run.trace[i].event;
              0 <= k < |calls| && calls[k].id == e.id && calls[k].name == e.name && Cleared(run.host, calls[k], args)
  {
    hide Allowed, After, Cleared;
    FollowsAt(run.host, run.prompts, run.trace, i);
  }

  /** A hook that lets no call of a tool pass: every execution of that tool is reported as an error. */
  lemma BlockedToolsOnlyFail(run: AgentRun, name: string, i: nat)
    requires Recorded(run) && i < |run.trace| && run.trace[i].Emitted? && run.trace[i].event.ToolEnd? && run.trace[i].event.name == name
    requires run.host.before.Some?
    requires forall call: ToolCall, args, t :: call.name == name ==> run.host.before.value(call, args, t) != Returned(None)
    ensures run.trace[i].event.isError
  {
    if !run.trace[i].event.isError {
      OnlyClearedCallsSucceed(run, i);
    }
  }

  /**
   * A run that ended without an abort or a throw ended because its last reply failed, because the host said
   * stop, or because the host had nothing to continue with.
   */
  lemma EndsBecauseTheHostSaysSo(run: AgentRun)
    requires Recorded(run) && run.st.stage.Ended? && !run.aborted && |run.st.failure| == 0
    ensures LastMove(Front(run.trace)).Some?
    ensures match LastMove(Front(run.trace)).value {
              case Emitted(TurnEnd(m, _)) => Failed(m)
              case StopAfterTurn(_) => exists t :: run.host.stopAfterTurn(t)
              case StopBeforeTurn(_) => exists t :: run.host.stopBeforeTurn(t)
              case Polled(source, _) => source == Continuation && exists t :: |run.host.continuation(t)| == 0
              case _ => false
            }
  {
    hide Allowed, After, Failed;
    EndHasAReason(run.prompts, run.trace);
    var n := MoveAt(Front(run.trace));
    FollowsAt(run.host, run.prompts, run.trace, n);
  }

  lemma {:induction false} MoveAt(trace: Trace) returns (n: nat)
    requires LastMove(trace).Some?
    ensures n < |trace| && trace[n] == LastMove(trace).value
  {
    n := |trace| - 1;
    if Last(trace) == AbortSignalled {
      n := MoveAt(Front(trace));
    }
  }
}
