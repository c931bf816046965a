/** The agent loop (`agent-loop.ts`), run against an arbitrary `Host`. */
module AgentLoop {
  import opened Messages
  import opened Protocol
  import opened ProtocolTheorems
  import opened PendingQueue
  import opened AgentView
  import opened ToolHost
  import opened ToolTasks

  /** `Cut` is a run that is still going when the budget of turns is used up. */
  datatype Ending = Completed | Threw | Cut

  /** What the questions between two turns come to. */
  datatype Next = EndRun | ThrowRun | GoOn(pending: seq<Message>)

  /** How an awaited operation came back. */
  datatype Raced<+T> = Value(value: T) | Cancelled | Broke

  /** The three accounts of the conversation at a turn_end, and what the provider's streams had said by then. */
  datatype Accounts = Accounts(context: seq<Message>, newMessages: seq<Message>, agent: seq<Message>,
                               read: seq<seq<StreamEvent>>)

  /** The events read from the provider's streams, one entry for each reply asked for. */
  class StreamLog {
    ghost var read: seq<seq<StreamEvent>>

    constructor ()
      ensures read == []
    {
      read := [];
    }
  }

  /** The batches that the polls of one queue returned. */
  function PolledFrom(trace: Trace, source: Source): seq<Batch> {
    if trace == [] then []
    else if Last(trace).Polled? && Last(trace).source == source then PolledFrom(Front(trace), source) + Last(trace).batches
    else PolledFrom(Front(trace), source)
  }

  function TurnEnds(trace: Trace): nat {
    if trace == [] then 0
    else TurnEnds(Front(trace)) + if Last(trace).Emitted? && Last(trace).event.TurnEnd? then 1 else 0
  }

  /**
   * What the host says decides what the run does: the answers of the hooks and the updates of a reply are
   * the host's; where one call at a time is wanted, none starts before the last has ended or once the signal
   * has fired; and only a cleared call ends without an error.
   */
  ghost predicate Follows(host: Host, r: Run, o: Obs) {
    match o
    case StopAfterTurn(stop) => exists t :: host.stopAfterTurnFails(t) == None && host.stopAfterTurn(t) == stop
    case StopBeforeTurn(stop) => exists t :: host.stopBeforeTurn(t) == stop
    case Polled(Continuation, batches) => exists t :: host.continuationFails(t) == None && host.continuation(t) == Flatten(batches)
    case Emitted(MessageUpdate(m)) => m.Assistant? && exists t :: StreamUpdate(m) in host.stream(t)
    case Emitted(ToolStart(_, _, _)) => OneByOne(host, Calls(r)) ==> r.openTools == multiset{} && !r.aborted
    case Emitted(ToolEnd(id, name, _, isError)) => isError || ClearedHere(host, Calls(r), id, name)
    case _ => true
  }

  lemma StartFollows(host: Host, r: Run, live: multiset<string>, calls: seq<ToolCall>, tasks: seq<Task>)
    requires Books(r, live, calls, tasks) && |tasks| < |calls| && (OneByOne(host, calls) ==> AllDone(tasks) && !r.aborted)
    ensures Follows(host, r, Emitted(StartOf(calls[|tasks|])))
  {
    hide OneByOne;
    if OneByOne(host, calls) {
      WhenAllDone(tasks);
    }
  }

  lemma EndFollows(host: Host, r: Run, live: multiset<string>, calls: seq<ToolCall>, tasks: seq<Task>, i: nat, o: Outcome)
    requires Books(r, live, calls, tasks) && i < |tasks| && EarnedOutcome(host, tasks[i].call, o)
    ensures Follows(host, r, Emitted(EndOf(tasks[i].call, o)))
  {
    hide Cleared;
    assert tasks[i].call == calls[i];
  }

  lemma TurnEndFollows(host: Host, r: Run, m: Message, results: seq<Message>)
    ensures Follows(host, r, Emitted(TurnEnd(m, results)))
  {
  }

  lemma QueuePollFollows(host: Host, r: Run, source: Source, batches: seq<Batch>)
    requires source != Continuation
    ensures Follows(host, r, Polled(source, batches))
  {
  }

  ghost predicate ClearedHere(host: Host, calls: seq<ToolCall>, id: string, name: string) {
    exists k, args :: 0 <= k < |calls| && calls[k].id == id && calls[k].name == name && Cleared(host, calls[k], args)
  }

  ghost predicate FollowsHost(host: Host, prompts: Batch, trace: Trace)
    requires Accepted(prompts, trace)
  {
    trace == [] || (FollowsHost(host, prompts, Front(trace)) && Follows(host, State(prompts, Front(trace)), Last(trace)))
  }

  lemma {:induction false} FollowsAt(host: Host, prompts: Batch, trace: Trace, i: nat)
    requires Accepted(prompts, trace) && FollowsHost(host, prompts, trace) && i < |trace|
    ensures Accepted(prompts, trace[..i]) && Follows(host, State(prompts, trace[..i]), trace[i])
  {
    hide Allowed, After, Follows;
    if i < |trace| - 1 {
      FollowsAt(host, prompts, Front(trace), i);
      assert Front(trace)[..i] == trace[..i];
    } else {
      assert trace[..i] == Front(trace);
    }
  }

  /** The reply of a turn is accounted for by what was read of its stream. */
  ghost predicate ReplyTold(host: Host, turn: Turn, read: seq<StreamEvent>) {
    turn.reply.Some? && turn.reply.value.Assistant? && Answered(host, read, turn.reply.value)
  }

  /** Every complete turn has a stream that accounts for its reply. */
  ghost predicate Told(host: Host, turns: seq<Turn>, read: seq<seq<StreamEvent>>) {
    |turns| <= |read| && forall i :: 0 <= i < |turns| ==> ReplyTold(host, turns[i], read[i])
  }

  /** The reply of a turn is what the provider resolved to. */
  ghost predicate ReplyResolved(host: Host, turn: Turn) {
    turn.reply.Some? && turn.reply.value.Assistant? && Resolves(host, turn.reply.value)
  }

  ghost predicate AllResolved(host: Host, turns: seq<Turn>) {
    forall i :: 0 <= i < |turns| ==> ReplyResolved(host, turns[i])
  }

  lemma ToldOneMore(host: Host, turns: seq<Turn>, turn: Turn, read: seq<seq<StreamEvent>>)
    requires Told(host, turns, read) && |read| > |turns| && ReplyTold(host, turn, read[|turns|])
    ensures Told(host, turns + [turn], read)
    ensures AllResolved(host, turns) && ReplyResolved(host, turn) ==> AllResolved(host, turns + [turn])
  {
    hide ReplyTold, ReplyResolved;
  }

  lemma ToldLonger(host: Host, turns: seq<Turn>, read: seq<seq<StreamEvent>>, events: seq<StreamEvent>)
    requires Told(host, turns, read)
    ensures Told(host, turns, read + [events])
  {
    hide ReplyTold;
  }

  const ABORT_ERROR_MESSAGE := "Request was aborted"

  /** `createAbortedAssistantMessage`: what the stream had said so far, marked as aborted. */
  function AbortedMessage(partial: Option<AssistantMessage>): (m: AssistantMessage)
    ensures MarkedAborted(m, partial)
  {
    Assistant(if partial.Some? then partial.value.parts else [Text("")], Aborted, Some(ABORT_ERROR_MESSAGE))
  }

  class AgentRun {
    const agent: Agent
    const host: Host
    var messages: seq<Message>        // currentContext.messages
    var newMessages: seq<Message>
    var aborted: bool                 // signal.aborted
    var clock: nat
    var accepting: multiset<string>   // executions whose acceptingUpdates flag is set
    var skipInitialSteeringPoll: bool

    ghost const prompts: Batch
    ghost const before: View          // the agent's state when the run began
    ghost const steered: seq<Batch>   // batches drained before the run began
    ghost const followed: seq<Batch>
    ghost const skips: bool           // the run was started from steering, so its opening poll returns nothing
    ghost const single: bool          // both queues are in one-at-a-time mode and stay in it
    const log: StreamLog
    ghost var trace: Trace
    ghost var st: Run
    ghost var turnEnds: seq<Accounts>

    ghost predicate Valid()
      reads this, agent, agent.steeringQueue, agent.followUpQueue
    {
      && agent.Valid() && agent.activeRun
      && Accepted(prompts, trace) && st == State(prompts, trace) && Orderly(st)
      && st.aborted == aborted
      && agent.CurrentView() == Rebuild(before, trace)
      && before.pending == {} && before.streaming == None
      && accepting <= st.openTools
      && Having(agent.steeringQueue.log, Drained) == steered + PolledFrom(trace, Steering)
      && Having(agent.followUpQueue.log, Drained) == followed + PolledFrom(trace, FollowUp)
      && (skips ==> if FirstPoll(trace).Some? then FirstPoll(trace).value == [] else skipInitialSteeringPoll)
      && |turnEnds| == TurnEnds(trace)
      && (forall i :: 0 <= i < |turnEnds| ==> Agree(turnEnds[i]))
      && (NeverAborts(host) ==> !aborted)
      && (single ==> SinglePolls())
      && FollowsHost(host, prompts, trace)
    }

    ghost predicate SinglePolls()
      reads this, agent.steeringQueue, agent.followUpQueue
    {
      && agent.steeringQueue.mode == QueueMode.OneAtATime && agent.followUpQueue.mode == QueueMode.OneAtATime
      && KeepsOneAtATime(host) && SmallPolls(trace)
    }

    /**
     * The agent's account is always the snapshot and the new messages; the loop's own account is the same
     * exactly when no stream read so far said `start` twice.
     */
    ghost predicate Agree(a: Accounts) {
      && a.agent == before.messages + a.newMessages
      && (a.context == a.agent <==> SingleStarts(a.read))
      && AllGiven(host, a.read)
    }

    /**
     * The brackets restarted so far are the starts beyond the first in the streams read so far, and the
     * streams account for the replies. Unless the signal has fired, each stream was read to its end and
     * each reply is what the provider resolved to.
     */
    ghost predicate Accountable()
      reads this, log
    {
      && st.restarts == Extras(log.read)
      && AllGiven(host, log.read) && (!aborted ==> AllWhole(host, log.read))
      && Told(host, st.turns, log.read) && (!aborted ==> AllResolved(host, st.turns))
      && (st.turn.reply.Some? ==> TurnTold())
    }

    /** The stream of the current turn accounts for its reply. */
    ghost predicate TurnTold()
      reads this, log
    {
      && |log.read| == |st.turns| + 1 && ReplyTold(host, st.turn, log.read[|st.turns|])
      && (!aborted ==> ReplyResolved(host, st.turn))
    }

    ghost predicate ContextAgrees()
      reads this
    {
      && |messages| == |before.messages| + |Committed(st)| + st.restarts
      && (st.restarts == 0 ==> messages == before.messages + Committed(st))
    }

    /** Between two pushes: everything committed is in both lists. */
    ghost predicate Synced()
      reads this, log
    {
      && newMessages == Committed(st) && ContextAgrees() && Accountable()
      && (st.turn.reply == None ==> |log.read| == |st.turns|)
    }

    twostate predicate OnlyTimePassed()
      reads this
    {
      && st == old(st).(aborted := aborted)
      && (old(aborted) ==> aborted)
      && Committed(st) == Committed(old(st))
      && messages == old(messages) && newMessages == old(newMessages)
      && accepting == old(accepting) && turnEnds == old(turnEnds)
      && skipInitialSteeringPoll == old(skipInitialSteeringPoll)
    }

    constructor (agent: Agent, host: Host, prompts: Batch, skipInitialSteeringPoll: bool)
      requires agent.Valid() && agent.activeRun && agent.pendingToolCalls == {} && agent.streamingMessage == None
      ensures Valid() && this.agent == agent && this.host == host && this.prompts == prompts
      ensures before == agent.CurrentView() && st == Start(prompts) && trace == [] && !aborted
      ensures messages == agent.messages + prompts && newMessages == prompts
      ensures steered == Having(agent.steeringQueue.log, Drained)
      ensures followed == Having(agent.followUpQueue.log, Drained)
      ensures this.skipInitialSteeringPoll == skipInitialSteeringPoll && skips == skipInitialSteeringPoll
      ensures fresh(log) && Accountable() && log.read == []
      ensures single <==> && agent.steeringQueue.mode == QueueMode.OneAtATime
                          && agent.followUpQueue.mode == QueueMode.OneAtATime && KeepsOneAtATime(host)
    {
      this.agent, this.host := agent, host;
      this.prompts := prompts;
      newMessages := prompts;
      messages := agent.messages + prompts;
      aborted, clock, accepting := false, 0, multiset{};
      this.skipInitialSteeringPoll := skipInitialSteeringPoll;
      before := agent.CurrentView();
      steered := Having(agent.steeringQueue.log, Drained);
      followed := Having(agent.followUpQueue.log, Drained);
      skips := skipInitialSteeringPoll;
      single := agent.steeringQueue.mode == QueueMode.OneAtATime && agent.followUpQueue.mode == QueueMode.OneAtATime
                && KeepsOneAtATime(host);
      log := new StreamLog();
      trace, turnEnds, st := [], [], Start(prompts);
    }

    /** Record one observation. */
    ghost method Note(o: Obs)
      requires Accepted(prompts, trace) && st == State(prompts, trace) && Orderly(st) && Allowed(st, o)
      requires FollowsHost(host, prompts, trace) && Follows(host, st, o)
      modifies this`trace, this`st
      ensures trace == old(trace) + [o] && st == After(old(st), o)
      ensures Accepted(prompts, trace) && st == State(prompts, trace) && Orderly(st)
      ensures Rebuild(before, trace)
           == if o.Emitted? then Reduce(Rebuild(before, old(trace)), o.event) else Rebuild(before, old(trace))
      ensures forall s :: PolledFrom(trace, s) ==
                if o.Polled? && o.source == s then PolledFrom(old(trace), s) + o.batches else PolledFrom(old(trace), s)
      ensures FirstPoll(trace) == if FirstPoll(old(trace)).Some? then FirstPoll(old(trace))
                                  else if o.Polled? then Some(o.batches) else None
      ensures TurnEnds(trace) == TurnEnds(old(trace)) + if o.Emitted? && o.event.TurnEnd? then 1 else 0
      ensures SmallPolls(trace) <==> SmallPolls(old(trace)) && (o.Polled? ==> |o.batches| <= 1)
      ensures FollowsHost(host, prompts, trace)
    {
      hide Follows;
      SmallPollsSnoc(trace, o);
      Extend(prompts, trace, o);
      OrderlyStep(st, o);
      assert Front(trace + [o]) == trace;
      trace, st := trace + [o], After(st, o);
    }

    // ----- waiting -----

    /** The others move: anything may happen to the queues, and the signal may fire. */
    method Await()
      requires Valid()
      modifies this, agent, agent.steeringQueue, agent.followUpQueue
      ensures Valid() && OnlyTimePassed() && clock == old(clock) + 1
      ensures aborted <==> old(aborted) || Abort in host.actions(old(clock))
    {
      hide Valid, Committed;
      SignalSeen();
      ghost var at := clock;
      var actions := host.actions(clock);
      for i := 0 to |actions|
        invariant Valid() && OnlyTimePassed() && clock == at
        invariant aborted <==> old(aborted) || Abort in actions[..i]
      {
        assert actions[..i + 1] == actions[..i] + [actions[i]];
        Perform(actions[i], at);
      }
      assert actions[..|actions|] == actions;
      Tick();
    }

    method Tick()
      requires Valid()
      modifies this`clock
      ensures Valid() && clock == old(clock) + 1
    {
      clock := clock + 1;
    }

    method Perform(action: Action, ghost at: nat)
      requires Valid() && action in host.actions(at)
      modifies this, agent, agent.steeringQueue, agent.followUpQueue
      ensures Valid() && OnlyTimePassed() && Performed(action) && clock == old(clock)
    {
      hide Valid, Committed, Matching;
      SignalSeen();
      Apart();
      match action {
        case Abort => Signal();
        case Steer(batch) => Queue(agent.steeringQueue, batch);
        case FollowUpWith(batch) => Queue(agent.followUpQueue, batch);
        case ClearSteering => ClearQueue(agent.steeringQueue);
        case ClearFollowUps => ClearQueue(agent.followUpQueue);
        case RemoveQueued(matches) =>
          RemoveFrom(agent.steeringQueue, matches);
          RemoveFrom(agent.followUpQueue, matches);
        case SetModes(s, f) => ChangeModes(s, f);
        case OnUpdate(id) => ReceiveUpdate(id);
      }
    }

    /** What each action does to the queues, to the signal and to the trace. */
    twostate predicate Performed(action: Action)
      reads this, agent, agent.steeringQueue, agent.followUpQueue
    {
      var s, f := agent.steeringQueue, agent.followUpQueue;
      && (aborted <==> old(aborted) || action.Abort?)
      && s.batches == (match action
                       case Steer(batch) => if |batch| > 0 then old(s.batches) + [batch] else old(s.batches)
                       case ClearSteering => []
                       case RemoveQueued(matches) => Matching(old(s.batches), matches, false)
                       case _ => old(s.batches))
      && f.batches == (match action
                       case FollowUpWith(batch) => if |batch| > 0 then old(f.batches) + [batch] else old(f.batches)
                       case ClearFollowUps => []
                       case RemoveQueued(matches) => Matching(old(f.batches), matches, false)
                       case _ => old(f.batches))
      && s.mode == (if action.SetModes? then action.steering else old(s.mode))
      && f.mode == (if action.SetModes? then action.followUp else old(f.mode))
      && (action.OnUpdate? ==>
            trace == if action.id in old(accepting) && !old(aborted) then old(trace) + [Emitted(ToolUpdate(action.id))] else old(trace))
    }

    lemma Apart()
      requires Valid()
      ensures agent.steeringQueue != agent.followUpQueue
    {
    }

    method ClearQueue(queue: PendingMessageQueue)
      requires Valid() && queue in {agent.steeringQueue, agent.followUpQueue}
      modifies queue
      ensures Valid() && queue.batches == [] && queue.mode == old(queue.mode)
    {
      hide Rebuild, Having, State, Accepted, PolledFrom, Orderly, Agree, FollowsHost, KeepsOneAtATime, NeverAborts, SmallPolls, TurnEnds, FirstPoll;
      queue.Clear();
    }

    method RemoveFrom(queue: PendingMessageQueue, matches: Message -> bool)
      requires Valid() && queue in {agent.steeringQueue, agent.followUpQueue}
      modifies queue
      ensures Valid() && queue.batches == Matching(old(queue.batches), matches, false) && queue.mode == old(queue.mode)
    {
      hide Rebuild, Having, State, Accepted, PolledFrom, Orderly, Agree, FollowsHost, KeepsOneAtATime, NeverAborts, SmallPolls, TurnEnds, FirstPoll, Matching;
      var _ := queue.RemoveWhere(matches);
    }

    method ChangeModes(steering: QueueMode, followUp: QueueMode)
      requires Valid()
      requires KeepsOneAtATime(host) ==> steering == QueueMode.OneAtATime && followUp == QueueMode.OneAtATime
      modifies agent.steeringQueue`mode, agent.followUpQueue`mode
      ensures Valid() && agent.steeringQueue.mode == steering && agent.followUpQueue.mode == followUp
    {
      hide Rebuild, Having, State, Accepted, PolledFrom, Orderly, Agree, FollowsHost, KeepsOneAtATime, NeverAborts, SmallPolls, TurnEnds, FirstPoll;
      agent.steeringQueue.mode := steering;
      agent.followUpQueue.mode := followUp;
    }

    method Signal()
      requires Valid() && !NeverAborts(host)
      modifies this`aborted, this`trace, this`st
      ensures Valid() && OnlyTimePassed() && aborted
    {
      if !aborted {
        aborted := true;
        Note(AbortSignalled);
      }
    }

    /** The callback of an execution that has ended, or of an aborted run, is ignored. */
    method ReceiveUpdate(id: string)
      requires Valid()
      modifies this`trace, this`st, agent
      ensures Valid() && OnlyTimePassed()
      ensures trace == if id in accepting && !aborted then old(trace) + [Emitted(ToolUpdate(id))] else old(trace)
    {
      hide Rebuild, Having, State, Accepted, PolledFrom, Orderly, Agree, FollowsHost, KeepsOneAtATime, NeverAborts, SmallPolls, TurnEnds,
           FirstPoll, Committed, MayEmit, AfterEvent;
      if id in accepting && !aborted {
        ToolUpdateMove();
        agent.ProcessEvents(ToolUpdate(id), before, trace);
        Note(Emitted(ToolUpdate(id)));
      }
    }

    /** An update of an execution that accepts them changes nothing of the run's state. */
    lemma ToolUpdateMove()
      requires Valid() && !aborted
      ensures forall id :: id in accepting ==> MayEmit(st, ToolUpdate(id)) && AfterEvent(st, ToolUpdate(id)) == st
    {
      hide Rebuild, Having, State, Accepted, PolledFrom, Agree, FollowsHost, KeepsOneAtATime, NeverAborts, SmallPolls, TurnEnds, FirstPoll;
      forall id | id in accepting
        ensures MayEmit(st, ToolUpdate(id)) && AfterEvent(st, ToolUpdate(id)) == st
      {
        assert id in st.openTools;
      }
    }

    method Queue(queue: PendingMessageQueue, batch: Batch)
      requires Valid() && queue in {agent.steeringQueue, agent.followUpQueue}
      modifies queue
      ensures Valid() && queue.mode == old(queue.mode)
      ensures queue.batches == if |batch| > 0 then old(queue.batches) + [batch] else old(queue.batches)
    {
      hide Rebuild, State, Accepted, PolledFrom, Orderly, Agree, FollowsHost, KeepsOneAtATime, NeverAborts, SmallPolls, TurnEnds, FirstPoll;
      queue.Enqueue(batch);
      HavingAppend(old(queue.log), [Entry(batch, Queued)], Drained);
    }

    /** Wait for an operation; the abort signal may reject it first. */
    method Race() returns (rejected: bool)
      requires Valid()
      modifies this, agent, agent.steeringQueue, agent.followUpQueue
      ensures Valid() && OnlyTimePassed()
      ensures rejected <==> old(aborted) || (aborted && !host.settlesFirst(clock))
      ensures old(aborted) ==> clock == old(clock)
    {
      if aborted {
        return true;
      }
      Await();
      rejected := aborted && !host.settlesFirst(clock);
    }

    /** Hand an event to the agent and wait for its listeners. At a turn_end the accounts are compared. */
    method Emit(e: Event)
      requires Valid() && MayEmit(st, e) && Follows(host, st, Emitted(e))
      requires e.TurnEnd? ==> Synced()
      requires e.ToolEnd? ==> accepting <= st.openTools - multiset{e.id}
      modifies this, agent, agent.steeringQueue, agent.followUpQueue
      ensures Valid()
      ensures st == AfterEvent(old(st), e).(aborted := aborted) && (old(aborted) ==> aborted)
      ensures Committed(st) == if e.MessageEnd? then Committed(old(st)) + [e.message] else Committed(old(st))
      ensures messages == old(messages) && newMessages == old(newMessages) && accepting == old(accepting)
      ensures skipInitialSteeringPoll == old(skipInitialSteeringPoll)
    {
      hide AfterEvent, MayEmit, Valid, Committed, Orderly, Synced, Follows;
      SignalSeen();
      CommitStep(st, Emitted(e));
      if e.TurnEnd? {
        DeliverTurnEnd(e);
      } else {
        Deliver(e);
      }
      Await();
    }

    method Deliver(e: Event)
      requires Valid() && MayEmit(st, e) && !e.TurnEnd? && Follows(host, st, Emitted(e))
      requires e.ToolEnd? ==> accepting <= st.openTools - multiset{e.id}
      modifies this`trace, this`st, agent
      ensures Valid() && st == AfterEvent(old(st), e)
    {
      hide AfterEvent, MayEmit, Follows;
      EventKeeps(st, e);
      agent.ProcessEvents(e, before, trace);
      Note(Emitted(e));
    }

    /** The comparison that the agent's users rely on: three accounts of one conversation. */
    method DeliverTurnEnd(e: Event)
      requires Valid() && MayEmit(st, e) && e.TurnEnd? && Synced()
      modifies this`trace, this`st, this`turnEnds, agent
      ensures Valid() && st == AfterEvent(old(st), e)
      ensures turnEnds == old(turnEnds) + [Accounts(messages, newMessages, agent.messages, log.read)]
    {
      hide AfterEvent, MayEmit, Committed, Rebuild, State, Accepted, Orderly, Having, PolledFrom, TurnEnds, AllGiven, AllWhole,
           SmallPolls, KeepsOneAtATime, NeverAborts, FirstPoll, SingleStarts, Extras, Told, AllResolved, ReplyTold, ReplyResolved, FollowsHost;
      EventKeeps(st, e);
      CommitStep(st, Emitted(e));
      ghost var done := Committed(st);
      agent.ProcessEvents(e, before, trace);
      Note(Emitted(e));
      RebuildsTranscript(prompts, before, trace);
      ContextLength(before.messages, done, messages, st.restarts);
      NoExtras(log.read);
      turnEnds := turnEnds + [Accounts(messages, newMessages, agent.messages, log.read)];
    }

    // ----- one tool call -----

    /** Nothing but tool events since `r`. */
    static ghost predicate Acted(r: Run, r': Run) {
      && r'.stage == Acting && r'.open == None
      && r'.turns == r.turns && r'.pending == r.pending && r'.polled == r.polled && r'.restarts == r.restarts
      && r'.owed == r.owed && r'.failure == r.failure
      && r'.turn.batches == r.turn.batches && r'.turn.injected == r.turn.injected && r'.turn.reply == r.turn.reply
    }

    method PrepareToolCall(call: ToolCall) returns (p: Preparation)
      requires Valid()
      modifies this, agent, agent.steeringQueue, agent.followUpQueue
      ensures Valid() && OnlyTimePassed()
      ensures Prepares(host, call, p, aborted)
      ensures old(aborted) && host.before.Some? ==> p.Immediate?
      ensures Steady(host) && !aborted ==> p == Verdict(host, call, 0, 0)
    {
      hide Valid, Committed, Find;
      SignalSeen();
      FindIsFirst(host.tools, call.name);
      if Find(host.tools, call.name) == None {
        return Immediate(ErrorOutcome("Tool " + call.name + " not found"));
      }
      var validated := host.validate(call, clock);
      if validated.Rejected? {
        return Immediate(ErrorOutcome(validated.message));
      }
      var args := validated.value;
      if host.before == None {
        return Prepared(args);
      }
      var rejected := Race();
      if rejected {
        return Immediate(ErrorOutcome(ABORT_ERROR_MESSAGE));
      }
      match host.before.value(call, args, clock) {
        case Rejected(message) => p := Immediate(ErrorOutcome(message));
        case Returned(None) => p := Prepared(args);
        case Returned(Some(reason)) =>
          p := Immediate(ErrorOutcome(if reason == "" then "Tool execution was blocked" else reason));
      }
    }

    /** Call the tool, unless the signal has fired. From here on its updates are accepted. */
    method BeginExecution(call: ToolCall, args: string) returns (phase: Phase)
      requires Valid() && accepting + multiset{call.id} <= st.openTools && Cleared(host, call, args)
      modifies this`accepting
      ensures Valid() && accepting == if phase.Running? then old(accepting) + multiset{call.id} else old(accepting)
      ensures phase == if aborted then Executed(args, ErrorOutcome("Tool execution aborted")) else Running(args)
    {
      if aborted {
        phase := Executed(args, ErrorOutcome("Tool execution aborted"));
      } else {
        accepting := accepting + multiset{call.id};
        phase := Running(args);
      }
    }

    /** The tool settles or the signal fires; either way no further update is accepted. */
    method SettleExecution(call: ToolCall, args: string) returns (o: Outcome)
      requires Valid() && call.id in accepting && Cleared(host, call, args)
      modifies this, agent, agent.steeringQueue, agent.followUpQueue
      ensures Valid() && accepting == old(accepting) - multiset{call.id}
      ensures st == old(st).(aborted := aborted) && (old(aborted) ==> aborted) && Committed(st) == Committed(old(st))
      ensures messages == old(messages) && newMessages == old(newMessages) && turnEnds == old(turnEnds)
      ensures skipInitialSteeringPoll == old(skipInitialSteeringPoll)
      ensures Settles(host, call, args, o, aborted)
      ensures old(aborted) ==> IsError(o, "Tool execution aborted")
      ensures Steady(host) && !aborted ==> o == Ran(host, call, args, 0)
    {
      hide Valid, Committed;
      SignalSeen();
      var rejected := Race();
      var settled := host.execute(call, args, clock);
      StopAccepting(call.id);
      var _ := Race();  // the updates already emitted are flushed
      if !rejected && settled.Returned? {
        o := Outcome(settled.value, false);
      } else {
        o := ErrorOutcome(if aborted then "Tool execution aborted" else settled.message);
      }
    }

    method StopAccepting(id: string)
      requires Valid() && id in accepting
      modifies this`accepting
      ensures Valid() && accepting == old(accepting) - multiset{id}
    {
      hide Rebuild, Having, State, Accepted, PolledFrom, Orderly, Agree, FollowsHost, KeepsOneAtATime, NeverAborts, SmallPolls, TurnEnds, FirstPoll;
      accepting := accepting - multiset{id};
    }

    /** `finalizeExecutedToolCall`: let afterToolCall replace parts of the result. */
    method ReviewExecution(call: ToolCall, args: string, executed: Outcome) returns (o: Outcome)
      requires Valid()
      modifies this, agent, agent.steeringQueue, agent.followUpQueue
      ensures Valid() && OnlyTimePassed()
      ensures Reviews(host, call, args, executed, o, aborted)
      ensures old(aborted) && host.after.Some? ==> IsError(o, "Request was aborted")
      ensures Steady(host) && !aborted ==> o == Reviewed(host, call, args, executed, 0)
    {
      if host.after == None {
        return executed;
      }
      var rejected := Race();
      if rejected {
        return ErrorOutcome(ABORT_ERROR_MESSAGE);
      }
      match host.after.value(call, args, executed.output, executed.isError, clock) {
        case Rejected(message) => o := ErrorOutcome(message);
        case Returned(None) => o := executed;
        case Returned(Some(overrides)) => o := Override(executed, overrides);
      }
    }

    // ----- a batch of tool calls -----

    /** What a batch leaves alone. */
    twostate predicate SameLists()
      reads this
    {
      && messages == old(messages) && newMessages == old(newMessages)
      && skipInitialSteeringPoll == old(skipInitialSteeringPoll)
      && (old(aborted) ==> aborted)
    }

    method AnnounceCall(calls: seq<ToolCall>, tasks: seq<Task>) returns (tasks': seq<Task>)
      requires Valid() && Books(st, accepting, calls, tasks) && |tasks| < |calls|
      requires OneByOne(host, calls) ==> AllDone(tasks) && !aborted
      modifies this, agent, agent.steeringQueue, agent.followUpQueue
      ensures tasks' == tasks + [Task(calls[|tasks|], Waiting(""))]
      ensures Valid() && Books(st, accepting, calls, tasks') && Acted(old(st), st) && SameLists()
      ensures st.turn == old(st.turn) && Committed(st) == Committed(old(st))
    {
      hide Valid, Books, MayEmit, AfterEvent, Committed, Follows, EarnedOutcome, OneByOne, AllDone;
      var e := StartOf(calls[|tasks|]);
      ghost var r := st;
      SignalSeen();
      StartFollows(host, r, accepting, calls, tasks);
      BooksStart(r, accepting, calls, tasks, "");
      Emit(e);
      tasks' := tasks + [Task(calls[|tasks|], Waiting(""))];
      BooksTime(AfterEvent(r, e), st, accepting, calls, tasks');
    }

    method EndCall(calls: seq<ToolCall>, tasks: seq<Task>, i: nat, o: Outcome) returns (tasks': seq<Task>)
      requires Valid() && Books(st, accepting, calls, tasks)
      requires i < |tasks| && !tasks[i].phase.Done? && !tasks[i].phase.Running? && EarnedOutcome(host, tasks[i].call, o)
      modifies this, agent, agent.steeringQueue, agent.followUpQueue
      ensures tasks' == SetPhase(tasks, i, Done(o))
      ensures Valid() && Books(st, accepting, calls, tasks') && Acted(old(st), st) && SameLists()
      ensures st.turn == old(st.turn) && Committed(st) == Committed(old(st))
    {
      hide Valid, Books, MayEmit, AfterEvent, Committed, Follows, EarnedOutcome, OneByOne, AllDone;
      var e := EndOf(tasks[i].call, o);
      ghost var r := st;
      EndFollows(host, r, accepting, calls, tasks, i, o);
      BooksEnd(r, accepting, calls, tasks, i, o);
      Emit(e);
      tasks' := SetPhase(tasks, i, Done(o));
      BooksTime(AfterEvent(r, e), st, accepting, calls, tasks');
    }

    /** Announce the next call and prepare it; a call that needs no execution ends at once. */
    method StartCall(calls: seq<ToolCall>, tasks: seq<Task>) returns (tasks': seq<Task>)
      requires Valid() && Books(st, accepting, calls, tasks) && |tasks| < |calls| && AllEarned(host, tasks)
      requires OneByOne(host, calls) ==> AllDone(tasks) && !aborted
      requires Steady(host) && !aborted ==> AllOnCourse(host, tasks)
      modifies this, agent, agent.steeringQueue, agent.followUpQueue
      ensures Valid() && Books(st, accepting, calls, tasks') && Acted(old(st), st) && SameLists()
      ensures st.turn == old(st.turn) && Committed(st) == Committed(old(st))
      ensures |tasks'| == |tasks| + 1 && tasks'[..|tasks|] == tasks
      ensures tasks'[|tasks|].phase.Waiting? || tasks'[|tasks|].phase.Done?
      ensures AllEarned(host, tasks')
      ensures Steady(host) && !aborted ==> AllOnCourse(host, tasks')
    {
      hide Valid, Books, MayEmit, AfterEvent, Committed, Steady, OnCourse, Verdict, OneByOne, Prepares, AllDone, Earned, AllEarned, EarnedOutcome;
      var k, call := |tasks|, calls[|tasks|];
      tasks' := AnnounceCall(calls, tasks);
      ghost var r := st;
      var preparation := PrepareToolCall(call);
      BooksTime(r, st, accepting, calls, tasks');
      if Steady(host) && !aborted {
        OnCourseFromStart(host, call, preparation);
      }
      EarnedFromStart(host, call, preparation, aborted);
      OneMoreEarned(host, tasks, Task(call, Opening(preparation)));
      if preparation.Immediate? {
        tasks' := EndCall(calls, tasks', k, preparation.outcome);
      } else {
        BooksMove(st, accepting, calls, tasks', k, Opening(preparation));
        tasks' := SetPhase(tasks', k, Opening(preparation));
      }
      assert tasks' == tasks + [Task(call, Opening(preparation))];
      assert Steady(host) && !aborted ==> OnCourse(host, tasks'[k]);
    }

    ghost predicate CanStep(calls: seq<ToolCall>, tasks: seq<Task>, i: nat)
      reads this, agent, agent.steeringQueue, agent.followUpQueue
    {
      && Valid() && Books(st, accepting, calls, tasks)
      && i < |tasks| && !tasks[i].phase.Done? && AllEarned(host, tasks)
      && (Steady(host) && !aborted ==> AllOnCourse(host, tasks))
    }

    /** Execution `i`, and no other, has moved on. */
    twostate predicate Stepped(calls: seq<ToolCall>, tasks: seq<Task>, i: nat, tasks': seq<Task>)
      requires i < |tasks|
      reads this, agent, agent.steeringQueue, agent.followUpQueue
    {
      && Valid() && Books(st, accepting, calls, tasks') && Acted(old(st), st) && SameLists()
      && st.turn == old(st.turn) && Committed(st) == Committed(old(st))
      && |tasks'| == |tasks| && tasks' == SetPhase(tasks, i, tasks'[i].phase)
      && Rank(tasks'[i]) < Rank(tasks[i]) && !tasks'[i].phase.Waiting? && AllEarned(host, tasks')
      && (Steady(host) && !aborted ==> AllOnCourse(host, tasks'))
    }

    method StartExecution(calls: seq<ToolCall>, tasks: seq<Task>, i: nat) returns (tasks': seq<Task>)
      requires CanStep(calls, tasks, i) && tasks[i].phase.Waiting?
      modifies this, agent, agent.steeringQueue, agent.followUpQueue
      ensures Stepped(calls, tasks, i, tasks')
    {
      hide Valid, Books, Committed, Steady, OnCourse, Earned, Cleared;
      var call, args := tasks[i].call, tasks[i].phase.arguments;
      EarnedSteps(host, tasks, i);
      if Steady(host) && !aborted {
        StaysOnCourse(host, tasks[i]);
      }
      BooksBegin(st, accepting, calls, tasks, i, args);
      var phase := BeginExecution(call, args);
      OneEarned(host, tasks, i, phase);
      if Steady(host) && !aborted {
        OneOnCourse(host, tasks, i, phase);
      }
      hide AllOnCourse, SetPhase;
      tasks' := SetPhase(tasks, i, phase);
    }

    method SettleTask(calls: seq<ToolCall>, tasks: seq<Task>, i: nat) returns (tasks': seq<Task>)
      requires CanStep(calls, tasks, i) && tasks[i].phase.Running?
      modifies this, agent, agent.steeringQueue, agent.followUpQueue
      ensures Stepped(calls, tasks, i, tasks')
    {
      hide Valid, Books, Committed, Steady, OnCourse, Ran, Orderly, Earned, Cleared, Settles;
      var call, args := tasks[i].call, tasks[i].phase.arguments;
      ghost var r, live := st, accepting;
      EarnedSteps(host, tasks, i);
      if Steady(host) && !aborted {
        StaysOnCourse(host, tasks[i]);
      }
      BooksSettle(r, r, live, calls, tasks, i, Executed(args, ErrorOutcome("")));
      var o := SettleExecution(call, args);
      BooksSettle(r, st, live, calls, tasks, i, Executed(args, o));
      OneEarned(host, tasks, i, Executed(args, o));
      if Steady(host) && !aborted {
        OneOnCourse(host, tasks, i, Executed(args, o));
      }
      hide AllOnCourse, SetPhase;
      tasks' := SetPhase(tasks, i, Executed(args, o));
    }

    method ReviewTask(calls: seq<ToolCall>, tasks: seq<Task>, i: nat) returns (tasks': seq<Task>)
      requires CanStep(calls, tasks, i) && tasks[i].phase.Executed?
      modifies this, agent, agent.steeringQueue, agent.followUpQueue
      ensures Stepped(calls, tasks, i, tasks')
    {
      hide Valid, Books, Committed, Steady, OnCourse, Reviewed, Earned, Cleared, Reviews;
      var call := tasks[i].call;
      ghost var r := st;
      EarnedSteps(host, tasks, i);
      if Steady(host) && !aborted {
        StaysOnCourse(host, tasks[i]);
      }
      var o := ReviewExecution(call, tasks[i].phase.arguments, tasks[i].phase.outcome);
      BooksTime(r, st, accepting, calls, tasks);
      BooksMove(st, accepting, calls, tasks, i, Ruled(o));
      OneEarned(host, tasks, i, Ruled(o));
      tasks' := SetPhase(tasks, i, Ruled(o));
    }

    /** Let one execution take its next step: start, settle, be reviewed, or end. */
    method StepTask(calls: seq<ToolCall>, tasks: seq<Task>, i: nat) returns (tasks': seq<Task>)
      requires CanStep(calls, tasks, i)
      modifies this, agent, agent.steeringQueue, agent.followUpQueue
      ensures Stepped(calls, tasks, i, tasks')
    {
      hide Valid, Books, Committed, Steady, OnCourse, Earned, Cleared;
      match tasks[i].phase {
        case Waiting(_) => tasks' := StartExecution(calls, tasks, i);
        case Running(_) => tasks' := SettleTask(calls, tasks, i);
        case Executed(_, _) => tasks' := ReviewTask(calls, tasks, i);
        case Ruled(o) =>
          EarnedSteps(host, tasks, i);
          OneEarned(host, tasks, i, Done(o));
          if Steady(host) && !aborted {
            StaysOnCourse(host, tasks[i]);
          }
          tasks' := EndCall(calls, tasks, i, o);
      }
    }

    /** `createToolResultMessage` and `emitToolResultMessage` for the next call in source order. */
    method EmitResult(calls: seq<ToolCall>, tasks: seq<Task>, k: nat) returns (m: Message)
      requires Valid() && Books(st, accepting, calls, tasks) && AllDone(tasks)
      requires Results(st, tasks) && k == |st.turn.results| < |tasks|
      modifies this, agent, agent.steeringQueue, agent.followUpQueue
      ensures Valid() && Books(st, accepting, calls, tasks) && Acted(old(st), st) && SameLists()
      ensures st.turn.results == old(st).turn.results + [m] && Results(st, tasks)
      ensures Committed(st) == Committed(old(st)) + [m]
    {
      hide Valid, Books, MayEmit, AfterEvent, Committed;
      ghost var r := st;
      m := ResultMessage(tasks[k].call, tasks[k].phase.outcome, clock);
      BooksResult(r, accepting, calls, tasks, clock);
      Emit(MessageStart(m));
      ghost var r' := st;
      BooksResultEnd(r, r', accepting, calls, tasks, m);
      Emit(MessageEnd(m));
      BooksTime(AfterEvent(r', MessageEnd(m)), st, accepting, calls, tasks);
    }

    /** A reply is complete, it did not fail, and none of its calls has begun. */
    ghost predicate BeforeBatch(calls: seq<ToolCall>)
      reads this
    {
      && Books(st, accepting, calls, []) && st.turn.results == []
    }

    /** What every execution mode leaves behind. */
    twostate predicate AfterBatch(calls: seq<ToolCall>, results: seq<Message>, terminate: bool)
      reads this
    {
      && Acted(old(st), st) && SameLists() && st.openTools == multiset{}
      && st.turn.results == results && |results| == st.started <= |calls|
      && (|results| < |calls| ==> aborted)
      && Committed(st) == Committed(old(st)) + results
      && terminate == AllTerminate(st.finished)
      && ResultsEarned(host, calls, results)
      && (Steady(host) && !aborted ==> ResultsOf(host, calls, results) && terminate == Terminates(host, calls))
    }

    /** In the middle of a batch. */
    twostate predicate MidBatch(calls: seq<ToolCall>, tasks: seq<Task>)
      reads this, agent, agent.steeringQueue, agent.followUpQueue
    {
      && Valid() && Books(st, accepting, calls, tasks) && Acted(old(st), st) && SameLists()
      && Results(st, tasks) && Committed(st) == Committed(old(st)) + st.turn.results && AllEarned(host, tasks)
      && (Steady(host) && !aborted ==> AllOnCourse(host, tasks))
    }

    method ExecuteToolCallsSequential(calls: seq<ToolCall>) returns (results: seq<Message>, terminate: bool)
      requires Valid() && BeforeBatch(calls)
      modifies this, agent, agent.steeringQueue, agent.followUpQueue
      ensures Valid() && AfterBatch(calls, results, terminate)
    {
      hide Valid, Books, Committed, Steady, OnCourse, AllTerminate, Final, Earned, ResultsEarned, OneByOne;
      var tasks: seq<Task> := [];
      results := [];
      BooksClosed(st, accepting, calls, tasks);
      assert Committed(st) == Committed(st) + [];
      for k := 0 to |calls|
        invariant k == |tasks| && AllDone(tasks)
        invariant MidBatch(calls, tasks)
        invariant results == st.turn.results && |results| == |tasks|
      {
        if aborted {
          break;
        }
        tasks := StartCall(calls, tasks);
        while !tasks[k].phase.Done?
          invariant |tasks| == k + 1 && AllDone(tasks[..k])
          invariant MidBatch(calls, tasks) && results == st.turn.results
          decreases Rank(tasks[k])
        {
          tasks := StepTask(calls, tasks, k);
        }
        var m := EmitResult(calls, tasks, k);
        results := results + [m];
        if aborted {
          break;
        }
      }
      terminate := ShouldTerminate(tasks);
      BooksClosed(st, accepting, calls, tasks);
      EarnedResults(host, st, accepting, calls, tasks);
      if Steady(host) && !aborted {
        CourseGivesResults(host, st, accepting, calls, tasks);
      }
    }

    /** Calls are prepared one by one; then the executions interleave, in any order of steps there is. */
    method ExecuteToolCallsParallel(calls: seq<ToolCall>) returns (results: seq<Message>, terminate: bool)
      requires Valid() && BeforeBatch(calls) && !OneByOne(host, calls)
      modifies this, agent, agent.steeringQueue, agent.followUpQueue
      ensures Valid() && AfterBatch(calls, results, terminate) && |results| == |calls|
    {
      hide Valid, Books, Committed, Steady, OnCourse, AllTerminate, Final, Earned, ResultsEarned, OneByOne;
      var tasks: seq<Task> := [];
      BooksClosed(st, accepting, calls, tasks);
      assert Committed(st) == Committed(st) + [];
      for k := 0 to |calls|
        invariant k == |tasks| && |st.turn.results| == 0
        invariant MidBatch(calls, tasks)
      {
        tasks := StartCall(calls, tasks);
      }
      for k := 0 to |tasks|
        invariant |tasks| == |calls| && |st.turn.results| == 0
        invariant MidBatch(calls, tasks)
      {
        if tasks[k].phase.Waiting? {
          tasks := StepTask(calls, tasks, k);
        }
      }
      tasks := Interleave(calls, tasks);
      results := [];
      for k := 0 to |tasks|
        invariant MidBatch(calls, tasks) && AllDone(tasks)
        invariant results == st.turn.results && |results| == k
      {
        var m := EmitResult(calls, tasks, k);
        results := results + [m];
      }
      terminate := ShouldTerminate(tasks);
      BooksClosed(st, accepting, calls, tasks);
      EarnedResults(host, st, accepting, calls, tasks);
      if Steady(host) && !aborted {
        CourseGivesResults(host, st, accepting, calls, tasks);
      }
    }

    method Interleave(calls: seq<ToolCall>, tasks0: seq<Task>) returns (tasks: seq<Task>)
      requires Valid() && Books(st, accepting, calls, tasks0) && |st.turn.results| == 0 && AllEarned(host, tasks0)
      requires Steady(host) && !aborted ==> AllOnCourse(host, tasks0)
      modifies this, agent, agent.steeringQueue, agent.followUpQueue
      ensures Valid() && Books(st, accepting, calls, tasks) && Acted(old(st), st) && SameLists()
      ensures st.turn == old(st.turn) && Committed(st) == Committed(old(st))
      ensures Steady(host) && !aborted ==> AllOnCourse(host, tasks)
      ensures |tasks| == |tasks0| && AllDone(tasks) && AllEarned(host, tasks)
    {
      hide Valid, Books, Committed, Steady, OnCourse, Earned, Cleared;
      tasks := tasks0;
      BooksTime(st, st, accepting, calls, tasks);
      var open := Unfinished(tasks);
      var step := 0;
      while |open| > 0
        invariant open == Unfinished(tasks) && |tasks| == |tasks0| && AllEarned(host, tasks)
        invariant Valid() && Books(st, accepting, calls, tasks) && Acted(old(st), st) && SameLists()
        invariant st.turn == old(st.turn) && Committed(st) == Committed(old(st))
        invariant Steady(host) && !aborted ==> AllOnCourse(host, tasks)
        decreases TotalRank(tasks)
      {
        var i := open[host.schedule(clock, step) % |open|];
        step := step + 1;
        ghost var before := tasks;
        tasks := StepTask(calls, tasks, i);
        StepLowersRank(before, i, tasks[i].phase);
        open := Unfinished(tasks);
      }
    }

    method ExecuteToolCalls(calls: seq<ToolCall>) returns (results: seq<Message>, terminate: bool)
      requires Valid() && BeforeBatch(calls)
      modifies this, agent, agent.steeringQueue, agent.followUpQueue
      ensures Valid() && AfterBatch(calls, results, terminate)
      ensures !OneByOne(host, calls) ==> |results| == |calls|
    {
      hide Valid, Books, Committed, Steady, AllTerminate, Final, ResultsEarned, OneByOne;
      var sequential := host.sequential;
      NoCallsOneByOne(host);
      assert calls[..0] == [];
      for k := 0 to |calls|
        invariant sequential <==> OneByOne(host, calls[..k])
        modifies {}
      {
        OneCallMore(host, calls[..k], calls[k]);
        assert calls[..k + 1] == calls[..k] + [calls[k]];
        var tool := Find(host.tools, calls[k].name);
        if tool.Some? && tool.value.sequential {
          sequential := true;
        }
      }
      assert calls[..|calls|] == calls;
      if sequential {
        results, terminate := ExecuteToolCallsSequential(calls);
      } else {
        results, terminate := ExecuteToolCallsParallel(calls);
      }
    }

    // ----- streaming one assistant message -----

    /** The context while a reply is open: the committed messages, stale partials if any, and the open one. */
    ghost predicate Replying(added: bool)
      reads this
    {
      if added then
        && st.stage == Streaming
        && |messages| == |before.messages| + |Committed(st)| + st.restarts + 1
        && (st.restarts == 0 ==> messages[..|messages| - 1] == before.messages + Committed(st))
      else
        ReplyMayOpen(st) && ContextAgrees()
    }

    /** The reply is committed to the context and to the events. */
    twostate predicate Replied(m: Message)
      reads this
    {
      && st.turns == old(st.turns) && (old(aborted) ==> aborted)
      && st.stage == Acting && st.open == None && st.turn.reply == Some(m) && |st.turn.results| == 0
      && st.started == 0 && st.openTools == multiset{} && st.finished == multiset{} && accepting == multiset{}
      && ContextAgrees() && Committed(st) == Committed(old(st)) + [m]
      && newMessages == old(newMessages) && skipInitialSteeringPoll == old(skipInitialSteeringPoll)
    }

    /** A reply that could not be completed because something threw. */
    twostate predicate Interrupted()
      reads this
    {
      && (st.stage == Injecting || st.stage == Streaming) && st.turns == old(st.turns)
      && newMessages == old(newMessages) && skipInitialSteeringPoll == old(skipInitialSteeringPoll)
    }

    method FinishReply(added: bool, final: AssistantMessage)
      requires Valid() && Replying(added)
      modifies this, agent, agent.steeringQueue, agent.followUpQueue
      ensures Valid() && Replied(final) && st.restarts == old(st.restarts)
    {
      hide MayEmit, AfterEvent, Committed, Rebuild, State, Accepted, Having, PolledFrom;
      if added {
        messages := messages[|messages| - 1 := final];
      } else {
        messages := messages + [final];
        OpenReplyMove(st, final);
        Emit(MessageStart(final));
      }
      StreamingMoves(st, final);
      Emit(MessageEnd(final));
    }

    /** An error while the signal has fired counts as the abort only when it is recognised as one. */
    method Settle(failure: Option<Failure>) returns (r: Raced<()>)
      requires Valid()
      ensures r.Value? <==> failure == None
      ensures r.Cancelled? <==> aborted && failure.Some? && failure.value.isAbort
    {
      if failure == None {
        return Value(());
      }
      r := if aborted && failure.value.isAbort then Cancelled else Broke;
    }

    /** transformContext, convertToLlm, getApiKey and the call of the stream function, one after the other. */
    method Prelude() returns (r: Raced<()>)
      requires Valid()
      modifies this, agent, agent.steeringQueue, agent.followUpQueue
      ensures Valid() && OnlyTimePassed() && (r.Cancelled? ==> aborted) && (r.Broke? ==> MayFail(host))
    {
      hide Valid, Committed;
      SignalSeen();
      r := Value(());
      for step := 0 to 4
        invariant Valid() && OnlyTimePassed() && r.Value?
      {
        var rejected := Race();
        if rejected {
          return Cancelled;
        }
        r := Settle(host.prelude(clock));
        assert host.prelude(clock).Some? ==> FailsAt(host, clock);
        if !r.Value? {
          return;
        }
      }
    }

    /** What has been read of the open stream, and of the ones before it. */
    ghost predicate Reading(seen: seq<StreamEvent>)
      reads this, log
    {
      && st.restarts == Extras(log.read) + Extra(seen) && |log.read| == |st.turns|
      && AllGiven(host, log.read) && (!aborted ==> AllWhole(host, log.read))
      && Told(host, st.turns, log.read) && (!aborted ==> AllResolved(host, st.turns))
    }

    /** A reply that may be committed now: what was read accounts for it, and unless the signal has fired it is the result. */
    ghost predicate MayReply(m: AssistantMessage, read: seq<StreamEvent>)
      reads this
    {
      Answered(host, read, m) && (!aborted ==> Resolves(host, m))
    }

    /** The loop is done with a stream: unless the signal has fired it was read to its end. */
    ghost method CloseStream(seen: seq<StreamEvent>, at: nat)
      requires Reading(seen) && seen <= UpToEnd(host.stream(at))
      requires !aborted ==> seen == UpToEnd(host.stream(at))
      requires st.turn.reply.Some? ==> st.turn.reply.value.Assistant? && MayReply(st.turn.reply.value, seen)
      modifies log
      ensures log.read == old(log.read) + [seen] && Accountable() && |log.read| == |st.turns| + 1
    {
      hide UpToEnd, Answered, Resolves, Extra, Extras, AllResolved;
      GivenOneMore(host, log.read, seen, at);
      ToldLonger(host, st.turns, log.read, seen);
      ExtrasSnoc(log.read, seen);
      log.read := log.read + [seen];
    }

    /** Between two steps of a reply the account of what was read stays right. */
    twostate lemma ReadingStays(seen: seq<StreamEvent>)
      requires old(Reading(seen)) && log.read == old(log.read)
      requires st.restarts == old(st.restarts) && st.turns == old(st.turns) && (old(aborted) ==> aborted)
      ensures Reading(seen)
    {
    }

    /** Commit the reply and close its stream. */
    method FinishStream(added: bool, final: AssistantMessage, ghost seen: seq<StreamEvent>, ghost at: nat)
      requires Valid() && Replying(added) && Reading(seen) && seen <= UpToEnd(host.stream(at))
      requires !aborted ==> seen == UpToEnd(host.stream(at))
      requires MayReply(final, seen)
      modifies this, log, agent, agent.steeringQueue, agent.followUpQueue
      ensures Valid() && Replied(final) && Accountable()
      ensures log.read == old(log.read) + [seen] && MayReply(final, seen)
    {
      hide Valid, Committed, Replying, Reading, Accountable, UpToEnd, Answered, Resolves;
      FinishReply(added, final);
      ReadingStays(seen);
      CloseStream(seen, at);
    }

    /**
     * `streamAssistantResponse`. Each reply asked for adds what was read of its stream to the log, and
     * restarts a message bracket once for every `start` but the first in it.
     */
    method StreamAssistantResponse() returns (ok: bool, message: AssistantMessage)
      requires Valid() && ReplyMayOpen(st) && ContextAgrees() && Accountable() && |log.read| == |st.turns|
      modifies this, log, agent, agent.steeringQueue, agent.followUpQueue
      ensures Valid() && Accountable() && old(log.read) <= log.read
      ensures ok ==> Replied(message) && |log.read| == |old(log.read)| + 1 && Answered(host, log.read[|old(log.read)|], message)
      ensures ok && !aborted ==> Resolves(host, message)
      ensures old(aborted) ==> ok && MarkedAborted(message, None)
      ensures !ok ==> Interrupted() && MayFail(host)
    {
      hide Valid, Committed, AllGiven, AllWhole, Extras, Starts, UpToEnd, Resolves, FailsAt, Told, AllResolved;
      NothingRead();
      message := AbortedMessage(None);
      if aborted {
        FinishStream(false, message, [], clock);
        return true, message;
      }
      var ready := Prelude();
      if !ready.Value? {
        ok := ready.Cancelled?;
        if ok {
          FinishStream(false, message, [], clock);
        }
        return;
      }
      ghost var at := clock;
      ghost var seen;
      ok, message, seen := ReadStream(host.stream(clock), at);
    }

    /** The partial message last read is what the context ends with and what the agent is shown. */
    ghost predicate Showing(partial: Option<AssistantMessage>)
      reads this
    {
      partial.Some? ==> st.open == Some(partial.value) && |messages| > 0 && messages[|messages| - 1] == partial.value
    }

    /** In the middle of a reply: what does not change until it is committed. */
    twostate predicate MidReply()
      reads this, log
    {
      && newMessages == old(newMessages) && skipInitialSteeringPoll == old(skipInitialSteeringPoll)
      && log.read == old(log.read) && st.turns == old(st.turns) && (old(aborted) ==> aborted)
      && Committed(st) == Committed(old(st))
    }

    /** The loop over the events of one stream. */
    method ReadStream(events: seq<StreamEvent>, ghost at: nat)
      returns (ok: bool, message: AssistantMessage, ghost seen: seq<StreamEvent>)
      requires Valid() && ReplyMayOpen(st) && ContextAgrees() && Accountable() && |log.read| == |st.turns|
      requires events == host.stream(at)
      modifies this, log, agent, agent.steeringQueue, agent.followUpQueue
      ensures Valid() && Accountable() && seen <= events && log.read == old(log.read) + [seen]
      ensures ok ==> Replied(message) && MayReply(message, seen)
      ensures !ok ==> Interrupted() && MayFail(host)
    {
      hide Valid, Committed, Starts, UpToEnd, Reading, Replying, Accountable, ContextAgrees, Terminal, Extra, MayReply, LastPartial, FailsAt,
           Showing;
      BeginReading();
      seen := [];
      var partial: Option<AssistantMessage> := None;
      var added := false;
      message := AbortedMessage(None);
      for i := 0 to |events|
        invariant seen == events[..i]
        invariant Valid() && Replying(added) && added == partial.Some? && MidReply() && Showing(partial)
        invariant Reading(seen) && (added <==> Starts(seen) > 0) && partial == LastPartial(seen)
        invariant forall j :: 0 <= j < i ==> !Terminal(events[j])
      {
        UpToEndAt(events, i);
        ReadFrom(at, events[i]);
        assert seen + [events[i]] == events[..i + 1];
        ghost var read;
        var done;
        done, ok, message, partial, added, read := NextEvent(events[i], partial, added, seen, at);
        if done {
          seen := read;
          return;
        }
        seen := seen + [events[i]];
      }
      UpToEndAt(events, |events|);
      assert seen == events == events[..|events|];
      ok, message := EndOfEvents(partial, added, seen, at);
    }

    /** One turn of the loop: wait for an event and act on it; the reply may be over then. */
    method NextEvent(e: StreamEvent, partial: Option<AssistantMessage>, added: bool, ghost seen: seq<StreamEvent>, ghost at: nat)
      returns (done: bool, ok: bool, message: AssistantMessage, partial': Option<AssistantMessage>, added': bool,
               ghost read: seq<StreamEvent>)
      requires Valid() && Replying(added) && Reading(seen) && added == partial.Some? && (added <==> Starts(seen) > 0)
      requires e in host.stream(at)
      requires seen <= UpToEnd(host.stream(at)) && (Terminal(e) ==> UpToEnd(host.stream(at)) == seen + [e])
      requires partial == LastPartial(seen) && (e.StreamBroken? ==> FailsAt(host, at)) && Showing(partial)
      modifies this, log, agent, agent.steeringQueue, agent.followUpQueue
      ensures Valid()
      ensures done ==> Accountable() && (read == seen || read == seen + [e]) && log.read == old(log.read) + [read]
      ensures done && ok ==> Replied(message) && MayReply(message, read)
      ensures done && !ok ==> Interrupted() && MayFail(host)
      ensures !done ==> Replying(added') && Reading(seen + [e]) && MidReply() && !Terminal(e) && Showing(partial')
      ensures !done ==> added' == partial'.Some? && (added' <==> Starts(seen + [e]) > 0) && partial' == LastPartial(seen + [e])
    {
      hide Valid, Committed, Extra, Starts, UpToEnd, Reading, Replying, Accountable, ContextAgrees, Terminal, LastPartial, FailsAt, Resolves,
           Showing;
      partial', added' := partial, added;
      message := AbortedMessage(partial);
      done, ok, read := true, true, seen;
      var rejected := Wait(added, partial, seen);
      if rejected {
        FinishStream(added, message, seen, at);
      } else if Terminal(e) {
        ok, message := EndStream(e, partial, added, seen, at);
        read := seen + [e];
      } else {
        done := false;
        partial', added' := ReadEvent(e, partial, added, seen, at);
      }
    }

    /** The stream ended without a terminal event. */
    method EndOfEvents(partial: Option<AssistantMessage>, added: bool, ghost seen: seq<StreamEvent>, ghost at: nat)
      returns (ok: bool, message: AssistantMessage)
      requires Valid() && Replying(added) && Reading(seen) && seen == UpToEnd(host.stream(at)) && partial == LastPartial(seen)
      modifies this, log, agent, agent.steeringQueue, agent.followUpQueue
      ensures Valid() && Accountable() && log.read == old(log.read) + [seen]
      ensures ok ==> Replied(message) && MayReply(message, seen)
      ensures !ok ==> Interrupted() && MayFail(host)
    {
      hide Valid, Committed, Reading, Accountable, UpToEnd, Replying, ContextAgrees, Resolves, LastPartial, FailsAt;
      ok, message := ResultAtEnd(added, partial, seen);
      if ok {
        FinishStream(added, message, seen, at);
      } else {
        RepliesInStage(added);
        CloseStream(seen, at);
      }
    }

    lemma RepliesInStage(added: bool)
      requires Valid() && Replying(added)
      ensures (st.stage == Injecting || st.stage == Streaming) && st.turn.reply == None
    {
    }

    /** An iterator that rejects is a failure of the host. */
    lemma ReadFrom(at: nat, e: StreamEvent)
      requires e in host.stream(at)
      ensures e.StreamBroken? ==> FailsAt(host, at)
    {
    }

    /** Wait for the next event of the stream. */
    method Wait(added: bool, ghost partial: Option<AssistantMessage>, ghost seen: seq<StreamEvent>) returns (rejected: bool)
      requires Valid() && Replying(added) && Reading(seen) && Showing(partial)
      modifies this, agent, agent.steeringQueue, agent.followUpQueue
      ensures Valid() && Replying(added) && Reading(seen) && MidReply() && Showing(partial)
      ensures rejected ==> aborted
    {
      hide Valid, Committed, AllGiven, AllWhole, Extras, Extra, Told, AllResolved;
      SignalSeen();
      rejected := Race();
    }

    lemma BeginReading()
      requires ReplyMayOpen(st) && ContextAgrees() && Accountable() && |log.read| == |st.turns|
      ensures Replying(false) && Reading([]) && Starts([]) == 0 && LastPartial([]) == None && Showing(None)
    {
    }

    static lemma NothingRead()
      ensures Starts([]) == 0 && Extra([]) == 0 && LastPartial([]) == None
    {
    }

    /** A start or an update. */
    method ReadEvent(e: StreamEvent, partial: Option<AssistantMessage>, added: bool, ghost seen: seq<StreamEvent>, ghost at: nat)
      returns (partial': Option<AssistantMessage>, added': bool)
      requires Valid() && Replying(added) && Reading(seen) && !Terminal(e) && Showing(partial) && e in host.stream(at)
      requires added == partial.Some? && (added <==> Starts(seen) > 0) && partial == LastPartial(seen)
      modifies this, agent, agent.steeringQueue, agent.followUpQueue
      ensures Valid() && Replying(added') && Reading(seen + [e]) && MidReply() && Showing(partial')
      ensures added' == partial'.Some? && (added' <==> Starts(seen + [e]) > 0) && partial' == LastPartial(seen + [e])
    {
      hide Valid, Committed, AllGiven, AllWhole, Extras, Told, AllResolved;
      assert (seen + [e])[..|seen|] == seen;
      partial', added' := partial, added;
      match e {
        case StreamStart(p) =>
          partial' := Some(p);
          PushPartial(added, p);
          added' := true;
        case StreamUpdate(p) =>
          if partial.Some? {
            partial' := Some(p);
            ReplacePartial(added, p, at);
          }
      }
    }

    /** `done`, `error`, or an iterator that rejects. */
    method EndStream(e: StreamEvent, partial: Option<AssistantMessage>, added: bool, ghost seen: seq<StreamEvent>, ghost at: nat)
      returns (ok: bool, message: AssistantMessage)
      requires Valid() && Replying(added) && Terminal(e) && Reading(seen) && UpToEnd(host.stream(at)) == seen + [e]
      requires partial == LastPartial(seen) && (e.StreamBroken? ==> FailsAt(host, at))
      modifies this, log, agent, agent.steeringQueue, agent.followUpQueue
      ensures Valid() && Accountable() && log.read == old(log.read) + [seen + [e]]
      ensures ok ==> Replied(message) && MayReply(message, seen + [e])
      ensures !ok ==> Interrupted() && MayFail(host)
    {
      hide Valid, Committed, Reading, Accountable, UpToEnd, Replying, ContextAgrees, MayReply, Terminal, LastPartial, FailsAt;
      ReadTerminal(seen, e);
      ghost var all := seen + [e];
      ok, message := FinalReply(e, partial, added, seen, at);
      if ok {
        FinishStream(added, message, all, at);
      } else {
        RepliesInStage(added);
        CloseStream(all, at);
      }
    }

    /** The message that a terminal event leads to. */
    method FinalReply(e: StreamEvent, partial: Option<AssistantMessage>, added: bool, ghost seen: seq<StreamEvent>, ghost at: nat)
      returns (ok: bool, message: AssistantMessage)
      requires Valid() && Replying(added) && Terminal(e) && Reading(seen + [e])
      requires partial == LastPartial(seen) && (e.StreamBroken? ==> FailsAt(host, at))
      modifies this, agent, agent.steeringQueue, agent.followUpQueue
      ensures Valid() && Replying(added) && Reading(seen + [e]) && MidReply()
      ensures ok ==> MayReply(message, seen + [e])
      ensures !ok ==> MayFail(host)
    {
      hide Valid, Committed, Reading, Replying, Resolves, FailsAt;
      assert (seen + [e])[..|seen|] == seen;
      match e {
        case StreamDone(terminal) =>
          ok, message := ResultAfter(added, terminal, seen + [e]);
        case StreamBroken(failure) =>
          var settled := Settle(Some(failure));
          ok := settled.Cancelled?;
          message := AbortedMessage(partial);
      }
    }

    lemma ReadTerminal(seen: seq<StreamEvent>, e: StreamEvent)
      requires Reading(seen) && Terminal(e)
      ensures Reading(seen + [e])
    {
      assert (seen + [e])[..|seen|] == seen;
    }

    /** `response.result()` after the terminal event, whose own message stands in when the signal fires. */
    method ResultAfter(added: bool, terminal: AssistantMessage, ghost seen: seq<StreamEvent>)
      returns (ok: bool, final: AssistantMessage)
      requires Valid() && Replying(added) && Reading(seen)
      modifies this, agent, agent.steeringQueue, agent.followUpQueue
      ensures Valid() && Replying(added) && Reading(seen) && MidReply()
      ensures ok ==> Resolves(host, final) || (aborted && final == terminal)
      ensures old(aborted) ==> ok && final == terminal
      ensures !ok ==> MayFail(host) && exists t :: host.result(t).Some? && (aborted ==> !host.result(t).value.isAbort)
    {
      hide Valid, Committed, AllGiven, AllWhole, Extras, Extra, Told, AllResolved;
      SignalSeen();
      var rejected := Race();
      if rejected {
        return true, terminal;
      }
      var settled := Settle(host.result(clock));
      ok := !settled.Broke?;
      assert host.result(clock).Some? ==> FailsAt(host, clock);
      final := if settled.Value? then host.final(clock) else terminal;
    }

    /** `response.result()` when the stream ended without a terminal event. */
    method ResultAtEnd(added: bool, partial: Option<AssistantMessage>, ghost seen: seq<StreamEvent>)
      returns (ok: bool, final: AssistantMessage)
      requires Valid() && Replying(added) && Reading(seen)
      modifies this, agent, agent.steeringQueue, agent.followUpQueue
      ensures Valid() && Replying(added) && Reading(seen) && MidReply()
      ensures ok ==> Resolves(host, final) || (aborted && final == AbortedMessage(partial))
      ensures old(aborted) ==> ok && final == AbortedMessage(partial)
      ensures !ok ==> MayFail(host) && exists t :: host.result(t).Some? && (aborted ==> !host.result(t).value.isAbort)
    {
      hide Valid, Committed, AllGiven, AllWhole, Extras, Extra, Told, AllResolved;
      SignalSeen();
      ok, final := true, AbortedMessage(partial);
      var rejected := Race();
      if !rejected {
        var settled := Settle(host.result(clock));
        ok := !settled.Broke?;
        assert host.result(clock).Some? ==> FailsAt(host, clock);
        if settled.Value? {
          final := host.final(clock);
        }
      }
    }

    method PushPartial(added: bool, p: AssistantMessage)
      requires Valid() && Replying(added)
      modifies this, agent, agent.steeringQueue, agent.followUpQueue
      ensures Valid() && Replying(true) && Committed(st) == Committed(old(st)) && Showing(Some(p))
      ensures newMessages == old(newMessages) && skipInitialSteeringPoll == old(skipInitialSteeringPoll)
      ensures st.restarts == old(st.restarts) + (if added then 1 else 0)
      ensures st.turns == old(st.turns) && (old(aborted) ==> aborted)
    {
      hide MayEmit, AfterEvent, Committed, Rebuild, State, Accepted, Having, PolledFrom;
      messages := messages + [p];
      if added {
        StreamingMoves(st, p);
      } else {
        OpenReplyMove(st, p);
      }
      Emit(MessageStart(p));
    }

    method ReplacePartial(added: bool, p: AssistantMessage, ghost at: nat)
      requires Valid() && Replying(added) && added && StreamUpdate(p) in host.stream(at)
      modifies this, agent, agent.steeringQueue, agent.followUpQueue
      ensures Valid() && Replying(true) && Committed(st) == Committed(old(st)) && Showing(Some(p))
      ensures newMessages == old(newMessages) && skipInitialSteeringPoll == old(skipInitialSteeringPoll)
      ensures st.restarts == old(st.restarts) && st.turns == old(st.turns) && (old(aborted) ==> aborted)
    {
      hide MayEmit, AfterEvent, Committed, Rebuild, State, Accepted, Having, PolledFrom;
      messages := messages[|messages| - 1 := p];
      StreamingMoves(st, p);
      assert Follows(host, st, Emitted(MessageUpdate(p)));
      Emit(MessageUpdate(p));
    }

    // ----- injecting messages -----

    /** Both lists hold everything committed, and `todo` is what is left to inject. */
    ghost predicate ToInject(todo: seq<Message>)
      reads this, log
    {
      st.stage == Injecting && st.open == None && st.pending == todo && Synced()
    }

    method InjectMessage(m: Message, ghost todo: seq<Message>)
      requires Valid() && ToInject([m] + todo)
      modifies this, agent, agent.steeringQueue, agent.followUpQueue
      ensures Valid() && ToInject(todo) && st.polled == old(st).polled && st.turns == old(st).turns
      ensures skipInitialSteeringPoll == old(skipInitialSteeringPoll)
    {
      hide Valid, MayEmit, AfterEvent, Committed, AllGiven, AllWhole, Extras, Told, AllResolved, ReplyTold, ReplyResolved;
      InjectStartMove(st, m);
      Emit(MessageStart(m));
      InjectEndMove(st, m);
      Emit(MessageEnd(m));
      NoReplyYet();
      PushBoth(m);
      assert ([m] + todo)[1..] == todo;
    }

    method PushBoth(m: Message)
      requires Valid()
      modifies this`messages, this`newMessages
      ensures Valid() && messages == old(messages) + [m] && newMessages == old(newMessages) + [m]
    {
      messages := messages + [m];
      newMessages := newMessages + [m];
    }

    method InjectPending(pending: seq<Message>)
      requires Valid() && ToInject(pending)
      modifies this, agent, agent.steeringQueue, agent.followUpQueue
      ensures Valid() && ToInject([]) && st.polled == old(st).polled && st.turns == old(st).turns
      ensures skipInitialSteeringPoll == old(skipInitialSteeringPoll)
    {
      hide Valid, Synced;
      for i := 0 to |pending|
        invariant Valid() && ToInject(pending[i..]) && st.polled == old(st).polled && st.turns == old(st).turns
        invariant skipInitialSteeringPoll == old(skipInitialSteeringPoll)
      {
        assert pending[i..] == [pending[i]] + pending[i + 1..];
        InjectMessage(pending[i], pending[i + 1..]);
      }
    }

    // ----- polling -----

    /** Record an answer that takes nothing from a queue. */
    ghost method NoteAnswer(o: Obs)
      requires Valid() && Allowed(st, o) && !o.Emitted? && !o.AbortSignalled? && Follows(host, st, o)
      requires o.Polled? ==> o.batches == [] || (o.source == Continuation && |o.batches| <= 1 && FirstPoll(trace).Some?)
      modifies this`trace, this`st
      ensures Valid() && st == After(old(st), o) && Committed(st) == Committed(old(st))
      ensures o.Polled? ==> FirstPoll(trace).Some?
    {
      hide After, Allowed, Committed, Rebuild, Follows;
      AnswerKeeps(st, o);
      CommitStep(st, o);
      Note(o);
    }

    function QueueOf(source: Source): PendingMessageQueue {
      if source == Steering then agent.steeringQueue else agent.followUpQueue
    }

    /** Take batches from a queue. */
    method TakeFrom(source: Source) returns (drained: seq<Message>, ghost batches: seq<Batch>)
      requires agent.Valid() && source != Continuation
      modifies QueueOf(source)
      ensures agent.Valid() && NonEmpty(batches) && drained == Flatten(batches) && QueueOf(source).mode == old(QueueOf(source).mode)
      ensures Having(QueueOf(source).log, Drained) == Having(old(QueueOf(source).log), Drained) + batches
      ensures batches == Taken(old(QueueOf(source).mode), old(QueueOf(source).batches))
      ensures OneDrain(QueueOf(source).mode, old(QueueOf(source).batches), batches, QueueOf(source).batches)
    {
      hide Having, Taken, Flatten, Fifo, Batches;
      if source == Steering {
        drained, batches := agent.steeringQueue.Drain();
      } else {
        drained, batches := agent.followUpQueue.Drain();
      }
    }

    /** Take batches from a queue and record them. */
    method DrainQueue(source: Source) returns (drained: seq<Message>, ghost batches: seq<Batch>)
      requires Valid() && source != Continuation && PollDue(st, source)
      requires FirstPoll(trace).Some? || !skipInitialSteeringPoll
      modifies this`trace, this`st, agent.steeringQueue, agent.followUpQueue
      ensures Valid() && NonEmpty(batches) && drained == Flatten(batches)
      ensures batches == Taken(old(QueueOf(source).mode), old(QueueOf(source).batches))
      ensures OneDrain(QueueOf(source).mode, old(QueueOf(source).batches), batches, QueueOf(source).batches)
      ensures st == After(old(st), Polled(source, batches)) && Committed(st) == Committed(old(st))
    {
      hide After, Allowed, Committed, Rebuild, Having, State, Accepted, PolledFrom, Batches, Orderly, Agree, FollowsHost, Follows,
           KeepsOneAtATime, NeverAborts, SmallPolls, TurnEnds, FirstPoll, Taken, Flatten, Fifo, OneDrain;
      Apart();
      drained, batches := TakeFrom(source);
      if QueueOf(source).mode == QueueMode.OneAtATime {
        OneLeaves(QueueOf(source).mode, old(QueueOf(source).batches), batches, QueueOf(source).batches);
      }
      ghost var o := Polled(source, batches);
      PollAllowed(st, source, batches);
      QueuePollFollows(host, st, source, batches);
      AnswerKeeps(st, o);
      CommitStep(st, o);
      Note(o);
    }

    lemma SignalSeen()
      requires Valid()
      ensures st.aborted == aborted && Orderly(st)
    {
    }

    /** Only while tools act is there a reply in the current turn. */
    lemma NoReplyYet()
      requires Valid() && st.stage != Acting
      ensures st.turn.reply == None
    {
    }

    /** Between turns no bracket is open, and the opening poll has been made once there is a turn. */
    lemma Settled()
      requires Valid()
      ensures AtBoundary(st.stage) ==> st.open == None
      ensures |st.turns| > 0 ==> st.polled && FirstPoll(trace).Some?
    {
      FirstTurnBatches(prompts, trace);
    }

    method ForgetSkip()
      requires Valid()
      modifies this`skipInitialSteeringPoll
      requires FirstPoll(trace).Some?
      ensures Valid() && !skipInitialSteeringPoll
    {
      skipInitialSteeringPoll := false;
    }

    /** Asking a queue: an aborted run asks neither and takes nothing; a run started from steering skips its first poll. */
    method PollQueue(source: Source) returns (r: Raced<seq<Message>>, ghost batches: seq<Batch>)
      requires Valid() && source != Continuation && PollDue(st, source)
      requires source == Steering || !skipInitialSteeringPoll
      modifies this, agent, agent.steeringQueue, agent.followUpQueue
      ensures Valid() && messages == old(messages) && newMessages == old(newMessages)
      ensures NonEmpty(batches) && Committed(st) == Committed(old(st)) && (old(aborted) ==> aborted)
      ensures st == After(old(st), Polled(source, batches)).(aborted := aborted)
      ensures r.Value? ==> r.value == Flatten(batches)
      ensures batches == if old(aborted) || (source == Steering && old(skipInitialSteeringPoll)) then []
                         else Taken(old(QueueOf(source).mode), old(QueueOf(source).batches))
      // a poll that is neither aborted nor skipped takes all that is queued in mode `all`, and otherwise the oldest batch
      ensures !old(aborted) && !(source == Steering && old(skipInitialSteeringPoll)) && old(QueueOf(source).mode) == All ==>
                batches == old(QueueOf(source).batches)
      ensures !old(aborted) && !(source == Steering && old(skipInitialSteeringPoll)) && old(QueueOf(source).mode) == QueueMode.OneAtATime ==>
                |batches| <= 1 && batches <= old(QueueOf(source).batches) && (|batches| == 0 ==> |old(QueueOf(source).batches)| == 0)
      ensures old(skipInitialSteeringPoll) && source == Steering ==> batches == []
      ensures !old(skipInitialSteeringPoll) ==> !skipInitialSteeringPoll
      ensures source == Steering && !aborted ==> !skipInitialSteeringPoll
      ensures (r.Cancelled? ==> aborted) && !r.Broke?
    {
      hide Valid, After, Committed;
      if aborted || (source == Steering && skipInitialSteeringPoll) {
        batches := [];
        NoteAnswer(Polled(source, []));
        SignalSeen();
        if aborted {
          return Value([]), [];
        }
        ForgetSkip();
        var rejected := Race();
        r := if rejected then Cancelled else Value([]);
        return;
      }
      var drained: seq<Message>;
      drained, batches := DrainQueue(source);
      var rejected := Race();
      r := if rejected then Cancelled else Value(drained);
    }

    // ----- between two turns -----

    /** agent_end may be emitted now, or when the signal has fired. */
    ghost predicate Ending()
      reads this, log
    {
      && Synced() && |st.turns| > 0 && !skipInitialSteeringPoll
      && (st.stage == EndDue || (aborted && AtBoundary(st.stage)))
    }

    ghost predicate AtAsk(ask: Ask)
      reads this, log
    {
      st.stage == Between(ask) && Synced() && |st.turns| > 0 && !skipInitialSteeringPoll
    }

    /** The next turn is due, with these messages to inject. */
    ghost predicate NextTurn(pending: seq<Message>)
      reads this, log
    {
      st.stage == TurnDue && st.pending == pending && Synced() && |st.turns| > 0 && !skipInitialSteeringPoll
    }

    /** `shouldStopAfterTurn`, raced against the signal. */
    method AskStopAfter() returns (next: Next)
      requires Valid() && AtAsk(AskStopAfterTurn)
      modifies this, agent, agent.steeringQueue, agent.followUpQueue
      ensures Valid() && st.owed == old(st).owed && st.turns == old(st).turns
      ensures next.EndRun? ==> Ending() && (!aborted ==> exists t :: host.stopAfterTurn(t))
      ensures old(aborted) ==> next.EndRun?
      ensures next.ThrowRun? ==> st.stage.Between? && Accountable() && MayFail(host)
      ensures next.GoOn? ==> AtAsk(StopBeforeSteering) && exists t :: !host.stopAfterTurn(t)
    {
      hide Valid, After, Allowed, Committed, AllGiven, AllWhole, Extras, Told, AllResolved, ReplyTold, ReplyResolved;
      var rejected := Race();
      if rejected {
        return EndRun;
      }
      var settled := Settle(host.stopAfterTurnFails(clock));
      assert host.stopAfterTurnFails(clock).Some? ==> FailsAt(host, clock);
      if settled.Cancelled? {
        return EndRun;
      } else if settled.Broke? {
        return ThrowRun;
      }
      var stop := host.stopAfterTurn(clock);
      StopAfterMove(st, stop);
      assert host.stopAfterTurnFails(clock) == None;
      NoteAnswer(StopAfterTurn(stop));
      next := if stop then EndRun else GoOn([]);
    }

    /** `shouldStopBeforeTurn`; the hook may itself abort the run or touch the queues. */
    method AskStopBefore(ghost ask: Ask) returns (stop: bool)
      requires Valid() && AtAsk(ask) && MayStop(ask)
      modifies this, agent, agent.steeringQueue, agent.followUpQueue
      ensures Valid() && Synced() && |st.turns| > 0 && !skipInitialSteeringPoll && st.turns == old(st).turns
      ensures stop ==> st.stage == EndDue
      ensures exists t :: host.stopBeforeTurn(t) == stop
      ensures !stop ==> exists r: Run :: r == old(st).(aborted := aborted) && st == Onward(r, ask)
    {
      hide Valid, After, Allowed, Committed, AllGiven, AllWhole, Extras, Told, AllResolved, ReplyTold, ReplyResolved;
      NoReplyYet();
      Await();
      stop := host.stopBeforeTurn(clock);
      StopBeforeMove(st, ask, stop);
      NoteAnswer(StopBeforeTurn(stop));
      NoReplyYet();
    }

    /** The questions after a turn: stop, steering, stop. */
    method AfterTurn() returns (next: Next)
      requires Valid() && AtAsk(AskStopAfterTurn)
      modifies this, agent, agent.steeringQueue, agent.followUpQueue
      ensures Valid() && st.turns == old(st).turns
      ensures next.EndRun? ==> Ending()
      ensures next.ThrowRun? ==> st.stage.Between? && Accountable() && MayFail(host)
      ensures next.GoOn? ==>
                && st.owed == old(st).owed
                && if |next.pending| > 0 || st.owed then NextTurn(next.pending) else AtAsk(StopBeforeFollowUp)
    {
      hide Valid, After, Allowed, Committed, AllGiven, AllWhole, Extras, Told, AllResolved, ReplyTold, ReplyResolved, NonEmpty, Flatten,
           MayFail, Taken;
      next := AskStopAfter();
      if !next.GoOn? {
        return;
      }
      var stop := AskStopBefore(StopBeforeSteering);
      if stop {
        return EndRun;
      }
      next := AskForSteering();
    }

    /** The steering poll after a turn, and what is asked when it came back empty. */
    method AskForSteering() returns (next: Next)
      requires Valid() && AtAsk(AskSteering)
      modifies this, agent, agent.steeringQueue, agent.followUpQueue
      ensures Valid() && st.turns == old(st).turns && !next.ThrowRun?
      ensures next.EndRun? ==> Ending()
      ensures next.GoOn? ==>
                && st.owed == old(st).owed
                && if |next.pending| > 0 || st.owed then NextTurn(next.pending) else AtAsk(StopBeforeFollowUp)
    {
      hide Valid, After, Allowed, Committed, AllGiven, AllWhole, Extras, Told, AllResolved, ReplyTold, ReplyResolved, NonEmpty, Flatten,
           MayFail, Taken;
      ghost var r := st;
      NoReplyYet();
      var answer, batches := PollQueue(Steering);
      PollMove(r, Steering, batches);
      NoReplyYet();
      if answer.Cancelled? {
        return EndRun;
      }
      var pending := answer.value;
      if |pending| == 0 {
        var stop := AskStopBefore(StopAfterSteering);
        if stop {
          return EndRun;
        }
      }
      next := GoOn(pending);
    }

    /** The questions once the agent would stop: stop, follow-ups, stop, continuation. */
    method WhenIdle() returns (next: Next)
      requires Valid() && AtAsk(StopBeforeFollowUp)
      modifies this, agent, agent.steeringQueue, agent.followUpQueue
      ensures Valid() && st.turns == old(st).turns
      ensures next.EndRun? ==> Ending()
      ensures next.ThrowRun? ==> st.stage.Between? && Accountable() && MayFail(host)
      ensures next.GoOn? ==> |next.pending| > 0 && NextTurn(next.pending)
    {
      hide Valid, After, Allowed, Committed, AllGiven, AllWhole, Extras, Told, AllResolved, ReplyTold, ReplyResolved, NonEmpty, Flatten,
           MayFail, Taken;
      var stop := AskStopBefore(StopBeforeFollowUp);
      if stop {
        return EndRun;
      }
      next := AskForFollowUps();
    }

    /** The follow-up poll, and what is asked when it came back empty. */
    method AskForFollowUps() returns (next: Next)
      requires Valid() && AtAsk(AskFollowUp)
      modifies this, agent, agent.steeringQueue, agent.followUpQueue
      ensures Valid() && st.turns == old(st).turns
      ensures next.EndRun? ==> Ending()
      ensures next.ThrowRun? ==> st.stage.Between? && Accountable() && MayFail(host)
      ensures next.GoOn? ==> |next.pending| > 0 && NextTurn(next.pending)
    {
      hide Valid, After, Allowed, Committed, AllGiven, AllWhole, Extras, Told, AllResolved, ReplyTold, ReplyResolved, NonEmpty, Flatten,
           MayFail, Taken;
      ghost var r := st;
      NoReplyYet();
      var answer, batches := PollQueue(FollowUp);
      PollMove(r, FollowUp, batches);
      NoReplyYet();
      if answer.Cancelled? {
        return EndRun;
      }
      if |answer.value| > 0 {
        return GoOn(answer.value);
      }
      var stop := AskStopBefore(StopBeforeContinuation);
      if stop {
        return EndRun;
      }
      next := AskContinuing();
    }

    /** `getContinuationMessages`, raced against the signal. */
    method AskContinuing() returns (next: Next)
      requires Valid() && AtAsk(AskContinuation)
      modifies this, agent, agent.steeringQueue, agent.followUpQueue
      ensures old(aborted) ==> next.EndRun?
      ensures Valid() && st.turns == old(st).turns
      ensures next.EndRun? ==> Ending()
      ensures next.ThrowRun? ==> st.stage.Between? && Accountable() && MayFail(host)
      ensures next.GoOn? ==> |next.pending| > 0 && NextTurn(next.pending)
    {
      hide Valid, After, Allowed, Committed, AllGiven, AllWhole, Extras, Told, AllResolved, ReplyTold, ReplyResolved;
      NoReplyYet();
      var rejected := Race();
      if rejected {
        return EndRun;
      }
      var settled := Settle(host.continuationFails(clock));
      assert host.continuationFails(clock).Some? ==> FailsAt(host, clock);
      if settled.Cancelled? {
        return EndRun;
      } else if settled.Broke? {
        return ThrowRun;
      }
      next := GoOnWith(host.continuation(clock));
    }

    /** The host's continuation is recorded and becomes pending; with none the run ends. */
    method GoOnWith(messages: seq<Message>) returns (next: Next)
      requires Valid() && AtAsk(AskContinuation)
      requires exists t :: host.continuationFails(t) == None && host.continuation(t) == messages
      modifies this`trace, this`st
      ensures Valid() && st.turns == old(st).turns && !next.ThrowRun?
      ensures next.EndRun? ==> Ending() && |messages| == 0
      ensures next.GoOn? ==> next.pending == messages && |messages| > 0 && NextTurn(messages)
    {
      hide Valid, After, Allowed, Committed, AllGiven, AllWhole, Extras, Told, AllResolved, ReplyTold, ReplyResolved;
      NoReplyYet();
      assert [messages] == [] + [messages] && Flatten([] + [messages]) == Flatten([]) + messages by {
        FlattenSnoc([], messages);
      }
      ghost var batches := if |messages| > 0 then [messages] else [];
      PollMove(st, Continuation, batches);
      Settled();
      NoteAnswer(Polled(Continuation, batches));
      NoReplyYet();
      if |messages| == 0 {
        return EndRun;
      }
      next := GoOn(messages);
    }

    // ----- one turn, and the loop over turns -----

    /** The first turn has its turn_start and its prompts already; the others begin here. */
    ghost predicate AtTurn(firstTurn: bool, pending: seq<Message>)
      reads this, log
    {
      && !skipInitialSteeringPoll
      && if firstTurn then ToInject(pending) && st.polled else NextTurn(pending)
    }

    /** Run the tools of a reply and push their results to both lists. */
    method ActOn(message: AssistantMessage) returns (results: seq<Message>, hasMoreToolCalls: bool)
      requires Valid() && BeforeBatch(CallsOf(message)) && Synced()
      modifies this, agent, agent.steeringQueue, agent.followUpQueue
      ensures Valid() && Synced() && Acted(old(st), st)
      ensures st.openTools == multiset{} && st.turn.results == results && |results| == st.started
      ensures st.started < |CallsOf(message)| ==> aborted && OneByOne(host, CallsOf(message))
      ensures ResultsEarned(host, CallsOf(message), results)
      ensures hasMoreToolCalls <==> |CallsOf(message)| > 0 && !AllTerminate(st.finished)
      ensures skipInitialSteeringPoll == old(skipInitialSteeringPoll)
    {
      hide Rebuild, Having, State, Accepted, PolledFrom, Orderly, Agree, FollowsHost, KeepsOneAtATime, NeverAborts, SmallPolls, TurnEnds,
           FirstPoll, Books, Committed, Steady, AllTerminate, MayEmit, AfterEvent, AllGiven, AllWhole, Extras, Told, AllResolved, Answered,
           Resolves, OneByOne, Cleared, CallsOf, Final;
      var calls := CallsOf(message);
      BooksClosed(st, accepting, calls, []);
      results, hasMoreToolCalls := [], false;
      if |calls| > 0 {
        var terminate: bool;
        results, terminate := ExecuteToolCalls(calls);
        hasMoreToolCalls := !terminate;
        messages := messages + results;
        newMessages := newMessages + results;
        AppendResults(before.messages, Committed(old(st)), results);
      }
    }

    method RunTurn(firstTurn: bool, pending: seq<Message>) returns (next: Next, hasMoreToolCalls: bool)
      requires Valid() && AtTurn(firstTurn, pending)
      modifies this, log, agent, agent.steeringQueue, agent.followUpQueue
      ensures Valid()
      ensures old(aborted) ==> next.ThrowRun? && st == old(st) && log.read == old(log.read)
      ensures next.EndRun? ==> Ending()
      ensures next.ThrowRun? ==> MayThrow(st.stage) && Accountable() && (aborted || MayFail(host))
      ensures next.GoOn? ==> |st.turns| == |old(st).turns| + 1
      ensures next.GoOn? ==>
                if |next.pending| > 0 || hasMoreToolCalls then NextTurn(next.pending) else AtAsk(StopBeforeFollowUp)
    {
      hide Valid, Committed, AllTerminate, Accountable, ContextAgrees;
      hasMoreToolCalls := false;
      if aborted {
        return ThrowRun, false;
      }
      OpenTurn(firstTurn, pending);
      NoReplyYet();
      var ok, message := StreamAssistantResponse();
      if !ok {
        return ThrowRun, false;
      }
      hasMoreToolCalls := FinishTurn(message);
      if Failed(message) || aborted {
        return EndRun, false;
      }
      next := AfterTurn();
    }

    /** turn_start, unless it has been emitted already, and the messages to inject. */
    method OpenTurn(firstTurn: bool, pending: seq<Message>)
      requires Valid() && AtTurn(firstTurn, pending) && !aborted
      modifies this, agent, agent.steeringQueue, agent.followUpQueue
      ensures Valid() && Synced() && ReplyMayOpen(st) && st.turns == old(st).turns && !skipInitialSteeringPoll
    {
      hide Valid, Committed, MayEmit, AfterEvent, AllGiven, AllWhole, Extras, Told, AllResolved, ReplyTold, ReplyResolved;
      Settled();
      SignalSeen();
      if !firstTurn {
        TurnStartMove(st);
        Emit(TurnStart);
      }
      InjectPending(pending);
    }

    /** From a committed reply to turn_end. */
    method FinishTurn(message: AssistantMessage) returns (hasMoreToolCalls: bool)
      requires Valid() && newMessages + [message] == Committed(st) && ContextAgrees() && Accountable()
      requires st.stage == Acting && st.open == None && st.turn.reply == Some(message) && |st.turn.results| == 0
      requires st.started == 0 && st.openTools == multiset{} && st.finished == multiset{} && accepting == multiset{}
      requires !skipInitialSteeringPoll
      modifies this, agent, agent.steeringQueue, agent.followUpQueue
      ensures Valid() && |st.turns| == |old(st).turns| + 1
      ensures if Failed(message) || aborted then Ending() else AtAsk(AskStopAfterTurn) && st.owed == hasMoreToolCalls
    {
      hide Valid, Committed, Books, AllTerminate, MayEmit, AfterEvent, Accountable, ContextAgrees;
      PushReply(message);
      var results: seq<Message> := [];
      hasMoreToolCalls := false;
      if !Failed(message) {
        BooksOpen(st, message);
        results, hasMoreToolCalls := ActOn(message);
      }
      CloseTurn(message, results, hasMoreToolCalls);
    }

    method CloseTurn(message: AssistantMessage, results: seq<Message>, hasMoreToolCalls: bool)
      requires Valid() && Synced() && st.stage == Acting && st.open == None && st.openTools == multiset{}
      requires st.turn.reply == Some(message) && st.turn.results == results && |results| == st.started
      requires st.started < |CallsOf(message)| ==> aborted || Failed(message)
      requires !Failed(message) ==> (hasMoreToolCalls <==> |CallsOf(message)| > 0 && !AllTerminate(st.finished))
      requires !skipInitialSteeringPoll
      modifies this, agent, agent.steeringQueue, agent.followUpQueue
      ensures Valid() && |st.turns| == |old(st).turns| + 1
      ensures if Failed(message) || aborted then Ending() else AtAsk(AskStopAfterTurn) && st.owed == hasMoreToolCalls
    {
      hide Valid, Committed, AllTerminate, MayEmit, AfterEvent, AllGiven, AllWhole, Extras, CallsOf, Told, AllResolved, ReplyTold,
           ReplyResolved, Follows;
      SignalSeen();
      TurnEndFollows(host, st, message, results);
      TurnEndMove(st, message, results);
      ToldOneMore(host, st.turns, st.turn, log.read);
      Emit(TurnEnd(message, results));
    }

    method PushReply(message: AssistantMessage)
      requires Valid() && newMessages + [message] == Committed(st) && ContextAgrees() && Accountable() && st.turn.reply.Some?
      modifies this`newMessages
      ensures Valid() && Synced()
    {
      hide Rebuild, Having, State, Accepted, PolledFrom, Orderly, Agree, FollowsHost, KeepsOneAtATime, NeverAborts, SmallPolls, TurnEnds,
           FirstPoll, Committed, AllGiven, AllWhole, Extras, Told, AllResolved, ReplyTold, ReplyResolved;
      newMessages := newMessages + [message];
    }

    /** `runLoop`. A run that needs more than `budget` turns is cut off after them. */
    method RunLoop(budget: nat) returns (ending: Ending)
      requires Valid() && ToInject([]) && !st.polled && |st.turns| == 0
      modifies this, log, agent, agent.steeringQueue, agent.followUpQueue
      ensures Valid() && Accountable()
      ensures ending.Cut? ==> |st.turns| >= budget
      ensures ending.Completed? ==> st.stage == Ended && st.failure == [] && Synced()
      ensures ending.Threw? ==> MayThrow(st.stage) && (aborted || MayFail(host))
    {
      hide Valid, Committed, After, Allowed, MayEmit, AfterEvent;
      var firstTurn := true;
      ghost var r := st;
      var answer, batches := PollQueue(Steering);
      OpeningPollMove(r, batches);
      if answer.Cancelled? {
        return Threw;
      }
      var pending := answer.value;
      var left := budget;
      while true
        invariant Valid() && Accountable() && |st.turns| >= budget - left
        invariant aborted || AtTurn(firstTurn, pending)
        invariant aborted ==> MayThrow(st.stage)
        decreases left
      {
        if aborted {
          return Threw;
        }
        var hasMoreToolCalls := true;
        ghost var before := left;
        while hasMoreToolCalls || |pending| > 0
          invariant Valid() && left <= before && (left < before || hasMoreToolCalls) && |st.turns| >= budget - left
          invariant hasMoreToolCalls || |pending| > 0 ==> AtTurn(firstTurn, pending)
          invariant !hasMoreToolCalls && |pending| == 0 ==> AtAsk(StopBeforeFollowUp) && !firstTurn
          decreases left
        {
          if left == 0 {
            return Cut;
          }
          left := left - 1;
          var next: Next;
          next, hasMoreToolCalls := RunTurn(firstTurn, pending);
          firstTurn := false;
          match next {
            case EndRun =>
              End();
              return Completed;
            case ThrowRun =>
              return Threw;
            case GoOn(messages) =>
              pending := messages;
          }
        }
        var idle := WhenIdle();
        match idle {
          case EndRun =>
            End();
            return Completed;
          case ThrowRun =>
            return Threw;
          case GoOn(messages) =>
            pending := messages;
        }
      }
    }

    method End()
      requires Valid() && Ending()
      modifies this, agent, agent.steeringQueue, agent.followUpQueue
      ensures Valid() && Synced() && st.stage == Ended && st.failure == []
    {
      hide Committed, MayEmit, AfterEvent, Rebuild, State, Accepted, Having, PolledFrom;
      EndMove(st, newMessages);
      assert st.failure == [];
      Emit(AgentEnd(newMessages));
    }

    /** `runAgentLoop`: announce the run and its prompts, which both lists hold already, and enter the loop. */
    method RunAgentLoop(budget: nat) returns (ending: Ending)
      requires Valid() && st == Start(prompts)
      requires messages == before.messages + prompts && newMessages == prompts && Accountable() && |log.read| == 0
      modifies this, log, agent, agent.steeringQueue, agent.followUpQueue
      ensures Valid() && Accountable()
      ensures ending.Cut? ==> |st.turns| >= budget
      ensures ending.Completed? ==> st.stage == Ended && st.failure == [] && Synced()
      ensures ending.Threw? ==> MayThrow(st.stage) && (aborted || MayFail(host))
    {
      Announce();
      ending := RunLoop(budget);
    }

    static lemma StartCommitsNothing(prompts: Batch)
      ensures Committed(Start(prompts)) == []
    {
    }

    method Announce()
      requires Valid() && st == Start(prompts)
      requires messages == before.messages + prompts && newMessages == prompts && Accountable() && |log.read| == 0
      modifies this, agent, agent.steeringQueue, agent.followUpQueue
      ensures Valid() && ToInject([]) && !st.polled && |st.turns| == 0
    {
      StartCommitsNothing(prompts);
      hide Valid, Committed, MayEmit, AfterEvent, AllGiven, AllWhole, Extras, Told, AllResolved, ReplyTold, ReplyResolved;
      OpeningMoves(st);
      Emit(AgentStart);
      TurnStartMove(st);
      Emit(TurnStart);
      NoReplyYet();
      for i := 0 to |newMessages|
        invariant newMessages == prompts && messages == before.messages + newMessages
        invariant Valid() && st.stage == Injecting && st.open == None && st.pending == newMessages[i..]
        invariant Committed(st) == newMessages[..i] && st.restarts == 0 && !st.polled && |st.turns| == 0
        invariant Accountable() && |log.read| == 0
      {
        AnnouncePrompt(newMessages[i]);
        NoReplyYet();
        assert newMessages[..i + 1] == newMessages[..i] + [newMessages[i]];
      }
      assert newMessages[..|newMessages|] == newMessages;
    }

    method AnnouncePrompt(m: Message)
      requires Valid() && st.stage == Injecting && st.open == None && |st.pending| > 0 && st.pending[0] == m
      modifies this, agent, agent.steeringQueue, agent.followUpQueue
      ensures Valid() && messages == old(messages) && newMessages == old(newMessages)
      ensures Committed(st) == Committed(old(st)) + [m] && st.pending == old(st).pending[1..]
      ensures st.stage == Injecting && st.open == None
      ensures st.restarts == old(st).restarts && st.polled == old(st).polled && st.turns == old(st).turns
      ensures old(aborted) ==> aborted
    {
      hide Valid, Committed, MayEmit, AfterEvent;
      InjectStartMove(st, m);
      Emit(MessageStart(m));
      InjectEndMove(st, m);
      Emit(MessageEnd(m));
    }

    /** `handleRunFailure`: report the error as an assistant message and end the run. */
    method HandleRunFailure(error: string)
      requires Valid() && MayThrow(st.stage) && Accountable()
      modifies this, agent, agent.steeringQueue, agent.followUpQueue
      ensures Valid() && st.stage == Ended && Accountable() && (old(aborted) ==> aborted)
      ensures st.failure == [Assistant([Text("")], if old(aborted) then Aborted else Error, Some(error))]
    {
      hide Valid, Committed, Allowed, After, MayEmit, AfterEvent, AllGiven, AllWhole, Extras, Told, AllResolved, Answered, Resolves;
      OpeningMoves(st);
      NoteAnswer(RunThrew);
      ReportFailure(Assistant([Text("")], if aborted then Aborted else Error, Some(error)));
    }

    method ReportFailure(failure: AssistantMessage)
      requires Valid() && st.stage == FailureDue && Failed(failure) && Accountable()
      modifies this, agent, agent.steeringQueue, agent.followUpQueue
      ensures Valid() && st.stage == Ended && st.failure == [failure] && Accountable() && (old(aborted) ==> aborted)
    {
      hide Valid, Committed, Allowed, After, MayEmit, AfterEvent, AllGiven, AllWhole, Extras, Told, AllResolved, Answered, Resolves, Failed;
      FailureMoves(st, failure);
      Emit(MessageStart(failure));
      FailureMoves(st, failure);
      Emit(MessageEnd(failure));
      FailureMoves(st, failure);
      Emit(AgentEnd([failure]));
    }
  }

  lemma AppendResults(start: seq<Message>, done: seq<Message>, results: seq<Message>)
    ensures (start + done) + results == start + (done + results)
  {
  }

  /** A context holds the committed messages exactly when it holds no stale partial message besides. */
  lemma ContextLength(start: seq<Message>, done: seq<Message>, context: seq<Message>, restarts: nat)
    requires |context| == |start| + |done| + restarts
    requires restarts == 0 ==> context == start + done
    ensures context == start + done <==> restarts == 0
  {
  }
}
