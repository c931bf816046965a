/** The transcript that the agent rebuilds from the events it is handed (`processEvents`). */
module AgentView {
  import opened Messages
  import opened Protocol
  import opened ProtocolTheorems
  import opened PendingQueue

  /** The event-driven part of the agent's state. */
  datatype View = View(messages: seq<Message>, streaming: Option<Message>, pending: set<string>, error: Option<string>)

  function Reduce(v: View, e: Event): View {
    match e
    case MessageStart(m) => v.(streaming := Some(m))
    case MessageUpdate(m) => v.(streaming := Some(m))
    case MessageEnd(m) => v.(streaming := None, messages := v.messages + [m])
    case ToolStart(id, _, _) => v.(pending := v.pending + {id})
    case ToolEnd(id, _, _, _) => v.(pending := v.pending - {id})
    case TurnEnd(m, _) =>
      if m.Assistant? && m.errorMessage.Some? && m.errorMessage.value != "" then v.(error := m.errorMessage) else v
    case AgentEnd(_) => v.(streaming := None)
    case _ => v
  }

  function Rebuild(v: View, trace: Trace): View {
    if trace == [] then v
    else if Last(trace).Emitted? then Reduce(Rebuild(v, Front(trace)), Last(trace).event)
    else Rebuild(v, Front(trace))
  }

  /** The agent's transcript is its transcript at the start followed by what the loop committed. */
  lemma {:induction false} RebuildsTranscript(prompts: Batch, v: View, trace: Trace)
    requires Accepted(prompts, trace)
    ensures Rebuild(v, trace).messages == v.messages + Committed(State(prompts, trace))
  {
    TranscriptFromEvents(prompts, trace);
    RebuildCloses(v, trace);
  }

  lemma {:induction false} RebuildCloses(v: View, trace: Trace)
    ensures Rebuild(v, trace).messages == v.messages + MessageEnds(trace)
  {
    if trace != [] {
      RebuildCloses(v, Front(trace));
      if IsMessageEnd(Last(trace)) {
        var done, last := MessageEnds(Front(trace)), [Last(trace).event.message];
        assert v.messages + (done + last) == (v.messages + done) + last;
      }
    }
  }

  /** The streaming message is the one whose bracket is open. */
  lemma {:induction false} RebuildsStreaming(prompts: Batch, v: View, trace: Trace)
    requires Accepted(prompts, trace) && v.streaming == None
    ensures Rebuild(v, trace).streaming == State(prompts, trace).open
  {
    if trace != [] {
      RebuildsStreaming(prompts, v, Front(trace));
      AlwaysOrderly(prompts, Front(trace));
      StreamingStep(State(prompts, Front(trace)), Last(trace), Rebuild(v, Front(trace)));
    }
  }

  lemma StreamingStep(r: Run, o: Obs, v: View)
    requires Orderly(r) && Allowed(r, o) && v.streaming == r.open
    ensures o.Emitted? ==> Reduce(v, o.event).streaming == After(r, o).open
    ensures !o.Emitted? ==> v.streaming == After(r, o).open
  {
    hide MayEmit, AfterEvent;
    if o.Emitted? {
      StreamingEvent(r, o.event, v);
    }
  }

  lemma StreamingEvent(r: Run, e: Event, v: View)
    requires Orderly(r) && MayEmit(r, e) && v.streaming == r.open
    ensures Reduce(v, e).streaming == AfterEvent(r, e).open
  {
    hide Committed, NextResult, AllTerminate, CallsOf;
  }

  /** An error that the end of a turn reports. */
  predicate ReportsError(o: Obs) {
    o.Emitted? && o.event.TurnEnd? && o.event.message.Assistant? && o.event.message.errorMessage.Some?
    && |o.event.message.errorMessage.value| > 0
  }

  /** The error of the last turn that ended with one. */
  function LastError(trace: Trace, otherwise: Option<string>): Option<string> {
    if trace == [] then otherwise
    else if ReportsError(Last(trace)) then Last(trace).event.message.errorMessage
    else LastError(Front(trace), otherwise)
  }

  lemma {:induction false} RebuildsError(v: View, trace: Trace)
    ensures Rebuild(v, trace).error == LastError(trace, v.error)
  {
    if trace != [] {
      RebuildsError(v, Front(trace));
    }
  }

  /** Each reply names its tool calls by distinct ids. */
  predicate DistinctIds(calls: seq<ToolCall>) {
    forall i, j :: 0 <= i < j < |calls| ==> calls[i].id != calls[j].id
  }

  ghost predicate DistinctCalls(trace: Trace) {
    forall i :: 0 <= i < |trace| && trace[i].Emitted? && trace[i].event.MessageEnd?
      ==> DistinctIds(CallsOf(trace[i].event.message))
  }

  /** Ids not yet ended belong to calls already started; no id is open twice. */
  ghost predicate OpenOnce(r: Run) {
    && (r.stage == Acting ==> DistinctIds(Calls(r)) && r.started <= |Calls(r)|)
    && (forall id :: id in r.openTools ==>
          r.openTools[id] == 1 && r.stage == Acting && exists k :: 0 <= k < r.started && Calls(r)[k].id == id)
  }

  lemma OpenOnceStep(r: Run, o: Obs)
    requires Orderly(r) && OpenOnce(r) && Allowed(r, o)
    requires o.Emitted? && o.event.MessageEnd? ==> DistinctIds(CallsOf(o.event.message))
    ensures OpenOnce(After(r, o))
  {
    hide MayEmit, AfterEvent;
    match o
    case Emitted(e) => OpenOnceEvent(r, e);
    case _ =>
  }

  lemma OpenOnceEvent(r: Run, e: Event)
    requires Orderly(r) && OpenOnce(r) && MayEmit(r, e)
    requires e.MessageEnd? ==> DistinctIds(CallsOf(e.message))
    ensures OpenOnce(AfterEvent(r, e))
  {
    hide AfterEvent, MayEmit, Orderly, DistinctIds;
    if e.ToolStart? || e.ToolEnd? {
      OpenOnceTool(r, e);
    } else {
      OpenOnceOther(r, e);
    }
  }

  lemma OpenOnceTool(r: Run, e: Event)
    requires OpenOnce(r) && MayEmit(r, e) && (e.ToolStart? || e.ToolEnd?)
    ensures OpenOnce(AfterEvent(r, e))
  {
    hide Committed, NextResult, AllTerminate, ToolCalls;
    if e.ToolStart? {
      assert Calls(r)[r.started].id == e.id;
    }
  }

  lemma OpenOnceOther(r: Run, e: Event)
    requires Orderly(r) && OpenOnce(r) && MayEmit(r, e) && !e.ToolStart? && !e.ToolEnd?
    requires e.MessageEnd? ==> DistinctIds(CallsOf(e.message))
    ensures OpenOnce(AfterEvent(r, e))
  {
    hide Committed, NextResult, AllTerminate, ToolCalls, DistinctIds;
  }

  /**
   * `pendingToolCalls` never names a call that is not executing, so it is empty at every
   * turn_end.
   */
  lemma {:induction false} PendingIsExecuting(prompts: Batch, v: View, trace: Trace)
    requires Accepted(prompts, trace) && v.pending == {}
    ensures forall id :: id in Rebuild(v, trace).pending ==> id in State(prompts, trace).openTools
  {
    if trace != [] {
      PendingIsExecuting(prompts, v, Front(trace));
      OpenToolsStep(State(prompts, Front(trace)), Last(trace));
    }
  }

  /** With distinct ids, `pendingToolCalls` is exactly the set of calls started and not ended. */
  lemma {:induction false} ExecutingIsPending(prompts: Batch, v: View, trace: Trace)
    requires Accepted(prompts, trace) && v.pending == {} && DistinctCalls(trace)
    ensures OpenOnce(State(prompts, trace))
    ensures forall id :: id in State(prompts, trace).openTools <==> id in Rebuild(v, trace).pending
  {
    if trace != [] {
      var front := Front(trace);
      assert Last(trace) == trace[|trace| - 1] && forall i :: 0 <= i < |front| ==> front[i] == trace[i];
      ExecutingIsPending(prompts, v, front);
      AlwaysOrderly(prompts, front);
      OpenOnceStep(State(prompts, front), Last(trace));
      OpenToolsStep(State(prompts, front), Last(trace));
      PendingIsExecuting(prompts, v, trace);
    }
  }

  /** The executions that an observer of the events sees started and not ended, by call id. */
  function Executing(trace: Trace): multiset<string> {
    if trace == [] then multiset{}
    else if !Last(trace).Emitted? then Executing(Front(trace))
    else match Last(trace).event
      case ToolStart(id, _, _) => Executing(Front(trace)) + multiset{id}
      case ToolEnd(id, _, _, _) => Executing(Front(trace)) - multiset{id}
      case _ => Executing(Front(trace))
  }

  lemma {:induction false} ExecutingIsOpen(prompts: Batch, trace: Trace)
    requires Accepted(prompts, trace)
    ensures Executing(trace) == State(prompts, trace).openTools
  {
    hide After, Allowed;
    if trace != [] {
      ExecutingIsOpen(prompts, Front(trace));
      OpenToolsStep(State(prompts, Front(trace)), Last(trace));
    }
  }

  ghost predicate Tracks(pending: set<string>, executing: multiset<string>) {
    forall id :: id in executing <==> id in pending
  }

  /** Each tool_execution_end ends the only execution of its id. */
  predicate EndsAlone(trace: Trace) {
    forall i :: 0 <= i < |trace| && trace[i].Emitted? && trace[i].event.ToolEnd? ==>
      Executing(trace[..i])[trace[i].event.id] == 1
  }

  /** `pendingToolCalls` is started minus ended all along exactly when every end is the end of the only execution of its id. */
  lemma {:induction false} TracksExactlyWhenEndsAlone(prompts: Batch, v: View, trace: Trace)
    requires Accepted(prompts, trace) && v.pending == {}
    ensures (forall n :: 0 <= n <= |trace| ==> Tracks(Rebuild(v, trace[..n]).pending, Executing(trace[..n]))) <==> EndsAlone(trace)
  {
    hide After, Allowed, Executing, Rebuild, Tracks;
    if trace == [] {
      assert trace[..0] == trace;
      NothingTracked(v);
    } else {
      var front := Front(trace);
      TracksExactlyWhenEndsAlone(prompts, v, front);
      assert trace[..|trace|] == trace && trace[..|front|] == front && front[..|front|] == front;
      assert forall n :: 0 <= n <= |front| ==> trace[..n] == front[..n];
      assert forall i :: 0 <= i < |front| ==> trace[i] == front[i];
      if forall n :: 0 <= n <= |front| ==> Tracks(Rebuild(v, front[..n]).pending, Executing(front[..n])) {
        assert Tracks(Rebuild(v, front).pending, Executing(front));
        TracksOneMore(prompts, v, trace);
      } else {
        var n :| 0 <= n <= |front| && !Tracks(Rebuild(v, front[..n]).pending, Executing(front[..n]));
        assert !Tracks(Rebuild(v, trace[..n]).pending, Executing(trace[..n]));
      }
    }
  }

  lemma NothingTracked(v: View)
    ensures Tracks(Rebuild(v, []).pending, Executing([])) <==> v.pending == {}
  {
    if Tracks(v.pending, multiset{}) {
      assert forall id :: id in v.pending <==> id in multiset{};
    }
  }

  lemma TracksOneMore(prompts: Batch, v: View, trace: Trace)
    requires Accepted(prompts, trace) && trace != [] && Tracks(Rebuild(v, Front(trace)).pending, Executing(Front(trace)))
    ensures Tracks(Rebuild(v, trace).pending, Executing(trace)) <==>
              (Last(trace).Emitted? && Last(trace).event.ToolEnd? ==> Executing(Front(trace))[Last(trace).event.id] == 1)
  {
    ExecutingIsOpen(prompts, Front(trace));
    if Last(trace).Emitted? && Last(trace).event.ToolEnd? {
      var id := Last(trace).event.id;
      EndsAnOpenOne(State(prompts, Front(trace)), Last(trace).event);
      assert id in Executing(Front(trace));
      assert id in Executing(trace) <==> Executing(Front(trace))[id] > 1;
    }
  }

  lemma EndsAnOpenOne(r: Run, e: Event)
    requires MayEmit(r, e) && e.ToolEnd?
    ensures e.id in r.openTools
  {
  }

  /** No tool call is pending when a turn ends. */
  lemma NothingPendingAtTurnEnd(prompts: Batch, v: View, trace: Trace, i: nat)
    requires Accepted(prompts, trace) && v.pending == {}
    requires i < |trace| && trace[i].Emitted? && trace[i].event.TurnEnd?
    ensures Rebuild(v, trace[..i]).pending == {}
  {
    hide Allowed, After, Rebuild;
    PrefixAccepted(prompts, trace, i + 1);
    assert Front(trace[..i + 1]) == trace[..i];
    PendingIsExecuting(prompts, v, trace[..i]);
    NothingOpenAtTurnEnd(State(prompts, trace[..i]), trace[i]);
  }

  lemma NothingOpenAtTurnEnd(r: Run, o: Obs)
    requires Allowed(r, o) && o.Emitted? && o.event.TurnEnd?
    ensures r.openTools == multiset{}
  {
  }

  lemma TwoCalls(call: ToolCall)
    ensures ToolCalls([Call(call), Call(call)]) == [call, call]
  {
    var parts := [Call(call), Call(call)];
    assert parts[1..] == [Call(call)] && parts[1..][1..] == [];
    assert ToolCalls(parts[1..]) == [call] + ToolCalls([]);
  }

  /** With one id used twice, `pendingToolCalls` forgets a call that is still executing. */
  lemma RepeatedIdIsForgotten()
    ensures exists trace: Trace ::
              && Accepted([], trace) && !DistinctCalls(trace)
              && "1" in State([], trace).openTools
              && Rebuild(View([], None, {}, None), trace).pending == {}
  {
    var call := ToolCall("1", "t", "");
    var m := Assistant([Call(call), Call(call)], ToolUse, None);
    TwoCalls(call);
    assert !DistinctIds(CallsOf(m)) by {
      assert CallsOf(m)[0].id == CallsOf(m)[1].id;
    }
    var v := View([], None, {}, None);
    var t := ReplyTrace(v, m);
    var t3 := TwiceOpen(v, t, m);
    hide Accepted, State, Rebuild, DistinctCalls, DistinctIds, CallsOf, ToolCalls;
    assert t3[4] == Emitted(MessageEnd(m));
    NotDistinct(t3, 4);
  }

  lemma NotDistinct(trace: Trace, i: nat)
    requires i < |trace| && trace[i].Emitted? && trace[i].event.MessageEnd? && !DistinctIds(CallsOf(trace[i].event.message))
    ensures !DistinctCalls(trace)
  {
  }

  /** The two calls start and one of them ends. */
  lemma TwiceOpen(v: View, t: Trace, m: AssistantMessage) returns (t': Trace)
    requires Accepted([], t) && !Failed(m) && CallsOf(m) == [ToolCall("1", "t", ""), ToolCall("1", "t", "")]
    requires var r := State([], t);
             r.stage == Acting && r.open == None && r.turn.reply == Some(m) && r.started == 0 && r.openTools == multiset{}
    requires Rebuild(v, t).pending == {}
    ensures Accepted([], t') && t <= t' && "1" in State([], t').openTools && Rebuild(v, t').pending == {}
  {
    hide Committed, Rebuild;
    var t1 := Step([], v, t, Emitted(ToolStart("1", "t", "")));
    var t2 := Step([], v, t1, Emitted(ToolStart("1", "t", "")));
    t' := Step([], v, t2, Emitted(ToolEnd("1", "t", ToolOutput("", "", None), false)));
  }

  /** The shortest trace that ends with the reply `m`. */
  lemma ReplyTrace(v: View, m: AssistantMessage) returns (t: Trace)
    requires v.pending == {} && !Failed(m)
    ensures Accepted([], t) && |t| == 5 && t[4] == Emitted(MessageEnd(m))
    ensures var r := State([], t);
            && r.stage == Acting && r.open == None && r.turn.reply == Some(m)
            && r.started == 0 && r.openTools == multiset{} && |r.turn.results| == 0 && !r.aborted && r.failure == []
    ensures Rebuild(v, t).pending == {} && PolledBatches(t) == []
  {
    t := OpeningTrace(v);
    hide Accepted, State, Rebuild, PolledBatches, Committed, MayEmit, AfterEvent;
    OpenReplyMove(State([], t), m);
    t := Step([], v, t, Emitted(MessageStart(m)));
    StreamingMoves(State([], t), m);
    t := Step([], v, t, Emitted(MessageEnd(m)));
  }

  /** A run without prompts, up to the request for its first reply. */
  lemma OpeningTrace(v: View) returns (t: Trace)
    requires v.pending == {}
    ensures Accepted([], t) && |t| == 3 && (forall i :: 0 <= i < |t| ==> t[i] != RunThrew)
    ensures var r := State([], t);
            && ReplyMayOpen(r) && r.turn == Turn([[]], [], None, []) && r.restarts == 0
            && r.started == 0 && r.openTools == multiset{} && !r.aborted && r.failure == []
    ensures Rebuild(v, t).pending == {} && PolledBatches(t) == []
  {
    hide Committed, NextResult, AllTerminate;
    t := Step([], v, [], Emitted(AgentStart));
    t := Step([], v, t, Emitted(TurnStart));
    t := Step([], v, t, Polled(Steering, []));
  }

  /** One admitted move, seen by the automaton and by the agent. */
  lemma Step(prompts: Batch, v: View, trace: Trace, o: Obs) returns (trace': Trace)
    requires Accepted(prompts, trace) && Allowed(State(prompts, trace), o)
    ensures trace' == trace + [o] && Accepted(prompts, trace')
    ensures State(prompts, trace') == After(State(prompts, trace), o)
    ensures Rebuild(v, trace') == if o.Emitted? then Reduce(Rebuild(v, trace), o.event) else Rebuild(v, trace)
    ensures PolledBatches(trace') == if o.Polled? then PolledBatches(trace) + o.batches else PolledBatches(trace)
  {
    Extend(prompts, trace, o);
    trace' := trace + [o];
    assert Front(trace') == trace;
  }

  lemma OpenToolsStep(r: Run, o: Obs)
    requires Allowed(r, o)
    ensures After(r, o).openTools
         == if o.Emitted? && o.event.ToolStart? then r.openTools + multiset{o.event.id}
            else if o.Emitted? && o.event.ToolEnd? then r.openTools - multiset{o.event.id}
            else r.openTools
  {
    if o.Emitted? {
      EventKeeps(r, o.event);
    }
  }

  lemma RebuildOneMore(v: View, trace: Trace, e: Event)
    ensures Rebuild(v, trace + [Emitted(e)]) == Reduce(Rebuild(v, trace), e)
  {
    assert Front(trace + [Emitted(e)]) == trace;
  }

  /** The agent object: its event-driven state and its two queues. */
  class Agent {
    var messages: seq<Message>
    var streamingMessage: Option<Message>
    var pendingToolCalls: set<string>
    var errorMessage: Option<string>
    var activeRun: bool
    const steeringQueue: PendingMessageQueue
    const followUpQueue: PendingMessageQueue

    ghost predicate Valid()
      reads this, steeringQueue, followUpQueue
    {
      steeringQueue != followUpQueue && steeringQueue.Valid() && followUpQueue.Valid()
    }

    function CurrentView(): View
      reads this
    {
      View(messages, streamingMessage, pendingToolCalls, errorMessage)
    }

    constructor (steeringMode: QueueMode, followUpMode: QueueMode, messages: seq<Message>)
      ensures Valid() && fresh(steeringQueue) && fresh(followUpQueue)
      ensures CurrentView() == View(messages, None, {}, None)
      ensures steeringQueue.log == [] && followUpQueue.log == [] && !activeRun
    {
      activeRun := false;
      this.messages := messages;
      streamingMessage, pendingToolCalls, errorMessage := None, {}, None;
      var s := new PendingMessageQueue(steeringMode);
      var f := new PendingMessageQueue(followUpMode);
      steeringQueue, followUpQueue := s, f;
    }

    /** Between runs no message is streaming and no tool call is pending. */
    ghost predicate Idle()
      reads this, steeringQueue, followUpQueue
    {
      Valid() && (!activeRun ==> streamingMessage == None && pendingToolCalls == {})
    }

    /**
     * Reduce the state for one event more. The transcript is then the one at the start followed by the
     * message of every message_end seen since.
     */
    method ProcessEvents(e: Event, ghost start: View, ghost seen: Trace)
      requires CurrentView() == Rebuild(start, seen)
      modifies this`messages, this`streamingMessage, this`pendingToolCalls, this`errorMessage
      ensures CurrentView() == Reduce(old(CurrentView()), e) == Rebuild(start, seen + [Emitted(e)])
      ensures messages == start.messages + MessageEnds(seen + [Emitted(e)])
    {
      hide Rebuild, MessageEnds;
      RebuildOneMore(start, seen, e);
      RebuildCloses(start, seen + [Emitted(e)]);
      match e {
        case MessageStart(m) => streamingMessage := Some(m);
        case MessageUpdate(m) => streamingMessage := Some(m);
        case MessageEnd(m) =>
          streamingMessage := None;
          messages := messages + [m];
        case ToolStart(id, _, _) => pendingToolCalls := pendingToolCalls + {id};
        case ToolEnd(id, _, _, _) => pendingToolCalls := pendingToolCalls - {id};
        case TurnEnd(m, _) =>
          if m.Assistant? && m.errorMessage.Some? && m.errorMessage.value != "" {
            errorMessage := m.errorMessage;
          }
        case AgentEnd(_) => streamingMessage := None;
        case _ =>
      }
    }
  }
}
