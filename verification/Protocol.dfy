/**
 * The protocol of one agent run, as an automaton over what can be observed of it:
 * the emitted events, the answers of the queues and hooks, and the abort signal.
 * `AgentLoop` proves that the loop makes only moves that `Allowed` admits;
 * `ProtocolTheorems` proves what every admitted trace satisfies.
 */
module Protocol {
  import opened Messages

  datatype Source = Steering | FollowUp | Continuation

  datatype Obs =
    | Emitted(event: Event)
    | Polled(source: Source, batches: seq<Batch>)  // the batches that the poll returned
    | StopAfterTurn(stop: bool)                    // the answer of shouldStopAfterTurn
    | StopBeforeTurn(stop: bool)                   // the answer of shouldStopBeforeTurn
    | AbortSignalled
    | RunThrew

  type Trace = seq<Obs>

  datatype Stage =
    | Fresh
    | TurnDue             // turn_start comes next
    | Injecting           // queued messages go in, then the assistant message opens
    | Streaming           // the assistant message is open
    | Acting              // tool calls and their results
    | Between(ask: Ask)   // turn_end is out; what is asked next
    | EndDue              // only agent_end may come
    | FailureDue          // the run threw; the failure message comes
    | FailureOpen
    | FailureEndDue
    | Ended

  /** The questions between two turns, in the order in which they are asked. */
  datatype Ask =
    | AskStopAfterTurn
    | StopBeforeSteering
    | AskSteering
    | StopAfterSteering   // steering was empty
    | StopBeforeFollowUp
    | AskFollowUp
    | StopBeforeContinuation
    | AskContinuation

  /** A tool call that has ended, as tool_execution_end announced it. */
  datatype Finished = Finished(id: string, name: string, output: ToolOutput, isError: bool)

  /** A turn: the batches injected before the reply, the reply, and the tool results after it. */
  datatype Turn = Turn(batches: seq<Batch>, injected: seq<Message>, reply: Option<Message>, results: seq<Message>)

  datatype Run = Run(
    stage: Stage,
    turns: seq<Turn>,               // completed turns
    turn: Turn,                     // the current turn
    pending: seq<Message>,          // still to be injected in it
    polled: bool,                   // the poll that opens the run is done
    open: Option<Message>,          // the message whose bracket is open
    restarts: nat,                  // how often a provider restarted an open message
    started: nat,                   // tool calls started in this turn
    openTools: multiset<string>,    // ids started and not yet ended
    finished: multiset<Finished>,   // tool calls ended in this turn
    owed: bool,                     // the last turn's tool results still want a reply
    aborted: bool,
    failure: seq<Message>)          // the message that reports a thrown run

  const NoTurn := Turn([], [], None, [])

  function Start(prompts: Batch): Run {
    Run(Fresh, [], NoTurn.(batches := [prompts]), prompts, false, None, 0, 0, multiset{}, multiset{}, false, false, [])
  }

  function Calls(r: Run): seq<ToolCall> {
    if r.turn.reply.Some? then CallsOf(r.turn.reply.value) else []
  }

  /** The batch stops the loop when it is not empty and every tool asked for that. */
  ghost predicate AllTerminate(finished: multiset<Finished>) {
    |finished| > 0 && forall f :: f in finished ==> f.output.terminate == Some(true)
  }

  /** Decisions between two turns: here, and only here, an aborted run may end at once. */
  predicate AtBoundary(s: Stage) {
    s.TurnDue? || s.Between? || s.EndDue?
  }

  /** The result message of the next call, carrying what its tool_execution_end announced. */
  ghost predicate NextResult(r: Run, m: Message) {
    && m.ToolResult?
    && |r.turn.results| < |Calls(r)|
    && var call := Calls(r)[|r.turn.results|];
    && m.callId == call.id && m.toolName == call.name
    && exists f :: f in r.finished && Reports(m, f)
  }

  predicate Reports(m: Message, f: Finished) {
    m.ToolResult? && m.callId == f.id && m.toolName == f.name
    && m.content == f.output.content && m.details == f.output.details && m.isError == f.isError
  }

  ghost predicate MayEmit(r: Run, e: Event) {
    match e
    case AgentStart => r.stage == Fresh
    case TurnStart => r.stage == TurnDue && (r.aborted ==> |r.turns| == 0)
    case MessageStart(m) =>
      match r.stage {
        case Injecting => r.open == None && if |r.pending| > 0 then m == r.pending[0] else r.polled && m.Assistant?
        case Streaming => m.Assistant?
        case Acting => r.open == None && r.openTools == multiset{} && NextResult(r, m)
        case FailureDue => Failed(m)
        case _ => false
      }
    case MessageUpdate(m) => r.stage == Streaming && m.Assistant?
    case MessageEnd(m) =>
      match r.stage {
        case Injecting => r.open == Some(m) && |r.pending| > 0 && m == r.pending[0]
        case Streaming => m.Assistant?
        case Acting => r.open == Some(m)
        case FailureOpen => r.open == Some(m)
        case _ => false
      }
    case ToolStart(id, name, args) =>
      && r.stage == Acting && r.open == None
      && r.turn.reply.Some? && !Failed(r.turn.reply.value)
      && r.started < |Calls(r)| && Calls(r)[r.started] == ToolCall(id, name, args)
    case ToolUpdate(id) => r.stage == Acting && r.open == None && id in r.openTools && !r.aborted
    case ToolEnd(id, name, output, isError) => r.stage == Acting && r.open == None && id in r.openTools
    case TurnEnd(m, results) =>
      && r.stage == Acting && r.open == None
      && r.turn.reply == Some(m) && r.turn.results == results
      && r.openTools == multiset{} && |results| == r.started
      && (r.started < |Calls(r)| ==> r.aborted || Failed(m))
    case AgentEnd(messages) =>
      || (messages == Committed(r) && (r.stage == EndDue || (r.aborted && AtBoundary(r.stage) && |r.turns| > 0)))
      || (messages == r.failure && r.stage == FailureEndDue)
  }

  /** The messages that the run has closed so far, oldest first. */
  function Committed(r: Run): seq<Message> {
    Transcript(r.turns) + OfTurn(r.turn) + r.failure
  }

  function OfTurn(t: Turn): seq<Message> {
    t.injected + (if t.reply.Some? then [t.reply.value] else []) + t.results
  }

  function Transcript(turns: seq<Turn>): seq<Message> {
    if turns == [] then [] else Transcript(turns[..|turns| - 1]) + OfTurn(turns[|turns| - 1])
  }

  predicate NonEmpty(batches: seq<Batch>) {
    forall i :: 0 <= i < |batches| ==> batches[i] != []
  }

  predicate PollDue(r: Run, source: Source) {
    match source
    case Steering =>
      || r.stage == Between(AskSteering)
      || (r.stage == Injecting && !r.polled && |r.pending| == 0 && r.open == None)
    case FollowUp => r.stage == Between(AskFollowUp)
    case Continuation => r.stage == Between(AskContinuation)
  }

  predicate MayStop(ask: Ask) {
    ask.StopBeforeSteering? || ask.StopAfterSteering? || ask.StopBeforeFollowUp? || ask.StopBeforeContinuation?
  }

  ghost predicate Allowed(r: Run, o: Obs) {
    match o
    case Emitted(e) => MayEmit(r, e)
    case Polled(source, batches) =>
      PollDue(r, source) && NonEmpty(batches) && (source == Continuation ==> |batches| <= 1)
    case StopAfterTurn(_) => r.stage == Between(AskStopAfterTurn)
    case StopBeforeTurn(_) => r.stage.Between? && MayStop(r.stage.ask)
    case AbortSignalled => !r.aborted
    case RunThrew => MayThrow(r.stage)
  }

  ghost function AfterEvent(r: Run, e: Event): Run
    requires MayEmit(r, e)
  {
    match e
    case AgentStart => r.(stage := TurnDue)
    case TurnStart => r.(stage := Injecting)
    case MessageStart(m) =>
      (match r.stage
       case Injecting => r.(stage := if |r.pending| > 0 then Injecting else Streaming, open := Some(m))
       case Streaming => r.(open := Some(m), restarts := r.restarts + 1)
       case Acting => r.(open := Some(m))
       case _ => r.(stage := FailureOpen, open := Some(m)))
    case MessageUpdate(m) => r.(open := Some(m))
    case MessageEnd(m) =>
      (match r.stage
       case Injecting =>
         r.(open := None, pending := r.pending[1..], turn := r.turn.(injected := r.turn.injected + [m]))
       case Streaming => r.(stage := Acting, open := None, turn := r.turn.(reply := Some(m)))
       case Acting => r.(open := None, turn := r.turn.(results := r.turn.results + [m]))
       case _ => r.(stage := FailureEndDue, open := None, failure := [m]))
    case ToolStart(id, _, _) => r.(started := r.started + 1, openTools := r.openTools + multiset{id})
    case ToolUpdate(_) => r
    case ToolEnd(id, name, output, isError) =>
      r.(openTools := r.openTools - multiset{id},
         finished := r.finished + multiset{Finished(id, name, output, isError)})
    case TurnEnd(m, results) =>
      r.(stage := if Failed(m) || r.started < |Calls(r)| then EndDue else Between(AskStopAfterTurn),
         turns := r.turns + [r.turn], turn := NoTurn,
         owed := |Calls(r)| > 0 && !AllTerminate(r.finished),
         started := 0, finished := multiset{})
    case AgentEnd(_) => r.(stage := Ended)
  }

  /** The batches that a poll returned are the next thing to be injected. */
  function Inject(r: Run, batches: seq<Batch>): Run {
    r.(stage := TurnDue, pending := Flatten(batches), turn := NoTurn.(batches := batches))
  }

  ghost function After(r: Run, o: Obs): Run
    requires Allowed(r, o)
  {
    match o
    case Emitted(e) => AfterEvent(r, e)
    case Polled(source, batches) =>
      if r.stage == Injecting then
        r.(polled := true, pending := Flatten(batches), turn := r.turn.(batches := r.turn.batches + batches))
      else if |batches| > 0 then Inject(r, batches)
      else r.(stage := match source case Steering => Between(StopAfterSteering)
                                    case FollowUp => Between(StopBeforeContinuation)
                                    case Continuation => EndDue)
    case StopAfterTurn(stop) => r.(stage := if stop then EndDue else Between(StopBeforeSteering))
    case StopBeforeTurn(stop) =>
      if stop then r.(stage := EndDue)
      else if r.stage.ask.StopAfterSteering? && r.owed then Inject(r, [])
      else r.(stage := Between(
        match r.stage.ask
        case StopBeforeSteering => AskSteering
        case StopAfterSteering => StopBeforeFollowUp
        case StopBeforeFollowUp => AskFollowUp
        case _ => AskContinuation))
    case AbortSignalled => r.(aborted := true)
    case RunThrew => r.(stage := FailureDue)
  }

  /** The run makes only admitted moves. */
  ghost predicate Accepted(prompts: Batch, trace: Trace)
    decreases |trace|, 0
  {
    trace == [] || (Accepted(prompts, Front(trace)) && Allowed(State(prompts, Front(trace)), Last(trace)))
  }

  ghost function State(prompts: Batch, trace: Trace): Run
    requires Accepted(prompts, trace)
    decreases |trace|, 1
  {
    if trace == [] then Start(prompts) else After(State(prompts, Front(trace)), Last(trace))
  }

  function Front(trace: Trace): Trace
    requires trace != []
  {
    trace[..|trace| - 1]
  }

  function Last(trace: Trace): Obs
    requires trace != []
  {
    trace[|trace| - 1]
  }

  lemma Extend(prompts: Batch, trace: Trace, o: Obs)
    requires Accepted(prompts, trace) && Allowed(State(prompts, trace), o)
    ensures Accepted(prompts, trace + [o])
    ensures State(prompts, trace + [o]) == After(State(prompts, trace), o)
  {
    assert Front(trace + [o]) == trace;
  }

  lemma {:induction false} PrefixAccepted(prompts: Batch, trace: Trace, n: nat)
    requires Accepted(prompts, trace) && n <= |trace|
    ensures Accepted(prompts, trace[..n])
  {
    if n < |trace| {
      PrefixAccepted(prompts, Front(trace), n);
      assert Front(trace)[..n] == trace[..n];
    } else {
      assert trace[..n] == trace;
    }
  }

  /** One move commits a message exactly when it is a message_end. */
  lemma CommitStep(r: Run, o: Obs)
    requires Allowed(r, o) && Orderly(r)
    ensures Committed(After(r, o)) == if IsMessageEnd(o) then Committed(r) + [o.event.message] else Committed(r)
  {
    hide MayEmit, AfterEvent, Flatten, NonEmpty;
    if o.Emitted? {
      CommitEvent(r, o.event);
    } else {
      var r' := After(r, o);
      assert r'.turns == r.turns && r'.failure == r.failure && OfTurn(r'.turn) == OfTurn(r.turn);
    }
  }

  lemma CommitEvent(r: Run, e: Event)
    requires MayEmit(r, e) && Orderly(r)
    ensures Committed(AfterEvent(r, e)) == if e.MessageEnd? then Committed(r) + [e.message] else Committed(r)
  {
    if e.MessageEnd? {
      CommitMessage(r, e.message);
    } else if e.TurnEnd? {
      var r' := AfterEvent(r, e);
      assert r'.turns[..|r.turns|] == r.turns;
      assert OfTurn(r'.turn) == [];
    } else {
      var r' := AfterEvent(r, e);
      assert r'.turns == r.turns && r'.failure == r.failure && r'.turn == r.turn;
    }
  }

  lemma CommitMessage(r: Run, m: Message)
    requires MayEmit(r, MessageEnd(m)) && Orderly(r)
    ensures Committed(AfterEvent(r, MessageEnd(m))) == Committed(r) + [m]
  {
    var turn := AfterEvent(r, MessageEnd(m)).turn;
    if r.stage != FailureOpen {
      OneMore(r.turn, turn, m);
      assert Committed(r) == Transcript(r.turns) + OfTurn(r.turn);
    }
  }

  lemma OneMore(t: Turn, t': Turn, m: Message)
    requires || (t.reply == None && t.results == [] && (t' == t.(injected := t.injected + [m]) || t' == t.(reply := Some(m))))
             || t' == t.(results := t.results + [m])
    ensures OfTurn(t') == OfTurn(t) + [m]
  {
  }

  lemma EventKeeps(r: Run, e: Event)
    requires MayEmit(r, e)
    ensures AfterEvent(r, e).aborted == r.aborted
    ensures !e.MessageStart? ==> AfterEvent(r, e).restarts == r.restarts
    ensures AfterEvent(r, e).openTools
         == if e.ToolStart? then r.openTools + multiset{e.id}
            else if e.ToolEnd? then r.openTools - multiset{e.id}
            else r.openTools
  {
  }

  /** Events that close neither a message nor a turn leave the conversation so far alone. */
  lemma QuietEvent(r: Run, e: Event)
    requires MayEmit(r, e) && !e.MessageEnd? && !e.TurnEnd?
    ensures SameConversation(r, AfterEvent(r, e))
  {
    hide MayEmit, AfterEvent, SameConversation;
    if e.MessageStart? {
      QuietOpening(r, e);
    } else if e.ToolStart? || e.ToolEnd? {
      QuietTool(r, e);
    } else {
      QuietElse(r, e);
    }
  }

  predicate SameConversation(r: Run, r': Run) {
    r'.turns == r.turns && r'.turn == r.turn && r'.pending == r.pending && r'.polled == r.polled && r'.failure == r.failure
  }

  lemma QuietOpening(r: Run, e: Event)
    requires MayEmit(r, e) && e.MessageStart?
    ensures SameConversation(r, AfterEvent(r, e))
  {
    hide Committed, NextResult, AllTerminate, CallsOf;
  }

  lemma QuietTool(r: Run, e: Event)
    requires MayEmit(r, e) && (e.ToolStart? || e.ToolEnd?)
    ensures SameConversation(r, AfterEvent(r, e))
  {
    hide Committed, NextResult, AllTerminate, CallsOf;
  }

  lemma QuietElse(r: Run, e: Event)
    requires MayEmit(r, e) && (e.AgentStart? || e.AgentEnd? || e.TurnStart? || e.MessageUpdate? || e.ToolUpdate?)
    ensures SameConversation(r, AfterEvent(r, e))
  {
    hide Committed, NextResult, AllTerminate, CallsOf;
  }

  lemma AnswerKeeps(r: Run, o: Obs)
    requires Allowed(r, o) && !o.Emitted?
    ensures After(r, o).openTools == r.openTools
    ensures !o.AbortSignalled? ==> After(r, o).aborted == r.aborted
  {
  }

  predicate IsMessageEnd(o: Obs) {
    o.Emitted? && o.event.MessageEnd?
  }

  /** Facts about the automaton's own bookkeeping that hold in every state it can reach. */
  ghost predicate Orderly(r: Run) {
    && (r.stage.Fresh? || r.stage.TurnDue? ==> r.turn == NoTurn.(batches := r.turn.batches) && r.open == None)
    && (r.stage.Between? || r.stage.EndDue? ==> r.turn == NoTurn && r.open == None)
    && (r.stage.Injecting? || r.stage.Streaming? ==> r.turn.reply == None)
    && (r.stage.Streaming? ==> r.open.Some?)
    && (r.stage == Acting <==> r.turn.reply.Some?)
    && (r.turn.reply == None ==> |r.turn.results| == 0)
    && (!r.stage.FailureEndDue? && !r.stage.Ended? ==> |r.failure| == 0)
    && (r.stage.FailureEndDue? || r.stage.Ended? ==> r.open == None)
    && (r.open.Some? ==> r.openTools == multiset{})
    && (r.stage != Acting ==> r.openTools == multiset{} && r.started == 0 && r.finished == multiset{})
  }

  // ----- the moves of a reply -----

  /** Everything is injected and the assistant message may open. */
  predicate ReplyMayOpen(r: Run) {
    r.stage == Injecting && |r.pending| == 0 && r.polled && r.open == None
  }

  lemma OpenReplyMove(r: Run, m: Message)
    requires ReplyMayOpen(r) && m.Assistant?
    ensures MayEmit(r, MessageStart(m)) && AfterEvent(r, MessageStart(m)) == r.(stage := Streaming, open := Some(m))
  {
  }

  lemma StreamingMoves(r: Run, m: Message)
    requires r.stage == Streaming && m.Assistant?
    ensures MayEmit(r, MessageStart(m)) && AfterEvent(r, MessageStart(m)) == r.(open := Some(m), restarts := r.restarts + 1)
    ensures MayEmit(r, MessageUpdate(m)) && AfterEvent(r, MessageUpdate(m)) == r.(open := Some(m))
    ensures MayEmit(r, MessageEnd(m))
    ensures AfterEvent(r, MessageEnd(m)) == r.(stage := Acting, open := None, turn := r.turn.(reply := Some(m)))
  {
  }

  // ----- the moves of an injected message -----

  lemma InjectStartMove(r: Run, m: Message)
    requires r.stage == Injecting && r.open == None && |r.pending| > 0 && m == r.pending[0]
    ensures MayEmit(r, MessageStart(m)) && AfterEvent(r, MessageStart(m)) == r.(open := Some(m))
  {
  }

  lemma InjectEndMove(r: Run, m: Message)
    requires r.stage == Injecting && r.open == Some(m) && |r.pending| > 0 && m == r.pending[0]
    ensures MayEmit(r, MessageEnd(m))
    ensures AfterEvent(r, MessageEnd(m))
         == r.(open := None, pending := r.pending[1..], turn := r.turn.(injected := r.turn.injected + [m]))
  {
  }

  // ----- the moves between two turns -----

  lemma StopAfterMove(r: Run, stop: bool)
    requires r.stage == Between(AskStopAfterTurn)
    ensures Allowed(r, StopAfterTurn(stop))
    ensures After(r, StopAfterTurn(stop)) == r.(stage := if stop then EndDue else Between(StopBeforeSteering))
  {
  }

  /** Where a false answer of shouldStopBeforeTurn leads. */
  function Onward(r: Run, ask: Ask): Run {
    match ask
    case StopBeforeSteering => r.(stage := Between(AskSteering))
    case StopAfterSteering => if r.owed then Inject(r, []) else r.(stage := Between(StopBeforeFollowUp))
    case StopBeforeFollowUp => r.(stage := Between(AskFollowUp))
    case _ => r.(stage := Between(AskContinuation))
  }

  lemma StopBeforeMove(r: Run, ask: Ask, stop: bool)
    requires r.stage == Between(ask) && MayStop(ask)
    ensures Allowed(r, StopBeforeTurn(stop))
    ensures After(r, StopBeforeTurn(stop)) == if stop then r.(stage := EndDue) else Onward(r, ask)
  {
  }

  lemma PollMove(r: Run, source: Source, batches: seq<Batch>)
    requires r.stage.Between? && PollDue(r, source) && NonEmpty(batches) && (source == Continuation ==> |batches| <= 1)
    ensures Allowed(r, Polled(source, batches))
    ensures After(r, Polled(source, batches))
         == if |batches| > 0 then Inject(r, batches)
            else r.(stage := match source case Steering => Between(StopAfterSteering)
                                          case FollowUp => Between(StopBeforeContinuation)
                                          case Continuation => EndDue)
    ensures |Flatten(batches)| > 0 <==> |batches| > 0
  {
  }

  lemma PollAllowed(r: Run, source: Source, batches: seq<Batch>)
    requires PollDue(r, source) && NonEmpty(batches) && source != Continuation
    ensures Allowed(r, Polled(source, batches))
  {
  }

  lemma EndMove(r: Run, messages: seq<Message>)
    requires messages == Committed(r) && |r.turns| > 0
    requires r.stage == EndDue || (r.aborted && AtBoundary(r.stage))
    ensures MayEmit(r, AgentEnd(messages)) && AfterEvent(r, AgentEnd(messages)) == r.(stage := Ended)
  {
  }

  lemma TurnStartMove(r: Run)
    requires r.stage == TurnDue && (r.aborted ==> |r.turns| == 0)
    ensures MayEmit(r, TurnStart) && AfterEvent(r, TurnStart) == r.(stage := Injecting)
  {
  }

  lemma TurnEndMove(r: Run, m: Message, results: seq<Message>)
    requires r.stage == Acting && r.open == None && r.openTools == multiset{}
    requires r.turn.reply == Some(m) && r.turn.results == results && |results| == r.started
    requires r.started < |CallsOf(m)| ==> r.aborted || Failed(m)
    ensures MayEmit(r, TurnEnd(m, results))
    ensures AfterEvent(r, TurnEnd(m, results))
         == r.(stage := if Failed(m) || r.started < |CallsOf(m)| then EndDue else Between(AskStopAfterTurn),
               turns := r.turns + [r.turn], turn := NoTurn,
               owed := |CallsOf(m)| > 0 && !AllTerminate(r.finished),
               started := 0, finished := multiset{})
  {
  }

  predicate MayThrow(s: Stage) {
    s.Injecting? || s.Streaming? || s.TurnDue? || s.Between?
  }

  lemma OpeningPollMove(r: Run, batches: seq<Batch>)
    requires r.stage == Injecting && !r.polled && |r.pending| == 0 && r.open == None && NonEmpty(batches)
    ensures Allowed(r, Polled(Steering, batches))
    ensures After(r, Polled(Steering, batches))
         == r.(polled := true, pending := Flatten(batches), turn := r.turn.(batches := r.turn.batches + batches))
  {
  }

  lemma OpeningMoves(r: Run)
    ensures r.stage == Fresh ==> MayEmit(r, AgentStart) && AfterEvent(r, AgentStart) == r.(stage := TurnDue)
    ensures MayThrow(r.stage) ==> Allowed(r, RunThrew) && After(r, RunThrew) == r.(stage := FailureDue)
  {
  }

  lemma FailureMoves(r: Run, m: Message)
    requires Failed(m)
    ensures r.stage == FailureDue ==>
              MayEmit(r, MessageStart(m)) && AfterEvent(r, MessageStart(m)) == r.(stage := FailureOpen, open := Some(m))
    ensures r.stage == FailureOpen && r.open == Some(m) ==>
              MayEmit(r, MessageEnd(m)) && AfterEvent(r, MessageEnd(m)) == r.(stage := FailureEndDue, open := None, failure := [m])
    ensures r.stage == FailureEndDue && r.failure == [m] ==>
              MayEmit(r, AgentEnd([m])) && AfterEvent(r, AgentEnd([m])) == r.(stage := Ended)
  {
  }
}
