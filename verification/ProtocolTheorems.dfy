/** What every admitted trace of an agent run satisfies. */
module ProtocolTheorems {
  import opened Messages
  import opened Protocol

  lemma {:induction false} AlwaysOrderly(prompts: Batch, trace: Trace)
    requires Accepted(prompts, trace)
    ensures Orderly(State(prompts, trace))
  {
    if trace != [] {
      AlwaysOrderly(prompts, Front(trace));
      OrderlyStep(State(prompts, Front(trace)), Last(trace));
    }
  }

  lemma OrderlyStep(r: Run, o: Obs)
    requires Orderly(r) && Allowed(r, o)
    ensures Orderly(After(r, o))
  {
    hide AfterEvent, MayEmit, Orderly;
    if o.Emitted? {
      OrderlyEvent(r, o.event);
    } else {
      OrderlyAnswer(r, o);
    }
  }

  lemma OrderlyAnswer(r: Run, o: Obs)
    requires Orderly(r) && Allowed(r, o) && !o.Emitted?
    ensures Orderly(After(r, o))
  {
    hide AfterEvent, MayEmit, Flatten, NonEmpty, Orderly;
    if o.Polled? {
      OrderlyPoll(r, o);
    } else {
      OrderlyElse(r, o);
    }
  }

  lemma OrderlyPoll(r: Run, o: Obs)
    requires Orderly(r) && Allowed(r, o) && o.Polled?
    ensures Orderly(After(r, o))
  {
    hide AfterEvent, MayEmit, Flatten, NonEmpty;
  }

  lemma OrderlyElse(r: Run, o: Obs)
    requires Orderly(r) && Allowed(r, o) && !o.Emitted? && !o.Polled?
    ensures Orderly(After(r, o))
  {
    hide AfterEvent, MayEmit, Flatten, NonEmpty;
  }

  lemma OrderlyEvent(r: Run, e: Event)
    requires Orderly(r) && MayEmit(r, e)
    ensures Orderly(AfterEvent(r, e))
  {
    hide AfterEvent, MayEmit, Orderly;
    if e.MessageEnd? {
      OrderlyClosing(r, e);
    } else if e.MessageStart? || e.MessageUpdate? {
      OrderlyOpening(r, e);
    } else {
      OrderlyOther(r, e);
    }
  }

  lemma OrderlyOpening(r: Run, e: Event)
    requires Orderly(r) && MayEmit(r, e) && (e.MessageStart? || e.MessageUpdate?)
    ensures Orderly(AfterEvent(r, e))
  {
    hide Committed, NextResult, AllTerminate, CallsOf;
  }

  lemma OrderlyClosing(r: Run, e: Event)
    requires Orderly(r) && MayEmit(r, e) && e.MessageEnd?
    ensures Orderly(AfterEvent(r, e))
  {
    hide Committed, NextResult, AllTerminate, CallsOf;
    match r.stage
    case Injecting => assert AfterEvent(r, e).stage == Injecting;
    case Streaming => assert AfterEvent(r, e).stage == Acting;
    case Acting => assert AfterEvent(r, e).stage == Acting;
    case FailureOpen => assert AfterEvent(r, e).stage == FailureEndDue;
  }

  lemma OrderlyOther(r: Run, e: Event)
    requires Orderly(r) && MayEmit(r, e) && !e.MessageStart? && !e.MessageUpdate? && !e.MessageEnd?
    ensures Orderly(AfterEvent(r, e))
  {
    hide Committed, NextResult, AllTerminate, CallsOf;
  }

  // ----- the transcript is exactly what message_end announced -----

  function MessageEnds(trace: Trace): seq<Message> {
    if trace == [] then []
    else if IsMessageEnd(Last(trace)) then MessageEnds(Front(trace)) + [Last(trace).event.message]
    else MessageEnds(Front(trace))
  }

  lemma {:induction false} TranscriptFromEvents(prompts: Batch, trace: Trace)
    requires Accepted(prompts, trace)
    ensures MessageEnds(trace) == Committed(State(prompts, trace))
  {
    if trace != [] {
      TranscriptFromEvents(prompts, Front(trace));
      AlwaysOrderly(prompts, Front(trace));
      CommitStep(State(prompts, Front(trace)), Last(trace));
    }
  }

  // ----- every tool call of a reply is answered before the next turn -----

  /** The reply did not fail and each of its calls has its result, in call order. */
  predicate Settled(t: Turn) {
    && t.reply.Some? && !Failed(t.reply.value)
    && |t.results| == |CallsOf(t.reply.value)|
    && Answers(t.results, CallsOf(t.reply.value))
  }

  predicate Answers(results: seq<Message>, calls: seq<ToolCall>) {
    && |results| <= |calls|
    && forall k :: 0 <= k < |results| ==>
         results[k].ToolResult? && results[k].callId == calls[k].id && results[k].toolName == calls[k].name
  }

  ghost predicate SettledSoFar(r: Run) {
    && (r.stage == Acting ==> r.turn.reply.Some? && Answers(r.turn.results, Calls(r)))
    && (r.stage == Acting && r.open.Some? ==> NextResult(r, r.open.value))
    && (forall i :: 0 <= i < |r.turns| - 1 ==> Settled(r.turns[i]))
    && (!r.stage.EndDue? && !r.stage.Ended? && |r.turns| > 0 ==> Settled(r.turns[|r.turns| - 1]))
  }

  lemma SettledStep(r: Run, o: Obs)
    requires Orderly(r) && SettledSoFar(r) && Allowed(r, o)
    ensures SettledSoFar(After(r, o))
  {
    match o
    case Emitted(e) =>
      hide AfterEvent, MayEmit, Orderly;
      SettledEvent(r, e);
    case _ => SettledAnswer(r, o);
  }

  lemma SettledAnswer(r: Run, o: Obs)
    requires Orderly(r) && SettledSoFar(r) && Allowed(r, o) && !o.Emitted?
    ensures SettledSoFar(After(r, o))
  {
    AnswerShape(r, o);
    hide Allowed, After, Orderly, CallsOf;
  }

  /** Polls, stops and a thrown error leave the turns so far alone and come outside tool batches. */
  lemma AnswerShape(r: Run, o: Obs)
    requires Orderly(r) && Allowed(r, o) && !o.Emitted?
    ensures After(r, o).turns == r.turns
    ensures o == AbortSignalled ==> After(r, o) == r.(aborted := true)
    ensures o != AbortSignalled ==> After(r, o).stage != Acting && !r.stage.EndDue? && !r.stage.Ended?
  {
    hide MayEmit, AfterEvent, Flatten, NonEmpty, Orderly;
    if o.Polled? {
      PollShape(r, o);
    } else {
      StopShape(r, o);
    }
  }

  lemma PollShape(r: Run, o: Obs)
    requires Allowed(r, o) && o.Polled?
    ensures After(r, o).turns == r.turns && After(r, o).stage != Acting && !r.stage.EndDue? && !r.stage.Ended?
  {
    hide MayEmit, AfterEvent, Flatten, NonEmpty;
  }

  lemma StopShape(r: Run, o: Obs)
    requires Orderly(r) && Allowed(r, o) && !o.Emitted? && !o.Polled?
    ensures After(r, o).turns == r.turns
    ensures o == AbortSignalled ==> After(r, o) == r.(aborted := true)
    ensures o != AbortSignalled ==> After(r, o).stage != Acting && !r.stage.EndDue? && !r.stage.Ended?
  {
    hide MayEmit, AfterEvent, Flatten, NonEmpty;
  }

  lemma SettledEvent(r: Run, e: Event)
    requires Orderly(r) && SettledSoFar(r) && MayEmit(r, e)
    ensures SettledSoFar(AfterEvent(r, e))
  {
    if e.TurnEnd? {
      SettledTurn(r, e);
    } else if e.MessageEnd? {
      SettledMessage(r, e);
    } else if e.MessageStart? {
      SettledOpening(r, e);
    } else {
      assert AfterEvent(r, e).turns == r.turns && AfterEvent(r, e).turn == r.turn;
    }
  }

  lemma SettledTurn(r: Run, e: Event)
    requires Orderly(r) && SettledSoFar(r) && MayEmit(r, e) && e.TurnEnd?
    ensures SettledSoFar(AfterEvent(r, e))
  {
    hide Committed, AllTerminate, NextResult, CallsOf, Orderly;
    TurnEndMove(r, e.message, e.toolResults);
    hide MayEmit, AfterEvent;
    assert AfterEvent(r, e).stage.Between? ==> Settled(r.turn);
  }

  lemma SettledOpening(r: Run, e: Event)
    requires Orderly(r) && SettledSoFar(r) && MayEmit(r, e) && e.MessageStart?
    ensures SettledSoFar(AfterEvent(r, e))
  {
    assert AfterEvent(r, e).turns == r.turns && AfterEvent(r, e).turn == r.turn;
  }

  lemma SettledMessage(r: Run, e: Event)
    requires Orderly(r) && SettledSoFar(r) && MayEmit(r, e) && e.MessageEnd?
    ensures SettledSoFar(AfterEvent(r, e))
  {
    hide Committed, AllTerminate, CallsOf;
    var r' := AfterEvent(r, e);
    assert r'.turns == r.turns;
  }

  lemma {:induction false} EveryCallAnswered(prompts: Batch, trace: Trace)
    requires Accepted(prompts, trace)
    ensures SettledSoFar(State(prompts, trace))
  {
    if trace != [] {
      EveryCallAnswered(prompts, Front(trace));
      AlwaysOrderly(prompts, Front(trace));
      SettledStep(State(prompts, Front(trace)), Last(trace));
    }
  }

  // ----- queued batches: each is injected once, whole and in the order of the polls -----

  /** The batches that the polls of a trace returned, in order. */
  function PolledBatches(trace: Trace): seq<Batch> {
    if trace == [] then []
    else if Last(trace).Polled? then PolledBatches(Front(trace)) + Last(trace).batches
    else PolledBatches(Front(trace))
  }

  function BatchesOf(turns: seq<Turn>): seq<Batch> {
    if turns == [] then [] else BatchesOf(turns[..|turns| - 1]) + turns[|turns| - 1].batches
  }

  /** The batches handed to the turns so far, the current one included. */
  function Assigned(r: Run): seq<Batch> {
    BatchesOf(r.turns) + r.turn.batches
  }

  ghost predicate Whole(r: Run) {
    && (forall i :: 0 <= i < |r.turns| ==> r.turns[i].injected == Flatten(r.turns[i].batches))
    && r.turn.injected + r.pending == Flatten(r.turn.batches)
    && (r.stage.Streaming? || r.stage.Acting? || r.stage.Between? || r.stage.EndDue? ==> |r.pending| == 0 && r.polled)
    && (|r.turns| > 0 ==> r.polled)
    && (r.stage.Ended? && !r.aborted && |r.failure| == 0 ==> r.turn == NoTurn)
    && (r.stage.FailureEndDue? ==> |r.failure| > 0)
  }

  lemma {:induction false} AlwaysWhole(prompts: Batch, trace: Trace)
    requires Accepted(prompts, trace)
    ensures Whole(State(prompts, trace))
  {
    if trace == [] {
      FlattenSnoc([], prompts);
      assert [] + [prompts] == [prompts];
    } else {
      AlwaysWhole(prompts, Front(trace));
      AlwaysOrderly(prompts, Front(trace));
      WholeStep(State(prompts, Front(trace)), Last(trace));
    }
  }

  lemma WholeStep(r: Run, o: Obs)
    requires Orderly(r) && Whole(r) && Allowed(r, o)
    ensures Whole(After(r, o))
  {
    match o
    case Emitted(e) =>
      hide AfterEvent, MayEmit, Orderly;
      WholeEvent(r, e);
    case Polled(_, batches) => WholePoll(r, o);
    case _ => assert After(r, o).turns == r.turns;
  }

  lemma WholePoll(r: Run, o: Obs)
    requires Orderly(r) && Whole(r) && Allowed(r, o) && o.Polled?
    ensures Whole(After(r, o))
  {
    assert After(r, o).turns == r.turns;
    FlattenAppend(r.turn.batches, o.batches);
  }

  lemma WholeEvent(r: Run, e: Event)
    requires Orderly(r) && Whole(r) && MayEmit(r, e)
    ensures Whole(AfterEvent(r, e))
  {
    hide MayEmit, AfterEvent, Orderly, Whole;
    if e.MessageEnd? {
      WholeClosing(r, e);
    } else if e.TurnEnd? {
      WholeTurn(r, e);
    } else {
      WholeElse(r, e);
    }
  }

  lemma WholeTurn(r: Run, e: Event)
    requires Orderly(r) && Whole(r) && MayEmit(r, e) && e.TurnEnd?
    ensures Whole(AfterEvent(r, e))
  {
    hide Committed, NextResult, AllTerminate, CallsOf;
    var r' := AfterEvent(r, e);
    assert r'.turns[..|r.turns|] == r.turns;
    assert r'.turn == NoTurn && |r'.pending| == 0;
  }

  lemma WholeClosing(r: Run, e: Event)
    requires Orderly(r) && Whole(r) && MayEmit(r, e) && e.MessageEnd?
    ensures Whole(AfterEvent(r, e))
  {
    hide Committed, NextResult, AllTerminate, CallsOf, Flatten;
    if r.stage == Injecting {
      var i, m, rest := r.turn.injected, [e.message], AfterEvent(r, e).pending;
      assert r.pending == m + rest;
      assert (i + m) + rest == i + (m + rest);
    }
  }

  lemma WholeElse(r: Run, e: Event)
    requires Orderly(r) && Whole(r) && MayEmit(r, e) && !e.MessageEnd? && !e.TurnEnd?
    ensures Whole(AfterEvent(r, e))
  {
    hide Committed, NextResult, AllTerminate, CallsOf, Flatten;
  }

  /** The prompts, then the batches that the polls returned. */
  function Received(prompts: Batch, trace: Trace): seq<Batch> {
    if trace == [] then [prompts]
    else if Last(trace).Polled? then Received(prompts, Front(trace)) + Last(trace).batches
    else Received(prompts, Front(trace))
  }

  lemma {:induction false} ReceivedIsPolled(prompts: Batch, trace: Trace)
    ensures Received(prompts, trace) == [prompts] + PolledBatches(trace)
  {
    if trace != [] {
      ReceivedIsPolled(prompts, Front(trace));
    }
  }

  lemma {:induction false} AssignedIsReceived(prompts: Batch, trace: Trace)
    requires Accepted(prompts, trace)
    ensures Assigned(State(prompts, trace)) == Received(prompts, trace)
  {
    if trace != [] {
      AssignedIsReceived(prompts, Front(trace));
      AlwaysOrderly(prompts, Front(trace));
      if Last(trace).Polled? {
        AssignedPoll(State(prompts, Front(trace)), Last(trace));
      } else {
        AssignedKept(State(prompts, Front(trace)), Last(trace));
      }
    } else {
      assert BatchesOf([]) + [prompts] == [prompts];
    }
  }

  lemma AssignedPoll(r: Run, o: Obs)
    requires Orderly(r) && Allowed(r, o) && o.Polled?
    ensures Assigned(After(r, o)) == Assigned(r) + o.batches
  {
    hide Allowed, After, Orderly, BatchesOf;
    PollAssigns(r, o);
    var a, b, c := BatchesOf(r.turns), r.turn.batches, o.batches;
    assert a + (b + c) == a + b + c;
  }

  lemma PollAssigns(r: Run, o: Obs)
    requires Orderly(r) && Allowed(r, o) && o.Polled?
    ensures After(r, o).turns == r.turns && After(r, o).turn.batches == r.turn.batches + o.batches
  {
  }

  lemma AssignedKept(r: Run, o: Obs)
    requires Orderly(r) && Allowed(r, o) && !o.Polled?
    ensures Assigned(After(r, o)) == Assigned(r)
  {
    if o.Emitted? {
      AssignedEvent(r, o.event);
    } else {
      assert After(r, o).turns == r.turns && After(r, o).turn.batches == r.turn.batches;
    }
  }

  lemma AssignedEvent(r: Run, e: Event)
    requires Orderly(r) && MayEmit(r, e)
    ensures Assigned(AfterEvent(r, e)) == Assigned(r)
  {
    var r' := AfterEvent(r, e);
    if e.TurnEnd? {
      assert r'.turns[..|r.turns|] == r.turns;
      assert BatchesOf(r'.turns) == Assigned(r);
      assert r'.turn.batches == [];
    } else {
      assert r'.turns == r.turns && r'.turn.batches == r.turn.batches;
    }
  }

  /**
   * A run that ends without abort or failure has injected its prompts and then every batch
   * that its polls returned: each once, whole, and in the order of the polls.
   */
  lemma PolledOnceWholeInOrder(prompts: Batch, trace: Trace)
    requires Accepted(prompts, trace)
    requires var r := State(prompts, trace); r.stage == Ended && !r.aborted && r.failure == []
    ensures var turns := State(prompts, trace).turns;
            && BatchesOf(turns) == [prompts] + PolledBatches(trace)
            && (forall i :: 0 <= i < |turns| ==> turns[i].injected == Flatten(turns[i].batches))
            && MessageEnds(trace) == Transcript(turns)
  {
    AlwaysWhole(prompts, trace);
    AssignedIsReceived(prompts, trace);
    ReceivedIsPolled(prompts, trace);
    assert State(prompts, trace).turn.batches == [];
    TranscriptFromEvents(prompts, trace);
  }

  function InjectedIn(turns: seq<Turn>): seq<Message> {
    if turns == [] then [] else InjectedIn(turns[..|turns| - 1]) + turns[|turns| - 1].injected
  }

  lemma {:induction false} InjectedIsFlat(turns: seq<Turn>)
    requires forall i :: 0 <= i < |turns| ==> turns[i].injected == Flatten(turns[i].batches)
    ensures InjectedIn(turns) == Flatten(BatchesOf(turns))
  {
    if turns != [] {
      var n := |turns| - 1;
      InjectedIsFlat(turns[..n]);
      FlattenAppend(BatchesOf(turns[..n]), turns[n].batches);
    }
  }

  /**
   * In every state of every run, ended or not, the prompts and the polled batches are what has been
   * injected and what is pending: a run loses a drained message exactly when it stops with some pending.
   */
  lemma InjectedOrPending(prompts: Batch, trace: Trace)
    requires Accepted(prompts, trace)
    ensures var r := State(prompts, trace);
            var injected := InjectedIn(r.turns) + r.turn.injected;
            && injected + r.pending == Flatten(Received(prompts, trace))
            && (injected == Flatten(Received(prompts, trace)) <==> |r.pending| == 0)
  {
    AlwaysWhole(prompts, trace);
    AssignedIsReceived(prompts, trace);
    hide Received, Accepted, State;
    WholeIsInjectedOrPending(State(prompts, trace));
  }

  lemma WholeIsInjectedOrPending(r: Run)
    requires Whole(r)
    ensures var injected := InjectedIn(r.turns) + r.turn.injected;
            injected + r.pending == Flatten(Assigned(r)) && (injected == Flatten(Assigned(r)) <==> |r.pending| == 0)
  {
    InjectedIsFlat(r.turns);
    FlattenAppend(BatchesOf(r.turns), r.turn.batches);
    Split(InjectedIn(r.turns), r.turn.injected, r.pending);
  }

  lemma Split<T>(a: seq<T>, b: seq<T>, c: seq<T>)
    ensures a + (b + c) == a + b + c
    ensures a + b == a + (b + c) <==> |c| == 0
  {
    assert |c| > 0 ==> |a + b| < |a + (b + c)|;
  }

  // ----- when a drained message is lost -----

  /** The trace up to its throw, if it has one. */
  function BeforeThrow(trace: Trace): (t: Trace)
    ensures |t| <= |trace|
  {
    if trace == [] then []
    else if BeforeThrow(Front(trace)) != Front(trace) || Last(trace) == RunThrew then BeforeThrow(Front(trace))
    else trace
  }

  /** The messages that came in last: the prompts, or those of the last poll that returned any. */
  function LastInput(prompts: Batch, trace: Trace): seq<Message> {
    if trace == [] then prompts
    else if Last(trace).Polled? && |Last(trace).batches| > 0 then Flatten(Last(trace).batches)
    else LastInput(prompts, Front(trace))
  }

  /** How many message_end events have come since then. */
  function EndsSince(trace: Trace): nat {
    if trace == [] || (Last(trace).Polled? && |Last(trace).batches| > 0) then 0
    else if IsMessageEnd(Last(trace)) then EndsSince(Front(trace)) + 1
    else EndsSince(Front(trace))
  }

  function Drop<T>(s: seq<T>, n: nat): seq<T> {
    if n >= |s| then [] else s[n..]
  }

  /**
   * A run loses a drained message or a prompt exactly when it stops for good, or throws, before as many
   * message_end events have come as messages came in last; it loses those that are over.
   */
  lemma {:induction false} LostExactlyWhenCutShort(prompts: Batch, trace: Trace)
    requires Accepted(prompts, trace)
    ensures var t := BeforeThrow(trace); State(prompts, trace).pending == Drop(LastInput(prompts, t), EndsSince(t))
    ensures BeforeThrow(trace) != trace ==> AfterThrow(State(prompts, trace).stage)
    ensures BeforeThrow(trace) == trace ==> !Failing(State(prompts, trace).stage)
  {
    hide After, Allowed, Flatten;
    if trace != [] {
      var front, o := Front(trace), Last(trace);
      LostExactlyWhenCutShort(prompts, front);
      AlwaysOrderly(prompts, front);
      AlwaysWhole(prompts, front);
      PendingStep(State(prompts, front), o);
    }
  }

  predicate Failing(s: Stage) {
    s.FailureDue? || s.FailureOpen? || s.FailureEndDue?
  }

  predicate AfterThrow(s: Stage) {
    Failing(s) || s.Ended?
  }

  lemma PendingStep(r: Run, o: Obs)
    requires Orderly(r) && Whole(r) && Allowed(r, o)
    ensures AfterThrow(r.stage) || o == RunThrew ==> After(r, o).pending == r.pending && (AfterThrow(r.stage) ==> AfterThrow(After(r, o).stage))
    ensures o == RunThrew ==> AfterThrow(After(r, o).stage)
    ensures !Failing(r.stage) && o != RunThrew ==>
              && !Failing(After(r, o).stage)
              && After(r, o).pending == if o.Polled? && |o.batches| > 0 then Flatten(o.batches)
                                        else if IsMessageEnd(o) then Drop(r.pending, 1) else r.pending
  {
    if o.Emitted? {
      hide AfterEvent, MayEmit;
      PendingEvent(r, o.event);
    }
  }

  lemma PendingEvent(r: Run, e: Event)
    requires Orderly(r) && Whole(r) && MayEmit(r, e)
    ensures Failing(r.stage) ==> AfterEvent(r, e).pending == r.pending && AfterThrow(AfterEvent(r, e).stage)
    ensures !r.stage.Ended?
    ensures !Failing(r.stage) ==>
              && !Failing(AfterEvent(r, e).stage)
              && AfterEvent(r, e).pending == if e.MessageEnd? then Drop(r.pending, 1) else r.pending
  {
    hide MayEmit, AfterEvent, Orderly, Whole;
    if e.MessageEnd? {
      PendingClosing(r, e);
    } else {
      PendingElse(r, e);
    }
  }

  lemma PendingClosing(r: Run, e: Event)
    requires Orderly(r) && Whole(r) && MayEmit(r, e) && e.MessageEnd?
    ensures Failing(r.stage) ==> AfterEvent(r, e).pending == r.pending && AfterThrow(AfterEvent(r, e).stage)
    ensures !r.stage.Ended?
    ensures !Failing(r.stage) ==> !Failing(AfterEvent(r, e).stage) && AfterEvent(r, e).pending == Drop(r.pending, 1)
  {
    hide Committed, NextResult, AllTerminate, CallsOf, Flatten;
  }

  lemma PendingElse(r: Run, e: Event)
    requires MayEmit(r, e) && !e.MessageEnd?
    ensures AfterEvent(r, e).pending == r.pending && !r.stage.Ended?
    ensures Failing(r.stage) ==> AfterThrow(AfterEvent(r, e).stage)
    ensures !Failing(r.stage) ==> !Failing(AfterEvent(r, e).stage)
  {
    hide Committed, NextResult, AllTerminate, CallsOf;
    if !e.TurnEnd? {
      QuietEvent(r, e);
    }
  }

  /** The end of a trace, its signals and its agent_end aside, is a poll that returned something. */
  predicate EndsAtPoll(trace: Trace) {
    trace != [] && match Last(trace)
                   case Emitted(AgentEnd(_)) => EndsAtPoll(Front(trace))
                   case AbortSignalled => EndsAtPoll(Front(trace))
                   case Polled(_, batches) => |batches| > 0
                   case _ => false
  }

  /** A run that ended without a throw has lost a message exactly when the signal ended it right after a poll. */
  lemma LostExactlyAtAbortedPoll(prompts: Batch, trace: Trace)
    requires Accepted(prompts, trace)
    requires var r := State(prompts, trace); r.stage == Ended && r.failure == []
    ensures |State(prompts, trace).pending| > 0 <==> EndsAtPoll(trace)
    ensures EndsAtPoll(trace) ==> State(prompts, trace).aborted
  {
    PendingMeansPolled(prompts, trace);
  }

  ghost predicate PolledLast(r: Run, polled: bool) {
    && (polled ==> |r.pending| > 0 && (r.stage.TurnDue? || r.stage.Injecting? || (r.stage.Ended? && r.aborted)))
    && (|r.pending| > 0 && r.stage.TurnDue? && |r.turns| > 0 ==> polled)
    && (|r.pending| > 0 && r.stage.Ended? && r.failure == [] ==> polled)
    && (r.stage.FailureEndDue? ==> |r.failure| > 0)
    && (r.stage.Fresh? ==> |r.turns| == 0)
  }

  lemma {:induction false} PendingMeansPolled(prompts: Batch, trace: Trace)
    requires Accepted(prompts, trace)
    ensures PolledLast(State(prompts, trace), EndsAtPoll(trace))
  {
    hide After, Allowed, Flatten;
    if trace != [] {
      var front, o := Front(trace), Last(trace);
      PendingMeansPolled(prompts, front);
      AlwaysOrderly(prompts, front);
      AlwaysWhole(prompts, front);
      PolledLastStep(State(prompts, front), o, EndsAtPoll(front));
    }
  }

  lemma PolledLastStep(r: Run, o: Obs, polled: bool)
    requires Orderly(r) && Whole(r) && Allowed(r, o) && PolledLast(r, polled)
    ensures PolledLast(After(r, o), if o.Polled? then |o.batches| > 0
                                    else (o == AbortSignalled || (o.Emitted? && o.event.AgentEnd?)) && polled)
  {
    hide AfterEvent, MayEmit, Flatten;
    if o.Emitted? {
      PolledLastEvent(r, o.event, polled);
    } else if o.Polled? {
      SomethingIn(o.batches);
    } else {
      SomethingIn([]);
    }
  }

  lemma SomethingIn(batches: seq<Batch>)
    ensures NonEmpty(batches) ==> (|batches| > 0 <==> |Flatten(batches)| > 0)
  {
  }

  lemma PolledLastEvent(r: Run, e: Event, polled: bool)
    requires Orderly(r) && Whole(r) && MayEmit(r, e) && PolledLast(r, polled)
    ensures PolledLast(AfterEvent(r, e), e.AgentEnd? && polled)
  {
    hide Committed, NextResult, AllTerminate, CallsOf, Flatten;
  }

  // ----- one-at-a-time queues: at most one batch between two replies -----

  ghost predicate SmallPolls(trace: Trace) {
    forall i :: 0 <= i < |trace| && trace[i].Polled? ==> |trace[i].batches| <= 1
  }

  lemma SmallPollsSnoc(trace: Trace, o: Obs)
    ensures SmallPolls(trace + [o]) <==> SmallPolls(trace) && (o.Polled? ==> |o.batches| <= 1)
  {
    var longer := trace + [o];
    assert longer[|trace|] == o && forall i :: 0 <= i < |trace| ==> longer[i] == trace[i];
  }

  ghost predicate OneBatchPerTurn(r: Run) {
    && (forall i :: 1 <= i < |r.turns| ==> |r.turns[i].batches| <= 1)
    && (|r.turns| > 0 ==> |r.turn.batches| <= 1 && r.polled)
    && (r.stage == Acting || r.stage == Streaming ==> r.polled)
  }

  /** Between two consecutive replies of a run, at most one queued batch is injected. */
  lemma {:induction false} AtMostOneBatch(prompts: Batch, trace: Trace)
    requires Accepted(prompts, trace) && SmallPolls(trace)
    ensures OneBatchPerTurn(State(prompts, trace))
  {
    if trace != [] {
      assert SmallPolls(Front(trace));
      AtMostOneBatch(prompts, Front(trace));
      AlwaysOrderly(prompts, Front(trace));
      OneBatchStep(State(prompts, Front(trace)), Last(trace));
    }
  }

  lemma OneBatchStep(r: Run, o: Obs)
    requires Orderly(r) && OneBatchPerTurn(r) && Allowed(r, o)
    requires o.Polled? ==> |o.batches| <= 1
    ensures OneBatchPerTurn(After(r, o))
  {
    hide MayEmit, AfterEvent, Flatten, NonEmpty;
    if o.Emitted? {
      OneBatchEvent(r, o.event);
    } else if o.Polled? {
      OneBatchPoll(r, o);
    } else {
      OneBatchStop(r, o);
    }
  }

  lemma OneBatchPoll(r: Run, o: Obs)
    requires Orderly(r) && OneBatchPerTurn(r) && Allowed(r, o) && o.Polled? && |o.batches| <= 1
    ensures OneBatchPerTurn(After(r, o))
  {
    hide MayEmit, AfterEvent, Flatten, NonEmpty;
    assert After(r, o).turns == r.turns;
  }

  lemma OneBatchStop(r: Run, o: Obs)
    requires OneBatchPerTurn(r) && Allowed(r, o) && !o.Emitted? && !o.Polled?
    ensures OneBatchPerTurn(After(r, o))
  {
    hide MayEmit, AfterEvent, Flatten, NonEmpty, Allowed, After;
    StopEffect(r, o);
    assert After(r, o).turns == r.turns;
  }

  lemma StopEffect(r: Run, o: Obs)
    requires Allowed(r, o) && !o.Emitted? && !o.Polled?
    ensures After(r, o).turns == r.turns && After(r, o).polled == r.polled
    ensures After(r, o).turn.batches == r.turn.batches || |After(r, o).turn.batches| == 0
    ensures After(r, o).stage == Acting || After(r, o).stage == Streaming ==> After(r, o).stage == r.stage
  {
    hide MayEmit, AfterEvent, Flatten, NonEmpty;
  }

  lemma OneBatchEvent(r: Run, e: Event)
    requires Orderly(r) && OneBatchPerTurn(r) && MayEmit(r, e)
    ensures OneBatchPerTurn(AfterEvent(r, e))
  {
    hide Committed, NextResult, AllTerminate, CallsOf, MayEmit, AfterEvent, Orderly;
    if e.TurnEnd? {
      OneBatchTurn(r, e);
    } else if e.MessageEnd? {
      OneBatchMessage(r, e);
    } else {
      QuietEvent(r, e);
      OneBatchStage(r, e);
    }
  }

  lemma OneBatchTurn(r: Run, e: Event)
    requires Orderly(r) && OneBatchPerTurn(r) && MayEmit(r, e) && e.TurnEnd?
    ensures OneBatchPerTurn(AfterEvent(r, e))
  {
    hide Committed, AllTerminate, CallsOf;
    assert AfterEvent(r, e).turns == r.turns + [r.turn];
  }

  lemma OneBatchMessage(r: Run, e: Event)
    requires OneBatchPerTurn(r) && MayEmit(r, e) && e.MessageEnd?
    ensures OneBatchPerTurn(AfterEvent(r, e))
  {
    hide Committed, NextResult, AllTerminate, CallsOf;
    assert AfterEvent(r, e).turns == r.turns && AfterEvent(r, e).turn.batches == r.turn.batches;
  }

  lemma OneBatchStage(r: Run, e: Event)
    requires OneBatchPerTurn(r) && MayEmit(r, e) && !e.TurnEnd? && !e.MessageEnd?
    ensures AfterEvent(r, e).stage == Acting || AfterEvent(r, e).stage == Streaming ==> AfterEvent(r, e).polled
  {
    hide Committed, NextResult, AllTerminate, CallsOf;
  }

  // ----- the order of the polls -----

  function LastPoll(trace: Trace): Option<Obs> {
    if trace == [] then None else if Last(trace).Polled? then Some(Last(trace)) else LastPoll(Front(trace))
  }

  predicate CameBackEmpty(poll: Option<Obs>, source: Source) {
    poll.Some? && poll.value.Polled? && poll.value.source == source && |poll.value.batches| == 0
  }

  ghost predicate PollsInOrder(r: Run, last: Option<Obs>) {
    r.stage.Between? ==>
      match r.stage.ask
      case StopAfterSteering => CameBackEmpty(last, Steering)
      case StopBeforeFollowUp => CameBackEmpty(last, Steering) && !r.owed
      case AskFollowUp => CameBackEmpty(last, Steering) && !r.owed
      case StopBeforeContinuation => CameBackEmpty(last, FollowUp) && !r.owed
      case AskContinuation => CameBackEmpty(last, FollowUp) && !r.owed
      case _ => true
  }

  lemma {:induction false} AlwaysInOrder(prompts: Batch, trace: Trace)
    requires Accepted(prompts, trace)
    ensures PollsInOrder(State(prompts, trace), LastPoll(trace))
  {
    if trace != [] {
      AlwaysInOrder(prompts, Front(trace));
      InOrderStep(State(prompts, Front(trace)), Last(trace), LastPoll(Front(trace)));
    }
  }

  lemma InOrderStep(r: Run, o: Obs, last: Option<Obs>)
    requires Allowed(r, o) && PollsInOrder(r, last)
    ensures PollsInOrder(After(r, o), if o.Polled? then Some(o) else last)
  {
    match o
    case Emitted(e) => EventAsksFirst(r, e);
    case _ =>
  }

  lemma EventAsksFirst(r: Run, e: Event)
    requires MayEmit(r, e)
    ensures AfterEvent(r, e).stage.Between? ==> AfterEvent(r, e).stage.ask == AskStopAfterTurn
  {
  }

  /**
   * Follow-ups are polled only right after an empty steering poll and when no tool result
   * wants a reply; continuations are asked for only right after an empty follow-up poll.
   */
  lemma PollDiscipline(prompts: Batch, trace: Trace, i: nat)
    requires Accepted(prompts, trace) && i < |trace| && trace[i].Polled?
    ensures Accepted(prompts, trace[..i])
    ensures trace[i].source == FollowUp ==> CameBackEmpty(LastPoll(trace[..i]), Steering)
    ensures trace[i].source == Continuation ==> CameBackEmpty(LastPoll(trace[..i]), FollowUp)
    ensures trace[i].source != Steering ==> !State(prompts, trace[..i]).owed
  {
    PrefixAccepted(prompts, trace, i + 1);
    assert Front(trace[..i + 1]) == trace[..i];
    AlwaysInOrder(prompts, trace[..i]);
  }

  /** Once the signal has fired no turn but the first starts. */
  lemma NoTurnAfterAbort(prompts: Batch, trace: Trace, i: nat, j: nat)
    requires Accepted(prompts, trace) && i < j < |trace|
    requires trace[i] == AbortSignalled && trace[j] == Emitted(TurnStart)
    ensures forall k :: 0 <= k < j ==> trace[k] != Emitted(TurnStart)
  {
    hide After, Allowed;
    PrefixAccepted(prompts, trace, j + 1);
    var before := trace[..j];
    assert Front(trace[..j + 1]) == before;
    AbortIsSeen(prompts, before, i);
    StartsOnlyWhenNotAborted(State(prompts, before));
    TurnsStarted(prompts, before);
    if exists k :: 0 <= k < j && trace[k] == Emitted(TurnStart) {
      var k :| 0 <= k < j && trace[k] == Emitted(TurnStart);
      assert before[k] == Emitted(TurnStart);
    }
  }

  lemma StartsOnlyWhenNotAborted(r: Run)
    requires Allowed(r, Emitted(TurnStart))
    ensures r.stage == TurnDue && (r.aborted ==> |r.turns| == 0)
  {
  }

  /** A fired signal stays fired. */
  lemma {:induction false} AbortIsSeen(prompts: Batch, trace: Trace, i: nat)
    requires Accepted(prompts, trace) && i < |trace| && trace[i] == AbortSignalled
    ensures State(prompts, trace).aborted
  {
    hide Allowed, After;
    if i < |trace| - 1 {
      AbortIsSeen(prompts, Front(trace), i);
    }
    AbortStays(State(prompts, Front(trace)), Last(trace));
  }

  lemma AbortStays(r: Run, o: Obs)
    requires Allowed(r, o)
    ensures After(r, o).aborted <==> r.aborted || o == AbortSignalled
  {
    if o.Emitted? {
      EventKeeps(r, o.event);
    }
  }

  /** When a turn is due although none is complete, none has started. */
  lemma {:induction false} TurnsStarted(prompts: Batch, trace: Trace)
    requires Accepted(prompts, trace)
    ensures var r := State(prompts, trace);
            (r.stage.Fresh? || r.stage.TurnDue?) && |r.turns| == 0 ==> forall k :: 0 <= k < |trace| ==> trace[k] != Emitted(TurnStart)
    ensures State(prompts, trace).stage.Between? ==> |State(prompts, trace).turns| > 0
  {
    hide Allowed, After;
    if trace != [] {
      TurnsStarted(prompts, Front(trace));
      assert forall k :: 0 <= k < |trace| - 1 ==> trace[k] == Front(trace)[k];
      assert trace[|trace| - 1] == Last(trace);
      DueStep(State(prompts, Front(trace)), Last(trace));
    }
  }

  lemma DueStep(r: Run, o: Obs)
    requires Allowed(r, o) && (r.stage.Between? ==> |r.turns| > 0)
    ensures After(r, o).stage.Between? ==> |After(r, o).turns| > 0
    ensures (After(r, o).stage.Fresh? || After(r, o).stage.TurnDue?) && |After(r, o).turns| == 0 ==>
              (r.stage.Fresh? || r.stage.TurnDue?) && |r.turns| == 0 && o != Emitted(TurnStart)
  {
    hide MayEmit, AfterEvent;
    if o.Emitted? {
      DueEvent(r, o.event);
    }
  }

  lemma DueEvent(r: Run, e: Event)
    requires MayEmit(r, e)
    ensures var r' := AfterEvent(r, e);
            && (r'.stage.Between? ==> |r'.turns| > 0)
            && (r'.stage.Fresh? || r'.stage.TurnDue? ==> (r.stage.Fresh? || r.stage.TurnDue?) && e != TurnStart && r'.turns == r.turns)
  {
    hide MayEmit, AfterEvent;
    if e.MessageStart? || e.MessageEnd? || e.MessageUpdate? {
      DueBracket(r, e);
    } else {
      DueElse(r, e);
    }
  }

  lemma DueBracket(r: Run, e: Event)
    requires MayEmit(r, e) && (e.MessageStart? || e.MessageEnd? || e.MessageUpdate?)
    ensures var r' := AfterEvent(r, e); !r'.stage.Between? && !r'.stage.Fresh? && !r'.stage.TurnDue? && !r'.stage.EndDue? && !r'.stage.Ended?
  {
    hide MayEmit, AfterEvent;
    if e.MessageStart? {
      DueStart(r, e.message);
    } else {
      DueEnd(r, e);
    }
  }

  lemma DueStart(r: Run, m: Message)
    requires MayEmit(r, MessageStart(m))
    ensures var r' := AfterEvent(r, MessageStart(m));
            !r'.stage.Between? && !r'.stage.Fresh? && !r'.stage.TurnDue? && !r'.stage.EndDue? && !r'.stage.Ended?
  {
    hide Committed, NextResult, AllTerminate, CallsOf;
  }

  lemma DueEnd(r: Run, e: Event)
    requires MayEmit(r, e) && (e.MessageEnd? || e.MessageUpdate?)
    ensures var r' := AfterEvent(r, e); !r'.stage.Between? && !r'.stage.Fresh? && !r'.stage.TurnDue? && !r'.stage.EndDue? && !r'.stage.Ended?
  {
    hide Committed, NextResult, AllTerminate, CallsOf;
  }

  lemma DueElse(r: Run, e: Event)
    requires MayEmit(r, e) && !e.MessageStart? && !e.MessageEnd? && !e.MessageUpdate?
    ensures var r' := AfterEvent(r, e);
            && (r'.stage.Between? ==> |r'.turns| > 0)
            && (r'.stage.Fresh? || r'.stage.TurnDue? ==> (r.stage.Fresh? || r.stage.TurnDue?) && e != TurnStart && r'.turns == r.turns)
  {
    hide Committed, NextResult, AllTerminate, CallsOf;
  }

  /** After a true answer of either stop hook nothing follows but agent_end (and an abort signal). */
  lemma {:induction false} StopIsFinal(prompts: Batch, trace: Trace, i: nat)
    requires Accepted(prompts, trace) && i < |trace| && (trace[i] == StopAfterTurn(true) || trace[i] == StopBeforeTurn(true))
    ensures State(prompts, trace).stage.EndDue? || State(prompts, trace).stage.Ended?
    ensures forall j :: i < j < |trace| ==> trace[j] == AbortSignalled || (trace[j].Emitted? && trace[j].event.AgentEnd?)
  {
    hide Allowed, After;
    var front, o := Front(trace), Last(trace);
    if i < |trace| - 1 {
      StopIsFinal(prompts, front, i);
      OnlyEndFollows(State(prompts, front), o);
      forall j | i < j < |trace|
        ensures trace[j] == AbortSignalled || (trace[j].Emitted? && trace[j].event.AgentEnd?)
      {
        if j < |trace| - 1 {
          assert trace[j] == front[j];
        }
      }
    } else {
      StopLeadsToEnd(State(prompts, front), o);
    }
  }

  lemma OnlyEndFollows(r: Run, o: Obs)
    requires Allowed(r, o) && (r.stage.EndDue? || r.stage.Ended?)
    ensures After(r, o).stage.EndDue? || After(r, o).stage.Ended?
    ensures o == AbortSignalled || (o.Emitted? && o.event.AgentEnd?)
  {
    hide MayEmit, AfterEvent;
    if o.Emitted? {
      OnlyEndIsEmitted(r, o.event);
    }
  }

  lemma OnlyEndIsEmitted(r: Run, e: Event)
    requires MayEmit(r, e) && (r.stage.EndDue? || r.stage.Ended?)
    ensures e.AgentEnd? && AfterEvent(r, e).stage.Ended?
  {
    hide Committed, NextResult, AllTerminate, CallsOf;
  }

  lemma StopLeadsToEnd(r: Run, o: Obs)
    requires Allowed(r, o) && (o == StopAfterTurn(true) || o == StopBeforeTurn(true))
    ensures After(r, o).stage.EndDue?
  {
  }

  // ----- why a run ends, and why it goes on -----

  /** The last observation that is no abort signal. */
  function LastMove(trace: Trace): Option<Obs> {
    if trace == [] then None else if Last(trace) == AbortSignalled then LastMove(Front(trace)) else Some(Last(trace))
  }

  /** What lets a run end: a stop hook, nothing left to go on with, or a turn that failed or was cut short. */
  predicate EndsTheRun(o: Obs, aborted: bool) {
    match o
    case StopAfterTurn(stop) => stop
    case StopBeforeTurn(stop) => stop
    case Polled(Continuation, batches) => |batches| == 0
    case Emitted(TurnEnd(m, results)) => Failed(m) || (aborted && |results| < |CallsOf(m)|)
    case _ => false
  }

  lemma {:induction false} EndDueHasAReason(prompts: Batch, trace: Trace)
    requires Accepted(prompts, trace) && State(prompts, trace).stage.EndDue?
    ensures LastMove(trace).Some? && EndsTheRun(LastMove(trace).value, State(prompts, trace).aborted)
  {
    hide After, Allowed, EndsTheRun;
    ReasonStep(State(prompts, Front(trace)), Last(trace));
    if Last(trace) == AbortSignalled {
      EndDueHasAReason(prompts, Front(trace));
      AbortStays(State(prompts, Front(trace)), Last(trace));
      Weaker(LastMove(Front(trace)).value, State(prompts, Front(trace)).aborted);
    }
  }

  lemma Weaker(o: Obs, aborted: bool)
    requires EndsTheRun(o, aborted)
    ensures EndsTheRun(o, true)
  {
  }

  lemma ReasonStep(r: Run, o: Obs)
    requires Allowed(r, o) && After(r, o).stage.EndDue?
    ensures if o == AbortSignalled then r.stage.EndDue? else EndsTheRun(o, After(r, o).aborted)
  {
    hide MayEmit, AfterEvent;
    if o.Emitted? {
      ReasonEvent(r, o.event);
    }
  }

  lemma ReasonEvent(r: Run, e: Event)
    requires MayEmit(r, e) && AfterEvent(r, e).stage.EndDue?
    ensures EndsTheRun(Emitted(e), AfterEvent(r, e).aborted)
  {
    hide MayEmit, AfterEvent, EndsTheRun;
    if e.MessageStart? || e.MessageEnd? || e.MessageUpdate? {
      DueBracket(r, e);
    } else {
      ReasonElse(r, e);
    }
  }

  lemma ReasonElse(r: Run, e: Event)
    requires MayEmit(r, e) && AfterEvent(r, e).stage.EndDue? && !e.MessageStart? && !e.MessageEnd? && !e.MessageUpdate?
    ensures EndsTheRun(Emitted(e), AfterEvent(r, e).aborted)
  {
    hide Committed, NextResult, AllTerminate, CallsOf;
  }

  /** A run that ends without a throw or an abort ends because something has ended it. */
  lemma EndHasAReason(prompts: Batch, trace: Trace)
    requires Accepted(prompts, trace) && State(prompts, trace).stage.Ended?
    requires !State(prompts, trace).aborted && |State(prompts, trace).failure| == 0
    ensures Last(trace).Emitted? && Last(trace).event.AgentEnd?
    ensures LastMove(Front(trace)).Some? && EndsTheRun(LastMove(Front(trace)).value, false)
  {
    hide After, Allowed, EndsTheRun;
    var front := Front(trace);
    AlwaysWhole(prompts, front);
    AlwaysOrderly(prompts, front);
    EndStep(State(prompts, front), Last(trace));
    AbortStays(State(prompts, front), Last(trace));
    EndDueHasAReason(prompts, front);
  }

  lemma EndStep(r: Run, o: Obs)
    requires Allowed(r, o) && After(r, o).stage.Ended? && !After(r, o).aborted && |After(r, o).failure| == 0 && Whole(r)
    ensures o.Emitted? && o.event.AgentEnd? && r.stage.EndDue?
  {
    hide MayEmit, AfterEvent;
    if o.Emitted? {
      EndEvent(r, o.event);
    } else {
      NeverBackFromEnd(r, o);
    }
  }

  lemma NeverBackFromEnd(r: Run, o: Obs)
    requires Allowed(r, o) && !o.Emitted? && After(r, o).stage.Ended?
    ensures o == AbortSignalled
  {
  }

  lemma EndEvent(r: Run, e: Event)
    requires MayEmit(r, e) && AfterEvent(r, e).stage.Ended? && !AfterEvent(r, e).aborted && |AfterEvent(r, e).failure| == 0
    requires r.stage.FailureEndDue? ==> |r.failure| > 0
    ensures e.AgentEnd? && r.stage.EndDue?
  {
    hide MayEmit, AfterEvent;
    if e.MessageStart? || e.MessageEnd? || e.MessageUpdate? {
      DueBracket(r, e);
    } else {
      EndElse(r, e);
    }
  }

  lemma EndElse(r: Run, e: Event)
    requires MayEmit(r, e) && AfterEvent(r, e).stage.Ended? && !AfterEvent(r, e).aborted && |AfterEvent(r, e).failure| == 0
    requires (r.stage.FailureEndDue? ==> |r.failure| > 0) && !e.MessageStart? && !e.MessageEnd? && !e.MessageUpdate?
    ensures e.AgentEnd? && r.stage.EndDue?
  {
    hide Committed, NextResult, AllTerminate, CallsOf;
  }

  /** The tool calls that have ended since the last turn did. */
  function EndedCalls(trace: Trace): multiset<Finished> {
    if trace == [] then multiset{}
    else if !Last(trace).Emitted? then EndedCalls(Front(trace))
    else match Last(trace).event
      case ToolEnd(id, name, output, isError) => EndedCalls(Front(trace)) + multiset{Finished(id, name, output, isError)}
      case TurnEnd(_, _) => multiset{}
      case _ => EndedCalls(Front(trace))
  }

  lemma {:induction false} FinishedIsEnded(prompts: Batch, trace: Trace)
    requires Accepted(prompts, trace)
    ensures State(prompts, trace).finished == EndedCalls(trace)
  {
    hide After, Allowed;
    if trace != [] {
      FinishedIsEnded(prompts, Front(trace));
      FinishedStep(State(prompts, Front(trace)), Last(trace));
    }
  }

  lemma FinishedStep(r: Run, o: Obs)
    requires Allowed(r, o)
    ensures After(r, o).finished
         == if o.Emitted? && o.event.ToolEnd? then
              r.finished + multiset{Finished(o.event.id, o.event.name, o.event.output, o.event.isError)}
            else if o.Emitted? && o.event.TurnEnd? then multiset{}
            else r.finished
  {
    hide MayEmit, AfterEvent;
    if o.Emitted? {
      FinishedEvent(r, o.event);
    }
  }

  lemma FinishedEvent(r: Run, e: Event)
    requires MayEmit(r, e)
    ensures AfterEvent(r, e).finished
         == if e.ToolEnd? then r.finished + multiset{Finished(e.id, e.name, e.output, e.isError)}
            else if e.TurnEnd? then multiset{}
            else r.finished
  {
    hide Committed, NextResult, AllTerminate, CallsOf;
  }

  /** A turn's results want another reply exactly when it made calls and not every one of them asked to stop. */
  lemma OwedExactly(prompts: Batch, trace: Trace)
    requires Accepted(prompts, trace) && trace != [] && Last(trace).Emitted? && Last(trace).event.TurnEnd?
    ensures var ended := EndedCalls(Front(trace));
            State(prompts, trace).owed <==>
              && |CallsOf(Last(trace).event.message)| > 0
              && (|ended| == 0 || exists f :: f in ended && f.output.terminate != Some(true))
  {
    hide Committed;
    FinishedIsEnded(prompts, Front(trace));
  }

  // ----- the first turn -----

  /** The batches that the opening steering poll returned. */
  function FirstPoll(trace: Trace): Option<seq<Batch>> {
    if trace == [] then None
    else if FirstPoll(Front(trace)).Some? then FirstPoll(Front(trace))
    else if Last(trace).Polled? then Some(Last(trace).batches)
    else None
  }

  ghost predicate FirstTurn(r: Run, prompts: Batch, first: Option<seq<Batch>>) {
    && (r.polled <==> first.Some?)
    && (|r.turns| > 0 ==> r.polled)
    && (r.stage.Streaming? || r.stage.Acting? || r.stage.Between? || r.stage.EndDue? ==> r.polled)
    && var opening := if first.Some? then [prompts] + first.value else [prompts];
       if |r.turns| > 0 then r.turns[0].batches == opening else r.turn.batches == opening
  }

  /** Before its first reply a run injects its prompts and what the opening poll returned, and nothing else. */
  lemma {:induction false} FirstTurnBatches(prompts: Batch, trace: Trace)
    requires Accepted(prompts, trace)
    ensures FirstTurn(State(prompts, trace), prompts, FirstPoll(trace))
  {
    if trace != [] {
      FirstTurnBatches(prompts, Front(trace));
      AlwaysOrderly(prompts, Front(trace));
      FirstTurnStep(State(prompts, Front(trace)), Last(trace), prompts, FirstPoll(Front(trace)));
    }
  }

  lemma FirstTurnStep(r: Run, o: Obs, prompts: Batch, first: Option<seq<Batch>>)
    requires Orderly(r) && FirstTurn(r, prompts, first) && Allowed(r, o)
    ensures FirstTurn(After(r, o), prompts, if first.Some? then first else if o.Polled? then Some(o.batches) else None)
  {
    match o
    case Emitted(e) => FirstTurnEvent(r, e, prompts, first);
    case _ => assert After(r, o).turns == r.turns;
  }

  lemma FirstTurnEvent(r: Run, e: Event, prompts: Batch, first: Option<seq<Batch>>)
    requires Orderly(r) && FirstTurn(r, prompts, first) && MayEmit(r, e)
    ensures FirstTurn(AfterEvent(r, e), prompts, first)
  {
    var r' := AfterEvent(r, e);
    if e.TurnEnd? {
      assert r'.turns == r.turns + [r.turn];
    } else {
      assert r'.turns == r.turns && r'.turn.batches == r.turn.batches;
    }
  }
}
