/** The brackets of the event stream, counted without reference to the protocol's automaton. */
module EventGrammar {
  import opened Messages
  import opened Protocol
  import opened ProtocolTheorems

  /** What an event does to the number of open runs, turns, messages and executions of the call `id`. */
  datatype Tally = Tally(begun: int, ended: int, turns: int, messages: int, tools: int)

  function Change(o: Obs, id: string): Tally {
    if !o.Emitted? then Tally(0, 0, 0, 0, 0)
    else match o.event
      case AgentStart => Tally(1, 0, 0, 0, 0)
      case AgentEnd(_) => Tally(0, 1, 0, 0, 0)
      case TurnStart => Tally(0, 0, 1, 0, 0)
      case TurnEnd(_, _) => Tally(0, 0, -1, 0, 0)
      case MessageStart(_) => Tally(0, 0, 0, 1, 0)
      case MessageUpdate(_) => Tally(0, 0, 0, 0, 0)
      case MessageEnd(_) => Tally(0, 0, 0, -1, 0)
      case ToolStart(i, _, _) => Tally(0, 0, 0, 0, if i == id then 1 else 0)
      case ToolUpdate(_) => Tally(0, 0, 0, 0, 0)
      case ToolEnd(i, _, _, _) => Tally(0, 0, 0, 0, if i == id then -1 else 0)
  }

  function Plus(a: Tally, b: Tally): Tally {
    Tally(a.begun + b.begun, a.ended + b.ended, a.turns + b.turns, a.messages + b.messages, a.tools + b.tools)
  }

  /** Starts minus ends over a trace. */
  function Open(trace: Trace, id: string): Tally {
    if trace == [] then Tally(0, 0, 0, 0, 0) else Plus(Open(Front(trace), id), Change(Last(trace), id))
  }

  predicate Threw(trace: Trace) {
    exists i :: 0 <= i < |trace| && trace[i] == RunThrew
  }

  /** The tally that the automaton's state stands for. */
  function Expected(r: Run, id: string): Tally {
    Tally(if r.stage.Fresh? then 0 else 1,
          if r.stage.Ended? then 1 else 0,
          if r.stage.Injecting? || r.stage.Streaming? || r.stage.Acting? then 1 else 0,
          (if r.open.Some? then 1 else 0) + r.restarts,
          r.openTools[id])
  }

  lemma {:induction false} TallyAgrees(prompts: Batch, trace: Trace, id: string)
    requires Accepted(prompts, trace) && !Threw(trace)
    ensures Open(trace, id) == Expected(State(prompts, trace), id)
    ensures !Failing(State(prompts, trace).stage) && |State(prompts, trace).failure| == 0
  {
    if trace != [] {
      var front, o := Front(trace), Last(trace);
      assert !Threw(front) && o != RunThrew by {
        assert forall i :: 0 <= i < |front| ==> front[i] == trace[i];
        assert o == trace[|trace| - 1];
      }
      TallyAgrees(prompts, front, id);
      AlwaysOrderly(prompts, front);
      TallyStep(State(prompts, front), o, id);
    }
  }

  lemma TallyStep(r: Run, o: Obs, id: string)
    requires Orderly(r) && Allowed(r, o) && o != RunThrew && !Failing(r.stage) && |r.failure| == 0
    ensures Expected(After(r, o), id) == Plus(Expected(r, id), Change(o, id))
    ensures !Failing(After(r, o).stage) && |After(r, o).failure| == 0
  {
    match o
    case Emitted(e) => TallyEvent(r, e, id);
    case _ =>
  }

  lemma TallyEvent(r: Run, e: Event, id: string)
    requires Orderly(r) && MayEmit(r, e) && !Failing(r.stage) && |r.failure| == 0
    ensures Expected(AfterEvent(r, e), id) == Plus(Expected(r, id), Change(Emitted(e), id))
    ensures !Failing(AfterEvent(r, e).stage) && |AfterEvent(r, e).failure| == 0
  {
    hide MayEmit, AfterEvent, Orderly;
    if e.ToolStart? || e.ToolEnd? {
      TallyTool(r, e, id);
    } else {
      TallyMessage(r, e, id);
    }
  }

  lemma TallyTool(r: Run, e: Event, id: string)
    requires MayEmit(r, e) && (e.ToolStart? || e.ToolEnd?)
    ensures Expected(AfterEvent(r, e), id) == Plus(Expected(r, id), Change(Emitted(e), id))
    ensures AfterEvent(r, e).stage == r.stage && AfterEvent(r, e).failure == r.failure
  {
  }

  lemma TallyMessage(r: Run, e: Event, id: string)
    requires Orderly(r) && MayEmit(r, e) && !Failing(r.stage) && |r.failure| == 0 && !e.ToolStart? && !e.ToolEnd?
    ensures Expected(AfterEvent(r, e), id) == Plus(Expected(r, id), Change(Emitted(e), id))
    ensures !Failing(AfterEvent(r, e).stage) && |AfterEvent(r, e).failure| == 0
  {
    EventKeeps(r, e);
    hide Committed, NextResult, AllTerminate, CallsOf, MayEmit, AfterEvent, Orderly;
    if e.MessageStart? || e.MessageUpdate? || e.MessageEnd? {
      TallyBracket(r, e);
    } else {
      TallyStage(r, e);
    }
  }

  lemma TallyBracket(r: Run, e: Event)
    requires Orderly(r) && MayEmit(r, e) && !Failing(r.stage) && (e.MessageStart? || e.MessageUpdate? || e.MessageEnd?)
    ensures var r' := AfterEvent(r, e);
            && !r.stage.Fresh? && !r.stage.Ended? && !r'.stage.Fresh? && !r'.stage.Ended? && !Failing(r'.stage)
            && (r.stage.Injecting? || r.stage.Streaming? || r.stage.Acting?)
            && (r'.stage.Injecting? || r'.stage.Streaming? || r'.stage.Acting?)
            && (if r'.open.Some? then 1 else 0) + r'.restarts
                 == (if r.open.Some? then 1 else 0) + r.restarts + Change(Emitted(e), "").messages
            && r'.failure == r.failure
  {
    hide Committed, NextResult, AllTerminate, CallsOf;
  }

  lemma TallyStage(r: Run, e: Event)
    requires Orderly(r) && MayEmit(r, e) && !Failing(r.stage) && |r.failure| == 0
    requires e.AgentStart? || e.AgentEnd? || e.TurnStart? || e.TurnEnd? || e.ToolUpdate?
    ensures var r' := AfterEvent(r, e);
            && r'.open == r.open && r'.restarts == r.restarts && r'.failure == r.failure && !Failing(r'.stage)
            && (r'.stage.Fresh? <==> r.stage.Fresh? && !e.AgentStart?) && (e.AgentStart? ==> r.stage.Fresh?)
            && !r.stage.Ended? && (r'.stage.Ended? <==> e.AgentEnd?)
            && Expected(r', "").turns == Expected(r, "").turns + Change(Emitted(e), "").turns
  {
    hide Committed, NextResult, AllTerminate, CallsOf;
  }

  /** Every run, thrown ones included: agent_start comes once and agent_end at most once. */
  lemma {:induction false} AgentBrackets(prompts: Batch, trace: Trace)
    requires Accepted(prompts, trace)
    ensures var r, t := State(prompts, trace), Open(trace, "");
            t.begun == Expected(r, "").begun && t.ended == Expected(r, "").ended
  {
    if trace != [] {
      AgentBrackets(prompts, Front(trace));
      AgentBracketStep(State(prompts, Front(trace)), Last(trace));
    }
  }

  lemma AgentBracketStep(r: Run, o: Obs)
    requires Allowed(r, o)
    ensures var t, t' := Expected(r, ""), Expected(After(r, o), "");
            t'.begun == t.begun + Change(o, "").begun && t'.ended == t.ended + Change(o, "").ended
  {
    hide MayEmit, AfterEvent;
    match o
    case Emitted(e) => AgentBracketEvent(r, e);
    case _ => assert !After(r, o).stage.Fresh? || r.stage.Fresh?;
  }

  lemma AgentBracketEvent(r: Run, e: Event)
    requires MayEmit(r, e)
    ensures var t, t' := Expected(r, ""), Expected(AfterEvent(r, e), "");
            && t'.begun == t.begun + Change(Emitted(e), "").begun
            && t'.ended == t.ended + Change(Emitted(e), "").ended
  {
    hide MayEmit, AfterEvent;
    if e.MessageStart? || e.MessageEnd? || e.MessageUpdate? {
      DueBracket(r, e);
      BracketInside(r, e);
    } else {
      AgentBracketElse(r, e);
    }
  }

  lemma BracketInside(r: Run, e: Event)
    requires MayEmit(r, e) && (e.MessageStart? || e.MessageEnd? || e.MessageUpdate?)
    ensures !r.stage.Fresh? && !r.stage.Ended?
  {
    hide Committed, NextResult, AllTerminate, CallsOf;
  }

  lemma AgentBracketElse(r: Run, e: Event)
    requires MayEmit(r, e) && !e.MessageStart? && !e.MessageEnd? && !e.MessageUpdate?
    ensures var t, t' := Expected(r, ""), Expected(AfterEvent(r, e), "");
            && t'.begun == t.begun + Change(Emitted(e), "").begun
            && t'.ended == t.ended + Change(Emitted(e), "").ended
  {
    hide Committed, NextResult, AllTerminate, CallsOf;
  }

  /** Where an event may stand, in terms of what is open just before it. */
  predicate Fits(e: Event, before: Tally) {
    && before.begun == (if e.AgentStart? then 0 else 1) && before.ended == 0
    && 0 <= before.turns <= 1 && 0 <= before.messages <= 1 && 0 <= before.tools
    && match e {
         case AgentStart => before.turns == 0
         case AgentEnd(_) => before.turns == 0 && before.messages == 0 && before.tools == 0
         case TurnStart => before.turns == 0 && before.messages == 0 && before.tools == 0
         case TurnEnd(_, _) => before.turns == 1 && before.messages == 0 && before.tools == 0
         case MessageStart(_) => before.turns == 1 && before.messages == 0 && before.tools == 0
         case MessageUpdate(_) => before.turns == 1 && before.messages == 1 && before.tools == 0
         case MessageEnd(_) => before.turns == 1 && before.messages == 1 && before.tools == 0
         case ToolStart(_, _, _) => before.turns == 1 && before.messages == 0
         case ToolUpdate(_) => before.turns == 1 && before.messages == 0
         case ToolEnd(_, _, _, _) => before.turns == 1 && before.messages == 0
       }
  }

  /** The id that a tool event names. */
  function ToolId(e: Event): Option<string> {
    match e
    case ToolStart(id, _, _) => Some(id)
    case ToolUpdate(id) => Some(id)
    case ToolEnd(id, _, _, _) => Some(id)
    case _ => None
  }

  /**
   * In a run that has not thrown and whose providers restart no message, every event stands
   * where the brackets allow it: turns alternate, messages do not nest and hold the updates,
   * and a tool's updates and end come while that call is executing.
   */
  lemma WellNested(prompts: Batch, trace: Trace, i: nat, id: string)
    requires Accepted(prompts, trace) && i < |trace| && trace[i].Emitted?
    requires !Threw(trace[..i]) && Accepted(prompts, trace[..i]) && State(prompts, trace[..i]).restarts == 0
    requires trace[i].event.MessageStart? ==> !State(prompts, trace[..i]).stage.Streaming?
    ensures Fits(trace[i].event, Open(trace[..i], id))
    ensures var e := trace[i].event;
            (e.ToolUpdate? || e.ToolEnd?) && ToolId(e) == Some(id) ==> Open(trace[..i], id).tools >= 1
  {
    PrefixAccepted(prompts, trace, i + 1);
    assert Front(trace[..i + 1]) == trace[..i];
    TallyAgrees(prompts, trace[..i], id);
    AlwaysOrderly(prompts, trace[..i]);
    MayEmitFits(State(prompts, trace[..i]), trace[i].event, id);
  }

  lemma MayEmitFits(r: Run, e: Event, id: string)
    requires Orderly(r) && MayEmit(r, e) && !Failing(r.stage) && r.restarts == 0
    requires e.MessageStart? ==> !r.stage.Streaming?
    ensures Fits(e, Expected(r, id))
    ensures (e.ToolUpdate? || e.ToolEnd?) && ToolId(e) == Some(id) ==> r.openTools[id] >= 1
  {
  }

  /** A thrown run is known by the message that reports it, due or sent. */
  lemma {:induction false} ThrewIsFailure(prompts: Batch, trace: Trace)
    requires Accepted(prompts, trace)
    ensures Threw(trace) <==> Failing(State(prompts, trace).stage) || |State(prompts, trace).failure| > 0
  {
    hide After, Allowed;
    if trace != [] {
      var front := Front(trace);
      ThrewIsFailure(prompts, front);
      AlwaysOrderly(prompts, front);
      AlwaysWhole(prompts, front);
      assert trace[|trace| - 1] == Last(trace) && forall i :: 0 <= i < |front| ==> front[i] == trace[i];
      FailureStep(State(prompts, front), Last(trace));
    }
  }

  lemma FailureStep(r: Run, o: Obs)
    requires Orderly(r) && Whole(r) && Allowed(r, o)
    ensures Failing(After(r, o).stage) || |After(r, o).failure| > 0 <==> Failing(r.stage) || |r.failure| > 0 || o == RunThrew
  {
    hide MayEmit, AfterEvent, Flatten;
    if o.Emitted? {
      FailureEvent(r, o.event);
    }
  }

  lemma FailureEvent(r: Run, e: Event)
    requires Orderly(r) && (r.stage.FailureEndDue? ==> |r.failure| > 0) && MayEmit(r, e)
    ensures Failing(AfterEvent(r, e).stage) || |AfterEvent(r, e).failure| > 0 <==> Failing(r.stage) || |r.failure| > 0
  {
    hide MayEmit, AfterEvent, Orderly;
    if Failing(r.stage) {
      FailureGoesOn(r, e);
    } else {
      NoFailureYet(r, e);
    }
  }

  lemma FailureGoesOn(r: Run, e: Event)
    requires Failing(r.stage) && (r.stage.FailureEndDue? ==> |r.failure| > 0) && MayEmit(r, e)
    ensures Failing(AfterEvent(r, e).stage) || |AfterEvent(r, e).failure| > 0
  {
    hide Committed, NextResult, AllTerminate, CallsOf;
  }

  lemma NoFailureYet(r: Run, e: Event)
    requires !Failing(r.stage) && MayEmit(r, e)
    ensures !Failing(AfterEvent(r, e).stage) && AfterEvent(r, e).failure == r.failure
  {
    hide AfterEvent, MayEmit;
    if e.MessageStart? || e.MessageEnd? {
      NoFailureInMessage(r, e);
    } else {
      NoFailureElse(r, e);
    }
  }

  lemma NoFailureInMessage(r: Run, e: Event)
    requires !Failing(r.stage) && MayEmit(r, e) && (e.MessageStart? || e.MessageEnd?)
    ensures !Failing(AfterEvent(r, e).stage) && AfterEvent(r, e).failure == r.failure
  {
    hide Committed, NextResult, AllTerminate, CallsOf;
  }

  lemma NoFailureElse(r: Run, e: Event)
    requires !Failing(r.stage) && MayEmit(r, e) && !e.MessageStart? && !e.MessageEnd?
    ensures !Failing(AfterEvent(r, e).stage) && AfterEvent(r, e).failure == r.failure
  {
    hide Committed, NextResult, AllTerminate, CallsOf;
  }

  /** A run that never restarted a bracket had not done so earlier, and restarts none with its next event. */
  lemma NoRestartBefore(prompts: Batch, trace: Trace, i: nat)
    requires Accepted(prompts, trace) && State(prompts, trace).restarts == 0 && i < |trace|
    ensures Accepted(prompts, trace[..i]) && State(prompts, trace[..i]).restarts == 0
    ensures trace[i].Emitted? && trace[i].event.MessageStart? ==> !State(prompts, trace[..i]).stage.Streaming?
  {
    hide After, Allowed;
    RestartsGrow(prompts, trace, i);
    RestartsGrow(prompts, trace, i + 1);
    assert Front(trace[..i + 1]) == trace[..i];
    if trace[i].Emitted? && trace[i].event.MessageStart? {
      CountsRestart(State(prompts, trace[..i]), trace[i]);
    }
  }

  lemma CountsRestart(r: Run, o: Obs)
    requires Allowed(r, o) && o.Emitted? && o.event.MessageStart?
    ensures r.stage.Streaming? ==> After(r, o).restarts > 0
  {
  }

  lemma {:induction false} RestartsGrow(prompts: Batch, trace: Trace, n: nat)
    requires Accepted(prompts, trace) && n <= |trace|
    ensures Accepted(prompts, trace[..n])
    ensures State(prompts, trace[..n]).restarts <= State(prompts, trace).restarts
  {
    hide After, Allowed;
    if n < |trace| {
      RestartsGrow(prompts, Front(trace), n);
      assert Front(trace)[..n] == trace[..n];
      AlwaysOrderly(prompts, Front(trace));
      RestartStep(State(prompts, Front(trace)), Last(trace));
    } else {
      assert trace[..n] == trace;
    }
  }

  predicate NeverNests(trace: Trace) {
    forall n :: 0 <= n <= |trace| ==> Open(trace[..n], "").messages <= 1
  }

  /** Message brackets never nest exactly when no provider restarts an open message. */
  lemma {:induction false} NestsOnlyOnRestart(prompts: Batch, trace: Trace)
    requires Accepted(prompts, trace) && !Threw(trace)
    ensures NeverNests(trace) <==> State(prompts, trace).restarts == 0
  {
    if trace != [] {
      var front := Front(trace);
      assert !Threw(front) by {
        assert forall i :: 0 <= i < |front| ==> front[i] == trace[i];
      }
      NestsOnlyOnRestart(prompts, front);
      AlwaysOrderly(prompts, front);
      RestartStep(State(prompts, front), Last(trace));
      NestsOneMore(trace);
    }
    TallyAgrees(prompts, trace, "");
  }

  lemma NestsOneMore(trace: Trace)
    requires trace != []
    ensures NeverNests(trace) <==> NeverNests(Front(trace)) && Open(trace, "").messages <= 1
  {
    hide Open;
    assert trace[..|trace|] == trace;
    forall n | 0 <= n < |trace|
      ensures Open(Front(trace)[..n], "") == Open(trace[..n], "")
    {
      assert Front(trace)[..n] == trace[..n];
    }
    if NeverNests(trace) {
      forall n | 0 <= n <= |Front(trace)|
        ensures Open(Front(trace)[..n], "").messages <= 1
      {
        assert Open(trace[..n], "").messages <= 1;
      }
    }
    if NeverNests(Front(trace)) && Open(trace, "").messages <= 1 {
      forall n | 0 <= n <= |trace|
        ensures Open(trace[..n], "").messages <= 1
      {
        if n < |trace| {
          assert Open(Front(trace)[..n], "").messages <= 1;
        }
      }
    }
  }

  lemma RestartStep(r: Run, o: Obs)
    requires Orderly(r) && Allowed(r, o)
    ensures After(r, o).restarts >= r.restarts
    ensures After(r, o).restarts > r.restarts ==> After(r, o).open.Some?
  {
    hide MayEmit, AfterEvent, Orderly;
    if o.Emitted? {
      RestartEvent(r, o.event);
    }
  }

  lemma RestartEvent(r: Run, e: Event)
    requires MayEmit(r, e)
    ensures AfterEvent(r, e).restarts >= r.restarts
    ensures AfterEvent(r, e).restarts > r.restarts ==> AfterEvent(r, e).open.Some?
  {
    hide Committed, NextResult, AllTerminate, CallsOf;
  }

  /** A run that has ended without throwing has closed every bracket it opened. */
  lemma AllClosed(prompts: Batch, trace: Trace, id: string)
    requires Accepted(prompts, trace) && !Threw(trace)
    requires State(prompts, trace).stage.Ended? && State(prompts, trace).restarts == 0
    ensures Open(trace, id) == Tally(1, 1, 0, 0, 0)
  {
    TallyAgrees(prompts, trace, id);
    AlwaysOrderly(prompts, trace);
  }

  /** In every run, thrown or not: agent_start is the first event, and none follows agent_end. */
  lemma AgentStartFirstEndLast(prompts: Batch, trace: Trace, i: nat)
    requires Accepted(prompts, trace) && i < |trace| && trace[i].Emitted?
    ensures Open(trace[..i], "").begun == (if trace[i].event.AgentStart? then 0 else 1)
    ensures Open(trace[..i], "").ended == 0
  {
    PrefixAccepted(prompts, trace, i + 1);
    assert Front(trace[..i + 1]) == trace[..i];
    AgentBrackets(prompts, trace[..i]);
    NeverAfterEnd(State(prompts, trace[..i]), trace[i].event);
  }

  lemma NeverAfterEnd(r: Run, e: Event)
    requires MayEmit(r, e)
    ensures !r.stage.Ended? && (r.stage.Fresh? <==> e.AgentStart?)
  {
  }
}
