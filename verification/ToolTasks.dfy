/** The executions of one batch of tool calls, and what they amount to. */
module ToolTasks {
  import opened Messages
  import opened Protocol
  import opened ToolHost

  datatype Phase =
    | Waiting(arguments: string)                    // prepared, to be started with the batch
    | Running(arguments: string)                    // the tool has been called
    | Executed(arguments: string, outcome: Outcome) // the tool has settled
    | Ruled(outcome: Outcome)                       // afterToolCall has settled
    | Done(outcome: Outcome)                        // tool_execution_end is out

  datatype Task = Task(call: ToolCall, phase: Phase)

  /** Ids of the executions that have not ended. */
  function OpenIds(tasks: seq<Task>): multiset<string> {
    if tasks == [] then multiset{}
    else
      var front, last := tasks[..|tasks| - 1], tasks[|tasks| - 1];
      if last.phase.Done? then OpenIds(front) else OpenIds(front) + multiset{last.call.id}
  }

  /** Ids of the executions whose updates are accepted. */
  function LiveIds(tasks: seq<Task>): multiset<string> {
    if tasks == [] then multiset{}
    else
      var front, last := tasks[..|tasks| - 1], tasks[|tasks| - 1];
      if last.phase.Running? then LiveIds(front) + multiset{last.call.id} else LiveIds(front)
  }

  function FinishedBag(tasks: seq<Task>): multiset<Finished> {
    if tasks == [] then multiset{}
    else
      var front, last := tasks[..|tasks| - 1], tasks[|tasks| - 1];
      if last.phase.Done? then FinishedBag(front) + multiset{FinishedAs(last.call, last.phase.outcome)} else FinishedBag(front)
  }

  function FinishedAs(call: ToolCall, o: Outcome): Finished {
    Finished(call.id, call.name, o.output, o.isError)
  }

  function SetPhase(tasks: seq<Task>, i: nat, p: Phase): seq<Task>
    requires i < |tasks|
  {
    tasks[i := Task(tasks[i].call, p)]
  }

  lemma AppendWaiting(tasks: seq<Task>, call: ToolCall, args: string)
    ensures var tasks' := tasks + [Task(call, Waiting(args))];
            && OpenIds(tasks') == OpenIds(tasks) + multiset{call.id}
            && LiveIds(tasks') == LiveIds(tasks) && FinishedBag(tasks') == FinishedBag(tasks)
  {
    assert (tasks + [Task(call, Waiting(args))])[..|tasks|] == tasks;
  }

  lemma SetPhaseFront(tasks: seq<Task>, i: nat, p: Phase)
    requires i < |tasks|
    ensures var n := |tasks| - 1;
            && SetPhase(tasks, i, p)[..n] == (if i < n then SetPhase(tasks[..n], i, p) else tasks[..n])
            && SetPhase(tasks, i, p)[n] == (if i < n then tasks[n] else Task(tasks[i].call, p))
  {
  }

  /** An execution that has not ended moves on: it stays open, and nothing has finished. */
  lemma {:induction false} MoveOpen(tasks: seq<Task>, i: nat, p: Phase)
    requires i < |tasks| && !tasks[i].phase.Done? && !p.Done?
    ensures OpenIds(SetPhase(tasks, i, p)) == OpenIds(tasks) && FinishedBag(SetPhase(tasks, i, p)) == FinishedBag(tasks)
    ensures tasks[i].call.id in OpenIds(tasks)
  {
    SetPhaseFront(tasks, i, p);
    if i < |tasks| - 1 {
      MoveOpen(tasks[..|tasks| - 1], i, p);
    }
  }

  lemma {:induction false} MoveLive(tasks: seq<Task>, i: nat, p: Phase)
    requires i < |tasks|
    ensures tasks[i].phase.Running? == p.Running? ==> LiveIds(SetPhase(tasks, i, p)) == LiveIds(tasks)
    ensures !tasks[i].phase.Running? && p.Running? ==>
              LiveIds(SetPhase(tasks, i, p)) == LiveIds(tasks) + multiset{tasks[i].call.id}
    ensures tasks[i].phase.Running? && !p.Running? ==>
              LiveIds(tasks) == LiveIds(SetPhase(tasks, i, p)) + multiset{tasks[i].call.id}
  {
    var n := |tasks| - 1;
    SetPhaseFront(tasks, i, p);
    if i < n {
      MoveLive(tasks[..n], i, p);
      var l, l', x := LiveIds(tasks[..n]), LiveIds(SetPhase(tasks[..n], i, p)), multiset{tasks[n].call.id};
      var y := multiset{tasks[i].call.id};
      assert (l + x) + y == (l + y) + x && (l' + x) + y == (l' + y) + x;
    }
  }

  /** An execution ends. */
  lemma {:induction false} MoveDone(tasks: seq<Task>, i: nat, o: Outcome)
    requires i < |tasks| && !tasks[i].phase.Done?
    ensures OpenIds(tasks) == OpenIds(SetPhase(tasks, i, Done(o))) + multiset{tasks[i].call.id}
  {
    var n := |tasks| - 1;
    SetPhaseFront(tasks, i, Done(o));
    if i < n {
      MoveDone(tasks[..n], i, o);
      var a, x, y := OpenIds(SetPhase(tasks[..n], i, Done(o))), multiset{tasks[n].call.id}, multiset{tasks[i].call.id};
      assert (a + x) + y == (a + y) + x;
    }
  }

  lemma {:induction false} MoveFinished(tasks: seq<Task>, i: nat, o: Outcome)
    requires i < |tasks| && !tasks[i].phase.Done?
    ensures FinishedBag(SetPhase(tasks, i, Done(o))) == FinishedBag(tasks) + multiset{FinishedAs(tasks[i].call, o)}
  {
    var n := |tasks| - 1;
    SetPhaseFront(tasks, i, Done(o));
    if i < n {
      MoveFinished(tasks[..n], i, o);
      if tasks[n].phase.Done? {
        var f, g := FinishedBag(tasks[..n]), multiset{FinishedAs(tasks[i].call, o)};
        var h := multiset{FinishedAs(tasks[n].call, tasks[n].phase.outcome)};
        assert (f + g) + h == (f + h) + g;
      }
    }
  }

  predicate AllDone(tasks: seq<Task>) {
    forall k :: 0 <= k < |tasks| ==> tasks[k].phase.Done?
  }

  lemma {:induction false} WhenAllDone(tasks: seq<Task>)
    requires AllDone(tasks)
    ensures OpenIds(tasks) == multiset{} && LiveIds(tasks) == multiset{}
    ensures |FinishedBag(tasks)| == |tasks|
    ensures forall f :: f in FinishedBag(tasks) <==> exists k :: 0 <= k < |tasks| && f == FinishedAs(tasks[k].call, tasks[k].phase.outcome)
  {
    if tasks != [] {
      var n := |tasks| - 1;
      WhenAllDone(tasks[..n]);
    }
  }

  /** A live execution is an open one. */
  lemma {:induction false} LiveIsOpen(tasks: seq<Task>)
    ensures LiveIds(tasks) <= OpenIds(tasks)
  {
    if tasks != [] {
      LiveIsOpen(tasks[..|tasks| - 1]);
    }
  }

  /** How far a task is from its final outcome, for tools and hooks that look at their own call only. */
  predicate OnCourse(host: Host, t: Task) {
    match t.phase
    case Waiting(args) => Verdict(host, t.call, 0, 0) == Prepared(args)
    case Running(args) => Verdict(host, t.call, 0, 0) == Prepared(args)
    case Executed(args, o) => Verdict(host, t.call, 0, 0) == Prepared(args) && o == Ran(host, t.call, args, 0)
    case Ruled(o) => o == Final(host, t.call)
    case Done(o) => o == Final(host, t.call)
  }

  // ----- what each step of a call may come to, whatever the host answers and whenever it does -----

  /** Prepared only when cleared; otherwise an error with the text of an objection. */
  ghost predicate Prepares(host: Host, call: ToolCall, p: Preparation, aborted: bool) {
    match p
    case Prepared(args) => Cleared(host, call, args)
    case Immediate(o) => IsError(o, o.output.content) && Objection(host, call, o.output.content, aborted)
  }

  /** What the tool returned, or its error, or that of the abort. */
  ghost predicate Settles(host: Host, call: ToolCall, args: string, o: Outcome, aborted: bool) {
    || (!o.isError && exists t :: host.execute(call, args, t) == Returned(o.output))
    || (IsError(o, o.output.content) && exists t :: host.execute(call, args, t) == Rejected(o.output.content))
    || (aborted && IsError(o, "Tool execution aborted"))
  }

  /** The executed outcome with whatever one answer of the hook replaces, or the error of the hook or of the abort. */
  ghost predicate Reviews(host: Host, call: ToolCall, args: string, was: Outcome, o: Outcome, aborted: bool) {
    || (host.after == None && o == was)
    || (host.after.Some? && exists t :: ReviewedAs(host.after.value(call, args, was.output, was.isError, t), was, o))
    || (host.after.Some? && aborted && IsError(o, "Request was aborted"))
  }

  predicate ReviewedAs(answer: Answer<Option<Overrides>>, was: Outcome, o: Outcome) {
    match answer
    case Rejected(message) => IsError(o, message)
    case Returned(None) => o == was
    case Returned(Some(change)) =>
      && o.output.content == (if change.content.Some? then change.content.value else was.output.content)
      && o.output.details == (if change.details.Some? then change.details.value else was.output.details)
      && o.output.terminate == (if change.terminate.Some? then change.terminate else was.output.terminate)
      && o.isError == (if change.isError.Some? then change.isError.value else was.isError)
  }

  predicate ExecutedAs(answer: Answer<ToolOutput>, o: Outcome) {
    match answer
    case Returned(output) => o == Outcome(output, false)
    case Rejected(text) => IsError(o, text)
  }

  predicate RefusedWith(p: Preparation, text: string) {
    p.Immediate? && IsError(p.outcome, text)
  }

  /** With validated arguments, the hook decides. */
  predicate VerdictOfHook(host: Host, call: ToolCall, args: string, p: Preparation) {
    if host.before == None then p == Prepared(args)
    else match host.before.value(call, args, 0)
      case Rejected(text) => RefusedWith(p, text)
      case Returned(None) => p == Prepared(args)
      case Returned(Some(reason)) => RefusedWith(p, if |reason| > 0 then reason else "Tool execution was blocked")
  }

  /**
   * The verdict on a call, in terms of the host: an unknown tool, refused arguments, a failing hook and a
   * hook that blocks each make an error with its text, and nothing else does.
   */
  lemma VerdictIsTheHosts(host: Host, call: ToolCall)
    ensures Known(host, call.name) <==> Find(host.tools, call.name).Some?
    ensures !Known(host, call.name) ==> RefusedWith(Verdict(host, call, 0, 0), "Tool " + call.name + " not found")
    ensures Known(host, call.name) && host.validate(call, 0).Rejected? ==>
              RefusedWith(Verdict(host, call, 0, 0), host.validate(call, 0).message)
    ensures Known(host, call.name) && host.validate(call, 0).Returned? ==>
              VerdictOfHook(host, call, host.validate(call, 0).value, Verdict(host, call, 0, 0))
  {
    FindIsFirst(host.tools, call.name);
  }

  /** What a cleared call of an undisturbed tool comes to: what the tool returned, as the review leaves it. */
  lemma FinalIsTheHosts(host: Host, call: ToolCall, args: string)
    requires Verdict(host, call, 0, 0) == Prepared(args)
    ensures exists was ::
              && ExecutedAs(host.execute(call, args, 0), was)
              && if host.after == None then Final(host, call) == was
                 else ReviewedAs(host.after.value(call, args, was.output, was.isError, 0), was, Final(host, call))
  {
    var was := Ran(host, call, args, 0);
    assert ExecutedAs(host.execute(call, args, 0), was);
  }

  /** Only a cleared call is ever waiting, running or executed, and only such a call ends without an error. */
  ghost predicate Earned(host: Host, t: Task) {
    match t.phase
    case Waiting(args) => Cleared(host, t.call, args)
    case Running(args) => Cleared(host, t.call, args)
    case Executed(args, _) => Cleared(host, t.call, args)
    case Ruled(o) => EarnedOutcome(host, t.call, o)
    case Done(o) => EarnedOutcome(host, t.call, o)
  }

  ghost predicate EarnedOutcome(host: Host, call: ToolCall, o: Outcome) {
    o.isError || exists args :: Cleared(host, call, args)
  }

  ghost predicate AllEarned(host: Host, tasks: seq<Task>) {
    forall k :: 0 <= k < |tasks| ==> Earned(host, tasks[k])
  }

  lemma EarnedFromStart(host: Host, call: ToolCall, p: Preparation, aborted: bool)
    requires Prepares(host, call, p, aborted)
    ensures Earned(host, Task(call, Opening(p))) && (p.Immediate? ==> EarnedOutcome(host, call, p.outcome))
  {
    hide Cleared, Objection;
  }

  /** Whatever its next step brings, an execution that goes on was cleared. */
  lemma EarnedSteps(host: Host, tasks: seq<Task>, i: nat)
    requires AllEarned(host, tasks) && i < |tasks|
    ensures var t := tasks[i];
            && (t.phase.Waiting? || t.phase.Running? || t.phase.Executed? ==> Cleared(host, t.call, t.phase.arguments))
            && (t.phase.Waiting? ==> forall o :: Earned(host, Task(t.call, Executed(t.phase.arguments, o))))
            && (t.phase.Waiting? ==> Earned(host, Task(t.call, Running(t.phase.arguments))))
            && (t.phase.Running? ==> forall o :: Earned(host, Task(t.call, Executed(t.phase.arguments, o))))
            && (t.phase.Executed? ==> forall o :: Earned(host, Task(t.call, Ruled(o))))
            && (t.phase.Ruled? ==> Earned(host, Task(t.call, Done(t.phase.outcome))) && EarnedOutcome(host, t.call, t.phase.outcome))
  {
    hide Cleared;
    assert Earned(host, tasks[i]);
  }

  lemma OneEarned(host: Host, tasks: seq<Task>, i: nat, p: Phase)
    requires i < |tasks| && AllEarned(host, tasks) && Earned(host, Task(tasks[i].call, p))
    ensures AllEarned(host, SetPhase(tasks, i, p))
  {
  }

  lemma OneMoreEarned(host: Host, tasks: seq<Task>, t: Task)
    requires AllEarned(host, tasks) && Earned(host, t)
    ensures AllEarned(host, tasks + [t])
  {
  }

  lemma NoCallsOneByOne(host: Host)
    ensures OneByOne(host, []) <==> host.sequential
  {
  }

  /** One call more asks for one at a time when its tool does. */
  lemma OneCallMore(host: Host, calls: seq<ToolCall>, call: ToolCall)
    ensures var tool := Find(host.tools, call.name);
            OneByOne(host, calls + [call]) <==> OneByOne(host, calls) || (tool.Some? && tool.value.sequential)
  {
    var more := calls + [call];
    FindIsFirst(host.tools, call.name);
    if OneByOne(host, calls) && !host.sequential {
      var k, j :| 0 <= k < |calls| && 0 <= j < |host.tools| && host.tools[j].name == calls[k].name && host.tools[j].sequential
                  && forall i :: 0 <= i < j ==> host.tools[i].name != calls[k].name;
      assert more[k] == calls[k];
    }
    if OneByOne(host, more) && !host.sequential {
      var k, j :| 0 <= k < |more| && 0 <= j < |host.tools| && host.tools[j].name == more[k].name && host.tools[j].sequential
                  && forall i :: 0 <= i < j ==> host.tools[i].name != more[k].name;
      if k < |calls| {
        assert calls[k] == more[k];
      }
    }
    assert more[|calls|] == call;
  }

  /** A call that is never cleared, whatever its arguments: it never runs, and ends in an error. */
  lemma BlockedNeverRuns(host: Host, tasks: seq<Task>, k: nat)
    requires AllEarned(host, tasks) && k < |tasks| && forall args :: !Cleared(host, tasks[k].call, args)
    ensures !tasks[k].phase.Running? && !tasks[k].phase.Executed? && !tasks[k].phase.Waiting?
    ensures tasks[k].phase.outcome.isError
  {
    assert Earned(host, tasks[k]);
  }

  /** A hook that blocks a call with its arguments as validated clears it with none. */
  lemma BlockedIsNotCleared(host: Host, call: ToolCall, args: string)
    requires !Known(host, call.name)
          || (forall t :: host.validate(call, t).Rejected?)
          || (host.before.Some? && forall a, t :: host.before.value(call, a, t) != Returned(None))
    ensures !Cleared(host, call, args)
  {
  }

  /** A result without an error belongs to a cleared call. */
  ghost predicate ResultsEarned(host: Host, calls: seq<ToolCall>, results: seq<Message>) {
    && |results| <= |calls|
    && forall k :: 0 <= k < |results| ==>
         results[k].ToolResult? && (results[k].isError || exists args :: Cleared(host, calls[k], args))
  }

  lemma EarnedResults(host: Host, r: Run, live: multiset<string>, calls: seq<ToolCall>, tasks: seq<Task>)
    requires Books(r, live, calls, tasks) && Results(r, tasks) && AllEarned(host, tasks)
    ensures ResultsEarned(host, calls, r.turn.results)
  {
    hide Cleared;
    forall k | 0 <= k < |r.turn.results|
      ensures r.turn.results[k].ToolResult? && (r.turn.results[k].isError || exists args :: Cleared(host, calls[k], args))
    {
      assert Earned(host, tasks[k]) && tasks[k].call == calls[k];
    }
  }

  /** Where preparation leaves a call. */
  function Opening(p: Preparation): Phase {
    match p
    case Immediate(outcome) => Done(outcome)
    case Prepared(args) => Waiting(args)
  }

  lemma OnCourseFromStart(host: Host, call: ToolCall, p: Preparation)
    requires p == Verdict(host, call, 0, 0)
    ensures OnCourse(host, Task(call, Opening(p)))
  {
  }

  /** The next phase of an execution that nothing disturbs. */
  function NextPhase(host: Host, t: Task): Phase {
    match t.phase
    case Waiting(args) => Running(args)
    case Running(args) => Executed(args, Ran(host, t.call, args, 0))
    case Executed(args, o) => Ruled(Reviewed(host, t.call, args, o, 0))
    case Ruled(o) => Done(o)
    case Done(o) => Done(o)
  }

  lemma StaysOnCourse(host: Host, t: Task)
    requires OnCourse(host, t)
    ensures OnCourse(host, Task(t.call, NextPhase(host, t)))
  {
  }

  function Rank(t: Task): nat {
    match t.phase
    case Waiting(_) => 4
    case Running(_) => 3
    case Executed(_, _) => 2
    case Ruled(_) => 1
    case Done(_) => 0
  }

  function ResultMessage(call: ToolCall, o: Outcome, timestamp: nat): Message {
    ToolResult(call.id, call.name, o.output.content, o.output.details, o.isError, timestamp)
  }

  /** The results, timestamps aside, that both execution modes must produce. */
  predicate ResultsOf(host: Host, calls: seq<ToolCall>, results: seq<Message>) {
    && |results| == |calls|
    && forall k :: 0 <= k < |calls| ==>
         results[k].ToolResult? && results[k] == ResultMessage(calls[k], Final(host, calls[k]), results[k].timestamp)
  }

  /** Two batches with the results that the tools give, whichever way they ran, differ in timestamps only. */
  lemma SameBatch(host: Host, calls: seq<ToolCall>, sequential: seq<Message>, parallel: seq<Message>)
    requires ResultsOf(host, calls, sequential) && ResultsOf(host, calls, parallel)
    ensures |sequential| == |parallel|
    ensures forall k :: 0 <= k < |calls| ==> sequential[k] == parallel[k].(timestamp := sequential[k].timestamp)
  {
  }

  predicate Terminates(host: Host, calls: seq<ToolCall>) {
    |calls| > 0 && forall k :: 0 <= k < |calls| ==> Final(host, calls[k]).output.terminate == Some(true)
  }

  /** `shouldTerminateToolBatch`, on the calls in source order. */
  function ShouldTerminate(tasks: seq<Task>): (r: bool)
    requires AllDone(tasks)
    ensures r <==> AllTerminate(FinishedBag(tasks))
    ensures r <==> |tasks| > 0 && forall k :: 0 <= k < |tasks| ==> tasks[k].phase.outcome.output.terminate == Some(true)
  {
    WhenAllDone(tasks);
    assert forall k :: 0 <= k < |tasks| ==> FinishedAs(tasks[k].call, tasks[k].phase.outcome) in FinishedBag(tasks);
    |tasks| > 0 && forall k :: 0 <= k < |tasks| ==> tasks[k].phase.outcome.output.terminate == Some(true)
  }

  // ----- the books of a batch: how its executions show in the run's state -----

  /** `tasks` are the executions begun for the first of `calls`; `live` are those that accept updates. */
  ghost predicate Books(r: Run, live: multiset<string>, calls: seq<ToolCall>, tasks: seq<Task>) {
    && r.stage == Acting && r.open == None
    && r.turn.reply.Some? && !Failed(r.turn.reply.value) && Calls(r) == calls
    && |tasks| <= |calls| && r.started == |tasks|
    && (forall k :: 0 <= k < |tasks| ==> tasks[k].call == calls[k])
    && r.openTools == OpenIds(tasks) && live == LiveIds(tasks) && r.finished == FinishedBag(tasks)
  }

  ghost predicate AllOnCourse(host: Host, tasks: seq<Task>) {
    forall k :: 0 <= k < |tasks| ==> OnCourse(host, tasks[k])
  }

  lemma OneOnCourse(host: Host, tasks: seq<Task>, i: nat, p: Phase)
    requires i < |tasks| && AllOnCourse(host, tasks) && OnCourse(host, Task(tasks[i].call, p))
    ensures AllOnCourse(host, SetPhase(tasks, i, p))
  {
  }

  function StartOf(call: ToolCall): Event {
    ToolStart(call.id, call.name, call.arguments)
  }

  function EndOf(call: ToolCall, o: Outcome): Event {
    ToolEnd(call.id, call.name, o.output, o.isError)
  }

  lemma BooksTime(r: Run, r': Run, live: multiset<string>, calls: seq<ToolCall>, tasks: seq<Task>)
    requires Books(r, live, calls, tasks) && r' == r.(aborted := r'.aborted)
    ensures Books(r', live, calls, tasks) && r'.stage == Acting && r'.open == None
  {
  }

  /** Starting the next call; whatever its preparation says, it is open until it ends. */
  lemma BooksStart(r: Run, live: multiset<string>, calls: seq<ToolCall>, tasks: seq<Task>, args: string)
    requires Books(r, live, calls, tasks) && |tasks| < |calls|
    ensures var e := StartOf(calls[|tasks|]);
            && MayEmit(r, e)
            && Books(AfterEvent(r, e), live, calls, tasks + [Task(calls[|tasks|], Waiting(args))])
            && AfterEvent(r, e) == r.(started := r.started + 1, openTools := AfterEvent(r, e).openTools)
  {
    AppendWaiting(tasks, calls[|tasks|], args);
  }

  /** A task moves without an event; `live'` is what the move makes of the accepting executions. */
  lemma BooksMove(r: Run, live: multiset<string>, calls: seq<ToolCall>, tasks: seq<Task>, i: nat, p: Phase)
    requires Books(r, live, calls, tasks) && i < |tasks| && !tasks[i].phase.Done? && !p.Done?
    ensures Books(r, LiveIds(SetPhase(tasks, i, p)), calls, SetPhase(tasks, i, p))
    ensures LiveIds(SetPhase(tasks, i, p)) <= r.openTools
    ensures tasks[i].phase.Running? && !p.Running? ==>
              tasks[i].call.id in live && LiveIds(SetPhase(tasks, i, p)) == live - multiset{tasks[i].call.id}
    ensures !tasks[i].phase.Running? && p.Running? ==>
              LiveIds(SetPhase(tasks, i, p)) == live + multiset{tasks[i].call.id}
    ensures tasks[i].phase.Running? == p.Running? ==> LiveIds(SetPhase(tasks, i, p)) == live
  {
    MoveOpen(tasks, i, p);
    MoveLive(tasks, i, p);
    LiveIsOpen(SetPhase(tasks, i, p));
  }

  /** An execution begins, or it is found aborted and is not begun. */
  lemma BooksBegin(r: Run, live: multiset<string>, calls: seq<ToolCall>, tasks: seq<Task>, i: nat, args: string)
    requires Books(r, live, calls, tasks) && i < |tasks| && tasks[i].phase.Waiting?
    ensures r.stage == Acting && r.open == None
    ensures live + multiset{tasks[i].call.id} <= r.openTools
    ensures Books(r, live + multiset{tasks[i].call.id}, calls, SetPhase(tasks, i, Running(args)))
    ensures forall o :: Books(r, live, calls, SetPhase(tasks, i, Executed(args, o)))
  {
    hide Books, SetPhase;
    BooksTime(r, r, live, calls, tasks);
    BooksMove(r, live, calls, tasks, i, Running(args));
    forall o: Outcome
      ensures Books(r, live, calls, SetPhase(tasks, i, Executed(args, o)))
    {
      BooksMove(r, live, calls, tasks, i, Executed(args, o));
    }
  }

  /** A tool's promise settles; meanwhile the run may have been aborted. */
  lemma BooksSettle(r: Run, r': Run, live: multiset<string>, calls: seq<ToolCall>, tasks: seq<Task>, i: nat, p: Phase)
    requires Books(r, live, calls, tasks) && r' == r.(aborted := r'.aborted)
    requires i < |tasks| && tasks[i].phase.Running? && p.Executed?
    ensures tasks[i].call.id in live && r'.stage == Acting && r'.open == None
    ensures Books(r', live - multiset{tasks[i].call.id}, calls, SetPhase(tasks, i, p))
  {
    hide Books, SetPhase;
    BooksTime(r, r', live, calls, tasks);
    BooksMove(r', live, calls, tasks, i, p);
  }

  /** A task that is no longer live ends. */
  lemma BooksEnd(r: Run, live: multiset<string>, calls: seq<ToolCall>, tasks: seq<Task>, i: nat, o: Outcome)
    requires Books(r, live, calls, tasks) && i < |tasks| && !tasks[i].phase.Done? && !tasks[i].phase.Running?
    ensures var e := EndOf(tasks[i].call, o);
            && MayEmit(r, e)
            && live <= r.openTools - multiset{tasks[i].call.id}
            && Books(AfterEvent(r, e), live, calls, SetPhase(tasks, i, Done(o)))
            && AfterEvent(r, e) == r.(openTools := AfterEvent(r, e).openTools, finished := AfterEvent(r, e).finished)
  {
    MoveDone(tasks, i, o);
    MoveFinished(tasks, i, o);
    MoveLive(tasks, i, Done(o));
    LiveIsOpen(SetPhase(tasks, i, Done(o)));
    Minus(r.openTools, OpenIds(SetPhase(tasks, i, Done(o))), tasks[i].call.id);
  }

  lemma Minus(a: multiset<string>, b: multiset<string>, x: string)
    requires a == b + multiset{x}
    ensures x in a && b == a - multiset{x}
  {
  }

  /** The results of the first executions, in source order. */
  ghost predicate Results(r: Run, tasks: seq<Task>) {
    && |r.turn.results| <= |tasks|
    && forall k :: 0 <= k < |r.turn.results| ==>
         && tasks[k].phase.Done? && r.turn.results[k].ToolResult?
         && r.turn.results[k] == ResultMessage(tasks[k].call, tasks[k].phase.outcome, r.turn.results[k].timestamp)
  }

  /** With every execution ended, the next result may be announced. */
  lemma BooksResult(r: Run, live: multiset<string>, calls: seq<ToolCall>, tasks: seq<Task>, timestamp: nat)
    requires Books(r, live, calls, tasks) && AllDone(tasks) && |r.turn.results| < |tasks|
    ensures var k := |r.turn.results|;
            var m := ResultMessage(tasks[k].call, tasks[k].phase.outcome, timestamp);
            && MayEmit(r, MessageStart(m)) && AfterEvent(r, MessageStart(m)) == r.(open := Some(m))
  {
    WhenAllDone(tasks);
    var k := |r.turn.results|;
    var m := ResultMessage(tasks[k].call, tasks[k].phase.outcome, timestamp);
    assert Reports(m, FinishedAs(tasks[k].call, tasks[k].phase.outcome));
    assert NextResult(r, m);
  }

  lemma BooksResultEnd(r: Run, r': Run, live: multiset<string>, calls: seq<ToolCall>, tasks: seq<Task>, m: Message)
    requires Books(r, live, calls, tasks) && r' == r.(open := Some(m), aborted := r'.aborted)
    ensures MayEmit(r', MessageEnd(m))
    ensures AfterEvent(r', MessageEnd(m)) == r.(turn := r.turn.(results := r.turn.results + [m]), aborted := r'.aborted)
    ensures Books(AfterEvent(r', MessageEnd(m)), live, calls, tasks)
  {
  }

  /** When every execution has ended on course, the results are the ones both modes must produce. */
  lemma CourseGivesResults(host: Host, r: Run, live: multiset<string>, calls: seq<ToolCall>, tasks: seq<Task>)
    requires Books(r, live, calls, tasks) && AllDone(tasks) && |tasks| == |calls| == |r.turn.results|
    requires Results(r, tasks) && AllOnCourse(host, tasks)
    ensures ResultsOf(host, calls, r.turn.results)
    ensures ShouldTerminate(tasks) == Terminates(host, calls)
  {
    assert forall k :: 0 <= k < |tasks| ==> OnCourse(host, tasks[k]);
  }

  lemma BooksClosed(r: Run, live: multiset<string>, calls: seq<ToolCall>, tasks: seq<Task>)
    requires Books(r, live, calls, tasks) && AllDone(tasks)
    ensures r.openTools == multiset{} && live == multiset{} && r.started == |tasks| <= |calls|
    ensures ShouldTerminate(tasks) == AllTerminate(r.finished)
    ensures r.stage == Acting && r.open == None
  {
    WhenAllDone(tasks);
  }

  // ----- the scheduler of a parallel batch -----

  function Unfinished(tasks: seq<Task>): (r: seq<nat>)
    ensures forall k :: 0 <= k < |r| ==> r[k] < |tasks| && !tasks[r[k]].phase.Done?
    ensures |r| == 0 ==> AllDone(tasks)
  {
    if tasks == [] then []
    else
      var n := |tasks| - 1;
      if tasks[n].phase.Done? then Unfinished(tasks[..n]) else Unfinished(tasks[..n]) + [n]
  }

  function TotalRank(tasks: seq<Task>): nat {
    if tasks == [] then 0 else TotalRank(tasks[..|tasks| - 1]) + Rank(tasks[|tasks| - 1])
  }

  lemma {:induction false} StepLowersRank(tasks: seq<Task>, i: nat, p: Phase)
    requires i < |tasks| && Rank(Task(tasks[i].call, p)) < Rank(tasks[i])
    ensures TotalRank(SetPhase(tasks, i, p)) < TotalRank(tasks)
  {
    var n := |tasks| - 1;
    SetPhaseFront(tasks, i, p);
    if i < n {
      StepLowersRank(tasks[..n], i, p);
    }
  }

  lemma BooksOpen(r: Run, m: Message)
    requires r.stage == Acting && r.open == None && r.turn.reply == Some(m) && !Failed(m)
    requires r.started == 0 && r.openTools == multiset{} && r.finished == multiset{}
    ensures Books(r, multiset{}, CallsOf(m), [])
  {
  }
}
