/**
 * What lies outside the agent loop: tools, hooks, the provider and the user. Each answer may
 * depend on the moment at which it is given, so a `Host` stands for arbitrary behaviour.
 */
module ToolHost {
  import opened Messages
  import opened PendingQueue

  datatype Tool = Tool(name: string, sequential: bool)

  /** How a promise settles. */
  datatype Answer<+T> = Returned(value: T) | Rejected(message: string)

  /** A thrown error; `isAbort` says whether it is recognised as an abort. */
  datatype Failure = Failure(message: string, isAbort: bool)

  datatype StreamEvent =
    | StreamStart(partial: AssistantMessage)
    | StreamUpdate(partial: AssistantMessage)
    | StreamDone(message: AssistantMessage)  // `done` or `error`
    | StreamBroken(failure: Failure)         // the iterator rejects

  /** What others may do while the loop waits. */
  datatype Action =
    | Abort
    | Steer(batch: Batch)
    | FollowUpWith(batch: Batch)
    | ClearSteering
    | ClearFollowUps
    | RemoveQueued(matches: Message -> bool)
    | SetModes(steering: QueueMode, followUp: QueueMode)
    | OnUpdate(id: string)                   // a tool calls its update callback, early or late

  /** What `afterToolCall` replaces. */
  datatype Overrides = Overrides(content: Option<string>, details: Option<string>,
                                 terminate: Option<bool>, isError: Option<bool>)

  datatype Host = Host(
    tools: seq<Tool>,
    sequential: bool,                                         // config.toolExecution
    validate: (ToolCall, nat) -> Answer<string>,              // prepareArguments, then validation
    before: Option<(ToolCall, string, nat) -> Answer<Option<string>>>,  // Some(reason) blocks the call
    execute: (ToolCall, string, nat) -> Answer<ToolOutput>,
    after: Option<(ToolCall, string, ToolOutput, bool, nat) -> Answer<Option<Overrides>>>,
    prelude: nat -> Option<Failure>,                          // transformContext, convertToLlm, getApiKey, streamFn
    stream: nat -> seq<StreamEvent>,
    result: nat -> Option<Failure>,                           // response.result() rejects
    final: nat -> AssistantMessage,                           // response.result() resolves
    stopAfterTurn: nat -> bool,
    stopAfterTurnFails: nat -> Option<Failure>,
    stopBeforeTurn: nat -> bool,
    continuation: nat -> seq<Message>,
    continuationFails: nat -> Option<Failure>,
    actions: nat -> seq<Action>,
    settlesFirst: nat -> bool,                                // the operation settles before an abort at that moment
    schedule: (nat, nat) -> nat)                              // which parallel tool takes the next step of a batch

  datatype Outcome = Outcome(output: ToolOutput, isError: bool)

  datatype Preparation = Immediate(outcome: Outcome) | Prepared(arguments: string)

  // ----- what a host answers at some moment or other -----

  /** `response.result()` resolves to this message. */
  ghost predicate Resolves(host: Host, m: AssistantMessage) {
    exists t :: host.result(t) == None && m == host.final(t)
  }

  /** The partial message that some events leave; an update counts only once there is one. */
  function LastPartial(events: seq<StreamEvent>): Option<AssistantMessage> {
    if |events| == 0 then None
    else match events[|events| - 1]
      case StreamStart(p) => Some(p)
      case StreamUpdate(p) => if LastPartial(events[..|events| - 1]).Some? then Some(p) else None
      case _ => LastPartial(events[..|events| - 1])
  }

  predicate IsPartial(e: StreamEvent) {
    e.StreamStart? || e.StreamUpdate?
  }

  /** It is the last one that came, and there is none before the first start. */
  lemma {:induction false} LastPartialIsTheLast(events: seq<StreamEvent>)
    ensures LastPartial(events) == None <==> forall i :: 0 <= i < |events| ==> !events[i].StreamStart?
    ensures LastPartial(events).Some? ==>
              forall i :: 0 <= i < |events| && IsPartial(events[i]) && (forall k :: i < k < |events| ==> !IsPartial(events[k])) ==>
                LastPartial(events) == Some(events[i].partial)
  {
    if |events| > 0 {
      var front := events[..|events| - 1];
      LastPartialIsTheLast(front);
      assert forall i :: 0 <= i < |front| ==> events[i] == front[i];
    }
  }

  /** A message that says what a partial one had said, and that the request was aborted. */
  predicate MarkedAborted(m: AssistantMessage, partial: Option<AssistantMessage>) {
    && m.parts == (if partial.Some? then partial.value.parts else [Text("")])
    && m.stopReason == Aborted && m.errorMessage == Some("Request was aborted")
  }

  /**
   * A reply is accounted for by what was read of its stream: it is the provider's result, or the message
   * of the terminal event, or the last partial one marked as aborted.
   */
  ghost predicate Answered(host: Host, read: seq<StreamEvent>, m: AssistantMessage) {
    || Resolves(host, m)
    || (|read| > 0 && read[|read| - 1] == StreamDone(m))
    || MarkedAborted(m, LastPartial(read))
  }

  /** Something that the loop awaits from the host fails at this moment. */
  ghost predicate FailsAt(host: Host, t: nat) {
    || host.prelude(t).Some? || host.result(t).Some?
    || host.stopAfterTurnFails(t).Some? || host.continuationFails(t).Some?
    || exists e :: e in host.stream(t) && e.StreamBroken?
  }

  ghost predicate MayFail(host: Host) {
    exists t :: FailsAt(host, t)
  }

  /** Some tool goes by this name. */
  predicate Known(host: Host, name: string) {
    exists k :: 0 <= k < |host.tools| && host.tools[k].name == name
  }

  /** A call that may be executed with these arguments: its tool is known, they are validated, and no hook objects. */
  ghost predicate Cleared(host: Host, call: ToolCall, args: string) {
    && Known(host, call.name)
    && (exists t :: host.validate(call, t) == Returned(args))
    && (host.before.Some? ==> exists t :: host.before.value(call, args, t) == Returned(None))
  }

  /** The error text for a call that is not executed. */
  ghost predicate Objection(host: Host, call: ToolCall, text: string, aborted: bool) {
    || (!Known(host, call.name) && text == "Tool " + call.name + " not found")
    || (exists t :: host.validate(call, t) == Rejected(text))
    || (host.before.Some? && exists args, t :: host.before.value(call, args, t) == Rejected(text))
    || (host.before.Some? && exists args, t :: host.before.value(call, args, t) == Returned(Some(text)) && text != "")
    || (host.before.Some? && text == "Tool execution was blocked" && exists args, t :: host.before.value(call, args, t) == Returned(Some("")))
    || (aborted && text == "Request was aborted")
  }

  /** An outcome that reports an error and nothing else. */
  predicate IsError(o: Outcome, text: string) {
    o.isError && o.output.content == text && o.output.details == "{}" && o.output.terminate == None
  }

  /** Some tool of a batch, or the configuration, wants one call at a time. */
  ghost predicate OneByOne(host: Host, calls: seq<ToolCall>) {
    || host.sequential
    || exists k, j :: 0 <= k < |calls| && 0 <= j < |host.tools| && host.tools[j].name == calls[k].name && host.tools[j].sequential
                      && forall i :: 0 <= i < j ==> host.tools[i].name != calls[k].name
  }

  lemma {:induction false} FindIsFirst(tools: seq<Tool>, name: string)
    ensures Find(tools, name) == None ==> forall i :: 0 <= i < |tools| ==> tools[i].name != name
    ensures Find(tools, name).Some? ==>
              exists j :: 0 <= j < |tools| && tools[j] == Find(tools, name).value && tools[j].name == name
                          && forall i :: 0 <= i < j ==> tools[i].name != name
  {
    if |tools| > 0 && tools[0].name != name {
      FindIsFirst(tools[1..], name);
      if Find(tools, name).Some? {
        var j :| 0 <= j < |tools| - 1 && tools[1..][j] == Find(tools, name).value && tools[1..][j].name == name
                 && forall i :: 0 <= i < j ==> tools[1..][i].name != name;
        assert tools[j + 1] == tools[1..][j];
        assert forall i :: 0 < i < j + 1 ==> tools[i] == tools[1..][i - 1];
      }
    }
  }

  function ErrorOutcome(message: string): Outcome {
    Outcome(ToolOutput(message, "{}", None), true)
  }

  function Find(tools: seq<Tool>, name: string): Option<Tool> {
    if tools == [] then None else if tools[0].name == name then Some(tools[0]) else Find(tools[1..], name)
  }

  function OrElse<T>(a: Option<T>, b: T): T {
    if a.Some? then a.value else b
  }

  function Override(o: Outcome, overrides: Overrides): Outcome {
    Outcome(ToolOutput(OrElse(overrides.content, o.output.content),
                       OrElse(overrides.details, o.output.details),
                       if overrides.terminate.Some? then overrides.terminate else o.output.terminate),
            OrElse(overrides.isError, o.isError))
  }

  /** The verdict on a call whose hooks and validation are asked at moments `t` and `u`. */
  function Verdict(host: Host, call: ToolCall, t: nat, u: nat): Preparation {
    if Find(host.tools, call.name) == None then Immediate(ErrorOutcome("Tool " + call.name + " not found"))
    else match host.validate(call, t)
      case Rejected(message) => Immediate(ErrorOutcome(message))
      case Returned(args) =>
        if host.before == None then Prepared(args)
        else match host.before.value(call, args, u)
          case Rejected(message) => Immediate(ErrorOutcome(message))
          case Returned(None) => Prepared(args)
          case Returned(Some(reason)) =>
            Immediate(ErrorOutcome(if reason == "" then "Tool execution was blocked" else reason))
  }

  function Ran(host: Host, call: ToolCall, args: string, t: nat): Outcome {
    match host.execute(call, args, t)
    case Returned(output) => Outcome(output, false)
    case Rejected(message) => ErrorOutcome(message)
  }

  function Reviewed(host: Host, call: ToolCall, args: string, o: Outcome, t: nat): Outcome {
    if host.after == None then o
    else match host.after.value(call, args, o.output, o.isError, t)
      case Rejected(message) => ErrorOutcome(message)
      case Returned(None) => o
      case Returned(Some(overrides)) => Override(o, overrides)
  }

  /** Tools and hooks whose answer depends on their own call alone. */
  ghost predicate Steady(host: Host) {
    && (forall c, t :: host.validate(c, t) == host.validate(c, 0))
    && (host.before.Some? ==> forall c, a, t :: host.before.value(c, a, t) == host.before.value(c, a, 0))
    && (forall c, a, t :: host.execute(c, a, t) == host.execute(c, a, 0))
    && (host.after.Some? ==> forall c, a, o, e, t :: host.after.value(c, a, o, e, t) == host.after.value(c, a, o, e, 0))
  }

  /** What a call comes to when nobody interferes: prepare, execute, review. */
  function Final(host: Host, call: ToolCall): Outcome {
    match Verdict(host, call, 0, 0)
    case Immediate(outcome) => outcome
    case Prepared(args) => Reviewed(host, call, args, Ran(host, call, args, 0), 0)
  }

  // ----- what the provider's streams make the loop see -----

  predicate Terminal(e: StreamEvent) {
    e.StreamDone? || e.StreamBroken?
  }

  /** The events of a stream that are ever read: nothing after a terminal event is. */
  function UpToEnd(events: seq<StreamEvent>): seq<StreamEvent> {
    if |events| == 0 then []
    else if Terminal(events[0]) then [events[0]]
    else [events[0]] + UpToEnd(events[1..])
  }

  lemma {:induction false} UpToEndAt(events: seq<StreamEvent>, n: nat)
    requires n <= |events| && forall j :: 0 <= j < n ==> !Terminal(events[j])
    ensures events[..n] <= UpToEnd(events)
    ensures n == |events| ==> UpToEnd(events) == events
    ensures n < |events| && Terminal(events[n]) ==> UpToEnd(events) == events[..n + 1]
  {
    if n > 0 {
      UpToEndAt(events[1..], n - 1);
      assert events[..n] == [events[0]] + events[1..][..n - 1];
      assert n < |events| ==> events[..n + 1] == [events[0]] + events[1..][..n];
    }
  }

  /** How often the provider says `start` in some events. */
  function Starts(events: seq<StreamEvent>): nat {
    if |events| == 0 then 0
    else if events[|events| - 1].StreamStart? then Starts(events[..|events| - 1]) + 1
    else Starts(events[..|events| - 1])
  }

  lemma {:induction false} StartsGrow(events: seq<StreamEvent>, n: nat)
    requires n <= |events|
    ensures Starts(events[..n]) <= Starts(events)
  {
    if n < |events| {
      StartsGrow(events[..|events| - 1], n);
      assert events[..|events| - 1][..n] == events[..n];
    } else {
      assert events[..n] == events;
    }
  }

  lemma StartsStep(events: seq<StreamEvent>, n: nat)
    requires n < |events|
    ensures Starts(events[..n + 1]) == Starts(events[..n]) + if events[n].StreamStart? then 1 else 0
  {
    assert events[..n + 1][..n] == events[..n];
  }

  /** The starts beyond the first. */
  function Extra(events: seq<StreamEvent>): nat {
    if Starts(events) > 1 then Starts(events) - 1 else 0
  }

  function Extras(read: seq<seq<StreamEvent>>): nat {
    if |read| == 0 then 0 else Extras(read[..|read| - 1]) + Extra(read[|read| - 1])
  }

  lemma ExtrasSnoc(read: seq<seq<StreamEvent>>, events: seq<StreamEvent>)
    ensures Extras(read + [events]) == Extras(read) + Extra(events)
  {
    assert (read + [events])[..|read|] == read;
  }

  /** No stream said `start` twice. */
  ghost predicate SingleStarts(read: seq<seq<StreamEvent>>) {
    forall k :: 0 <= k < |read| ==> Starts(read[k]) <= 1
  }

  lemma {:induction false} NoExtras(read: seq<seq<StreamEvent>>)
    ensures Extras(read) == 0 <==> SingleStarts(read)
  {
    if |read| > 0 {
      var front := read[..|read| - 1];
      NoExtras(front);
      if SingleStarts(front) && Starts(read[|read| - 1]) <= 1 {
        assert forall k :: 0 <= k < |front| ==> read[k] == front[k];
      }
      if SingleStarts(read) {
        assert forall k :: 0 <= k < |front| ==> Starts(front[k]) == Starts(read[k]);
      }
    }
  }

  /** Every stream of the provider says `start` at most once. */
  ghost predicate OneStart(host: Host) {
    forall t :: Starts(UpToEnd(host.stream(t))) <= 1
  }

  /** Each entry is what was read, in order, from some stream of the host. */
  ghost predicate AllGiven(host: Host, read: seq<seq<StreamEvent>>) {
    forall k :: 0 <= k < |read| ==> exists t :: read[k] <= UpToEnd(host.stream(t))
  }

  /** Each entry is all that there was to read from some stream of the host. */
  ghost predicate AllWhole(host: Host, read: seq<seq<StreamEvent>>) {
    forall k :: 0 <= k < |read| ==> exists t :: read[k] == UpToEnd(host.stream(t))
  }

  lemma GivenOneMore(host: Host, read: seq<seq<StreamEvent>>, events: seq<StreamEvent>, t: nat)
    requires AllGiven(host, read) && events <= UpToEnd(host.stream(t))
    ensures AllGiven(host, read + [events])
    ensures AllWhole(host, read) && events == UpToEnd(host.stream(t)) ==> AllWhole(host, read + [events])
  {
  }

  lemma OneStartGivesSingle(host: Host, read: seq<seq<StreamEvent>>)
    requires OneStart(host) && AllGiven(host, read)
    ensures SingleStarts(read)
  {
    forall k | 0 <= k < |read|
      ensures Starts(read[k]) <= 1
    {
      var t :| read[k] <= UpToEnd(host.stream(t));
      StartsGrow(UpToEnd(host.stream(t)), |read[k]|);
      assert read[k] == UpToEnd(host.stream(t))[..|read[k]|];
    }
  }

  // ----- what the others do -----

  ghost predicate NeverAborts(host: Host) {
    forall t, a :: a in host.actions(t) ==> !a.Abort?
  }

  /** Nobody takes a queue out of one-at-a-time mode. */
  ghost predicate KeepsOneAtATime(host: Host) {
    forall t, a :: a in host.actions(t) && a.SetModes? ==> a.steering == OneAtATime && a.followUp == OneAtATime
  }
}
