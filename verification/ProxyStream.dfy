/** Rebuilding an assistant message from a stripped event stream (`proxy.ts`). */
module ProxyStream {
  import opened Messages
  import Framing

  datatype Kind = TextKind | ThinkingKind | ToolKind

  type WordKind = k: Kind | k != ToolKind witness TextKind

  /**
   * One slot of the sparse content array. The arguments of a tool call are kept as the text from
   * which they were last parsed; `partialJson` is missing once the call has ended.
   */
  datatype Content =
    | Words(kind: Kind, text: string, signature: Option<string>)
    | CallContent(id: string, name: string, arguments: Option<string>, partialJson: Option<string>)

  datatype ProxyEvent =
    | Start
    | BlockStart(index: nat, words: WordKind)            // text_start, thinking_start
    | CallStart(index: nat, id: string, name: string)
    | Delta(index: nat, kind: Kind, delta: string)
    | BlockEnd(index: nat, words: WordKind, signature: Option<string>)
    | CallEnd(index: nat)
    | Done(reason: StopReason, usage: nat)
    | Failed(reason: StopReason, message: Option<string>, usage: nat)

  datatype Partial = Partial(content: map<nat, Content>, stopReason: StopReason, errorMessage: Option<string>, usage: nat)

  const INITIAL := Partial(map[], Stop, None, 0)

  function KindOf(c: Content): Kind {
    if c.CallContent? then ToolKind else c.kind
  }

  /** The block that an event expects at its index is there. */
  predicate Fits(p: Partial, e: ProxyEvent) {
    match e
    case Delta(i, kind, _) => i in p.content && KindOf(p.content[i]) == kind && (kind == ToolKind <==> p.content[i].CallContent?)
    case BlockEnd(i, kind, _) => i in p.content && p.content[i].Words? && p.content[i].kind == kind
    case _ => true
  }

  /** Adding to a tool call that has ended adds to the text "undefined". */
  function Grow(c: Content, delta: string): Content {
    match c
    case Words(kind, text, signature) => Words(kind, text + delta, signature)
    case CallContent(id, name, _, json) =>
      var all := (if json.Some? then json.value else "undefined") + delta;
      CallContent(id, name, Some(all), Some(all))
  }

  function Apply(p: Partial, e: ProxyEvent): Partial
    requires Fits(p, e)
  {
    match e
    case Start => p
    case BlockStart(i, kind) => p.(content := p.content[i := Words(kind, "", None)])
    case CallStart(i, id, name) => p.(content := p.content[i := CallContent(id, name, None, Some(""))])
    case Delta(i, _, delta) => p.(content := p.content[i := Grow(p.content[i], delta)])
    case BlockEnd(i, _, signature) => p.(content := p.content[i := p.content[i].(signature := signature)])
    case CallEnd(i) =>
      if i in p.content && p.content[i].CallContent? then p.(content := p.content[i := p.content[i].(partialJson := None)]) else p
    case Done(reason, usage) => p.(stopReason := reason, usage := usage)
    case Failed(reason, message, usage) => p.(stopReason := reason, errorMessage := message, usage := usage)
  }

  /** The result of a whole stream, or nothing when an event was refused. */
  function Fold(es: seq<ProxyEvent>): Option<Partial> {
    if es == [] then Some(INITIAL)
    else
      var p, e := Fold(es[..|es| - 1]), es[|es| - 1];
      if p.Some? && Fits(p.value, e) then Some(Apply(p.value, e)) else None
  }

  // ----- what the server said about one index, read off the event sequence -----

  function StartsAt(e: ProxyEvent, i: nat): bool {
    (e.BlockStart? || e.CallStart?) && e.index == i
  }

  /** The last start event at an index. */
  function LastStart(es: seq<ProxyEvent>, i: nat): Option<ProxyEvent> {
    if es == [] then None
    else if StartsAt(es[|es| - 1], i) then Some(es[|es| - 1])
    else LastStart(es[..|es| - 1], i)
  }

  /** The deltas at an index since its last start, concatenated. */
  function Said(es: seq<ProxyEvent>, i: nat): string {
    if es == [] then ""
    else
      var e := es[|es| - 1];
      if StartsAt(e, i) then ""
      else if e.Delta? && e.index == i then Said(es[..|es| - 1], i) + e.delta
      else Said(es[..|es| - 1], i)
  }

  /** Some delta has come at an index since its last start. */
  predicate Spoke(es: seq<ProxyEvent>, i: nat) {
    if es == [] then false
    else
      var e := es[|es| - 1];
      !StartsAt(e, i) && ((e.Delta? && e.index == i) || Spoke(es[..|es| - 1], i))
  }

  function Signed(es: seq<ProxyEvent>, i: nat): Option<string> {
    if es == [] then None
    else
      var e := es[|es| - 1];
      if StartsAt(e, i) then None else if e.BlockEnd? && e.index == i then e.signature else Signed(es[..|es| - 1], i)
  }

  /** The tool call at an index has ended, and nothing was added since. */
  predicate Closed(es: seq<ProxyEvent>, i: nat) {
    if es == [] then false
    else
      var e := es[|es| - 1];
      if StartsAt(e, i) then false
      else if e.Delta? && e.index == i then false
      else (e.CallEnd? && e.index == i) || Closed(es[..|es| - 1], i)
  }

  /** Since its last start, an index has received a delta after its end. */
  predicate Reopened(es: seq<ProxyEvent>, i: nat) {
    if es == [] then false
    else
      var e := es[|es| - 1];
      if StartsAt(e, i) then false
      else Reopened(es[..|es| - 1], i) || (e.Delta? && e.index == i && Closed(es[..|es| - 1], i))
  }

  /** The deltas at an index since it was last reopened, or else since its last start. */
  function SaidSinceEnd(es: seq<ProxyEvent>, i: nat): string {
    if es == [] then ""
    else
      var e := es[|es| - 1];
      if StartsAt(e, i) then ""
      else if e.Delta? && e.index == i then
        if Closed(es[..|es| - 1], i) then e.delta else SaidSinceEnd(es[..|es| - 1], i) + e.delta
      else SaidSinceEnd(es[..|es| - 1], i)
  }

  /** The deltas at an index before it was last reopened. */
  function SaidBeforeEnd(es: seq<ProxyEvent>, i: nat): string {
    if es == [] then ""
    else
      var e := es[|es| - 1];
      if StartsAt(e, i) then ""
      else if e.Delta? && e.index == i && Closed(es[..|es| - 1], i) then Said(es[..|es| - 1], i)
      else SaidBeforeEnd(es[..|es| - 1], i)
  }

  lemma {:induction false} SaidInTwoParts(es: seq<ProxyEvent>, i: nat)
    ensures Said(es, i) == SaidBeforeEnd(es, i) + SaidSinceEnd(es, i)
    ensures !Reopened(es, i) ==> SaidBeforeEnd(es, i) == ""
  {
    if es != [] {
      SaidInTwoParts(es[..|es| - 1], i);
    }
  }

  const UNDEFINED := "undefined"

  /** The text from which the arguments of a tool call were last parsed, if it has been given any. */
  function ArgumentText(es: seq<ProxyEvent>, i: nat): Option<string> {
    if !Spoke(es, i) then None
    else if Reopened(es, i) then Some(UNDEFINED + SaidSinceEnd(es, i))
    else Some(SaidSinceEnd(es, i))
  }

  function StartKind(e: ProxyEvent): Kind {
    if e.BlockStart? then e.words else ToolKind
  }

  /** Every delta and end event falls on a block of its kind. */
  ghost predicate WellFormed(es: seq<ProxyEvent>) {
    forall k :: 0 <= k < |es| ==> Expected(es[..k], es[k])
  }

  predicate Expected(before: seq<ProxyEvent>, e: ProxyEvent) {
    match e
    case Delta(i, kind, _) => LastStart(before, i).Some? && StartKind(LastStart(before, i).value) == kind
    case BlockEnd(i, kind, _) => LastStart(before, i).Some? && StartKind(LastStart(before, i).value) == kind
    case _ => true
  }

  /** What the rebuilt slot must be. */
  ghost predicate Rebuilt(es: seq<ProxyEvent>, i: nat, content: map<nat, Content>) {
    match LastStart(es, i)
    case None => i !in content
    case Some(BlockStart(_, kind)) => i in content && content[i] == Words(kind, Said(es, i), Signed(es, i))
    case Some(CallStart(_, id, name)) =>
      var text := ArgumentText(es, i);
      i in content && content[i] == CallContent(id, name, text, if Closed(es, i) then None else Some(if text.Some? then text.value else ""))
    case Some(_) => false
  }

  lemma RebuiltStep(es: seq<ProxyEvent>, p: Partial, e: ProxyEvent, i: nat)
    requires Rebuilt(es, i, p.content) && Fits(p, e)
    ensures Rebuilt(es + [e], i, Apply(p, e).content)
  {
    var es' := es + [e];
    assert es'[..|es|] == es && es'[|es|] == e;
    if !Spoke(es, i) {
      SilentSaysNothing(es, i);
    }
    if e.Delta? && e.index == i {
      var said := SaidSinceEnd(es, i);
      assert "" + e.delta == e.delta && (UNDEFINED + said) + e.delta == UNDEFINED + (said + e.delta);
    }
  }

  lemma {:induction false} SilentSaysNothing(es: seq<ProxyEvent>, i: nat)
    requires !Spoke(es, i)
    ensures SaidSinceEnd(es, i) == "" && !Reopened(es, i)
  {
    if es != [] && !StartsAt(es[|es| - 1], i) {
      SilentSaysNothing(es[..|es| - 1], i);
    }
  }

  /** A stream is accepted exactly when it is well formed, and then every slot is what the server said. */
  lemma {:induction false} FoldRebuilds(es: seq<ProxyEvent>)
    ensures Fold(es).Some? <==> WellFormed(es)
    ensures Fold(es).Some? ==> forall i: nat :: Rebuilt(es, i, Fold(es).value.content)
  {
    if es != [] {
      var n := |es| - 1;
      var front, e := es[..n], es[n];
      FoldRebuilds(front);
      assert WellFormed(es) <==> WellFormed(front) && Expected(front, e) by {
        assert forall k :: 0 <= k < n ==> es[..k] == front[..k];
      }
      if Fold(front).Some? {
        FitsIsExpected(front, Fold(front).value, e);
        if Fits(Fold(front).value, e) {
          forall i: nat ensures Rebuilt(es, i, Fold(es).value.content) {
            RebuiltStep(front, Fold(front).value, e, i);
            assert front + [e] == es;
          }
        }
      }
    }
  }

  lemma FitsIsExpected(es: seq<ProxyEvent>, p: Partial, e: ProxyEvent)
    requires forall i: nat :: Rebuilt(es, i, p.content)
    ensures Fits(p, e) <==> Expected(es, e)
  {
    match e
    case Delta(i, _, _) => assert Rebuilt(es, i, p.content);
    case BlockEnd(i, _, _) => assert Rebuilt(es, i, p.content);
    case _ =>
  }

  lemma FoldOneMore(es: seq<ProxyEvent>, e: ProxyEvent)
    requires Fold(es).Some?
    ensures Fits(Fold(es).value, e) <==> Expected(es, e)
    ensures Fold(es + [e]) == if Expected(es, e) then Some(Apply(Fold(es).value, e)) else None
  {
    FoldRebuilds(es);
    FitsIsExpected(es, Fold(es).value, e);
    assert (es + [e])[..|es|] == es;
  }

  // ----- the status of the message, read off the event sequence -----

  /** The last event that ended the message, with either outcome. */
  function LastEnd(es: seq<ProxyEvent>): Option<ProxyEvent> {
    if es == [] then None
    else if es[|es| - 1].Done? || es[|es| - 1].Failed? then Some(es[|es| - 1])
    else LastEnd(es[..|es| - 1])
  }

  function LastFailure(es: seq<ProxyEvent>): Option<ProxyEvent> {
    if es == [] then None
    else if es[|es| - 1].Failed? then Some(es[|es| - 1])
    else LastFailure(es[..|es| - 1])
  }

  /**
   * Stop reason and usage are those of the last event that ended the message, the error is that of the
   * last failure; before any such event the message is as it began.
   */
  ghost predicate StatusOf(p: Partial, es: seq<ProxyEvent>) {
    && (match LastEnd(es)
        case Some(Done(reason, usage)) => p.stopReason == reason && p.usage == usage
        case Some(Failed(reason, _, usage)) => p.stopReason == reason && p.usage == usage
        case _ => p.stopReason == Stop && p.usage == 0)
    && (match LastFailure(es)
        case Some(Failed(_, message, _)) => p.errorMessage == message
        case _ => p.errorMessage == None)
  }

  lemma {:induction false} StatusIsTheLastEnds(es: seq<ProxyEvent>)
    requires Fold(es).Some?
    ensures StatusOf(Fold(es).value, es)
  {
    hide Fits, Grow;
    if es != [] {
      StatusIsTheLastEnds(es[..|es| - 1]);
    }
  }

  /** No event changes another index. */
  lemma OnlyItsIndex(p: Partial, e: ProxyEvent, j: nat)
    requires Fits(p, e)
    requires e.BlockStart? || e.CallStart? || e.Delta? || e.BlockEnd? || e.CallEnd? ==> e.index != j
    ensures j in Apply(p, e).content <==> j in p.content
    ensures j in p.content ==> Apply(p, e).content[j] == p.content[j]
  {
  }

  /**
   * A tool call's arguments come from the concatenation of its deltas exactly when no delta followed
   * its end, or when those before the end happen to spell what is put in their place.
   */
  lemma ArgumentsFromDeltas(es: seq<ProxyEvent>, i: nat)
    requires Fold(es).Some? && LastStart(es, i).Some? && LastStart(es, i).value.CallStart? && Spoke(es, i)
    ensures i in Fold(es).value.content && Fold(es).value.content[i].CallContent?
    ensures Fold(es).value.content[i].arguments == Some(Said(es, i)) <==> !Reopened(es, i) || SaidBeforeEnd(es, i) == UNDEFINED
  {
    FoldRebuilds(es);
    assert Rebuilt(es, i, Fold(es).value.content);
    SaidInTwoParts(es, i);
    var a, b := SaidBeforeEnd(es, i), SaidSinceEnd(es, i);
    assert "" + b == b;
    if a + b == UNDEFINED + b {
      assert |a| == |UNDEFINED| && a == (a + b)[..|a|] && UNDEFINED == (UNDEFINED + b)[..|a|];
    }
  }

  /** A stream in which they do not. */
  lemma DeltaAfterEnd()
    ensures var es := [CallStart(0, "1", "t"), Delta(0, ToolKind, "{"), CallEnd(0), Delta(0, ToolKind, "}")];
            && Fold(es).Some? && 0 in Fold(es).value.content
            && Fold(es).value.content[0] == CallContent("1", "t", Some("undefined}"), Some("undefined}"))
  {
    var s1 := [CallStart(0, "1", "t")];
    var s2 := s1 + [Delta(0, ToolKind, "{")];
    var s3 := s2 + [CallEnd(0)];
    var s4 := s3 + [Delta(0, ToolKind, "}")];
    assert s4 == [CallStart(0, "1", "t"), Delta(0, ToolKind, "{"), CallEnd(0), Delta(0, ToolKind, "}")];
    assert s4[..3] == s3 && s3[..2] == s2 && s2[..1] == s1 && s1[..0] == [];
    assert Fold(s1) == Some(Apply(INITIAL, s1[0]));
    assert Fold(s2) == Some(Apply(Fold(s1).value, s2[1]));
    assert Fold(s3) == Some(Apply(Fold(s2).value, s3[2]));
    assert Fold(s4) == Some(Apply(Fold(s3).value, s4[3]));
    assert "undefined" + "}" == "undefined}";
  }

  // ----- reading the stream -----

  /** What a line amounts to once "data: " is cut off and the rest trimmed. */
  datatype Decoded = Blank | Malformed(reason: string) | Event(event: ProxyEvent)

  const PREFIX := "data: "

  function NameOf(kind: Kind): string {
    match kind case TextKind => "text" case ThinkingKind => "thinking" case ToolKind => "toolCall"
  }

  /** The error for an event that falls on no block of its kind. */
  function Refusal(e: ProxyEvent): string {
    match e
    case Delta(_, ToolKind, _) => "Received toolcall_delta for non-toolCall content"
    case Delta(_, kind, _) => "Received " + NameOf(kind) + "_delta for non-" + NameOf(kind) + " content"
    case BlockEnd(_, kind, _) => "Received " + NameOf(kind) + "_end for non-" + NameOf(kind) + " content"
    case _ => ""
  }

  /** What reading a line comes to: the message goes on, or the reader gives up for a reason. */
  datatype Progress = Message(partial: Partial) | GaveUp(reason: string)

  function Consume(p: Partial, line: string, decode: string -> Decoded): Progress {
    if !(PREFIX <= line) then Message(p)
    else match decode(line[|PREFIX|..])
      case Blank => Message(p)
      case Malformed(reason) => GaveUp(reason)
      case Event(e) => if Fits(p, e) then Message(Apply(p, e)) else GaveUp(Refusal(e))
  }

  /** The message after some lines, and the reason for which the reader gave up on one of them, if it did. */
  function ConsumeAll(p: Partial, lines: seq<string>, decode: string -> Decoded): (Partial, Option<string>)
    decreases |lines|
  {
    if lines == [] then (p, None)
    else match Consume(p, lines[0], decode)
      case Message(q) => ConsumeAll(q, lines[1..], decode)
      case GaveUp(reason) => (p, Some(reason))
  }

  lemma {:induction false} ConsumeAppend(p: Partial, a: seq<string>, b: seq<string>, decode: string -> Decoded)
    ensures var (q, end) := ConsumeAll(p, a, decode);
            ConsumeAll(p, a + b, decode) == if end == None then ConsumeAll(q, b, decode) else (q, end)
    decreases |a|
  {
    if a == [] {
      assert a + b == b;
    } else {
      assert (a + b)[0] == a[0] && (a + b)[1..] == a[1..] + b;
      match Consume(p, a[0], decode)
      case Message(q) => ConsumeAppend(q, a[1..], b, decode);
      case GaveUp(_) =>
    }
  }

  /** The message as the catch block leaves it. */
  function Ended(p: Partial, end: Option<string>): Partial {
    if end == None then p else p.(stopReason := Error, errorMessage := end)
  }

  /** The events in some lines, up to the first malformed one. */
  function EventsIn(lines: seq<string>, decode: string -> Decoded): seq<ProxyEvent> {
    if lines == [] then []
    else if PREFIX <= lines[0] && decode(lines[0][|PREFIX|..]).Event?
      then [decode(lines[0][|PREFIX|..]).event] + EventsIn(lines[1..], decode)
    else EventsIn(lines[1..], decode)
  }

  function FoldFrom(p: Partial, es: seq<ProxyEvent>): Option<Partial>
    decreases |es|
  {
    if es == [] then Some(p) else if Fits(p, es[0]) then FoldFrom(Apply(p, es[0]), es[1..]) else None
  }

  lemma {:induction false} FoldFromFold(done: seq<ProxyEvent>, es: seq<ProxyEvent>)
    ensures Fold(done + es) == if Fold(done).Some? then FoldFrom(Fold(done).value, es) else None
    decreases |es|
  {
    if es == [] {
      assert done + es == done;
    } else {
      var more := done + [es[0]];
      assert done + es == more + es[1..];
      assert more[..|done|] == done && more[|done|] == es[0];
      FoldFromFold(more, es[1..]);
    }
  }

  /** Reading lines to the end is folding the events in them. */
  lemma {:induction false} ConsumeIsFold(p: Partial, lines: seq<string>, decode: string -> Decoded)
    requires ConsumeAll(p, lines, decode).1 == None
    ensures FoldFrom(p, EventsIn(lines, decode)) == Some(ConsumeAll(p, lines, decode).0)
    decreases |lines|
  {
    if lines != [] {
      ConsumeIsFold(Consume(p, lines[0], decode).partial, lines[1..], decode);
    }
  }

  /** A line that holds no event although it should. */
  ghost predicate HasMalformed(lines: seq<string>, decode: string -> Decoded) {
    exists k :: 0 <= k < |lines| && PREFIX <= lines[k] && decode(lines[k][|PREFIX|..]).Malformed?
  }

  /** The reader gets to the end of some lines exactly when none is malformed and every event finds its block. */
  lemma {:induction false} ReadsToTheEndExactly(p: Partial, lines: seq<string>, decode: string -> Decoded)
    ensures ConsumeAll(p, lines, decode).1 == None
       <==> !HasMalformed(lines, decode) && FoldFrom(p, EventsIn(lines, decode)).Some?
    decreases |lines|
  {
    if lines != [] {
      var line, rest := lines[0], lines[1..];
      assert HasMalformed(lines, decode) <==>
               (PREFIX <= line && decode(line[|PREFIX|..]).Malformed?) || HasMalformed(rest, decode) by {
        if HasMalformed(rest, decode) {
          var k :| 0 <= k < |rest| && PREFIX <= rest[k] && decode(rest[k][|PREFIX|..]).Malformed?;
          assert lines[k + 1] == rest[k];
        }
      }
      match Consume(p, line, decode)
      case Message(q) => ReadsToTheEndExactly(q, rest, decode);
      case GaveUp(_) =>
    }
  }

  /** The message of `streamProxy`: content slots and status, patched in place. */
  class ProxyMessage {
    var content: map<nat, Content>
    var stopReason: StopReason
    var errorMessage: Option<string>
    var usage: nat

    function State(): Partial
      reads this
    {
      Partial(content, stopReason, errorMessage, usage)
    }

    constructor ()
      ensures State() == INITIAL
    {
      content, stopReason, errorMessage, usage := map[], Stop, None, 0;
    }

    /**
     * Refused, with nothing changed, exactly when the block it needs is not there; otherwise no index but
     * its own changes, and the slot there is what the deltas since its start make it.
     */
    method ProcessProxyEvent(e: ProxyEvent, ghost before: seq<ProxyEvent>) returns (refused: Option<string>)
      requires Fold(before) == Some(State())
      modifies this
      ensures refused == if Expected(before, e) then None else Some(Refusal(e))
      ensures refused.Some? ==> State() == old(State())
      ensures refused == None ==> Fold(before + [e]) == Some(State()) && forall i: nat :: Rebuilt(before + [e], i, content)
      ensures e.Done? ==> stopReason == e.reason && usage == e.usage && errorMessage == old(errorMessage)
      ensures e.Failed? ==> stopReason == e.reason && usage == e.usage && errorMessage == e.message
      ensures !e.Done? && !e.Failed? ==> stopReason == old(stopReason) && usage == old(usage) && errorMessage == old(errorMessage)
      ensures forall i: nat :: (e.Start? || e.Done? || e.Failed? || i != e.index) ==>
                && (i in content <==> i in old(content))
                && (i in content ==> content[i] == old(content)[i])
    {
      FoldOneMore(before, e);
      FoldRebuilds(before + [e]);
      refused := Patch(e);
    }

    method Patch(e: ProxyEvent) returns (refused: Option<string>)
      modifies this
      ensures refused == if Fits(old(State()), e) then None else Some(Refusal(e))
      ensures State() == if refused == None then Apply(old(State()), e) else old(State())
      ensures e.Done? ==> stopReason == e.reason && usage == e.usage && errorMessage == old(errorMessage)
      ensures e.Failed? ==> stopReason == e.reason && usage == e.usage && errorMessage == e.message
      ensures !e.Done? && !e.Failed? ==> stopReason == old(stopReason) && usage == old(usage) && errorMessage == old(errorMessage)
    {
      refused := None;
      match e {
        case Start =>
        case BlockStart(i, kind) =>
          content := content[i := Words(kind, "", None)];
        case CallStart(i, id, name) =>
          content := content[i := CallContent(id, name, None, Some(""))];
        case Delta(i, kind, delta) =>
          if i in content && KindOf(content[i]) == kind && (kind == ToolKind <==> content[i].CallContent?) {
            content := content[i := Grow(content[i], delta)];
          } else {
            refused := Some(Refusal(e));
          }
        case BlockEnd(i, kind, signature) =>
          if i in content && content[i].Words? && content[i].kind == kind {
            content := content[i := content[i].(signature := signature)];
          } else {
            refused := Some(Refusal(e));
          }
        case CallEnd(i) =>
          if i in content && content[i].CallContent? {
            content := content[i := content[i].(partialJson := None)];
          }
        case Done(reason, u) =>
          stopReason, usage := reason, u;
        case Failed(reason, message, u) =>
          stopReason, errorMessage, usage := reason, message, u;
      }
    }

    /**
     * `streamProxy`. However the stream is cut into chunks, the message ends up as its terminated
     * lines make it; the stream is read to its end exactly when no line is malformed and the events are
     * well formed, and otherwise the message is marked with the error.
     */
    method StreamProxy(chunks: seq<string>, decode: string -> Decoded) returns (ok: bool)
      requires State() == INITIAL
      modifies this
      ensures var (p, end) := ConsumeAll(INITIAL, Framing.Lines(Framing.Concat(chunks), '\n'), decode);
              State() == Ended(p, end) && (ok <==> end == None)
      ensures ok ==> Fold(EventsIn(Framing.Lines(Framing.Concat(chunks), '\n'), decode)) == Some(State())
      ensures var lines := Framing.Lines(Framing.Concat(chunks), '\n');
              ok <==> !HasMalformed(lines, decode) && WellFormed(EventsIn(lines, decode))
      ensures !ok ==> stopReason == Error && errorMessage.Some?
    {
      hide Framing.Lines, HasMalformed, WellFormed, Fold, ConsumeAll, EventsIn;
      ok := ReadLoop(chunks, decode);
      ReadsExactly(Framing.Lines(Framing.Concat(chunks), '\n'), decode);
    }

    /** The loop over the chunks, up to the first line that makes the reader give up. */
    method ReadLoop(chunks: seq<string>, decode: string -> Decoded) returns (ok: bool)
      requires State() == INITIAL
      modifies this
      ensures var (p, end) := ConsumeAll(INITIAL, Framing.Lines(Framing.Concat(chunks), '\n'), decode);
              State() == Ended(p, end) && (ok <==> end == None)
      ensures ok ==> Fold(EventsIn(Framing.Lines(Framing.Concat(chunks), '\n'), decode)) == Some(State())
    {
      hide Framing.Lines, Framing.Rest, Framing.Find;
      var reader := new Framing.LineReader('\n');
      for k := 0 to |chunks|
        invariant fresh(reader) && reader.Valid() && reader.sep == '\n'
        invariant reader.received == Framing.Concat(chunks[..k])
        invariant ConsumeAll(INITIAL, reader.delivered, decode) == (State(), None)
      {
        assert chunks[..k + 1][..k] == chunks[..k];
        ghost var done := reader.delivered;
        var lines := reader.OnData(chunks[k]);
        ConsumeIsFold(INITIAL, done, decode);
        FoldFromFold([], EventsIn(done, decode));
        assert [] + EventsIn(done, decode) == EventsIn(done, decode);
        var end := ProcessLines(lines, decode, EventsIn(done, decode));
        ConsumeAppend(INITIAL, done, lines, decode);
        if end.Some? {
          Framing.LinesAppend(Framing.Concat(chunks[..k + 1]), Framing.Concat(chunks[k + 1..]), '\n');
          Framing.ConcatAppend(chunks[..k + 1], chunks[k + 1..]);
          assert chunks[..k + 1] + chunks[k + 1..] == chunks;
          ConsumeAppend(INITIAL, reader.delivered,
                        Framing.Lines(Framing.Rest(reader.received, '\n') + Framing.Concat(chunks[k + 1..]), '\n'), decode);
          stopReason, errorMessage := Error, end;
          return false;
        }
      }
      assert chunks[..|chunks|] == chunks;
      ConsumeIsFold(INITIAL, reader.delivered, decode);
      FoldFromFold([], EventsIn(reader.delivered, decode));
      assert [] + EventsIn(reader.delivered, decode) == EventsIn(reader.delivered, decode);
      ok := true;
    }

    /** From the start, getting to the end means that the events are well formed. */
    static lemma ReadsExactly(lines: seq<string>, decode: string -> Decoded)
      ensures ConsumeAll(INITIAL, lines, decode).1 == None
         <==> !HasMalformed(lines, decode) && WellFormed(EventsIn(lines, decode))
    {
      hide HasMalformed, WellFormed, EventsIn, ConsumeAll;
      var es := EventsIn(lines, decode);
      ReadsToTheEndExactly(INITIAL, lines, decode);
      FoldFromFold([], es);
      assert [] + es == es;
      FoldRebuilds(es);
    }

    method ProcessLines(lines: seq<string>, decode: string -> Decoded, ghost before: seq<ProxyEvent>) returns (end: Option<string>)
      requires Fold(before) == Some(State())
      modifies this
      ensures (State(), end) == ConsumeAll(old(State()), lines, decode)
    {
      hide Fold, Fits, Apply, Expected, Rebuilt;
      ghost var events := before;
      for k := 0 to |lines|
        invariant Fold(events) == Some(State())
        invariant ConsumeAll(old(State()), lines, decode) == ConsumeAll(State(), lines[k..], decode)
      {
        assert lines[k..][1..] == lines[k + 1..] && lines[k..][0] == lines[k];
        if PREFIX <= lines[k] {
          match decode(lines[k][|PREFIX|..]) {
            case Blank =>
            case Malformed(reason) =>
              return Some(reason);
            case Event(e) =>
              FoldOneMore(events, e);
              var refused := ProcessProxyEvent(e, events);
              if refused.Some? {
                return refused;
              }
              events := events + [e];
          }
        }
      }
      end := None;
    }
  }
}
