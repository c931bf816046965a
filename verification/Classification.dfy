/** The first 500 ms of a socket that a primary has accepted: is it a client or the native host? */
module Classification {
  import opened Messages
  import opened Framing

  datatype Kind = NativeHost | ClientProcess

  const NEWLINE: nat := 10

  class AcceptedSocket {
    const isHello: seq<nat> -> bool   // the line parses to a client_hello
    var kind: Option<Kind>
    var buffer: seq<nat>              // the early buffer, later the buffer of the handler
    ghost var received: seq<nat>
    ghost var handled: seq<seq<nat>>  // the lines that reached a handler
    ghost var timedOut: bool

    /**
     * The hand-over loses and repeats no byte: a native host's handler has seen every line
     * received, a client's every line but the hello.
     */
    ghost predicate Valid()
      reads this
    {
      match kind
      case None => buffer == received && NEWLINE !in received && handled == [] && !timedOut
      case Some(NativeHost) =>
        && handled == Lines(received, NEWLINE) && buffer == Rest(received, NEWLINE)
        && (timedOut || (|handled| > 0 && !isHello(handled[0])))
      case Some(ClientProcess) =>
        && |Lines(received, NEWLINE)| > 0 && isHello(Lines(received, NEWLINE)[0]) && !timedOut
        && [Lines(received, NEWLINE)[0]] + handled == Lines(received, NEWLINE)
        && buffer == Rest(received, NEWLINE)
    }

    constructor (isHello: seq<nat> -> bool)
      ensures Valid() && received == [] && kind == None
    {
      this.isHello := isHello;
      kind, buffer, received, handled, timedOut := None, [], [], [], false;
    }

    /** No complete first line came in time: the peer is taken for the native host. */
    method OnTimeout()
      requires Valid()
      modifies this
      ensures Valid() && received == old(received) && handled == old(handled)
      ensures kind == if old(kind) == None then Some(NativeHost) else old(kind)
    {
      if kind == None {
        kind, timedOut := Some(NativeHost), true;
        NoNewline(received);
      }
    }

    method OnData(chunk: seq<nat>)
      requires Valid()
      modifies this
      ensures Valid() && received == old(received) + chunk
      ensures old(handled) <= handled
      ensures old(kind) != None ==> kind == old(kind)
      ensures old(kind) == None && Lines(received, NEWLINE) != [] ==>
                kind == Some(if isHello(Lines(received, NEWLINE)[0]) then ClientProcess else NativeHost)
    {
      hide Lines, Rest, Framing.Find;
      received := received + chunk;
      buffer := buffer + chunk;
      LinesAppend(old(received), chunk, NEWLINE);
      if kind == None {
        var idx := IndexOf(buffer, NEWLINE);
        if idx == |buffer| {
          NoLines(buffer, NEWLINE);
          return;
        }
        var firstLine, after := buffer[..idx], buffer[idx + 1..];
        assert buffer == received == firstLine + [NEWLINE] + after;
        FirstLine(firstLine, after, NEWLINE);
        if isHello(firstLine) {
          kind, buffer := Some(ClientProcess), after;
        } else {
          kind := Some(NativeHost);
        }
      }
      Handle();
      assert kind == Some(NativeHost) ==> handled == Lines(received, NEWLINE);
      assert kind == Some(ClientProcess) ==> [Lines(received, NEWLINE)[0]] + handled == Lines(received, NEWLINE);
    }

    /** The handler's loop over complete lines. */
    method Handle()
      modifies this`buffer, this`handled
      ensures handled == old(handled) + Lines(old(buffer), NEWLINE) && buffer == Rest(old(buffer), NEWLINE)
    {
      hide Lines, Rest, Framing.Find;
      assert [] + Lines(buffer, NEWLINE) == Lines(buffer, NEWLINE);
      var idx := IndexOf(buffer, NEWLINE);
      while idx < |buffer|
        invariant idx == Framing.Find(buffer, NEWLINE)
        invariant handled + Lines(buffer, NEWLINE) == old(handled) + Lines(old(buffer), NEWLINE)
        invariant Rest(buffer, NEWLINE) == Rest(old(buffer), NEWLINE)
        decreases |buffer|
      {
        ghost var head, tail := buffer[..idx], buffer[idx + 1..];
        FirstLine(head, tail, NEWLINE);
        assert buffer == head + [NEWLINE] + tail;
        assert (handled + [head]) + Lines(tail, NEWLINE) == handled + ([head] + Lines(tail, NEWLINE));
        handled := handled + [buffer[..idx]];
        buffer := buffer[idx + 1..];
        idx := IndexOf(buffer, NEWLINE);
      }
      NoLines(buffer, NEWLINE);
    }
  }

  lemma NoNewline(s: seq<nat>)
    requires NEWLINE !in s
    ensures Lines(s, NEWLINE) == [] && Rest(s, NEWLINE) == s
  {
  }
}
