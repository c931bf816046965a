/** The native-messaging frames of `native-host.js`: a 4-byte little-endian length, then that many bytes. */
module NativeFraming {
  import opened Messages

  type byte = b: int | 0 <= b < 256

  const LIMIT: nat := 0x1_0000_0000

  function ReadUInt32LE(s: seq<byte>): nat
    requires |s| >= 4
  {
    s[0] as int + 0x100 * (s[1] as int) + 0x1_0000 * (s[2] as int) + 0x100_0000 * (s[3] as int)
  }

  function Header(n: nat): (h: seq<byte>)
    requires n < LIMIT
    ensures |h| == 4
  {
    [n % 0x100, n / 0x100 % 0x100, n / 0x1_0000 % 0x100, n / 0x100_0000]
  }

  lemma HeaderRoundTrip(n: nat, rest: seq<byte>)
    requires n < LIMIT
    ensures ReadUInt32LE(Header(n) + rest) == n
  {
    assert n / 0x1_0000 == n / 0x100 / 0x100 && n / 0x100_0000 == n / 0x1_0000 / 0x100;
  }

  /** The low byte comes first. */
  lemma LowByteFirst()
    ensures Header(0x0102_0304) == [4, 3, 2, 1]
    ensures ReadUInt32LE([0x44, 0x33, 0x22, 0x11]) == 0x1122_3344
  {
  }

  lemma HeaderOfBytes(s: seq<byte>)
    requires |s| >= 4
    ensures ReadUInt32LE(s) < LIMIT && Header(ReadUInt32LE(s)) == s[..4]
  {
    var a: int, b: int, c: int, d: int := s[0], s[1], s[2], s[3];
    var n := ReadUInt32LE(s);
    assert n == a + 0x100 * (b + 0x100 * (c + 0x100 * d));
    assert n / 0x100 == b + 0x100 * (c + 0x100 * d) && n % 0x100 == a;
    assert n / 0x1_0000 == c + 0x100 * d && n / 0x100 % 0x100 == b;
    assert n / 0x100_0000 == d && n / 0x1_0000 % 0x100 == c;
  }

  /** A whole frame is at the front. */
  predicate HasFrame(s: seq<byte>) {
    |s| >= 4 && |s| >= 4 + ReadUInt32LE(s)
  }

  function Frames(s: seq<byte>): seq<seq<byte>>
    decreases |s|
  {
    if HasFrame(s) then [s[4..4 + ReadUInt32LE(s)]] + Frames(s[4 + ReadUInt32LE(s)..]) else []
  }

  function Rest(s: seq<byte>): seq<byte>
    decreases |s|
  {
    if HasFrame(s) then Rest(s[4 + ReadUInt32LE(s)..]) else s
  }

  function Encode(payload: seq<byte>): seq<byte>
    requires |payload| < LIMIT
  {
    Header(|payload|) + payload
  }

  function EncodeAll(payloads: seq<seq<byte>>): seq<byte>
    requires forall i :: 0 <= i < |payloads| ==> |payloads[i]| < LIMIT
  {
    if payloads == [] then [] else Encode(payloads[0]) + EncodeAll(payloads[1..])
  }

  lemma FirstFrame(payload: seq<byte>, tail: seq<byte>)
    requires |payload| < LIMIT
    ensures HasFrame(Encode(payload) + tail)
    ensures Frames(Encode(payload) + tail) == [payload] + Frames(tail)
    ensures Rest(Encode(payload) + tail) == Rest(tail)
  {
    var s := Encode(payload) + tail;
    HeaderRoundTrip(|payload|, payload + tail);
    assert s == Header(|payload|) + (payload + tail);
    assert s[4..4 + |payload|] == payload && s[4 + |payload|..] == tail;
  }

  lemma Decompose(s: seq<byte>) returns (payload: seq<byte>, tail: seq<byte>)
    requires HasFrame(s)
    ensures |payload| < LIMIT && s == Encode(payload) + tail && |tail| < |s|
  {
    HeaderOfBytes(s);
    var n := ReadUInt32LE(s);
    payload, tail := s[4..4 + n], s[4 + n..];
    assert s == s[..4] + payload + tail;
  }

  /** More bytes cannot undo a frame. */
  lemma NoFrame(s: seq<byte>)
    requires !HasFrame(s)
    ensures Frames(s) == [] && Rest(s) == s
  {
  }

  /** The frames of a stream do not depend on where it is cut. */
  lemma {:induction false} FramesAppend(s: seq<byte>, t: seq<byte>)
    ensures Frames(s + t) == Frames(s) + Frames(Rest(s) + t)
    ensures Rest(s + t) == Rest(Rest(s) + t)
    decreases |s|
  {
    hide Frames, Rest, HasFrame, Encode;
    if HasFrame(s) {
      var payload, tail := Decompose(s);
      FramesAppend(tail, t);
      FirstFrame(payload, tail);
      FirstFrame(payload, tail + t);
      assert s + t == Encode(payload) + (tail + t);
      var a, b := Frames(tail), Frames(Rest(tail) + t);
      assert ([payload] + a) + b == [payload] + (a + b);
    } else {
      NoFrame(s);
      assert [] + Frames(s + t) == Frames(s + t);
    }
  }

  /** Consumed frames and remainder are the bytes received. */
  lemma {:induction false} FramesConserve(s: seq<byte>)
    ensures forall i :: 0 <= i < |Frames(s)| ==> |Frames(s)[i]| < LIMIT
    ensures EncodeAll(Frames(s)) + Rest(s) == s
    ensures !HasFrame(Rest(s))
    decreases |s|
  {
    hide Frames, Rest, HasFrame, Encode;
    if HasFrame(s) {
      var payload, tail := Decompose(s);
      FramesConserve(tail);
      FirstFrame(payload, tail);
      assert ([payload] + Frames(tail))[1..] == Frames(tail);
      var x, y, z := Encode(payload), EncodeAll(Frames(tail)), Rest(tail);
      assert (x + y) + z == x + (y + z);
    } else {
      NoFrame(s);
      assert [] + s == s;
    }
  }

  /** Reading undoes writing. */
  lemma {:induction false} FramesOfEncode(payloads: seq<seq<byte>>, rest: seq<byte>)
    requires !HasFrame(rest) && forall i :: 0 <= i < |payloads| ==> |payloads[i]| < LIMIT
    ensures Frames(EncodeAll(payloads) + rest) == payloads && Rest(EncodeAll(payloads) + rest) == rest
  {
    hide Frames, Rest, HasFrame, Encode;
    if payloads == [] {
      NoFrame(rest);
      assert [] + rest == rest;
    } else {
      FramesOfEncode(payloads[1..], rest);
      FirstFrame(payloads[0], EncodeAll(payloads[1..]) + rest);
      var x, y := Encode(payloads[0]), EncodeAll(payloads[1..]);
      assert (x + y) + rest == x + (y + rest);
    }
  }

  // ----- the code -----

  /** The messages of the frames that parse; the others are skipped. */
  function Parsed<M>(frames: seq<seq<byte>>, parse: seq<byte> -> Option<M>): seq<M> {
    if frames == [] then []
    else if parse(frames[0]).Some? then [parse(frames[0]).value] + Parsed(frames[1..], parse)
    else Parsed(frames[1..], parse)
  }

  method ReadNativeMessage<M>(buffer: seq<byte>, parse: seq<byte> -> Option<M>)
    returns (messages: seq<M>, remainder: seq<byte>)
    ensures messages == Parsed(Frames(buffer), parse) && remainder == Rest(buffer)
  {
    hide Frames, Rest, Parsed, ReadUInt32LE;
    messages := [];
    var offset := 0;
    assert buffer[0..] == buffer && [] + Parsed(Frames(buffer), parse) == Parsed(Frames(buffer), parse);
    while offset + 4 <= |buffer|
      invariant offset <= |buffer|
      invariant messages + Parsed(Frames(buffer[offset..]), parse) == Parsed(Frames(buffer), parse)
      invariant Rest(buffer[offset..]) == Rest(buffer)
    {
      var len := ReadUInt32LE(buffer[offset..]);
      if offset + 4 + len > |buffer| {
        break;
      }
      var json := buffer[offset + 4..offset + 4 + len];
      var next := buffer[offset + 4 + len..];
      FrameAt(buffer, offset);
      ParsedFirst(json, Frames(next), parse);
      if parse(json).Some? {
        assert (messages + [parse(json).value]) + Parsed(Frames(next), parse)
            == messages + ([parse(json).value] + Parsed(Frames(next), parse));
        messages := messages + [parse(json).value];
      }
      offset := offset + 4 + len;
    }
    remainder := buffer[offset..];
    NoFrame(remainder);
    assert Parsed([], parse) == [] by {
      ParsedNone(parse);
    }
  }

  lemma FrameAt(buffer: seq<byte>, offset: nat)
    requires offset <= |buffer| && HasFrame(buffer[offset..])
    ensures var len := ReadUInt32LE(buffer[offset..]);
            && offset + 4 + len <= |buffer|
            && Frames(buffer[offset..]) == [buffer[offset + 4..offset + 4 + len]] + Frames(buffer[offset + 4 + len..])
            && Rest(buffer[offset..]) == Rest(buffer[offset + 4 + len..])
  {
    hide ReadUInt32LE;
    var s, len := buffer[offset..], ReadUInt32LE(buffer[offset..]);
    assert s[4..4 + len] == buffer[offset + 4..offset + 4 + len] && s[4 + len..] == buffer[offset + 4 + len..];
  }

  lemma ParsedNone<M>(parse: seq<byte> -> Option<M>)
    ensures Parsed([], parse) == []
  {
  }

  lemma ParsedFirst<M>(frame: seq<byte>, rest: seq<seq<byte>>, parse: seq<byte> -> Option<M>)
    ensures Parsed([frame] + rest, parse)
         == if parse(frame).Some? then [parse(frame).value] + Parsed(rest, parse) else Parsed(rest, parse)
  {
    assert ([frame] + rest)[1..] == rest;
  }

  /** A length beyond 32 bits does not fit the header and is refused. */
  method WriteNativeMessage(payload: seq<byte>) returns (frame: Option<seq<byte>>)
    ensures frame.Some? <==> |payload| < LIMIT
    ensures frame.Some? ==> forall tail :: Frames(frame.value + tail) == [payload] + Frames(tail)
  {
    if |payload| >= LIMIT {
      return None;
    }
    frame := Some(Header(|payload|) + payload);
    forall tail ensures Frames(frame.value + tail) == [payload] + Frames(tail) {
      FirstFrame(payload, tail);
    }
  }

  /** The stdin loop: what was delivered and what is kept are the frames and the remainder of all that came. */
  class StdinReader<M> {
    const parse: seq<byte> -> Option<M>
    var stdinBuffer: seq<byte>
    ghost var received: seq<byte>
    ghost var delivered: seq<M>

    ghost predicate Valid()
      reads this
    {
      delivered == Parsed(Frames(received), parse) && stdinBuffer == Rest(received)
    }

    constructor (parse: seq<byte> -> Option<M>)
      ensures Valid() && received == [] && delivered == []
    {
      this.parse := parse;
      stdinBuffer, received, delivered := [], [], [];
    }

    method OnData(chunk: seq<byte>) returns (messages: seq<M>)
      requires Valid()
      modifies this
      ensures Valid() && received == old(received) + chunk && delivered == old(delivered) + messages
    {
      FramesAppend(received, chunk);
      ParsedAppend(Frames(received), Frames(stdinBuffer + chunk), parse);
      received := received + chunk;
      stdinBuffer := stdinBuffer + chunk;
      var remainder;
      messages, remainder := ReadNativeMessage(stdinBuffer, parse);
      stdinBuffer := remainder;
      delivered := delivered + messages;
    }
  }

  lemma {:induction false} ParsedAppend<M>(a: seq<seq<byte>>, b: seq<seq<byte>>, parse: seq<byte> -> Option<M>)
    ensures Parsed(a + b, parse) == Parsed(a, parse) + Parsed(b, parse)
  {
    if a == [] {
      assert a + b == b;
    } else {
      ParsedAppend(a[1..], b, parse);
      assert (a + b)[0] == a[0] && (a + b)[1..] == a[1..] + b;
      if parse(a[0]).Some? {
        var h, x, y := [parse(a[0]).value], Parsed(a[1..], parse), Parsed(b, parse);
        assert (h + x) + y == h + (x + y);
      }
    }
  }
}
