/**
 * Message framing on byte streams that arrive in arbitrary chunks: newline-delimited lines
 * (`tool-runtime.js`, `native-host.js`, `proxy.ts`) and frames with a 4-byte little-endian
 * length (`native-host.js`).
 */
module Framing {

  function Concat<T>(chunks: seq<seq<T>>): seq<T> {
    if chunks == [] then [] else Concat(chunks[..|chunks| - 1]) + chunks[|chunks| - 1]
  }

  lemma {:induction false} ConcatAppend<T>(a: seq<seq<T>>, b: seq<seq<T>>)
    ensures Concat(a + b) == Concat(a) + Concat(b)
  {
    if b == [] {
      assert a + b == a;
    } else {
      var n := |b| - 1;
      ConcatAppend(a, b[..n]);
      assert (a + b)[..|a| + n] == a + b[..n] && (a + b)[|a| + n] == b[n];
      var x, y, z := Concat(a), Concat(b[..n]), b[n];
      assert (x + y) + z == x + (y + z);
    }
  }

  // ----- lines -----

  /** The first position of the separator, or the length when there is none. */
  function Find<T(==)>(s: seq<T>, sep: T): (i: nat)
    ensures i <= |s|
    ensures i < |s| ==> s[i] == sep
    ensures forall k :: 0 <= k < i ==> s[k] != sep
  {
    if s == [] || s[0] == sep then 0 else 1 + Find(s[1..], sep)
  }

  /** The complete lines of a stream. */
  function Lines<T(==)>(s: seq<T>, sep: T): seq<seq<T>>
    decreases |s|
  {
    var i := Find(s, sep);
    if i == |s| then [] else [s[..i]] + Lines(s[i + 1..], sep)
  }

  /** What follows the last complete line. */
  function Rest<T(==)>(s: seq<T>, sep: T): seq<T>
    decreases |s|
  {
    var i := Find(s, sep);
    if i == |s| then s else Rest(s[i + 1..], sep)
  }

  /** Lines put back on the wire. */
  function Join<T>(lines: seq<seq<T>>, sep: T): seq<T> {
    if lines == [] then [] else lines[0] + [sep] + Join(lines[1..], sep)
  }

  lemma {:induction false} FindIsFirst<T>(s: seq<T>, sep: T, i: nat)
    requires i <= |s| && (i < |s| ==> s[i] == sep) && forall k :: 0 <= k < i ==> s[k] != sep
    ensures Find(s, sep) == i
  {
    if i > 0 {
      assert s[0] != sep;
      FindIsFirst(s[1..], sep, i - 1);
    }
  }

  lemma FindPast<T>(line: seq<T>, rest: seq<T>, sep: T)
    requires sep !in line
    ensures Find(line + [sep] + rest, sep) == |line|
  {
    var s := line + [sep] + rest;
    assert s[|line|] == sep && forall k :: 0 <= k < |line| ==> s[k] == line[k] && s[k] in line;
    FindIsFirst(s, sep, |line|);
  }

  lemma FirstLine<T>(head: seq<T>, tail: seq<T>, sep: T)
    requires sep !in head
    ensures Lines(head + [sep] + tail, sep) == [head] + Lines(tail, sep)
    ensures Rest(head + [sep] + tail, sep) == Rest(tail, sep)
  {
    var s := head + [sep] + tail;
    FindPast(head, tail, sep);
    assert s[..|head|] == head && s[|head| + 1..] == tail;
  }

  lemma NoLines<T>(s: seq<T>, sep: T)
    requires Find(s, sep) == |s|
    ensures Lines(s, sep) == [] && Rest(s, sep) == s && sep !in s
  {
  }

  /** A stream with a separator is its first line, the separator, and the rest of the stream. */
  lemma Decompose<T>(s: seq<T>, sep: T) returns (head: seq<T>, tail: seq<T>)
    requires Find(s, sep) < |s|
    ensures s == head + [sep] + tail && sep !in head && |tail| < |s|
  {
    var i := Find(s, sep);
    head, tail := s[..i], s[i + 1..];
  }

  /** Nothing is lost or invented: the lines and the remainder are the stream. */
  lemma {:induction false} LinesConserve<T>(s: seq<T>, sep: T)
    ensures Join(Lines(s, sep), sep) + Rest(s, sep) == s
    ensures sep !in Rest(s, sep)
    ensures forall k :: 0 <= k < |Lines(s, sep)| ==> sep !in Lines(s, sep)[k]
    decreases |s|
  {
    hide Lines, Rest, Find;
    if Find(s, sep) == |s| {
      NoLines(s, sep);
      assert [] + s == s;
    } else {
      var head, tail := Decompose(s, sep);
      LinesConserve(tail, sep);
      FirstLine(head, tail, sep);
      JoinFirst(head, Lines(tail, sep), Rest(tail, sep), sep);
    }
  }

  lemma JoinFirst<T>(head: seq<T>, lines: seq<seq<T>>, rest: seq<T>, sep: T)
    ensures Join([head] + lines, sep) + rest == head + [sep] + (Join(lines, sep) + rest)
  {
    assert ([head] + lines)[1..] == lines;
    var x, y := head + [sep], Join(lines, sep);
    assert (x + y) + rest == x + (y + rest);
  }

  /** Reading undoes writing. */
  lemma {:induction false} LinesOfJoin<T>(lines: seq<seq<T>>, rest: seq<T>, sep: T)
    requires sep !in rest && forall k :: 0 <= k < |lines| ==> sep !in lines[k]
    ensures Lines(Join(lines, sep) + rest, sep) == lines
    ensures Rest(Join(lines, sep) + rest, sep) == rest
  {
    if lines == [] {
      assert Join(lines, sep) + rest == rest;
      assert forall k :: 0 <= k < |rest| ==> rest[k] in rest;
      FindIsFirst(rest, sep, |rest|);
    } else {
      var more := Join(lines[1..], sep) + rest;
      var s := Join(lines, sep) + rest;
      assert s == lines[0] + [sep] + more;
      FindPast(lines[0], more, sep);
      LinesOfJoin(lines[1..], rest, sep);
      assert s[..|lines[0]|] == lines[0] && s[|lines[0]| + 1..] == more;
    }
  }

  /** The lines of a stream do not depend on where it is cut. */
  lemma {:induction false} LinesAppend<T>(s: seq<T>, t: seq<T>, sep: T)
    ensures Lines(s + t, sep) == Lines(s, sep) + Lines(Rest(s, sep) + t, sep)
    ensures Rest(s + t, sep) == Rest(Rest(s, sep) + t, sep)
    decreases |s|
  {
    hide Lines, Rest, Find;
    if Find(s, sep) == |s| {
      NoLines(s, sep);
      assert [] + Lines(s + t, sep) == Lines(s + t, sep);
    } else {
      var head, tail := Decompose(s, sep);
      LinesAppend(tail, t, sep);
      FirstLine(head, tail, sep);
      FirstLine(head, tail + t, sep);
      assert s + t == head + [sep] + (tail + t);
      var a, b := Lines(tail, sep), Lines(Rest(tail, sep) + t, sep);
      assert ([head] + a) + b == [head] + (a + b);
    }
  }

  lemma NextLine<T>(s: seq<T>, sep: T)
    requires Find(s, sep) < |s|
    ensures var i := Find(s, sep);
            Lines(s, sep) == [s[..i]] + Lines(s[i + 1..], sep) && Rest(s, sep) == Rest(s[i + 1..], sep)
  {
    var head, tail := Decompose(s, sep);
    FindPast(head, tail, sep);
    FirstLine(head, tail, sep);
    hide Lines, Rest, Find;
    assert s[..|head|] == head && s[|head| + 1..] == tail;
  }

  /** A reader that keeps the unfinished line between chunks. */
  class LineReader<T(==)> {
    const sep: T
    var buffer: seq<T>
    ghost var received: seq<T>
    ghost var delivered: seq<seq<T>>

    /** What was delivered and what is kept are the lines and the remainder of all that was received. */
    ghost predicate Valid()
      reads this
    {
      delivered == Lines(received, sep) && buffer == Rest(received, sep)
    }

    constructor (sep: T)
      ensures Valid() && this.sep == sep && received == [] && delivered == []
    {
      this.sep := sep;
      buffer, received, delivered := [], [], [];
    }

    /** One `data` event: the complete lines are handed over and the rest is kept. */
    method OnData(chunk: seq<T>) returns (lines: seq<seq<T>>)
      requires Valid()
      modifies this
      ensures Valid() && received == old(received) + chunk && delivered == old(delivered) + lines
    {
      received := received + chunk;
      LinesAppend(old(received), chunk, sep);
      hide Lines, Rest, Find;
      buffer := buffer + chunk;
      lines := [];
      ghost var all := buffer;
      var idx := IndexOf(buffer, sep);
      while idx < |buffer|
        invariant idx == Find(buffer, sep)
        invariant Lines(all, sep) == lines + Lines(buffer, sep) && Rest(all, sep) == Rest(buffer, sep)
        invariant received == old(received) + chunk && delivered == old(delivered)
        decreases |buffer|
      {
        NextLine(buffer, sep);
        assert lines + ([buffer[..idx]] + Lines(buffer[idx + 1..], sep)) == lines + [buffer[..idx]] + Lines(buffer[idx + 1..], sep);
        lines := lines + [buffer[..idx]];
        buffer := buffer[idx + 1..];
        idx := IndexOf(buffer, sep);
      }
      NoLines(buffer, sep);
      assert lines + [] == lines;
      delivered := delivered + lines;
    }
  }

  method IndexOf<T(==)>(s: seq<T>, sep: T) returns (i: nat)
    ensures i == Find(s, sep)
  {
    i := 0;
    while i < |s| && s[i] != sep
      invariant i <= |s| && forall k :: 0 <= k < i ==> s[k] != sep
    {
      i := i + 1;
    }
    FindIsFirst(s, sep, i);
  }
}
