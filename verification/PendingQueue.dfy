/** The steering and follow-up queues of the agent (class `PendingMessageQueue`). */
module PendingQueue {
  import opened Messages

  datatype QueueMode = All | OneAtATime

  /** What has become of a batch that was once enqueued. */
  datatype Fate = Queued | Drained | Removed

  /** One line of the ledger: a batch and its fate. */
  datatype Entry = Entry(batch: Batch, fate: Fate)

  /** Every batch ever enqueued, oldest first. */
  type Ledger = seq<Entry>

  /** The batches with a given fate, in the order in which they were enqueued. */
  function Having(log: Ledger, f: Fate): seq<Batch> {
    if log == [] then []
    else if log[0].fate == f then [log[0].batch] + Having(log[1..], f)
    else Having(log[1..], f)
  }

  function Batches(log: Ledger): seq<Batch> {
    seq(|log|, i requires 0 <= i < |log| => log[i].batch)
  }

  /** No batch was drained while an older one stayed queued. */
  ghost predicate Fifo(log: Ledger) {
    forall i, j :: 0 <= i < j < |log| && log[j].fate == Drained ==> log[i].fate != Queued
  }

  lemma {:induction false} HavingAppend(a: Ledger, b: Ledger, f: Fate)
    ensures Having(a + b, f) == Having(a, f) + Having(b, f)
  {
    if a == [] {
      assert a + b == b;
    } else {
      HavingAppend(a[1..], b, f);
      assert (a + b)[1..] == a[1..] + b && (a + b)[0] == a[0];
    }
  }

  lemma {:induction false} HavingNone(log: Ledger, f: Fate)
    ensures Having(log, f) == [] <==> forall i :: 0 <= i < |log| ==> log[i].fate != f
  {
    if log != [] {
      HavingNone(log[1..], f);
      assert forall i :: 0 < i < |log| ==> log[i] == log[1..][i - 1];
    }
  }

  /** Nothing is lost or duplicated: drained, removed and queued batches together are the enqueued ones. */
  lemma {:induction false} Conservation(log: Ledger)
    ensures multiset(Batches(log))
         == multiset(Having(log, Drained)) + multiset(Having(log, Removed)) + multiset(Having(log, Queued))
  {
    if log != [] {
      Conservation(log[1..]);
      assert Batches(log) == [log[0].batch] + Batches(log[1..]);
      var d, r, q := Having(log[1..], Drained), Having(log[1..], Removed), Having(log[1..], Queued);
      match log[0].fate
      case Drained => assert Having(log, Drained) == [log[0].batch] + d;
      case Removed => assert Having(log, Removed) == [log[0].batch] + r;
      case Queued => assert Having(log, Queued) == [log[0].batch] + q;
    }
  }

  /** What was never removed leaves in arrival order: the drained batches, then the queued ones. */
  lemma {:induction false} FifoOrder(log: Ledger)
    requires Fifo(log)
    ensures Having(log, Drained) + Having(log, Queued) == Kept(log)
  {
    if log != [] {
      FifoOrder(log[1..]);
      if log[0].fate == Queued {
        HavingNone(log[1..], Drained);
      }
    }
  }

  function Kept(log: Ledger): seq<Batch> {
    if log == [] then []
    else if log[0].fate != Removed then [log[0].batch] + Kept(log[1..])
    else Kept(log[1..])
  }

  // ----- the three operations on the ledger -----

  /** Drain the oldest queued batch. */
  function DrainFirst(log: Ledger): (r: Ledger)
    ensures |r| == |log|
  {
    if log == [] then []
    else if log[0].fate == Queued then [log[0].(fate := Drained)] + log[1..]
    else [log[0]] + DrainFirst(log[1..])
  }

  function DrainAll(log: Ledger): (r: Ledger)
    ensures |r| == |log|
  {
    seq(|log|, i requires 0 <= i < |log| => if log[i].fate == Queued then log[i].(fate := Drained) else log[i])
  }

  predicate Holds(batch: Batch, p: Message -> bool) {
    exists i :: 0 <= i < |batch| && p(batch[i])
  }

  /** Take out every queued batch that holds a matching message. */
  function RemoveMatching(log: Ledger, p: Message -> bool): (r: Ledger)
    ensures |r| == |log|
  {
    seq(|log|, i requires 0 <= i < |log| =>
      if log[i].fate == Queued && Holds(log[i].batch, p) then log[i].(fate := Removed) else log[i])
  }

  /** The batches that hold a matching message, or those that do not. */
  function Matching(batches: seq<Batch>, p: Message -> bool, want: bool): seq<Batch> {
    if batches == [] then []
    else if Holds(batches[0], p) == want then [batches[0]] + Matching(batches[1..], p, want)
    else Matching(batches[1..], p, want)
  }

  /** A batch is taken out when some message of it matches, and stays when none does. */
  lemma {:induction false} MatchingParts(batches: seq<Batch>, p: Message -> bool)
    ensures forall b :: b in Matching(batches, p, true) ==> exists k :: 0 <= k < |b| && p(b[k])
    ensures forall b :: b in Matching(batches, p, false) ==> forall k :: 0 <= k < |b| ==> !p(b[k])
    ensures multiset(Matching(batches, p, true)) + multiset(Matching(batches, p, false)) == multiset(batches)
  {
    if |batches| > 0 {
      var rest := batches[1..];
      MatchingParts(rest, p);
      assert batches == [batches[0]] + rest;
      if Holds(batches[0], p) {
        assert Matching(batches, p, true) == [batches[0]] + Matching(rest, p, true);
      } else {
        assert Matching(batches, p, false) == [batches[0]] + Matching(rest, p, false);
      }
    }
  }

  lemma {:induction false} DrainFirstSelects(log: Ledger)
    requires Fifo(log) && |Having(log, Queued)| > 0
    ensures Having(DrainFirst(log), Queued) == Having(log, Queued)[1..]
    ensures Having(DrainFirst(log), Drained) == Having(log, Drained) + [Having(log, Queued)[0]]
    ensures Having(DrainFirst(log), Removed) == Having(log, Removed)
  {
    if log[0].fate == Queued {
      HavingNone(log, Drained);
      HavingNone(log[1..], Drained);
    } else {
      DrainFirstSelects(log[1..]);
      assert DrainFirst(log)[1..] == DrainFirst(log[1..]);
    }
  }

  lemma {:induction false} DrainFirstKeepsFifo(log: Ledger)
    requires Fifo(log)
    ensures Fifo(DrainFirst(log))
  {
    if |log| > 0 && log[0].fate != Queued {
      DrainFirstKeepsFifo(log[1..]);
      var rest := DrainFirst(log[1..]);
      assert forall j :: 0 < j < |log| ==> DrainFirst(log)[j] == rest[j - 1];
    }
  }

  lemma {:induction false} DrainAllSelects(log: Ledger)
    requires Fifo(log)
    ensures Fifo(DrainAll(log))
    ensures Having(DrainAll(log), Queued) == []
    ensures Having(DrainAll(log), Drained) == Having(log, Drained) + Having(log, Queued)
    ensures Having(DrainAll(log), Removed) == Having(log, Removed)
  {
    if log != [] {
      DrainAllSelects(log[1..]);
      assert DrainAll(log)[1..] == DrainAll(log[1..]);
      if log[0].fate == Queued {
        HavingNone(log[1..], Drained);
      }
    }
  }

  /** Removing keeps the other batches in order and accounts for each batch it takes out. */
  lemma RemoveSelects(log: Ledger, p: Message -> bool)
    ensures Fifo(log) ==> Fifo(RemoveMatching(log, p))
    ensures Having(RemoveMatching(log, p), Queued) == Matching(Having(log, Queued), p, false)
    ensures Having(RemoveMatching(log, p), Drained) == Having(log, Drained)
    ensures multiset(Having(RemoveMatching(log, p), Removed))
         == multiset(Having(log, Removed)) + multiset(Matching(Having(log, Queued), p, true))
  {
    RemoveKeepsOthers(log, p);
    RemoveCounts(log, p);
  }

  lemma {:induction false} RemoveKeepsOthers(log: Ledger, p: Message -> bool)
    ensures Having(RemoveMatching(log, p), Queued) == Matching(Having(log, Queued), p, false)
    ensures Having(RemoveMatching(log, p), Drained) == Having(log, Drained)
  {
    if log != [] {
      RemoveKeepsOthers(log[1..], p);
      assert RemoveMatching(log, p)[1..] == RemoveMatching(log[1..], p);
    }
  }

  lemma {:induction false} RemoveCounts(log: Ledger, p: Message -> bool)
    ensures multiset(Having(RemoveMatching(log, p), Removed))
         == multiset(Having(log, Removed)) + multiset(Matching(Having(log, Queued), p, true))
  {
    if log != [] {
      var rest, e := log[1..], log[0];
      RemoveCounts(rest, p);
      assert RemoveMatching(log, p)[1..] == RemoveMatching(rest, p);
      var gone := Having(RemoveMatching(rest, p), Removed);
      if e.fate == Queued && Holds(e.batch, p) {
        assert Having(RemoveMatching(log, p), Removed) == [e.batch] + gone;
        assert Matching(Having(log, Queued), p, true) == [e.batch] + Matching(Having(rest, Queued), p, true);
      } else if e.fate == Removed {
        assert Having(RemoveMatching(log, p), Removed) == [e.batch] + gone;
      }
    }
  }

  /** The batches that one drain takes. */
  function Taken(mode: QueueMode, batches: seq<Batch>): seq<Batch> {
    if mode == All || |batches| <= 1 then batches else batches[..1]
  }

  /**
   * What one drain does to the batches of a queue: in mode `all` everything is taken and nothing is left,
   * otherwise the oldest batch is taken when there is one, and the others are left.
   */
  predicate OneDrain(mode: QueueMode, before: seq<Batch>, taken: seq<Batch>, after: seq<Batch>) {
    if mode == All then taken == before && after == []
    else if |before| > 0 then taken == [before[0]] && after == before[1..]
    else taken == [] && after == []
  }

  lemma OneLeaves(mode: QueueMode, before: seq<Batch>, taken: seq<Batch>, after: seq<Batch>)
    requires OneDrain(mode, before, taken, after) && mode == OneAtATime
    ensures |taken| <= 1 && taken <= before
    ensures |before| == |taken| + |after| && (|before| > 0 ==> |taken| == 1)
  {
  }

  /** The queue itself. `log` remembers every batch and is read by no operation. */
  class PendingMessageQueue {
    var mode: QueueMode
    var batches: seq<Batch>
    ghost var log: Ledger

    ghost predicate Valid()
      reads this
    {
      && batches == Having(log, Queued)
      && Fifo(log)
      && forall i :: 0 <= i < |log| ==> log[i].batch != []
    }

    constructor (mode: QueueMode)
      ensures Valid() && this.mode == mode && log == []
    {
      this.mode := mode;
      batches := [];
      log := [];
    }

    method Enqueue(batch: Batch)
      requires Valid()
      modifies this`batches, this`log
      ensures Valid()
      ensures log == if batch == [] then old(log) else old(log) + [Entry(batch, Queued)]
      ensures batches == if batch == [] then old(batches) else old(batches) + [batch]
    {
      if |batch| > 0 {
        batches := batches + [batch];
        log := log + [Entry(batch, Queued)];
        HavingAppend(old(log), [Entry(batch, Queued)], Queued);
        assert Having([Entry(batch, Queued)], Queued) == [batch];
      }
    }

    function HasItems(): (r: bool)
      requires Valid()
      reads this
      ensures r <==> exists i :: 0 <= i < |log| && log[i].fate == Queued
    {
      HavingNone(log, Queued);
      |batches| > 0
    }

    /** `taken` are the whole batches that leave; the caller gets their messages in one list. */
    method Drain() returns (messages: seq<Message>, ghost taken: seq<Batch>)
      requires Valid()
      modifies this`batches, this`log
      ensures Valid() && Batches(log) == Batches(old(log))
      ensures messages == Flatten(taken)
      ensures taken == Taken(mode, old(batches)) && taken + batches == old(batches)
      ensures OneDrain(mode, old(batches), taken, batches)
      ensures Having(log, Drained) == Having(old(log), Drained) + taken
      ensures Having(log, Removed) == Having(old(log), Removed)
      ensures forall i :: 0 <= i < |taken| ==> taken[i] != []
    {
      QueuedNonEmpty(log);
      if mode == All {
        messages := FlatList(batches);
        taken := batches;
        batches := [];
        DrainAllSelects(log);
        log := DrainAll(log);
        return;
      }
      if |batches| == 0 {
        return [], [];
      }
      messages, taken := batches[0], [batches[0]];
      assert Flatten(taken) == messages + Flatten([]);
      batches := batches[1..];
      DrainFirstSelects(log);
      DrainFirstKeepsFifo(log);
      DrainFirstKeepsBatches(log);
      log := DrainFirst(log);
      assert forall i :: 0 <= i < |log| ==> log[i].batch == Batches(log)[i];
    }

    method Clear()
      requires Valid()
      modifies this`batches, this`log
      ensures Valid() && Batches(log) == Batches(old(log)) && batches == []
      ensures Having(log, Drained) == Having(old(log), Drained)
      ensures multiset(Having(log, Removed)) == multiset(Having(old(log), Removed)) + multiset(old(batches))
    {
      batches := [];
      QueuedNonEmpty(log);
      AllHold(Having(log, Queued));
      RemoveSelects(log, m => true);
      log := RemoveMatching(log, m => true);
    }

    /** A batch with one matching message is taken out whole. */
    method RemoveWhere(p: Message -> bool) returns (removed: seq<Message>)
      requires Valid()
      modifies this`batches, this`log
      ensures Valid() && Batches(log) == Batches(old(log))
      ensures removed == Flatten(Matching(old(batches), p, true))
      ensures batches == Matching(old(batches), p, false)
      ensures Having(log, Drained) == Having(old(log), Drained)
      ensures multiset(Having(log, Removed))
           == multiset(Having(old(log), Removed)) + multiset(Matching(old(batches), p, true))
    {
      removed := [];
      var retained: seq<Batch> := [];
      for i := 0 to |batches|
        invariant removed + Flatten(Matching(batches[i..], p, true)) == Flatten(Matching(batches, p, true))
        invariant retained + Matching(batches[i..], p, false) == Matching(batches, p, false)
      {
        var batch := batches[i];
        assert batches[i..][1..] == batches[i + 1..];
        if exists k :: 0 <= k < |batch| && p(batch[k]) {
          removed := removed + batch;
        } else {
          retained := retained + [batch];
        }
      }
      batches := retained;
      RemoveSelects(log, p);
      log := RemoveMatching(log, p);
    }
  }

  method FlatList(batches: seq<Batch>) returns (messages: seq<Message>)
    ensures messages == Flatten(batches)
  {
    messages := [];
    for i := 0 to |batches|
      invariant messages + Flatten(batches[i..]) == Flatten(batches)
    {
      messages := messages + batches[i];
      assert batches[i..][1..] == batches[i + 1..];
    }
  }

  lemma {:induction false} DrainFirstKeepsBatches(log: Ledger)
    ensures Batches(DrainFirst(log)) == Batches(log)
  {
    if log != [] && log[0].fate != Queued {
      DrainFirstKeepsBatches(log[1..]);
      assert forall i :: 0 < i < |log| ==> log[i].batch == Batches(log[1..])[i - 1];
      assert forall i :: 0 < i < |log| ==> DrainFirst(log)[i].batch == Batches(DrainFirst(log[1..]))[i - 1];
    }
  }

  /** The queued batches of a ledger are non-empty, since an empty batch is never enqueued. */
  lemma {:induction false} QueuedNonEmpty(log: Ledger)
    requires forall i :: 0 <= i < |log| ==> log[i].batch != []
    ensures forall i :: 0 <= i < |Having(log, Queued)| ==> Having(log, Queued)[i] != []
  {
    if log != [] {
      QueuedNonEmpty(log[1..]);
    }
  }

  lemma {:induction false} AllHold(batches: seq<Batch>)
    requires forall i :: 0 <= i < |batches| ==> batches[i] != []
    ensures Matching(batches, m => true, true) == batches && Matching(batches, m => true, false) == []
  {
    if batches != [] {
      AllHold(batches[1..]);
      assert Holds(batches[0], m => true) by {
        assert 0 <= 0 < |batches[0]|;
        var p: Message -> bool := m => true;
        assert p(batches[0][0]);
      }
    }
  }
}
