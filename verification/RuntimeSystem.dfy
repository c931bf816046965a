/**
 * Several runtime processes, the connections between them and the native host, as one
 * transition system. Lines on a connection may be delayed, reordered or lost; a request may be
 * answered at any time, more than once, or never, and to any process that has a native host.
 */
module RuntimeSystem {
  import opened Messages
  import opened Numerals
  import opened Runtime

  /** A `tool_request` line that a process wrote to a native host. */
  datatype HostWrite = HostWrite(process: nat, request: Request)

  datatype Upward = Upward(link: Link, request: Request)

  datatype Downward = Downward(link: Link, response: Response)

  datatype System = System(
    processes: map<nat, Process>,
    owner: map<Link, nat>,         // the client process at the other end of a connection
    up: seq<Upward>,               // written by clients and not yet received
    down: seq<Downward>,           // written by primaries and not yet received
    hostLog: seq<HostWrite>)       // everything ever written to a native host

  datatype Action =
    | Start(process: nat, mode: Mode)
    | Local(process: nat, input: Input)
    | Join(client: nat, primary: nat)  // connection and client_hello, in one step
    | Forward(k: nat)                  // up[k] reaches its primary
    | Reply(k: nat, at: nat)           // the answer to hostLog[k] comes back through the host of process `at`
    | Return(k: nat)                   // down[k] reaches its client
    | LoseUp(k: nat)
    | LoseDown(k: nat)

  const Empty := System(map[], map[], [], [], [])

  /** Inputs that come from no other process. */
  predicate IsLocal(i: Input) {
    !i.FromHost? && !i.ClientArrives? && !i.FromClient? && !i.PrimaryArrives? && !i.FromPrimary?
  }

  function Without<T>(s: seq<T>, k: nat): (r: seq<T>)
    requires k < |s|
    ensures |r| == |s| - 1 && forall i :: 0 <= i < |r| ==> r[i] == s[if i < k then i else i + 1]
  {
    s[..k] + s[k + 1..]
  }

  /** Put a process's new state and its write in their places. */
  function Apply(s: System, p: nat, d: Did): System {
    var t := s.(processes := s.processes[p := d.process]);
    match d.written
    case None => t
    case Some(ToHost(r)) => t.(hostLog := t.hostLog + [HostWrite(p, r)])
    case Some(ToPrimary(link, r)) => t.(up := t.up + [Upward(link, r)])
    case Some(ToClient(c, r)) => t.(down := t.down + [Downward(Link(p, c), r)])
  }

  function Do(s: System, p: nat, i: Input): System
    requires p in s.processes
  {
    Apply(s, p, Handle(s.processes[p], i))
  }

  function Next(s: System, a: Action): System {
    match a
    case Start(p, mode) =>
      if p in s.processes then s else s.(processes := s.processes[p := Fresh(p, mode)])
    case Local(p, i) => if p in s.processes && IsLocal(i) then Do(s, p, i) else s
    case Join(c, p) =>
      if CanJoin(s, c, p) then
        var link := Link(p, s.processes[p].clientCounter + 1);
        var t := Do(Do(s, p, ClientArrives), c, PrimaryArrives(link));
        t.(owner := t.owner[link := c])
      else s
    case Forward(k) =>
      if k < |s.up| then
        var m, t := s.up[k], s.(up := Without(s.up, k));
        if m.link.primary in t.processes then Do(t, m.link.primary, FromClient(m.link.client, m.request)) else t
      else s
    case Reply(k, at) => if Answers(s, k, at) then Do(s, at, FromHost(AnswerTo(s.hostLog[k]))) else s
    case Return(k) =>
      if k < |s.down| then
        var m, t := s.down[k], s.(down := Without(s.down, k));
        if m.link in t.owner && t.owner[m.link] in t.processes && t.processes[t.owner[m.link]].primary == Some(m.link) then
          Do(t, t.owner[m.link], FromPrimary(m.response))
        else t
      else s
    case LoseUp(k) => if k < |s.up| then s.(up := Without(s.up, k)) else s
    case LoseDown(k) => if k < |s.down| then s.(down := Without(s.down, k)) else s
  }

  predicate Answers(s: System, k: nat, at: nat) {
    k < |s.hostLog| && at in s.processes && HostUp(s.processes[at])
  }

  function AnswerTo(w: HostWrite): Response {
    Response(w.request.id, w.request.call)
  }

  predicate CanJoin(s: System, c: nat, p: nat) {
    && c in s.processes && p in s.processes && c != p
    && s.processes[c].mode == Client && s.processes[c].primary == None && s.processes[p].mode == Primary
  }

  function Reach(actions: seq<Action>): System {
    if actions == [] then Empty else Next(Reach(actions[..|actions| - 1]), actions[|actions| - 1])
  }

  // ----- at most one write per call -----

  /** A process's own requests carry its own calls under their decimal ids. */
  ghost predicate OwnCalls(n: nat, p: Process) {
    forall id :: id in p.pending ==>
      var call := p.pending[id].call;
      call.process == n && 1 <= call.number <= p.counter && id == Decimal(call.number)
  }

  ghost predicate InOrder(n: nat, p: Process) {
    p.self == n && Accounted(p) && OwnCalls(n, p)
  }

  /** A call that some process has written to a socket: it is not waiting to be written. */
  ghost predicate Gone(s: System, call: CallId) {
    && call.process in s.processes
    && 1 <= call.number <= s.processes[call.process].counter
    && Decimal(call.number) !in s.processes[call.process].waits
  }

  ghost predicate Once(s: System) {
    && (forall p :: p in s.processes ==> InOrder(p, s.processes[p]))
    && (forall i :: 0 <= i < |s.up| ==> Gone(s, s.up[i].request.call))
    && (forall i :: 0 <= i < |s.hostLog| ==> Gone(s, s.hostLog[i].request.call))
    && (forall i, j :: 0 <= i < j < |s.up| ==> s.up[i].request.call != s.up[j].request.call)
    && (forall i, j :: 0 <= i < j < |s.hostLog| ==> s.hostLog[i].request.call != s.hostLog[j].request.call)
    && (forall i, j :: 0 <= i < |s.up| && 0 <= j < |s.hostLog| ==> s.up[i].request.call != s.hostLog[j].request.call)
  }

  ghost predicate Shrinks<K, V>(small: map<K, V>, large: map<K, V>) {
    forall k :: k in small ==> k in large && small[k] == large[k]
  }

  lemma SendInOrder(n: nat, p: Process)
    requires InOrder(n, p)
    ensures InOrder(n, Send(p).process) && Send(p).process.counter == p.counter + 1
    ensures forall id :: id in Send(p).process.waits ==> id in p.waits || id == Decimal(p.counter + 1)
    ensures Send(p).written.Some? ==> Send(p).process.waits == p.waits
  {
    SendKeeps(p);
    SendChanges(p);
    hide Accounted, Decimal, Send;
  }

  lemma GraceInOrder(n: nat, p: Process, id: string, ok: bool)
    requires InOrder(n, p)
    ensures var q := WaitOver(p, id, ok).process; InOrder(n, q) && q.counter == p.counter && q.waits == p.waits - {id}
  {
    WaitOverKeeps(p, id, ok);
    GraceChanges(p, id, ok);
    hide WaitOver, Accounted, Decimal;
  }

  lemma GraceChanges(p: Process, id: string, ok: bool)
    ensures var q := WaitOver(p, id, ok).process;
            && q.self == p.self && q.counter == p.counter && q.waits == p.waits - {id}
            && forall k :: k in q.pending ==> k in p.pending && q.pending[k].call == p.pending[k].call
  {
  }

  lemma OtherChanges(p: Process, i: Input)
    requires !i.Calling? && !i.GraceOver?
    ensures var q := Handle(p, i).process;
            q.self == p.self && q.counter == p.counter && q.waits == p.waits && Shrinks(q.pending, p.pending)
  {
  }

  /** Every other input leaves the counter and the waits alone and adds nothing to the pending table. */
  lemma OtherInOrder(n: nat, p: Process, i: Input)
    requires InOrder(n, p) && !i.Calling? && !i.GraceOver?
    ensures var q := Handle(p, i).process; InOrder(n, q) && q.counter == p.counter && q.waits == p.waits
  {
    HandleKeeps(p, i);
    OtherChanges(p, i);
    hide Handle, Accounted, Decimal;
  }

  lemma HandleInOrder(n: nat, p: Process, i: Input)
    requires InOrder(n, p)
    ensures InOrder(n, Handle(p, i).process)
    ensures Handle(p, i).process.counter >= p.counter
    ensures forall k :: 1 <= k <= p.counter && Decimal(k) in Handle(p, i).process.waits ==> Decimal(k) in p.waits
  {
    match i
    case Calling =>
      SendInOrder(n, p);
      forall k | 1 <= k <= p.counter ensures Decimal(k) != Decimal(p.counter + 1) {
        if Decimal(k) == Decimal(p.counter + 1) {
          Injective(k, p.counter + 1);
        }
      }
    case GraceOver(id, ok) => GraceInOrder(n, p, id, ok);
    case _ => OtherInOrder(n, p, i);
  }

  ghost predicate Absent(s: System, call: CallId) {
    && (forall i :: 0 <= i < |s.up| ==> s.up[i].request.call != call)
    && (forall i :: 0 <= i < |s.hostLog| ==> s.hostLog[i].request.call != call)
  }

  function Moved(s: System, p: nat, q: Process): System {
    s.(processes := s.processes[p := q])
  }

  lemma GoneStays(s: System, p: nat, i: Input, call: CallId)
    requires p in s.processes && InOrder(p, s.processes[p]) && Gone(s, call)
    ensures Gone(Moved(s, p, Handle(s.processes[p], i).process), call)
  {
    HandleInOrder(p, s.processes[p], i);
  }

  /** A process writes only calls that were waiting or are new, and then they wait no longer. */
  lemma WritesOnlyWaiting(s: System, p: nat, i: Input)
    requires p in s.processes && InOrder(p, s.processes[p]) && !i.FromClient?
    ensures var d := Handle(s.processes[p], i);
            Carried(d.written).Some? ==>
              var call := Carried(d.written).value.call;
              !Gone(s, call) && Gone(Moved(s, p, d.process), call)
  {
    var q := s.processes[p];
    match i
    case Calling =>
      SendInOrder(p, q);
      if Carried(Send(q).written).Some? {
        NotYetIssued(q.counter, q.counter + 1);
      }
    case GraceOver(id, ok) =>
      GraceInOrder(p, q, id, ok);
      GraceWrites(q, id, ok);
    case _ => OtherWritesNothing(q, i);
  }

  lemma GraceWrites(p: Process, id: string, ok: bool)
    ensures var w := Carried(WaitOver(p, id, ok).written);
            w.Some? ==> id in p.waits && id in p.pending && w.value == Request(id, p.pending[id].call)
  {
  }

  lemma OtherWritesNothing(p: Process, i: Input)
    requires !i.Calling? && !i.GraceOver? && !i.FromClient?
    ensures Carried(Handle(p, i).written) == None
  {
  }

  lemma ApplyOnce(s: System, p: nat, d: Did)
    requires Once(s) && p in s.processes && InOrder(p, d.process)
    requires forall call :: Gone(s, call) ==> Gone(Moved(s, p, d.process), call)
    requires Carried(d.written).Some? ==>
               Absent(s, Carried(d.written).value.call) && Gone(Moved(s, p, d.process), Carried(d.written).value.call)
    ensures Once(Apply(s, p, d))
  {
    hide InOrder;
    var t := Apply(s, p, d);
    assert forall call :: Gone(Moved(s, p, d.process), call) <==> Gone(t, call);
  }

  lemma DoOnce(s: System, p: nat, i: Input)
    requires Once(s) && p in s.processes
    requires i.FromClient? ==> Absent(s, i.request.call) && Gone(s, i.request.call)
    ensures Once(Do(s, p, i))
  {
    hide Handle, InOrder, Carried;
    var q := s.processes[p];
    var d := Handle(q, i);
    HandleInOrder(p, q, i);
    forall call | Gone(s, call) ensures Gone(Moved(s, p, d.process), call) {
      GoneStays(s, p, i, call);
    }
    if i.FromClient? {
      ForwardCarries(q, i);
    } else {
      WritesOnlyWaiting(s, p, i);
      assert Carried(d.written).Some? ==> !Gone(s, Carried(d.written).value.call);
    }
    ApplyOnce(s, p, d);
  }

  lemma ForwardCarries(p: Process, i: Input)
    requires i.FromClient?
    ensures Carried(Handle(p, i).written).Some? ==> Carried(Handle(p, i).written).value.call == i.request.call
  {
  }

  lemma WithoutUp(s: System, k: nat)
    requires Once(s) && k < |s.up|
    ensures var t := s.(up := Without(s.up, k));
            Once(t) && Absent(t, s.up[k].request.call) && Gone(t, s.up[k].request.call)
  {
    var t := s.(up := Without(s.up, k));
    assert forall call :: Gone(s, call) <==> Gone(t, call);
    hide Gone, InOrder, Without;
    assert forall i :: 0 <= i < |t.up| ==> t.up[i] == s.up[if i < k then i else i + 1];
  }

  lemma StartOnce(s: System, p: nat, mode: Mode)
    requires Once(s) && p !in s.processes
    ensures Once(Moved(s, p, Fresh(p, mode)))
  {
    var t := Moved(s, p, Fresh(p, mode));
    assert InOrder(p, Fresh(p, mode));
    assert forall call :: Gone(s, call) ==> Gone(t, call);
    hide Gone, InOrder;
  }

  /** Changing what `Once` does not look at. */
  lemma OnceIgnores(s: System, owner: map<Link, nat>, down: seq<Downward>)
    requires Once(s)
    ensures Once(s.(owner := owner, down := down))
  {
    var t := s.(owner := owner, down := down);
    assert forall call :: Gone(s, call) <==> Gone(t, call);
    hide Gone, InOrder;
  }

  lemma NextOnce(s: System, a: Action)
    requires Once(s)
    ensures Once(Next(s, a))
  {
    hide Once, Gone, Handle;
    match a
    case Start(p, mode) =>
      if p !in s.processes {
        StartOnce(s, p, mode);
      }
    case Local(p, i) =>
      if p in s.processes && IsLocal(i) {
        DoOnce(s, p, i);
      }
    case Join(c, p) =>
      if CanJoin(s, c, p) {
        DoOnce(s, p, ClientArrives);
        var t := Do(s, p, ClientArrives);
        var link := Link(p, s.processes[p].clientCounter + 1);
        DoOnce(t, c, PrimaryArrives(link));
        var u := Do(t, c, PrimaryArrives(link));
        OnceIgnores(u, u.owner[link := c], u.down);
      }
    case Forward(k) =>
      if k < |s.up| {
        WithoutUp(s, k);
        var m, t := s.up[k], s.(up := Without(s.up, k));
        if m.link.primary in t.processes {
          DoOnce(t, m.link.primary, FromClient(m.link.client, m.request));
        }
      }
    case Reply(k, at) =>
      if Answers(s, k, at) {
        DoOnce(s, at, FromHost(AnswerTo(s.hostLog[k])));
      }
    case Return(k) =>
      if k < |s.down| {
        var m, t := s.down[k], s.(down := Without(s.down, k));
        OnceIgnores(s, s.owner, Without(s.down, k));
        if m.link in t.owner && t.owner[m.link] in t.processes {
          DoOnce(t, t.owner[m.link], FromPrimary(m.response));
        }
      }
    case LoseUp(k) =>
      if k < |s.up| {
        WithoutUp(s, k);
      }
    case LoseDown(k) =>
      if k < |s.down| {
        OnceIgnores(s, s.owner, Without(s.down, k));
      }
  }

  lemma {:induction false} AlwaysOnce(actions: seq<Action>)
    ensures Once(Reach(actions))
  {
    if actions != [] {
      AlwaysOnce(actions[..|actions| - 1]);
      NextOnce(Reach(actions[..|actions| - 1]), actions[|actions| - 1]);
    }
  }

  /**
   * Every call into the runtime causes at most one write to a native host, over all runs: host
   * drops, reconnects, cold-start waits, the death of primaries, and self-promotion.
   */
  lemma AtMostOneHostWrite(actions: seq<Action>, i: nat, j: nat)
    requires i < |Reach(actions).hostLog| && j < |Reach(actions).hostLog|
    requires Reach(actions).hostLog[i].request.call == Reach(actions).hostLog[j].request.call
    ensures i == j
  {
    AlwaysOnce(actions);
  }

  /** A process writes a request of its own only while somebody waits for the answer. */
  lemma NeverForASettledCall(p: Process, i: Input)
    requires InOrder(p.self, p) && !i.FromClient?
    ensures var d := Handle(p, i);
            Carried(d.written).Some? ==>
              Carried(d.written).value.id in d.process.pending && Carried(d.written).value.id !in p.settled
  {
    match i
    case Calling => SendKeeps(p);
    case GraceOver(id, ok) => GraceWrites(p, id, ok);
    case _ => OtherWritesNothing(p, i);
  }

  // ----- a host write needs a host -----

  /** The native host of a process is attached and its socket is not destroyed. */
  predicate HostThere(s: System, p: nat) {
    p in s.processes && s.processes[p].host.Some? && s.processes[p].host.value !in s.processes[p].destroyed
  }

  /** The step adds at most one line to the host log, and then the process that wrote it has its host. */
  ghost predicate WritesToAHost(s: System, t: System) {
    || t.hostLog == s.hostLog
    || exists w :: t.hostLog == s.hostLog + [w] && HostThere(s, w.process) && HostThere(t, w.process)
  }

  lemma DoWritesToAHost(s: System, p: nat, i: Input)
    requires p in s.processes
    ensures WritesToAHost(s, Do(s, p, i))
  {
    hide Handle;
    WritesNeedConnections(s.processes[p], i);
  }

  lemma NextWritesToAHost(s: System, a: Action)
    ensures WritesToAHost(s, Next(s, a))
  {
    hide Handle, Do, Without;
    match a
    case Local(p, i) =>
      if p in s.processes && IsLocal(i) {
        DoWritesToAHost(s, p, i);
      }
    case Join(c, p) =>
      if CanJoin(s, c, p) {
        JoinWritesNothing(s, c, p);
      }
    case Forward(k) =>
      if k < |s.up| {
        var m, t := s.up[k], s.(up := Without(s.up, k));
        if m.link.primary in t.processes {
          DoWritesToAHost(t, m.link.primary, FromClient(m.link.client, m.request));
        }
      }
    case Reply(k, at) =>
      if Answers(s, k, at) {
        DoWritesToAHost(s, at, FromHost(AnswerTo(s.hostLog[k])));
      }
    case Return(k) =>
      if k < |s.down| {
        var m, t := s.down[k], s.(down := Without(s.down, k));
        if m.link in t.owner && t.owner[m.link] in t.processes && t.processes[t.owner[m.link]].primary == Some(m.link) {
          DoWritesToAHost(t, t.owner[m.link], FromPrimary(m.response));
        }
      }
    case _ =>
  }

  lemma JoinWritesNothing(s: System, c: nat, p: nat)
    requires CanJoin(s, c, p)
    ensures Next(s, Join(c, p)).hostLog == s.hostLog
  {
  }

  /** Line `k` of the host log was written in step `n`, by a process whose native host was there. */
  ghost predicate WrittenInStep(actions: seq<Action>, n: nat, k: nat) {
    && n < |actions| && k < |Reach(actions).hostLog|
    && |Reach(actions[..n]).hostLog| == k < |Reach(actions[..n + 1]).hostLog|
    && HostThere(Reach(actions[..n]), Reach(actions).hostLog[k].process)
  }

  /** Over all runs: nothing is ever written to a native host that is not there. */
  lemma {:induction false} EveryHostWriteHadAHost(actions: seq<Action>, k: nat)
    requires k < |Reach(actions).hostLog|
    ensures exists n: nat :: WrittenInStep(actions, n, k)
  {
    hide Next, HostThere;
    var m := |actions| - 1;
    var front := actions[..m];
    NextWritesToAHost(Reach(front), actions[m]);
    assert actions[..m + 1] == actions;
    if k < |Reach(front).hostLog| {
      EveryHostWriteHadAHost(front, k);
      var n: nat :| WrittenInStep(front, n, k);
      assert front[..n] == actions[..n] && front[..n + 1] == actions[..n + 1];
      assert WrittenInStep(actions, n, k);
    } else {
      assert WrittenInStep(actions, m, k);
    }
  }
}
