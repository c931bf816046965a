/**
 * The handlers of the shared tool runtime (`tool-runtime.js`), as functions of one process's state.
 * A request carries, beside its id, the call it was made for; no handler looks at that.
 */
module Runtime {
  import opened Messages
  import opened Numerals

  datatype Mode = Primary | Client

  /** A connection: the primary's process and the client id that the primary gave out. */
  datatype Link = Link(primary: nat, client: nat)

  /** A call into the runtime: the process and the number of the call there. */
  datatype CallId = CallId(process: nat, number: nat)

  datatype Request = Request(id: string, call: CallId)

  /** The answer to the request made for `call`. */
  datatype Response = Response(id: string, call: CallId)

  datatype Settlement =
    | Answered(call: CallId)   // by the response made for `call`
    | TimedOut
    | HostDropped
    | PrimaryLost
    | NotConnected
    | ShutDown

  datatype Entry = Entry(call: CallId, resent: bool)

  datatype Route = Route(client: nat, originalId: string, call: CallId)

  datatype Wait = ForHost | ForLink

  datatype Process = Process(
    self: nat,
    mode: Mode,
    counter: nat,                     // requestIdCounter
    pending: map<string, Entry>,      // pendingRequests
    armed: set<string>,               // ids whose 60s timer is armed
    waits: map<string, Wait>,         // cold-start graces whose callback has not come
    settled: map<string, Settlement>, // how each promise was settled
    host: Option<nat>,                // nativeHostSocket
    destroyed: set<nat>,              // native host sockets that are destroyed
    primary: Option<Link>,            // primarySocket
    primaryDestroyed: bool,
    clientCounter: nat,               // clientIdCounter
    clients: set<nat>,                // clientSockets
    routes: map<string, Route>)       // clientRequestMap

  datatype Write =
    | ToHost(request: Request)
    | ToPrimary(link: Link, request: Request)
    | ToClient(client: nat, response: Response)

  /** The new state of a process, and what it wrote. */
  datatype Did = Did(process: Process, written: Option<Write>)

  function Fresh(self: nat, mode: Mode): Process {
    Process(self, mode, 0, map[], {}, map[], map[], None, {}, None, false, 0, {}, map[])
  }

  predicate HostUp(p: Process) {
    p.host.Some? && p.host.value !in p.destroyed
  }

  predicate PrimaryUp(p: Process) {
    p.primary.Some? && !p.primaryDestroyed
  }

  /** `c<client>_<id>`. */
  function Prefixed(client: nat, id: string): string {
    "c" + Decimal(client) + "_" + id
  }

  /** Settle one promise: its timer is cleared and its entry removed. */
  function Settle(p: Process, id: string, how: Settlement): Process {
    p.(pending := p.pending - {id}, armed := p.armed - {id}, settled := p.settled[id := how])
  }

  function SettleAll(p: Process, how: Settlement): Process {
    p.(pending := map[], armed := p.armed - p.pending.Keys,
       settled := Rejected(p.settled, p.pending.Keys, how))
  }

  function Rejected(settled: map<string, Settlement>, ids: set<string>, how: Settlement): map<string, Settlement> {
    settled + map id | id in ids :: how
  }

  lemma RejectedOne(settled: map<string, Settlement>, ids: set<string>, id: string, how: Settlement)
    ensures Rejected(settled, {}, how) == settled
    ensures Rejected(settled, ids, how)[id := how] == Rejected(settled, ids + {id}, how)
  {
  }

  lemma RejectedAll(settled: map<string, Settlement>, ids: set<string>, how: Settlement)
    ensures var r := Rejected(settled, ids, how);
            && r.Keys == settled.Keys + ids
            && forall id :: id in r ==> r[id] == if id in ids then how else settled[id]
  {
  }

  // ----- calls -----

  /** A new call enters the pending table with its timer armed. */
  function Registered(p: Process, id: string, call: CallId): Process {
    p.(counter := p.counter + 1, pending := p.pending[id := Entry(call, false)], armed := p.armed + {id})
  }

  /** The request is not written yet: a cold-start grace runs first. */
  function Waiting(q: Process, id: string, wait: Wait): Process {
    q.(waits := q.waits[id := wait])
  }

  /** `sendToExtension`. */
  function Send(p: Process): Did {
    var id := Decimal(p.counter + 1);
    var call := CallId(p.self, p.counter + 1);
    var q := Registered(p, id, call);
    if p.mode == Primary then
      if HostUp(p) then Did(q, Some(ToHost(Request(id, call)))) else Did(Waiting(q, id, ForHost), None)
    else
      if PrimaryUp(p) then Did(q, Some(ToPrimary(p.primary.value, Request(id, call))))
      else Did(Waiting(q, id, ForLink), None)
  }

  /** The callback of a cold-start grace, which comes once; `ok` says whether the link came up. */
  function WaitOver(p: Process, id: string, ok: bool): Did {
    if id !in p.waits then Did(p, None)
    else
      var q := p.(waits := p.waits - {id});
      if id !in p.pending then Did(q, None)
      else
        var entry := p.pending[id];
        if p.waits[id] == ForHost then
          if ok && HostUp(p) then Did(q, Some(ToHost(Request(id, entry.call)))) else Did(Settle(q, id, NotConnected), None)
        else if entry.resent then Did(q, None)
        else if ok && p.mode == Primary && HostUp(p) then
          Did(q.(pending := q.pending[id := entry.(resent := true)]), Some(ToHost(Request(id, entry.call))))
        else if ok && PrimaryUp(p) then
          Did(q.(pending := q.pending[id := entry.(resent := true)]), Some(ToPrimary(p.primary.value, Request(id, entry.call))))
        else Did(Settle(q, id, PrimaryLost), None)
  }

  function Timeout(p: Process, id: string): Did {
    if id in p.armed then Did(Settle(p, id, TimedOut), None) else Did(p, None)
  }

  // ----- the native host -----

  /** A second native host is turned away while one is connected. */
  function HostAttached(p: Process, socket: nat): Did {
    if HostUp(p) || p.mode != Primary || socket in p.destroyed then Did(p, None) else Did(p.(host := Some(socket)), None)
  }

  function HostDestroyed(p: Process, socket: nat): Did {
    Did(p.(destroyed := p.destroyed + {socket}), None)
  }

  function HostFailed(p: Process): Did {
    Did(p.(host := None), None)
  }

  /** Nothing in flight is ever sent again. */
  function HostClosed(p: Process, socket: nat): Did {
    Did(SettleAll(p.(host := if p.host == Some(socket) then None else p.host, destroyed := p.destroyed + {socket}), HostDropped), None)
  }

  /** `handleResponse`. */
  function HostMessage(p: Process, r: Response): Did {
    if r.id in p.routes then
      var route := p.routes[r.id];
      Did(p.(routes := p.routes - {r.id}),
          if route.client in p.clients then Some(ToClient(route.client, r.(id := route.originalId))) else None)
    else if r.id in p.pending then Did(Settle(p, r.id, Answered(r.call)), None)
    else Did(p, None)
  }

  // ----- clients of a primary -----

  function ClientConnected(p: Process): Did {
    Did(p.(clientCounter := p.clientCounter + 1, clients := p.clients + {p.clientCounter + 1}), None)
  }

  function ClientRequest(p: Process, client: nat, r: Request): Did {
    if client !in p.clients || r.id == "" then Did(p, None)
    else if !HostUp(p) then Did(p.(routes := p.routes - {Prefixed(client, r.id)}), Some(ToClient(client, Response(r.id, r.call))))
    else Did(p.(routes := p.routes[Prefixed(client, r.id) := Route(client, r.id, r.call)]),
             Some(ToHost(Request(Prefixed(client, r.id), r.call))))
  }

  function ClientClosed(p: Process, client: nat): Did {
    Did(p.(clients := p.clients - {client},
           routes := map id | id in p.routes && p.routes[id].client != client :: p.routes[id]), None)
  }

  // ----- the primary of a client -----

  function Connected(p: Process, link: Link): Did {
    Did(p.(primary := Some(link), primaryDestroyed := false), None)
  }

  function PrimaryMessage(p: Process, r: Response): Did {
    if r.id in p.pending then Did(Settle(p, r.id, Answered(r.call)), None) else Did(p, None)
  }

  function PrimaryDestroyed(p: Process): Did {
    Did(p.(primaryDestroyed := true), None)
  }

  function PrimaryClosed(p: Process): Did {
    Did(SettleAll(p.(primary := None), PrimaryLost), None)
  }

  /** Two seconds later: take the port, if this is still a client without a primary. */
  function Promoted(p: Process): Did {
    if p.mode != Client || p.primary.Some? then Did(p, None) else Did(p.(mode := Primary), None)
  }

  /** `shutdown`. */
  function Shutdown(p: Process): Did {
    var hosts := if p.host.Some? then p.destroyed + {p.host.value} else p.destroyed;
    Did(SettleAll(p.(destroyed := hosts, primaryDestroyed := true), ShutDown), None)
  }

  // ----- the ids -----

  lemma PrefixedParts(c: nat, i: string)
    ensures var s, a := Prefixed(c, i), |Decimal(c)|;
            && |s| == a + 2 + |i| && s[1 + a] == '_' && s[1..1 + a] == Decimal(c) && s[2 + a..] == i
            && forall k :: 1 <= k <= a ==> IsDigit(s[k])
  {
    hide Decimal;
    assert forall k :: 1 <= k <= |Decimal(c)| ==> Prefixed(c, i)[k] == Decimal(c)[k - 1];
  }

  /** The position of the first underscore separates the client from the original id. */
  lemma PrefixedInjective(c: nat, i: string, d: nat, j: string)
    requires Prefixed(c, i) == Prefixed(d, j)
    ensures c == d && i == j
  {
    hide Prefixed, Decimal;
    PrefixedParts(c, i);
    PrefixedParts(d, j);
    assert |Decimal(c)| == |Decimal(d)|;
    Injective(c, d);
  }

  lemma PrefixedIsNotDecimal(c: nat, i: string, n: nat)
    ensures Prefixed(c, i) != Decimal(n)
  {
    assert Prefixed(c, i)[0] == 'c';
    assert IsDigit(Decimal(n)[0]);
  }

  // ----- what each handler keeps -----

  datatype Input =
    | Calling
    | GraceOver(id: string, ok: bool)
    | TimerFired(id: string)
    | HostArrives(socket: nat)
    | HostDies(socket: nat)
    | HostError
    | HostGone(socket: nat)
    | FromHost(response: Response)
    | ClientArrives
    | FromClient(client: nat, request: Request)
    | ClientGone(client: nat)
    | PrimaryArrives(link: Link)
    | FromPrimary(answer: Response)
    | PrimaryDies
    | PrimaryGone
    | PortWon
    | Exiting

  function Handle(p: Process, i: Input): Did {
    match i
    case Calling => Send(p)
    case GraceOver(id, ok) => WaitOver(p, id, ok)
    case TimerFired(id) => Timeout(p, id)
    case HostArrives(socket) => HostAttached(p, socket)
    case HostDies(socket) => HostDestroyed(p, socket)
    case HostError => HostFailed(p)
    case HostGone(socket) => HostClosed(p, socket)
    case FromHost(r) => HostMessage(p, r)
    case ClientArrives => ClientConnected(p)
    case FromClient(client, r) => ClientRequest(p, client, r)
    case ClientGone(client) => ClientClosed(p, client)
    case PrimaryArrives(link) => Connected(p, link)
    case FromPrimary(r) => PrimaryMessage(p, r)
    case PrimaryDies => PrimaryDestroyed(p)
    case PrimaryGone => PrimaryClosed(p)
    case PortWon => Promoted(p)
    case Exiting => Shutdown(p)
  }

  /**
   * Whatever a process writes goes to a connection that is there: to its native host only while that is
   * attached and not destroyed, to its primary only over a live link, to a client only while it is connected.
   */
  lemma WritesNeedConnections(p: Process, i: Input)
    ensures match Handle(p, i).written {
              case None => true
              case Some(ToHost(_)) => p.host.Some? && p.host.value !in p.destroyed
              case Some(ToPrimary(link, _)) => p.primary == Some(link) && !p.primaryDestroyed
              case Some(ToClient(c, _)) => c in p.clients
            }
    ensures Handle(p, i).written.Some? ==>
              Handle(p, i).process.host == p.host && Handle(p, i).process.destroyed == p.destroyed
  {
    hide Settle, SettleAll, Prefixed, Decimal;
  }

  /** A new call is written at once exactly when the connection of the process's role is there. */
  lemma SendsExactlyWhenConnected(p: Process)
    ensures p.mode == Primary ==> (Send(p).written.Some? <==> p.host.Some? && p.host.value !in p.destroyed)
    ensures p.mode == Client ==> (Send(p).written.Some? <==> p.primary.Some? && !p.primaryDestroyed)
    ensures var id, call := Decimal(p.counter + 1), CallId(p.self, p.counter + 1);
            && (Send(p).written.Some? ==> Carried(Send(p).written) == Some(Request(id, call)) && Send(p).process.waits == p.waits)
            && (Send(p).written == None ==>
                  Send(p).process.waits == p.waits[id := if p.mode == Primary then ForHost else ForLink])
  {
    hide Decimal;
  }

  /** The request that a write carries to a socket. */
  function Carried(w: Option<Write>): Option<Request> {
    match w
    case Some(ToHost(r)) => Some(r)
    case Some(ToPrimary(_, r)) => Some(r)
    case _ => None
  }

  /** The ids of the first `n` calls of a process. */
  function Ids(n: nat): set<string> {
    if n == 0 then {} else Ids(n - 1) + {Decimal(n)}
  }

  lemma {:induction false} NotYetIssued(n: nat, k: nat)
    requires n < k
    ensures Decimal(k) !in Ids(n)
  {
    if n > 0 {
      NotYetIssued(n - 1, k);
      if Decimal(n) == Decimal(k) {
        Injective(n, k);
      }
    }
  }

  /** No own id of a process looks like one that it gave to a client's request. */
  lemma {:induction false} PrefixedNotIssued(client: nat, id: string, n: nat)
    ensures Prefixed(client, id) !in Ids(n)
  {
    if n > 0 {
      PrefixedNotIssued(client, id, n - 1);
      PrefixedIsNotDecimal(client, id, n);
    }
  }

  /**
   * A request is in the pending table exactly when its promise is unsettled and its timer is
   * armed, and every request is either pending or settled, never both.
   */
  ghost predicate Accounted(p: Process) {
    && p.armed == p.pending.Keys
    && p.pending.Keys !! p.settled.Keys
    && p.pending.Keys + p.settled.Keys == Ids(p.counter)
    && p.waits.Keys <= Ids(p.counter)
  }

  /** No settled promise is settled again. */
  ghost predicate SettlesOnce(p: Process, q: Process) {
    forall id :: id in p.settled ==> id in q.settled && q.settled[id] == p.settled[id]
  }

  lemma SettleKeeps(p: Process, id: string, how: Settlement)
    requires Accounted(p) && id in p.pending
    ensures Accounted(Settle(p, id, how)) && SettlesOnce(p, Settle(p, id, how))
  {
    var q := Settle(p, id, how);
    assert q.pending.Keys == p.pending.Keys - {id} && q.settled.Keys == p.settled.Keys + {id};
  }

  lemma SettleAllKeeps(p: Process, how: Settlement)
    requires Accounted(p)
    ensures Accounted(SettleAll(p, how)) && SettlesOnce(p, SettleAll(p, how)) && SettleAll(p, how).pending == map[]
  {
    assert SettleAll(p, how).settled.Keys == p.settled.Keys + p.pending.Keys;
  }

  lemma RegisteredKeeps(p: Process, call: CallId)
    requires Accounted(p)
    ensures var id := Decimal(p.counter + 1);
            Accounted(Registered(p, id, call)) && SettlesOnce(p, Registered(p, id, call)) && id in Registered(p, id, call).pending
  {
    NotYetIssued(p.counter, p.counter + 1);
    var id := Decimal(p.counter + 1);
    var q := Registered(p, id, call);
    assert Ids(q.counter) == Ids(p.counter) + {id};
    assert q.pending.Keys == p.pending.Keys + {id};
  }

  lemma SendChanges(p: Process)
    ensures var id := Decimal(p.counter + 1);
            var q := Registered(p, id, CallId(p.self, p.counter + 1));
            if Send(p).written.Some? then Send(p).process == q
            else Send(p).process == Waiting(q, id, if p.mode == Primary then ForHost else ForLink)
  {
    hide Registered, Decimal;
  }

  lemma SendKeeps(p: Process)
    requires Accounted(p)
    ensures Accounted(Send(p).process) && SettlesOnce(p, Send(p).process)
    ensures Decimal(p.counter + 1) in Send(p).process.pending
  {
    var id := Decimal(p.counter + 1);
    var q := Registered(p, id, CallId(p.self, p.counter + 1));
    SendChanges(p);
    RegisteredKeeps(p, CallId(p.self, p.counter + 1));
    WaitingKeeps(p, q, id, if p.mode == Primary then ForHost else ForLink);
    hide Registered, Decimal, Accounted, SettlesOnce, Send;
  }

  lemma WaitingKeeps(p: Process, q: Process, id: string, wait: Wait)
    requires Accounted(q) && SettlesOnce(p, q) && id in q.pending
    ensures Accounted(Waiting(q, id, wait)) && SettlesOnce(p, Waiting(q, id, wait))
  {
    hide Ids;
    assert id in q.pending.Keys + q.settled.Keys;
    assert q.waits[id := wait].Keys == q.waits.Keys + {id};
  }

  lemma WaitOverKeeps(p: Process, id: string, ok: bool)
    requires Accounted(p)
    ensures Accounted(WaitOver(p, id, ok).process) && SettlesOnce(p, WaitOver(p, id, ok).process)
  {
    if id in p.waits && id in p.pending {
      var q := p.(waits := p.waits - {id});
      assert Accounted(q);
      SettleKeeps(q, id, NotConnected);
      SettleKeeps(q, id, PrimaryLost);
      var sent := q.(pending := q.pending[id := p.pending[id].(resent := true)]);
      assert sent.pending.Keys == q.pending.Keys;
    }
  }

  /** A handler that leaves the tables alone. */
  lemma QuietKeeps(p: Process, q: Process)
    requires Accounted(p)
    requires q.pending == p.pending && q.armed == p.armed && q.settled == p.settled && q.waits == p.waits && q.counter == p.counter
    ensures Accounted(q) && SettlesOnce(p, q)
  {
  }

  lemma DropAllKeeps(p: Process, q: Process, how: Settlement)
    requires Accounted(p)
    requires q.pending == p.pending && q.armed == p.armed && q.settled == p.settled && q.waits == p.waits && q.counter == p.counter
    ensures Accounted(SettleAll(q, how)) && SettlesOnce(p, SettleAll(q, how))
  {
    SettleAllKeeps(q, how);
  }

  lemma TimeoutKeeps(p: Process, id: string)
    requires Accounted(p)
    ensures Accounted(Timeout(p, id).process) && SettlesOnce(p, Timeout(p, id).process)
  {
    if id in p.armed {
      SettleKeeps(p, id, TimedOut);
    }
  }

  lemma AnswerKeeps(p: Process, r: Response)
    requires Accounted(p)
    ensures var q := if r.id in p.pending then Settle(p, r.id, Answered(r.call)) else p;
            Accounted(q) && SettlesOnce(p, q)
  {
    if r.id in p.pending {
      SettleKeeps(p, r.id, Answered(r.call));
    }
  }

  /** Inputs that touch no promise. */
  predicate IsQuiet(i: Input) {
    !i.Calling? && !i.GraceOver? && !i.TimerFired? && !i.HostGone? && !i.FromHost? && !i.FromPrimary? && !i.PrimaryGone? && !i.Exiting?
  }

  lemma QuietChangesNothing(p: Process, i: Input)
    requires IsQuiet(i)
    ensures var q := Handle(p, i).process;
            q.pending == p.pending && q.armed == p.armed && q.settled == p.settled && q.waits == p.waits && q.counter == p.counter
  {
  }

  /** Whatever happens to a process, its books stay in order and no promise settles twice. */
  lemma HandleKeeps(p: Process, i: Input)
    requires Accounted(p)
    ensures Accounted(Handle(p, i).process) && SettlesOnce(p, Handle(p, i).process)
  {
    hide Accounted, SettlesOnce, SettleAll, Settle, Send, WaitOver, Timeout;
    var q := Handle(p, i).process;
    if IsQuiet(i) {
      QuietChangesNothing(p, i);
      QuietKeeps(p, q);
      return;
    }
    match i
    case Calling => SendKeeps(p);
    case GraceOver(id, ok) => WaitOverKeeps(p, id, ok);
    case TimerFired(id) => TimeoutKeeps(p, id);
    case HostGone(socket) =>
      DropAllKeeps(p, p.(host := if p.host == Some(socket) then None else p.host, destroyed := p.destroyed + {socket}), HostDropped);
      QuietKeeps(p, p);
    case FromHost(r) => if r.id in p.routes || r.id !in p.pending { QuietKeeps(p, q); } else { AnswerKeeps(p, r); }
    case FromPrimary(r) => AnswerKeeps(p, r);
    case PrimaryGone => DropAllKeeps(p, p.(primary := None), PrimaryLost);
    case Exiting =>
      var hosts := if p.host.Some? then p.destroyed + {p.host.value} else p.destroyed;
      DropAllKeeps(p, p.(destroyed := hosts, primaryDestroyed := true), ShutDown);
    case _ =>
  }

  function HandleAll(p: Process, inputs: seq<Input>): Process
    decreases |inputs|
  {
    if inputs == [] then p else HandleAll(Handle(p, inputs[0]).process, inputs[1..])
  }

  lemma {:induction false} HandleMore(p: Process, inputs: seq<Input>, more: seq<Input>)
    ensures HandleAll(p, inputs + more) == HandleAll(HandleAll(p, inputs), more)
    decreases |inputs|
  {
    hide Handle;
    if inputs == [] {
      assert inputs + more == more;
    } else {
      assert (inputs + more)[0] == inputs[0] && (inputs + more)[1..] == inputs[1..] + more;
      HandleMore(Handle(p, inputs[0]).process, inputs[1..], more);
    }
  }

  lemma HandleOneMore(p: Process, inputs: seq<Input>, i: Input)
    ensures HandleAll(p, inputs + [i]) == Handle(HandleAll(p, inputs), i).process
  {
    hide Handle;
    HandleMore(p, inputs, [i]);
    var q := HandleAll(p, inputs);
    assert [i][1..] == [];
    assert HandleAll(q, [i]) == HandleAll(Handle(q, i).process, []);
  }

  /** Over any run of a process from any state in order. */
  lemma {:induction false} AlwaysAccounted(p: Process, inputs: seq<Input>)
    requires Accounted(p)
    ensures Accounted(HandleAll(p, inputs)) && SettlesOnce(p, HandleAll(p, inputs))
    decreases |inputs|
  {
    if inputs != [] {
      HandleKeeps(p, inputs[0]);
      AlwaysAccounted(Handle(p, inputs[0]).process, inputs[1..]);
    }
  }

  /** No call hangs: once the timer of a pending request fires, its promise is settled, for good. */
  lemma NoCallHangs(p: Process, id: string, inputs: seq<Input>)
    requires Accounted(p) && id in Ids(p.counter)
    ensures id !in p.settled ==> id in p.armed
    ensures id in HandleAll(Handle(p, TimerFired(id)).process, inputs).settled
  {
    HandleKeeps(p, TimerFired(id));
    AlwaysAccounted(Handle(p, TimerFired(id)).process, inputs);
  }
}
