/** Within one primary's lifetime every answer reaches the call it was made for. */
module RuntimeRouting {
  import opened Messages
  import opened Numerals
  import opened Runtime
  import opened RuntimeSystem

  /** `id` is the id under which process `p` issued `call`. */
  predicate OwnId(p: nat, id: string, call: CallId) {
    call.process == p && id == Decimal(call.number)
  }

  /** A request in the form in which primary `q` hands it to its host: its own, or a client's with the rewritten id. */
  ghost predicate HostForm(owner: map<Link, nat>, q: nat, id: string, call: CallId) {
    || OwnId(q, id, call)
    || exists c, original :: Link(q, c) in owner && id == Prefixed(c, original) && OwnId(owner[Link(q, c)], original, call)
  }

  ghost predicate RouteOk(owner: map<Link, nat>, q: nat, clients: set<nat>, id: string, r: Route) {
    && id == Prefixed(r.client, r.originalId)
    && r.client in clients && Link(q, r.client) in owner
    && OwnId(owner[Link(q, r.client)], r.originalId, r.call)
  }

  ghost predicate ProcessOk(owner: map<Link, nat>, q: nat, p: Process) {
    && (forall id :: id in p.routes ==> RouteOk(owner, q, p.clients, id, p.routes[id]))
    && (forall id :: id in p.settled && p.settled[id].Answered? ==> OwnId(q, id, p.settled[id].call))
    && (forall c :: c in p.clients ==> Link(q, c) in owner)
    && (p.primary.Some? ==> p.primary.value in owner && owner[p.primary.value] == q)
  }

  /** A response answers a request that this primary handed to its host, or it finds nobody waiting. */
  ghost predicate Expected(owner: map<Link, nat>, q: nat, p: Process, r: Response) {
    HostForm(owner, q, r.id, r.call) || (r.id !in p.routes && r.id !in p.pending)
  }

  ghost predicate InputOk(owner: map<Link, nat>, q: nat, p: Process, i: Input) {
    match i
    case FromHost(r) => Expected(owner, q, p, r)
    case FromClient(c, r) => c in p.clients ==> Link(q, c) in owner && OwnId(owner[Link(q, c)], r.id, r.call)
    case FromPrimary(r) => OwnId(q, r.id, r.call)
    case PrimaryArrives(link) => link in owner && owner[link] == q
    case ClientArrives => Link(q, p.clientCounter + 1) in owner
    case _ => true
  }

  ghost predicate WriteOk(owner: map<Link, nat>, q: nat, w: Option<Write>) {
    match w
    case None => true
    case Some(ToHost(r)) => HostForm(owner, q, r.id, r.call)
    case Some(ToPrimary(link, r)) => link in owner && owner[link] == q && OwnId(q, r.id, r.call)
    case Some(ToClient(c, r)) => Link(q, c) in owner && OwnId(owner[Link(q, c)], r.id, r.call)
  }

  lemma CallOk(owner: map<Link, nat>, q: nat, p: Process)
    requires InOrder(q, p) && ProcessOk(owner, q, p)
    ensures ProcessOk(owner, q, Send(p).process) && WriteOk(owner, q, Send(p).written)
  {
    hide RouteOk, Decimal, Accounted, HostForm;
    var id, call := Decimal(p.counter + 1), CallId(p.self, p.counter + 1);
    assert OwnId(q, id, call);
    OwnIsHostForm(owner, q, id, call);
  }

  lemma GraceOk(owner: map<Link, nat>, q: nat, p: Process, id: string, ok: bool)
    requires InOrder(q, p) && ProcessOk(owner, q, p)
    ensures ProcessOk(owner, q, WaitOver(p, id, ok).process) && WriteOk(owner, q, WaitOver(p, id, ok).written)
  {
    hide RouteOk, Decimal, Accounted, HostForm;
    if id in p.pending {
      assert OwnId(q, id, p.pending[id].call);
      assert HostForm(owner, q, id, p.pending[id].call) by {
        OwnIsHostForm(owner, q, id, p.pending[id].call);
      }
    }
  }

  lemma OwnIsHostForm(owner: map<Link, nat>, q: nat, id: string, call: CallId)
    requires OwnId(q, id, call)
    ensures HostForm(owner, q, id, call)
  {
  }

  /**
   * A response from the host settles and reaches the call it was made for exactly when it is expected:
   * a client's answer goes to that client under the id it used, the process's own answer to its own call.
   */
  lemma FromHostExactly(owner: map<Link, nat>, q: nat, p: Process, r: Response)
    requires InOrder(q, p) && ProcessOk(owner, q, p)
    ensures ProcessOk(owner, q, HostMessage(p, r).process) && WriteOk(owner, q, HostMessage(p, r).written)
       <==> Expected(owner, q, p, r)
  {
    hide Accounted, Decimal, Prefixed;
    if r.id in p.routes {
      RoutedAnswer(owner, q, p, r);
    } else if r.id in p.pending {
      OwnAnswer(owner, q, p, r);
    }
  }

  lemma RoutedAnswer(owner: map<Link, nat>, q: nat, p: Process, r: Response)
    requires ProcessOk(owner, q, p) && r.id in p.routes
    ensures ProcessOk(owner, q, HostMessage(p, r).process)
    ensures WriteOk(owner, q, HostMessage(p, r).written) <==> HostForm(owner, q, r.id, r.call)
  {
    hide Decimal, Prefixed;
    var route := p.routes[r.id];
    assert RouteOk(owner, q, p.clients, r.id, route);
    PrefixedIsNotDecimal(route.client, route.originalId, r.call.number);
    if HostForm(owner, q, r.id, r.call) {
      var c, original :| Link(q, c) in owner && r.id == Prefixed(c, original) && OwnId(owner[Link(q, c)], original, r.call);
      PrefixedInjective(c, original, route.client, route.originalId);
    }
  }

  lemma OwnAnswer(owner: map<Link, nat>, q: nat, p: Process, r: Response)
    requires InOrder(q, p) && ProcessOk(owner, q, p) && r.id !in p.routes && r.id in p.pending
    ensures HostMessage(p, r).written == None
    ensures ProcessOk(owner, q, HostMessage(p, r).process) <==> HostForm(owner, q, r.id, r.call)
  {
    hide Accounted, Decimal, Prefixed;
    assert r.id == Decimal(p.pending[r.id].call.number);
    var after := HostMessage(p, r).process;
    assert after.settled[r.id] == Answered(r.call);
    if HostForm(owner, q, r.id, r.call) && !OwnId(q, r.id, r.call) {
      var c, original :| Link(q, c) in owner && r.id == Prefixed(c, original) && OwnId(owner[Link(q, c)], original, r.call);
      PrefixedIsNotDecimal(c, original, p.pending[r.id].call.number);
    }
  }

  lemma FromClientOk(owner: map<Link, nat>, q: nat, p: Process, c: nat, r: Request)
    requires ProcessOk(owner, q, p) && InputOk(owner, q, p, FromClient(c, r))
    ensures ProcessOk(owner, q, ClientRequest(p, c, r).process) && WriteOk(owner, q, ClientRequest(p, c, r).written)
  {
    hide Decimal, Prefixed;
  }

  lemma OtherOk(owner: map<Link, nat>, q: nat, p: Process, i: Input)
    requires ProcessOk(owner, q, p) && InputOk(owner, q, p, i)
    requires !i.Calling? && !i.GraceOver? && !i.FromHost? && !i.FromClient?
    ensures ProcessOk(owner, q, Handle(p, i).process) && Handle(p, i).written == None
  {
    hide Decimal, Prefixed, OwnId;
  }

  lemma HandleOk(owner: map<Link, nat>, q: nat, p: Process, i: Input)
    requires InOrder(q, p) && ProcessOk(owner, q, p) && InputOk(owner, q, p, i)
    ensures ProcessOk(owner, q, Handle(p, i).process) && WriteOk(owner, q, Handle(p, i).written)
  {
    match i
    case Calling => CallOk(owner, q, p);
    case GraceOver(id, ok) => GraceOk(owner, q, p, id, ok);
    case FromHost(r) => FromHostExactly(owner, q, p, r);
    case FromClient(c, r) => FromClientOk(owner, q, p, c, r);
    case _ => OtherOk(owner, q, p, i);
  }

  // ----- the whole system -----

  ghost predicate Routed(s: System) {
    && (forall q :: q in s.processes ==> ProcessOk(s.owner, q, s.processes[q]))
    && (forall link :: link in s.owner ==>
          link.primary in s.processes && link.client <= s.processes[link.primary].clientCounter)
    && (forall i :: 0 <= i < |s.up| ==>
          s.up[i].link in s.owner && OwnId(s.owner[s.up[i].link], s.up[i].request.id, s.up[i].request.call))
    && (forall i :: 0 <= i < |s.down| ==>
          s.down[i].link in s.owner && OwnId(s.owner[s.down[i].link], s.down[i].response.id, s.down[i].response.call))
    && (forall i :: 0 <= i < |s.hostLog| ==>
          HostForm(s.owner, s.hostLog[i].process, s.hostLog[i].request.id, s.hostLog[i].request.call))
  }

  lemma ClientCounterGrows(p: Process, i: Input)
    ensures Handle(p, i).process.clientCounter >= p.clientCounter
  {
  }

  lemma DoRouted(s: System, q: nat, i: Input)
    requires Routed(s) && q in s.processes && InOrder(q, s.processes[q])
    requires InputOk(s.owner, q, s.processes[q], i)
    ensures Routed(Do(s, q, i)) && Do(s, q, i).owner == s.owner
  {
    HandleOk(s.owner, q, s.processes[q], i);
    ClientCounterGrows(s.processes[q], i);
    ApplyRouted(s, q, Handle(s.processes[q], i));
  }

  lemma ApplyRouted(s: System, q: nat, d: Did)
    requires Routed(s) && q in s.processes
    requires ProcessOk(s.owner, q, d.process) && WriteOk(s.owner, q, d.written)
    requires d.process.clientCounter >= s.processes[q].clientCounter
    ensures Routed(Apply(s, q, d)) && Apply(s, q, d).owner == s.owner
  {
    hide ProcessOk, HostForm, OwnId;
    var t := Apply(s, q, d);
    match d.written
    case None =>
    case Some(ToHost(r)) => assert t.up == s.up && t.down == s.down;
    case Some(ToPrimary(link, r)) => assert t.down == s.down && t.hostLog == s.hostLog;
    case Some(ToClient(c, r)) => assert t.up == s.up && t.hostLog == s.hostLog;
  }

  /** A fresh connection adds to the owners and takes nothing away. */
  lemma OwnerGrows(s: System, link: Link, c: nat)
    requires Routed(s) && link !in s.owner && link.primary in s.processes
    ensures forall q :: q in s.processes ==> ProcessOk(s.owner[link := c], q, s.processes[q])
    ensures forall i :: 0 <= i < |s.hostLog| ==>
              HostForm(s.owner[link := c], s.hostLog[i].process, s.hostLog[i].request.id, s.hostLog[i].request.call)
  {
    hide Decimal, Prefixed;
    var owner := s.owner[link := c];
    forall q | q in s.processes ensures ProcessOk(owner, q, s.processes[q]) {
      var p := s.processes[q];
      assert forall id :: id in p.routes ==> RouteOk(s.owner, q, p.clients, id, p.routes[id]);
    }
    forall i | 0 <= i < |s.hostLog|
      ensures HostForm(owner, s.hostLog[i].process, s.hostLog[i].request.id, s.hostLog[i].request.call)
    {
      HostFormGrows(s.owner, link, c, s.hostLog[i]);
    }
  }

  lemma HostFormGrows(owner: map<Link, nat>, link: Link, c: nat, w: HostWrite)
    requires HostForm(owner, w.process, w.request.id, w.request.call) && link !in owner
    ensures HostForm(owner[link := c], w.process, w.request.id, w.request.call)
  {
    hide Decimal, Prefixed;
    if !OwnId(w.process, w.request.id, w.request.call) {
      var d, original :| Link(w.process, d) in owner && w.request.id == Prefixed(d, original)
                         && OwnId(owner[Link(w.process, d)], original, w.request.call);
      assert Link(w.process, d) in owner[link := c];
    }
  }

  lemma JoinRouted(s: System, c: nat, p: nat)
    requires Once(s) && Routed(s) && CanJoin(s, c, p)
    ensures Routed(Next(s, Join(c, p)))
  {
    hide HostForm, OwnId, Gone, RouteOk, Accounted, OwnCalls, Apply, Next;
    var link := Link(p, s.processes[p].clientCounter + 1);
    OwnerGrows(s, link, c);
    var d, e := ClientConnected(s.processes[p]), Connected(s.processes[c], link);
    HandleOk(s.owner[link := c], p, s.processes[p], ClientArrives);
    HandleOk(s.owner[link := c], c, s.processes[c], PrimaryArrives(link));
    JoinKeeps(s, c, p, link, d.process, e.process);
    JoinInSteps(s, c, p, link);
    JoinShape(s.(owner := s.owner[link := c]), c, p, d, e);
  }

  lemma JoinKeeps(s: System, c: nat, p: nat, link: Link, primary: Process, client: Process)
    requires Routed(s) && CanJoin(s, c, p) && link == Link(p, s.processes[p].clientCounter + 1)
    requires primary.clientCounter == link.client && client.clientCounter == s.processes[c].clientCounter
    requires forall q :: q in s.processes ==> ProcessOk(s.owner[link := c], q, s.processes[q])
    requires forall i :: 0 <= i < |s.hostLog| ==>
               HostForm(s.owner[link := c], s.hostLog[i].process, s.hostLog[i].request.id, s.hostLog[i].request.call)
    requires ProcessOk(s.owner[link := c], p, primary) && ProcessOk(s.owner[link := c], c, client)
    ensures Routed(s.(owner := s.owner[link := c], processes := s.processes[p := primary][c := client]))
  {
    hide ProcessOk, HostForm, OwnId;
    assert link !in s.owner;
  }

  lemma JoinShape(s: System, c: nat, p: nat, d: Did, e: Did)
    requires d.written == None && e.written == None
    ensures Apply(Apply(s, p, d), c, e) == s.(processes := s.processes[p := d.process][c := e.process])
  {
  }

  lemma JoinInSteps(s: System, c: nat, p: nat, link: Link)
    requires CanJoin(s, c, p) && link == Link(p, s.processes[p].clientCounter + 1)
    ensures Next(s, Join(c, p))
         == Apply(Apply(s.(owner := s.owner[link := c]), p, ClientConnected(s.processes[p])), c, Connected(s.processes[c], link))
  {
  }

  lemma LoseUpRouted(s: System, k: nat)
    requires Routed(s) && k < |s.up|
    ensures Routed(s.(up := Without(s.up, k)))
  {
    hide ProcessOk, HostForm, OwnId, Without;
  }

  lemma LoseDownRouted(s: System, k: nat)
    requires Routed(s) && k < |s.down|
    ensures Routed(s.(down := Without(s.down, k)))
  {
    hide ProcessOk, HostForm, OwnId, Without;
  }

  lemma ForwardRouted(s: System, k: nat)
    requires Once(s) && Routed(s)
    ensures Routed(Next(s, Forward(k)))
  {
    hide ProcessOk, HostForm, OwnId, Handle, Gone, Do, InOrder, Without;
    if k < |s.up| {
      var m, t := s.up[k], s.(up := Without(s.up, k));
      LoseUpRouted(s, k);
      if m.link.primary in t.processes {
        assert Link(m.link.primary, m.link.client) == m.link;
        assert InOrder(m.link.primary, s.processes[m.link.primary]);
        assert InputOk(t.owner, m.link.primary, t.processes[m.link.primary], FromClient(m.link.client, m.request));
        hide Once, Routed, InputOk;
        DoRouted(t, m.link.primary, FromClient(m.link.client, m.request));
      }
    }
  }

  lemma ReturnRouted(s: System, k: nat)
    requires Once(s) && Routed(s)
    ensures Routed(Next(s, Return(k)))
  {
    hide ProcessOk, HostForm, OwnId, Handle, Gone, Do, InOrder, Without;
    if k < |s.down| {
      var m, t := s.down[k], s.(down := Without(s.down, k));
      LoseDownRouted(s, k);
      var q := t.owner[m.link];
      if q in t.processes {
        assert InOrder(q, s.processes[q]);
        assert InputOk(t.owner, q, t.processes[q], FromPrimary(m.response));
        hide Once, Routed, InputOk;
        DoRouted(t, q, FromPrimary(m.response));
      }
    }
  }

  lemma StartRouted(s: System, p: nat, mode: Mode)
    requires Routed(s)
    ensures Routed(Next(s, Start(p, mode)))
  {
    FreshOk(s.owner, p, mode);
    hide ProcessOk, HostForm, OwnId;
  }

  /** A host's answer lands where it is expected. */
  ghost predicate Lands(s: System, a: Action) {
    a.Reply? && Answers(s, a.k, a.at) ==> Expected(s.owner, a.at, s.processes[a.at], AnswerTo(s.hostLog[a.k]))
  }

  /** The answer to a process that is given to that process itself always lands. */
  lemma OwnAnswersLand(s: System, k: nat)
    requires Routed(s) && k < |s.hostLog|
    ensures Lands(s, Reply(k, s.hostLog[k].process))
  {
  }

  /** A step keeps the routing right exactly when it is no answer to a process that does not expect it. */
  lemma NextRoutedExactly(s: System, a: Action)
    requires Once(s) && Routed(s)
    ensures Routed(Next(s, a)) <==> Lands(s, a)
  {
    hide Expected, Handle, Gone, Do, OwnId, HostForm;
    if Lands(s, a) {
      NextRouted(s, a);
    } else {
      StrayAnswer(s, a.k, a.at);
    }
  }

  lemma StrayAnswer(s: System, k: nat, q: nat)
    requires Once(s) && Routed(s) && Answers(s, k, q)
    requires !Expected(s.owner, q, s.processes[q], AnswerTo(s.hostLog[k]))
    ensures !Routed(Do(s, q, FromHost(AnswerTo(s.hostLog[k]))))
  {
    hide HostForm, OwnId, Gone, Expected, InOrder, ProcessOk, WriteOk, Apply;
    var p, r := s.processes[q], AnswerTo(s.hostLog[k]);
    assert InOrder(q, p);
    FromHostExactly(s.owner, q, p, r);
    StrayStays(s, q, HostMessage(p, r));
  }

  lemma StrayStays(s: System, q: nat, d: Did)
    requires q in s.processes && (d.written.Some? ==> d.written.value.ToClient?)
    requires !(ProcessOk(s.owner, q, d.process) && WriteOk(s.owner, q, d.written))
    ensures !Routed(Apply(s, q, d))
  {
    hide HostForm, OwnId, ProcessOk;
    var t := Apply(s, q, d);
    assert t.processes[q] == d.process && t.owner == s.owner;
    if ProcessOk(s.owner, q, d.process) {
      assert t.down[|s.down|] == Downward(Link(q, d.written.value.client), d.written.value.response);
    }
  }

  lemma NextRouted(s: System, a: Action)
    requires Once(s) && Routed(s) && Lands(s, a)
    ensures Routed(Next(s, a))
  {
    hide ProcessOk, HostForm, OwnId, Handle, Gone, Do, InOrder;
    match a
    case Start(p, mode) => StartRouted(s, p, mode);
    case Local(p, i) =>
      if p in s.processes && IsLocal(i) {
        DoRouted(s, p, i);
      }
    case Join(c, p) =>
      if CanJoin(s, c, p) {
        JoinRouted(s, c, p);
      }
    case Forward(k) => ForwardRouted(s, k);
    case Reply(k, at) =>
      if Answers(s, k, at) {
        DoRouted(s, at, FromHost(AnswerTo(s.hostLog[k])));
      }
    case Return(k) => ReturnRouted(s, k);
    case LoseUp(k) =>
    case LoseDown(k) =>
  }

  lemma FreshOk(owner: map<Link, nat>, q: nat, mode: Mode)
    ensures ProcessOk(owner, q, Fresh(q, mode))
  {
  }

  /** In every step of a run, answers land where they are expected. */
  ghost predicate AllLand(actions: seq<Action>) {
    forall n :: 0 <= n < |actions| ==> Lands(Reach(actions[..n]), actions[n])
  }

  ghost predicate AllRouted(actions: seq<Action>) {
    forall n :: 0 <= n <= |actions| ==> Routed(Reach(actions[..n]))
  }

  /** A run is routed right all along exactly when every answer lands where it is expected. */
  lemma {:induction false} RoutedExactlyWhenAllLand(actions: seq<Action>)
    ensures AllRouted(actions) <==> AllLand(actions)
  {
    hide Routed, Lands, Next, Reach;
    if actions == [] {
      assert actions[..0] == actions;
      NothingToRoute();
    } else {
      var m := |actions| - 1;
      var front := actions[..m];
      RoutedExactlyWhenAllLand(front);
      assert forall n :: 0 <= n <= m ==> actions[..n] == front[..n];
      assert forall n :: 0 <= n < m ==> actions[n] == front[n];
      assert actions[..|actions|] == actions && front[..m] == front;
      AlwaysOnce(front);
      ReachOneMore(actions);
      if AllRouted(front) {
        assert Routed(Reach(front[..m]));
        NextRoutedExactly(Reach(front), actions[m]);
        Extended(actions);
      } else {
        var n :| 0 <= n <= m && !Routed(Reach(front[..n]));
        assert !Routed(Reach(actions[..n]));
        var i :| 0 <= i < m && !Lands(Reach(front[..i]), front[i]);
        assert !Lands(Reach(actions[..i]), actions[i]);
      }
    }
  }

  lemma NothingToRoute()
    ensures Routed(Reach([]))
  {
  }

  lemma ReachOneMore(actions: seq<Action>)
    requires actions != []
    ensures Reach(actions) == Next(Reach(actions[..|actions| - 1]), actions[|actions| - 1])
  {
  }

  lemma Extended(actions: seq<Action>)
    requires actions != []
    requires var front := actions[..|actions| - 1];
             AllRouted(front) && AllLand(front)
             && (Routed(Reach(actions)) <==> Lands(Reach(front), actions[|actions| - 1]))
    ensures AllRouted(actions) <==> AllLand(actions)
  {
    hide Routed, Lands, Next, Reach;
    var m := |actions| - 1;
    var front := actions[..m];
    assert actions[..|actions|] == actions && actions[..m] == front;
    assert forall n :: 0 <= n <= m ==> actions[..n] == front[..n];
    assert forall n :: 0 <= n < m ==> actions[n] == front[n];
    if Lands(Reach(front), actions[m]) {
      forall n | 0 <= n <= |actions| ensures Routed(Reach(actions[..n])) {
        assert n <= m ==> Routed(Reach(front[..n]));
      }
      forall n | 0 <= n < |actions| ensures Lands(Reach(actions[..n]), actions[n]) {
        assert n < m ==> Lands(Reach(front[..n]), front[n]);
      }
    } else {
      assert !Routed(Reach(actions[..|actions|])) && !Lands(Reach(actions[..m]), actions[m]);
    }
  }

  /** Within one primary's lifetime: every answer is given to the process that wrote the request. */
  ghost predicate AnsweredToWriter(actions: seq<Action>) {
    forall n :: 0 <= n < |actions| && actions[n].Reply? && actions[n].k < |Reach(actions[..n]).hostLog| ==>
      actions[n].at == Reach(actions[..n]).hostLog[actions[n].k].process
  }

  lemma {:induction false} AlwaysRouted(actions: seq<Action>)
    requires AnsweredToWriter(actions) || AllLand(actions)
    ensures Routed(Reach(actions))
  {
    hide Routed, Lands, Next, Reach;
    var m := |actions| - 1;
    if actions == [] {
      NothingToRoute();
    } else {
      var front := actions[..m];
      assert forall n :: 0 <= n < m ==> actions[..n] == front[..n] && actions[n] == front[n];
      AlwaysRouted(front);
      AlwaysOnce(front);
      ReachOneMore(actions);
      var s, a := Reach(front), actions[m];
      assert actions[..m] == front;
      if a.Reply? && a.k < |s.hostLog| && a.at == s.hostLog[a.k].process {
        OwnAnswersLand(s, a.k);
      } else if !a.Reply? || a.k >= |s.hostLog| {
        NoAnswerLands(s, a);
      }
      NextRoutedExactly(s, a);
    }
  }

  lemma NoAnswerLands(s: System, a: Action)
    requires a.Reply? ==> a.k >= |s.hostLog|
    ensures Lands(s, a)
  {
  }

  /** A call that is answered is answered by the response made for it, under the id it was issued with. */
  lemma AnswersReachTheirCaller(actions: seq<Action>, p: nat, id: string)
    requires AnsweredToWriter(actions) || AllLand(actions)
    requires p in Reach(actions).processes
    requires id in Reach(actions).processes[p].settled && Reach(actions).processes[p].settled[id].Answered?
    ensures OwnId(p, id, Reach(actions).processes[p].settled[id].call)
  {
    AlwaysRouted(actions);
  }

  /**
   * The guarantee ends with the primary: ids start again in each process, so an answer that a
   * host still owes to a dead primary settles a call of the next one.
   */
  lemma AnswerToADeadPrimaryMisroutes()
    ensures var stale := CallId(0, 1);
            var q := Send(HostAttached(Fresh(1, Primary), 0).process).process;
            && OwnId(0, "1", stale) && InOrder(1, q) && ProcessOk(map[], 1, q)
            && HostMessage(q, Response("1", stale)).process.settled == map["1" := Answered(stale)]
            && !ProcessOk(map[], 1, HostMessage(q, Response("1", stale)).process)
  {
    assert Decimal(1) == "1";
    var p := HostAttached(Fresh(1, Primary), 0).process;
    assert Ids(0) == {};
    SendInOrder(1, p);
    var r := HostMessage(Send(p).process, Response("1", CallId(0, 1))).process;
    assert "1" in r.settled && !OwnId(1, "1", CallId(0, 1));
  }
}
