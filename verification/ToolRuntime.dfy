/** One runtime process with its module-level variables, handler by handler (`tool-runtime.js`). */
module ToolRuntime {
  import opened Messages
  import opened Numerals
  import opened Runtime

  class ToolRuntime {
    const self: nat
    var mode: Mode
    var requestIdCounter: nat
    var pendingRequests: map<string, Entry>
    var armedTimers: set<string>
    var graces: map<string, Wait>
    var nativeHostSocket: Option<nat>
    var destroyedHosts: set<nat>
    var primarySocket: Option<Link>
    var primaryDestroyed: bool
    var clientIdCounter: nat
    var clientSockets: set<nat>
    var clientRequestMap: map<string, Route>
    ghost var settled: map<string, Settlement>
    ghost const started: Mode
    ghost var inputs: seq<Input>       // what has come in since the start

    ghost function State(): Process
      reads this
    {
      Process(self, mode, requestIdCounter, pendingRequests, armedTimers, graces, settled, nativeHostSocket,
              destroyedHosts, primarySocket, primaryDestroyed, clientIdCounter, clientSockets, clientRequestMap)
    }

    /** This is where the inputs lead a process of the transition system, and its books are in order. */
    ghost predicate Valid()
      reads this
    {
      State() == HandleAll(Fresh(self, started), inputs) && Accounted(State())
    }

    /** The step of the transition system that a handler has made. */
    twostate predicate Handled(i: Input, new w: Option<Write>)
      reads this
    {
      inputs == old(inputs) + [i] && Did(State(), w) == Handle(old(State()), i)
    }

    /** A handler that makes its step keeps the whole invariant. */
    twostate lemma StaysValid(i: Input)
      requires old(Valid()) && inputs == old(inputs) + [i] && State() == Handle(old(State()), i).process
      ensures Valid()
    {
      hide Handle, Accounted;
      HandleKeeps(old(State()), i);
      HandleOneMore(Fresh(self, started), old(inputs), i);
    }

    /** Whatever the handlers do, a promise that is settled stays settled as it was. */
    twostate lemma SettledForGood(more: seq<Input>)
      requires old(Valid()) && Valid() && inputs == old(inputs) + more
      ensures SettlesOnce(old(State()), State())
    {
      HandleMore(Fresh(self, started), old(inputs), more);
      AlwaysAccounted(old(State()), more);
    }

    /** No call hangs untimed: it is settled, or its timer is armed and will settle it. */
    lemma NoneHangs(id: string)
      requires Valid() && id in Ids(requestIdCounter)
      ensures id in settled || (id in pendingRequests && id in armedTimers)
    {
      hide HandleAll;
      assert id in pendingRequests.Keys + settled.Keys;
    }

    constructor (self: nat, mode: Mode)
      ensures Valid() && State() == Fresh(self, mode) && inputs == []
    {
      this.self, this.mode := self, mode;
      requestIdCounter, pendingRequests, armedTimers, graces := 0, map[], {}, map[];
      nativeHostSocket, destroyedHosts, primarySocket, primaryDestroyed := None, {}, None, false;
      clientIdCounter, clientSockets, clientRequestMap, settled := 0, {}, map[], map[];
      started, inputs := mode, [];
    }

    predicate NativeHostUp()
      reads this
    {
      nativeHostSocket.Some? && nativeHostSocket.value !in destroyedHosts
    }

    /** Resolve or reject a promise, clearing its timer. */
    method SettleRequest(id: string, ghost how: Settlement)
      modifies this`pendingRequests, this`armedTimers, this`settled
      ensures State() == Settle(old(State()), id, how) && Settled(id, how)
    {
      armedTimers := armedTimers - {id};
      pendingRequests := pendingRequests - {id};
      settled := settled[id := how];
    }

    /** Reject every pending request, one by one, and empty the table. */
    method RejectAll(ghost how: Settlement)
      modifies this`pendingRequests, this`armedTimers, this`settled
      ensures State() == SettleAll(old(State()), how) && AllSettled(how)
    {
      hide Rejected;
      var todo := pendingRequests.Keys;
      RejectedOne(settled, {}, "", how);
      assert pendingRequests.Keys - todo == {};
      while todo != {}
        invariant todo <= old(pendingRequests).Keys && pendingRequests == old(pendingRequests)
        invariant armedTimers == old(armedTimers) - (old(pendingRequests).Keys - todo)
        invariant settled == Rejected(old(settled), old(pendingRequests).Keys - todo, how)
        decreases todo
      {
        var id :| id in todo;
        ghost var done := old(pendingRequests).Keys - todo;
        RejectedOne(old(settled), done, id, how);
        armedTimers := armedTimers - {id};
        settled := settled[id := how];
        todo := todo - {id};
        assert old(pendingRequests).Keys - todo == done + {id};
      }
      assert old(pendingRequests).Keys - todo == old(pendingRequests).Keys;
      RejectedAll(old(settled), old(pendingRequests).Keys, how);
      pendingRequests := map[];
    }

    /**
     * A new call is pending and timed. It is written at once exactly when this process has a live
     * connection in its role; otherwise nothing is written and its cold-start grace begins.
     */
    method SendToExtension() returns (w: Option<Write>)
      requires Valid()
      modifies this`requestIdCounter, this`armedTimers, this`pendingRequests, this`graces, this`inputs
      ensures Valid() && Handled(Calling, w)
      ensures requestIdCounter == old(requestIdCounter) + 1
      ensures var id, call := Decimal(requestIdCounter), CallId(self, requestIdCounter);
              && pendingRequests == old(pendingRequests)[id := Entry(call, false)] && id in armedTimers
              && (mode == Primary && nativeHostSocket.Some? && nativeHostSocket.value !in destroyedHosts ==>
                    w == Some(ToHost(Request(id, call))) && id !in graces)
              && (mode == Primary && !(nativeHostSocket.Some? && nativeHostSocket.value !in destroyedHosts) ==>
                    w == None && id in graces && graces[id] == ForHost)
              && (mode == Client && primarySocket.Some? && !primaryDestroyed ==>
                    w == Some(ToPrimary(primarySocket.value, Request(id, call))) && id !in graces)
              && (mode == Client && !(primarySocket.Some? && !primaryDestroyed) ==>
                    w == None && id in graces && graces[id] == ForLink)
    {
      hide Accounted, Decimal, SettlesOnce, HandleAll, Send;
      SendKeeps(State());
      NotYetWaiting();
      w := StartCall();
      inputs := inputs + [Calling];
      StaysValid(Calling);
    }

    /** The id of the next call is new. */
    lemma NotYetWaiting()
      requires Valid()
      ensures Decimal(requestIdCounter + 1) !in graces
    {
      hide HandleAll, Decimal;
      NotYetIssued(requestIdCounter, requestIdCounter + 1);
    }

    method StartCall() returns (w: Option<Write>)
      modifies this`requestIdCounter, this`armedTimers, this`pendingRequests, this`graces
      ensures Did(State(), w) == Send(old(State()))
      ensures requestIdCounter == old(requestIdCounter) + 1
      ensures var id, call := Decimal(requestIdCounter), CallId(self, requestIdCounter);
              && pendingRequests == old(pendingRequests)[id := Entry(call, false)] && id in armedTimers
              && graces - {id} == old(graces) - {id}
              && (mode == Primary && nativeHostSocket.Some? && nativeHostSocket.value !in destroyedHosts ==>
                    w == Some(ToHost(Request(id, call))) && graces == old(graces))
              && (mode == Primary && !(nativeHostSocket.Some? && nativeHostSocket.value !in destroyedHosts) ==>
                    w == None && id in graces && graces[id] == ForHost)
              && (mode == Client && primarySocket.Some? && !primaryDestroyed ==>
                    w == Some(ToPrimary(primarySocket.value, Request(id, call))) && graces == old(graces))
              && (mode == Client && !(primarySocket.Some? && !primaryDestroyed) ==>
                    w == None && id in graces && graces[id] == ForLink)
    {
      hide Decimal;
      requestIdCounter := requestIdCounter + 1;
      var id := Decimal(requestIdCounter);
      var call := CallId(self, requestIdCounter);
      armedTimers := armedTimers + {id};
      pendingRequests := pendingRequests[id := Entry(call, false)];
      w := None;
      if mode == Primary {
        if !NativeHostUp() {
          graces := graces[id := ForHost];
          return;
        }
        w := Some(ToHost(Request(id, call)));
      } else {
        if primarySocket == None || primaryDestroyed {
          graces := graces[id := ForLink];
          return;
        }
        w := Some(ToPrimary(primarySocket.value, Request(id, call)));
      }
    }

    /**
     * The callback of `waitForNativeHost` or `waitForLink` for one request. A request still pending is
     * written if the wait succeeded and the connection is there, and rejected otherwise.
     */
    method GraceEnds(id: string, ok: bool) returns (w: Option<Write>)
      requires Valid()
      modifies this`graces, this`pendingRequests, this`armedTimers, this`settled, this`inputs
      ensures Valid() && Handled(GraceOver(id, ok), w)
      ensures graces == old(graces) - {id}
      ensures id !in old(graces) || id !in old(pendingRequests) ==>
                w == None && pendingRequests == old(pendingRequests) && settled == old(settled)
      ensures id in old(graces) && id in old(pendingRequests) ==>
                if old(graces)[id] == ForHost then HostGraceOver(id, ok, w) else LinkGraceOver(id, ok, w)
    {
      hide Accounted, HandleAll;
      w := AfterGrace(id, ok);
      inputs := inputs + [GraceOver(id, ok)];
      StaysValid(GraceOver(id, ok));
    }

    /** The first delivery of a primary's own call, or its rejection. */
    twostate predicate HostGraceOver(id: string, ok: bool, new w: Option<Write>)
      requires id in old(pendingRequests)
      reads this
    {
      if ok && nativeHostSocket.Some? && nativeHostSocket.value !in destroyedHosts then
        && w == Some(ToHost(Request(id, old(pendingRequests)[id].call)))
        && pendingRequests == old(pendingRequests) && settled == old(settled)
      else
        Settled(id, NotConnected) && w == None
    }

    /** The first delivery of a client's call, in whichever role the process is by now, or its rejection. */
    twostate predicate LinkGraceOver(id: string, ok: bool, new w: Option<Write>)
      requires id in old(pendingRequests)
      reads this
    {
      var entry := old(pendingRequests)[id];
      if entry.resent then w == None && pendingRequests == old(pendingRequests) && settled == old(settled)
      else if ok && mode == Primary && nativeHostSocket.Some? && nativeHostSocket.value !in destroyedHosts then
        w == Some(ToHost(Request(id, entry.call))) && Resent(id)
      else if ok && primarySocket.Some? && !primaryDestroyed then
        w == Some(ToPrimary(primarySocket.value, Request(id, entry.call))) && Resent(id)
      else
        w == None && Settled(id, PrimaryLost)
    }

    /** One promise is settled, and its entry and its timer are gone. */
    twostate predicate Settled(id: string, how: Settlement)
      reads this
    {
      && pendingRequests == old(pendingRequests) - {id} && armedTimers == old(armedTimers) - {id}
      && settled == old(settled)[id := how]
    }

    twostate predicate Resent(id: string)
      requires id in old(pendingRequests)
      reads this
    {
      && pendingRequests == old(pendingRequests)[id := Entry(old(pendingRequests)[id].call, true)]
      && settled == old(settled)
    }

    /** Every pending promise is settled the same way, and no other is touched. */
    twostate predicate AllSettled(how: Settlement)
      reads this
    {
      && pendingRequests == map[]
      && settled.Keys == old(settled).Keys + old(pendingRequests).Keys
      && forall id :: id in settled ==>
           settled[id] == if id in old(pendingRequests) then how else old(settled)[id]
    }

    method AfterGrace(id: string, ok: bool) returns (w: Option<Write>)
      modifies this`graces, this`pendingRequests, this`armedTimers, this`settled
      ensures Did(State(), w) == WaitOver(old(State()), id, ok)
      ensures graces == old(graces) - {id}
      ensures id !in old(graces) || id !in old(pendingRequests) ==>
                w == None && pendingRequests == old(pendingRequests) && settled == old(settled)
      ensures id in old(graces) && id in old(pendingRequests) ==>
                if old(graces)[id] == ForHost then HostGraceOver(id, ok, w) else LinkGraceOver(id, ok, w)
    {
      w := None;
      if id !in graces {
        return;
      }
      var grace := graces[id];
      graces := graces - {id};
      if id !in pendingRequests {
        return;
      }
      var entry := pendingRequests[id];
      if grace == ForHost {
        if ok && NativeHostUp() {
          w := Some(ToHost(Request(id, entry.call)));
        } else {
          SettleRequest(id, NotConnected);
        }
        return;
      }
      if entry.resent {
        return;
      }
      if ok && mode == Primary && NativeHostUp() {
        pendingRequests := pendingRequests[id := entry.(resent := true)];
        w := Some(ToHost(Request(id, entry.call)));
      } else if ok && primarySocket.Some? && !primaryDestroyed {
        pendingRequests := pendingRequests[id := entry.(resent := true)];
        w := Some(ToPrimary(primarySocket.value, Request(id, entry.call)));
      } else {
        SettleRequest(id, PrimaryLost);
      }
    }

    method TimerFires(id: string)
      requires Valid()
      modifies this`pendingRequests, this`armedTimers, this`settled, this`inputs
      ensures Valid() && Handled(TimerFired(id), None)
      ensures if id in old(pendingRequests) then Settled(id, TimedOut)
              else pendingRequests == old(pendingRequests) && settled == old(settled)
    {
      hide HandleAll, Settle, Ids;
      if id in armedTimers {
        SettleRequest(id, TimedOut);
      }
      inputs := inputs + [TimerFired(id)];
      StaysValid(TimerFired(id));
    }

    // ----- the native host -----

    /** `setupNativeHostConnection`; false when another host is connected already. */
    method SetupNativeHostConnection(socket: nat) returns (accepted: bool)
      requires Valid() && mode == Primary && socket !in destroyedHosts
      modifies this`nativeHostSocket, this`inputs
      ensures Valid() && Handled(HostArrives(socket), None)
      ensures accepted <==> !(old(nativeHostSocket).Some? && old(nativeHostSocket).value !in destroyedHosts)
      ensures nativeHostSocket == if accepted then Some(socket) else old(nativeHostSocket)
    {
      hide Accounted, HandleAll;
      accepted := !NativeHostUp();
      if accepted {
        nativeHostSocket := Some(socket);
      }
      inputs := inputs + [HostArrives(socket)];
      StaysValid(HostArrives(socket));
    }

    /** The host's socket is destroyed; its close event comes later. */
    method NativeHostDies(socket: nat)
      requires Valid()
      modifies this`destroyedHosts, this`inputs
      ensures Valid() && Handled(HostDies(socket), None)
      ensures destroyedHosts == old(destroyedHosts) + {socket}
    {
      hide Accounted, HandleAll;
      destroyedHosts := destroyedHosts + {socket};
      inputs := inputs + [HostDies(socket)];
      StaysValid(HostDies(socket));
    }

    method NativeHostFails()
      requires Valid()
      modifies this`nativeHostSocket, this`inputs
      ensures Valid() && Handled(HostError, None) && nativeHostSocket == None
    {
      hide Accounted, HandleAll;
      nativeHostSocket := None;
      inputs := inputs + [HostError];
      StaysValid(HostError);
    }

    /** Whatever was in flight is rejected and never sent again. */
    method NativeHostCloses(socket: nat)
      requires Valid()
      modifies this`nativeHostSocket, this`destroyedHosts, this`pendingRequests, this`armedTimers, this`settled, this`inputs
      ensures Valid() && Handled(HostGone(socket), None) && AllSettled(HostDropped)
      ensures nativeHostSocket == if old(nativeHostSocket) == Some(socket) then None else old(nativeHostSocket)
      ensures socket in destroyedHosts
    {
      hide Accounted, HandleAll, SettleAll;
      if nativeHostSocket == Some(socket) {
        nativeHostSocket := None;
      }
      destroyedHosts := destroyedHosts + {socket};
      RejectAll(HostDropped);
      inputs := inputs + [HostGone(socket)];
      StaysValid(HostGone(socket));
    }

    /** A client's answer goes to that client under its own id; an own answer settles its promise; a late one is dropped. */
    method HandleResponse(r: Response) returns (w: Option<Write>)
      requires Valid()
      modifies this`clientRequestMap, this`pendingRequests, this`armedTimers, this`settled, this`inputs
      ensures Valid() && Handled(FromHost(r), w)
      ensures clientRequestMap == old(clientRequestMap) - {r.id}
      ensures r.id in old(clientRequestMap) ==>
                && pendingRequests == old(pendingRequests) && settled == old(settled)
                && var route := old(clientRequestMap)[r.id];
                w == if route.client in clientSockets then Some(ToClient(route.client, Response(route.originalId, r.call))) else None
      ensures r.id !in old(clientRequestMap) ==>
                && w == None
                && if r.id in old(pendingRequests) then Settled(r.id, Answered(r.call))
                   else pendingRequests == old(pendingRequests) && settled == old(settled)
    {
      hide Accounted, HandleAll, Settle;
      w := None;
      if r.id in clientRequestMap {
        var route := clientRequestMap[r.id];
        clientRequestMap := clientRequestMap - {r.id};
        if route.client in clientSockets {
          w := Some(ToClient(route.client, r.(id := route.originalId)));
        }
      } else if r.id in pendingRequests {
        SettleRequest(r.id, Answered(r.call));
      }
      inputs := inputs + [FromHost(r)];
      StaysValid(FromHost(r));
    }

    // ----- clients of a primary -----

    method SetupClientConnection() returns (clientId: nat)
      requires Valid()
      modifies this`clientIdCounter, this`clientSockets, this`inputs
      ensures Valid() && Handled(ClientArrives, None)
      ensures clientId == clientIdCounter == old(clientIdCounter) + 1 && clientSockets == old(clientSockets) + {clientId}
    {
      hide Accounted, HandleAll;
      clientIdCounter := clientIdCounter + 1;
      clientId := clientIdCounter;
      clientSockets := clientSockets + {clientId};
      inputs := inputs + [ClientArrives];
      StaysValid(ClientArrives);
    }

    /**
     * One `tool_request` line of a client. It is forwarded exactly when the native host is up, under an id
     * that no own call of this process waits for, and then, and only then, there is a route for it.
     */
    method ProcessClientData(client: nat, r: Request) returns (w: Option<Write>)
      requires Valid() && client in clientSockets
      modifies this`clientRequestMap, this`inputs
      ensures Valid() && Handled(FromClient(client, r), w)
      ensures r.id != "" && NativeHostUp() ==> w == Some(ToHost(Request(Prefixed(client, r.id), r.call)))
      ensures w.Some? && w.value.ToHost? <==> r.id != "" && NativeHostUp()
      ensures r.id != "" && !NativeHostUp() ==> w == Some(ToClient(client, Response(r.id, r.call)))
      ensures var id := Prefixed(client, r.id);
              && id !in pendingRequests
              && (r.id != "" ==> (id in clientRequestMap <==> NativeHostUp()))
              && clientRequestMap - {id} == old(clientRequestMap) - {id}
              && (id in clientRequestMap && r.id != "" ==> clientRequestMap[id] == Route(client, r.id, r.call))
      ensures r.id == "" ==> w == None && clientRequestMap == old(clientRequestMap)
    {
      hide Accounted, HandleAll, Prefixed, ClientRequest;
      NotPending(client, r.id);
      w := Forward(client, r);
      inputs := inputs + [FromClient(client, r)];
      StaysValid(FromClient(client, r));
    }

    lemma NotPending(client: nat, id: string)
      requires Valid()
      ensures Prefixed(client, id) !in pendingRequests
    {
      hide Prefixed, HandleAll;
      PrefixedNotIssued(client, id, requestIdCounter);
      assert Prefixed(client, id) !in pendingRequests.Keys + settled.Keys;
    }

    method Forward(client: nat, r: Request) returns (w: Option<Write>)
      requires client in clientSockets
      modifies this`clientRequestMap
      ensures Did(State(), w) == ClientRequest(old(State()), client, r)
      ensures w.Some? && w.value.ToHost? <==> r.id != "" && NativeHostUp()
      ensures r.id != "" && NativeHostUp() ==> w == Some(ToHost(Request(Prefixed(client, r.id), r.call)))
      ensures r.id != "" && !NativeHostUp() ==> w == Some(ToClient(client, Response(r.id, r.call)))
      ensures r.id == "" ==> w == None && clientRequestMap == old(clientRequestMap)
      ensures var id := Prefixed(client, r.id);
              && (r.id != "" ==> (id in clientRequestMap <==> NativeHostUp()))
              && clientRequestMap - {id} == old(clientRequestMap) - {id}
              && (id in clientRequestMap && r.id != "" ==> clientRequestMap[id] == Route(client, r.id, r.call))
    {
      hide Prefixed;
      w := None;
      if r.id == "" {
        return;
      }
      var prefixedId := Prefixed(client, r.id);
      clientRequestMap := clientRequestMap[prefixedId := Route(client, r.id, r.call)];
      if !NativeHostUp() {
        clientRequestMap := clientRequestMap - {prefixedId};
        assert clientRequestMap == old(clientRequestMap) - {prefixedId};
        w := Some(ToClient(client, Response(r.id, r.call)));
      } else {
        w := Some(ToHost(Request(prefixedId, r.call)));
      }
    }

    method ClientCloses(client: nat)
      requires Valid()
      modifies this`clientSockets, this`clientRequestMap, this`inputs
      ensures Valid() && Handled(ClientGone(client), None)
      ensures clientSockets == old(clientSockets) - {client}
      ensures forall id :: id in clientRequestMap <==> id in old(clientRequestMap) && old(clientRequestMap)[id].client != client
      ensures forall id :: id in clientRequestMap ==> clientRequestMap[id] == old(clientRequestMap)[id]
    {
      hide Accounted, HandleAll;
      DropClient(client);
      inputs := inputs + [ClientGone(client)];
      StaysValid(ClientGone(client));
    }

    method DropClient(client: nat)
      modifies this`clientSockets, this`clientRequestMap
      ensures clientSockets == old(clientSockets) - {client}
      ensures clientRequestMap == map id | id in old(clientRequestMap)
                                    && old(clientRequestMap)[id].client != client :: old(clientRequestMap)[id]
    {
      clientSockets := clientSockets - {client};
      var todo := clientRequestMap.Keys;
      while todo != {}
        invariant clientSockets == old(clientSockets) - {client}
        invariant todo <= old(clientRequestMap).Keys
        invariant clientRequestMap == map id | id in old(clientRequestMap)
                    && (id in todo || old(clientRequestMap)[id].client != client) :: old(clientRequestMap)[id]
        decreases todo
      {
        var id :| id in todo;
        if clientRequestMap[id].client == client {
          clientRequestMap := clientRequestMap - {id};
        }
        todo := todo - {id};
      }
    }

    // ----- the primary of a client -----

    method ConnectToPrimary(link: Link)
      requires Valid()
      modifies this`primarySocket, this`primaryDestroyed, this`inputs
      ensures Valid() && Handled(PrimaryArrives(link), None)
      ensures primarySocket == Some(link) && !primaryDestroyed
    {
      hide Accounted, HandleAll;
      primarySocket, primaryDestroyed := Some(link), false;
      inputs := inputs + [PrimaryArrives(link)];
      StaysValid(PrimaryArrives(link));
    }

    /** A response line of the primary. */
    method PrimarySays(r: Response)
      requires Valid()
      modifies this`pendingRequests, this`armedTimers, this`settled, this`inputs
      ensures Valid() && Handled(FromPrimary(r), None)
      ensures if r.id in old(pendingRequests) then Settled(r.id, Answered(r.call))
              else pendingRequests == old(pendingRequests) && settled == old(settled)
    {
      hide Accounted, HandleAll, Settle;
      if r.id in pendingRequests {
        SettleRequest(r.id, Answered(r.call));
      }
      inputs := inputs + [FromPrimary(r)];
      StaysValid(FromPrimary(r));
    }

    /** The socket to the primary is destroyed; its close event comes later. */
    method PrimarySocketDies()
      requires Valid()
      modifies this`primaryDestroyed, this`inputs
      ensures Valid() && Handled(PrimaryDies, None) && primaryDestroyed
    {
      hide Accounted, HandleAll;
      primaryDestroyed := true;
      inputs := inputs + [PrimaryDies];
      StaysValid(PrimaryDies);
    }

    method PrimaryCloses()
      requires Valid()
      modifies this`primarySocket, this`pendingRequests, this`armedTimers, this`settled, this`inputs
      ensures Valid() && Handled(PrimaryGone, None) && AllSettled(PrimaryLost) && primarySocket == None
    {
      hide Accounted, HandleAll, SettleAll;
      primarySocket := None;
      RejectAll(PrimaryLost);
      inputs := inputs + [PrimaryGone];
      StaysValid(PrimaryGone);
    }

    /**
     * The port was free two seconds after the primary went. No call is touched, and one that waits for the
     * link goes to the native host if its grace ends now and a host is up.
     */
    method PromoteSelf()
      requires Valid()
      modifies this`mode, this`inputs
      ensures Valid() && Handled(PortWon, None)
      ensures mode == Primary <==> old(mode) == Primary || primarySocket == None
      ensures forall id :: mode == Primary && NativeHostUp() && id in graces && id in pendingRequests && !pendingRequests[id].resent ==>
                WaitOver(State(), id, true).written == Some(ToHost(Request(id, pendingRequests[id].call)))
    {
      hide Accounted, HandleAll;
      if mode == Client && primarySocket == None {
        mode := Primary;
      }
      inputs := inputs + [PortWon];
      StaysValid(PortWon);
    }

    method ShutDownNow()
      requires Valid()
      modifies this`destroyedHosts, this`primaryDestroyed, this`pendingRequests, this`armedTimers, this`settled, this`inputs
      ensures Valid() && Handled(Exiting, None) && AllSettled(ShutDown) && primaryDestroyed
      ensures nativeHostSocket.Some? ==> nativeHostSocket.value in destroyedHosts
    {
      hide Accounted, HandleAll, SettleAll;
      if nativeHostSocket.Some? {
        destroyedHosts := destroyedHosts + {nativeHostSocket.value};
      }
      primaryDestroyed := true;
      RejectAll(ShutDown);
      inputs := inputs + [Exiting];
      StaysValid(Exiting);
    }
  }
}
