/**
 * The per-tab network records of the browser extension (`background.js`): a bounded list and a
 * map by request id that share the same record objects.
 */
module NetworkIndex {
  import opened Messages

  const LIMIT: nat := 1000

  /** What a record holds; absent texts are empty and an absent status is 0, which the code treats alike. */
  datatype Fields = Fields(url: string, verb: string, status: int, statusText: string, mimeType: string, kind: string, timestamp: nat)

  /** A record object. No code reads the tab and the id it was made for. */
  class Record {
    var fields: Fields
    ghost const tab: int
    ghost const requestId: string

    constructor (fields: Fields, ghost tab: int, ghost id: string)
      ensures this.fields == fields && this.tab == tab && requestId == id
    {
      this.fields := fields;
      this.tab := tab;
      requestId := id;
    }
  }

  // ----- what a tab shows: its records as values, oldest first -----

  datatype Entry = Entry(id: string, fields: Fields)

  type Log = seq<Entry>

  /** `makeRecord`, merged: the fields after an event, from the fields before it, if there are any. */
  type Patch = Option<Fields> -> Fields

  function Either(text: string, otherwise: string): string {
    if |text| > 0 then text else otherwise
  }

  /** `Network.requestWillBeSent`. */
  function Sent(url: string, verb: string, kind: string, now: nat): Patch {
    (existing: Option<Fields>) => match existing
      case None => Fields(url, verb, 0, "", "", Either(kind, "Other"), now)
      case Some(f) => f.(url := url, verb := verb, kind := Either(kind, Either(f.kind, "Other")),
                         timestamp := if f.timestamp > 0 then f.timestamp else now)
  }

  /** `Network.responseReceived`. */
  function Responded(url: string, hasHeaders: bool, status: int, statusText: string, mimeType: string, kind: string, now: nat): Patch {
    var verb := if hasHeaders then "?" else "GET";
    (existing: Option<Fields>) => match existing
      case None => Fields(url, verb, status, statusText, mimeType, Either(kind, "Other"), now)
      case Some(f) => Fields(Either(f.url, url), Either(f.verb, verb), status, statusText, mimeType,
                             Either(kind, Either(f.kind, "Other")), if f.timestamp > 0 then f.timestamp else now)
  }

  /** The position of an id, or the length. */
  function Position(log: Log, id: string): (k: nat)
    ensures k <= |log|
    ensures k < |log| ==> log[k].id == id
    ensures forall j :: 0 <= j < k ==> log[j].id != id
  {
    if log == [] || log[0].id == id then 0 else 1 + Position(log[1..], id)
  }

  /** One event: the record of its id is patched in place, or a new one is appended and the oldest dropped. */
  function Recorded(log: Log, id: string, patch: Patch): Log {
    var k := Position(log, id);
    if k < |log| then log[k := Entry(id, patch(Some(log[k].fields)))]
    else Newest(log + [Entry(id, patch(None))])
  }

  lemma RecordedNew(log: Log, id: string, patch: Patch)
    requires Position(log, id) == |log|
    ensures Recorded(log, id, patch) == Newest(log + [Entry(id, patch(None))])
  {
  }

  /** The last `LIMIT` elements. */
  function Newest<T>(s: seq<T>): seq<T> {
    if |s| > LIMIT then s[|s| - LIMIT..] else s
  }

  ghost predicate UniqueIds(log: Log) {
    forall i, j :: 0 <= i < j < |log| ==> log[i].id != log[j].id
  }

  /** One record per id and never more than the limit, whatever the events. */
  lemma RecordedKeeps(log: Log, id: string, patch: Patch)
    requires UniqueIds(log) && |log| <= LIMIT
    ensures UniqueIds(Recorded(log, id, patch)) && |Recorded(log, id, patch)| <= LIMIT
    ensures |Recorded(log, id, patch)| > 0 && Position(Recorded(log, id, patch), id) < |Recorded(log, id, patch)|
  {
    var k := Position(log, id);
    var after := Recorded(log, id, patch);
    if k == |log| {
      assert after[|after| - 1].id == id;
    } else {
      assert after[k].id == id;
    }
  }

  /** An id that was evicted starts afresh when it comes again. */
  lemma EvictedStartsAfresh(log: Log, id: string, patch: Patch)
    requires UniqueIds(log) && |log| == LIMIT && Position(log, id) == |log|
    ensures Recorded(log, id, patch) == log[1..] + [Entry(id, patch(None))]
    ensures forall other: Patch :: Recorded(Recorded(log, id, patch), log[0].id, other)
              == if log[0].id == id then Recorded(Recorded(log, id, patch), id, other)
                 else log[2..] + [Entry(id, patch(None)), Entry(log[0].id, other(None))]
  {
    var after := Recorded(log, id, patch);
    assert log + [Entry(id, patch(None))] == [log[0]] + (log[1..] + [Entry(id, patch(None))]);
    assert after == log[1..] + [Entry(id, patch(None))];
    forall other: Patch
      ensures Recorded(after, log[0].id, other) == log[2..] + [Entry(id, patch(None)), Entry(log[0].id, other(None))]
    {
      assert forall j :: 0 <= j < |after| ==> after[j].id != log[0].id;
      assert Position(after, log[0].id) == |after|;
      assert after[1..] == log[2..] + [Entry(id, patch(None))];
      var grown := after + [Entry(log[0].id, other(None))];
      assert grown[1..] == after[1..] + [Entry(log[0].id, other(None))];
    }
  }

  /** A request and its response make one record with the request's own address and verb. */
  lemma ResponseJoinsItsRequest(log: Log, id: string, url: string, verb: string, kind: string, sent: nat,
                                other: string, hasHeaders: bool, status: int, statusText: string, mimeType: string,
                                kind': string, now: nat)
    requires UniqueIds(log) && |log| <= LIMIT && |url| > 0 && |verb| > 0
    ensures var asked := Recorded(log, id, Sent(url, verb, kind, sent));
            var answered := Recorded(asked, id, Responded(other, hasHeaders, status, statusText, mimeType, kind', now));
            var k := Position(answered, id);
            && |answered| == |asked| && k < |answered|
            && answered == asked[k := answered[k]]
            && answered[k].fields.url == url && answered[k].fields.verb == verb && answered[k].fields.status == status
  {
    var asked := Recorded(log, id, Sent(url, verb, kind, sent));
    RecordedKeeps(log, id, Sent(url, verb, kind, sent));
    var k := Position(asked, id);
    var answered := Recorded(asked, id, Responded(other, hasHeaders, status, statusText, mimeType, kind', now));
    assert answered[k].id == id && forall j :: 0 <= j < k ==> answered[j].id == asked[j].id;
    assert Position(answered, id) == k;
    assert asked[k].fields.url == url && asked[k].fields.verb == verb by {
      if Position(log, id) == |log| {
        assert asked[|asked| - 1].id == id;
        assert k == |asked| - 1;
      } else {
        assert k == Position(log, id);
      }
    }
  }

  /** A request that is sent again, as after a redirect, keeps its place, its time and its status; the address is the new one. */
  lemma SentAgainIsPatched(log: Log, id: string, url: string, verb: string, kind: string, now: nat)
    requires Position(log, id) < |log|
    ensures var k := Position(log, id);
            var after := Recorded(log, id, Sent(url, verb, kind, now));
            && |after| == |log| && (forall j :: 0 <= j < |log| && j != k ==> after[j] == log[j]) && after[k].id == id
            && var f, g := log[k].fields, after[k].fields;
            && g.url == url && g.verb == verb && g.status == f.status && g.statusText == f.statusText && g.mimeType == f.mimeType
            && (f.timestamp > 0 ==> g.timestamp == f.timestamp)
            && (|kind| > 0 ==> g.kind == kind) && (|kind| == 0 && |f.kind| > 0 ==> g.kind == f.kind)
  {
  }

  /** A response brings its status, and leaves the address and the verb that are known. */
  lemma ResponseIsPatched(log: Log, id: string, url: string, hasHeaders: bool, status: int, statusText: string, mimeType: string,
                          kind: string, now: nat)
    requires Position(log, id) < |log|
    ensures var k := Position(log, id);
            var after := Recorded(log, id, Responded(url, hasHeaders, status, statusText, mimeType, kind, now));
            && |after| == |log| && (forall j :: 0 <= j < |log| && j != k ==> after[j] == log[j]) && after[k].id == id
            && var f, g := log[k].fields, after[k].fields;
            && g.status == status && g.statusText == statusText && g.mimeType == mimeType
            && (|f.url| > 0 ==> g.url == f.url) && (|f.verb| > 0 ==> g.verb == f.verb)
            && (f.timestamp > 0 ==> g.timestamp == f.timestamp)
  {
  }

  // ----- the objects -----

  /** A tab's list and its map hold exactly the same records, one per id. */
  ghost predicate Agree(tab: int, reqs: seq<Record>, byId: map<string, Record>) {
    && (forall k :: 0 <= k < |reqs| ==> reqs[k].tab == tab && reqs[k].requestId in byId && byId[reqs[k].requestId] == reqs[k])
    && (forall id :: id in byId ==> byId[id] in reqs && byId[id].requestId == id)
    && (forall i, j :: 0 <= i < j < |reqs| ==> reqs[i].requestId != reqs[j].requestId)
  }

  ghost function Shown(reqs: seq<Record>): (log: Log)
    reads reqs
    ensures |log| == |reqs|
    ensures forall k :: 0 <= k < |log| ==> log[k] == Entry(reqs[k].requestId, reqs[k].fields)
  {
    seq(|reqs|, k requires 0 <= k < |reqs| reads reqs => Entry(reqs[k].requestId, reqs[k].fields))
  }

  /** Looking an id up in the map is a linear search of the list. */
  lemma LookupIsSearch(tab: int, reqs: seq<Record>, byId: map<string, Record>, id: string)
    requires Agree(tab, reqs, byId)
    ensures id in byId <==> Position(Shown(reqs), id) < |reqs|
    ensures id in byId ==> byId[id] == reqs[Position(Shown(reqs), id)]
  {
    var k := Position(Shown(reqs), id);
    if id in byId {
      var j :| 0 <= j < |reqs| && reqs[j] == byId[id];
      assert Shown(reqs)[j].id == id;
    }
    if k < |reqs| {
      assert Shown(reqs)[k].id == id;
    }
  }

  lemma AppendAgrees(tab: int, reqs: seq<Record>, byId: map<string, Record>, record: Record)
    requires Agree(tab, reqs, byId) && record.tab == tab && record.requestId !in byId
    ensures Agree(tab, reqs + [record], byId[record.requestId := record])
  {
    var grown, lookup := reqs + [record], byId[record.requestId := record];
    forall id | id in lookup
      ensures lookup[id] in grown
    {
      if id == record.requestId {
        assert grown[|reqs|] == record;
      } else {
        var j :| 0 <= j < |reqs| && reqs[j] == byId[id];
        assert grown[j] == byId[id];
      }
    }
  }

  /** Drop the `n` oldest records and the lookups that lead to them. */
  method Evict(ghost tab: int, reqs: seq<Record>, byId: map<string, Record>, n: nat)
    returns (kept: seq<Record>, lookup: map<string, Record>)
    requires n <= |reqs| && Agree(tab, reqs, byId)
    ensures kept == reqs[n..] && Agree(tab, kept, lookup)
  {
    var evicted := reqs[..n];
    kept := reqs[n..];
    lookup := byId;
    var todo := byId.Keys;
    while todo != {}
      invariant todo <= byId.Keys
      invariant forall id :: id in lookup <==> id in byId && (id in todo || byId[id] !in evicted)
      invariant forall id :: id in lookup ==> lookup[id] == byId[id]
      decreases todo
    {
      var id :| id in todo;
      if lookup[id] in evicted {
        lookup := lookup - {id};
      }
      todo := todo - {id};
    }
    EvictedAgree(tab, reqs, byId, n, lookup);
  }

  lemma EvictedAgree(tab: int, reqs: seq<Record>, byId: map<string, Record>, n: nat, lookup: map<string, Record>)
    requires n <= |reqs| && Agree(tab, reqs, byId)
    requires forall id :: id in lookup <==> id in byId && byId[id] !in reqs[..n]
    requires forall id :: id in lookup ==> lookup[id] == byId[id]
    ensures Agree(tab, reqs[n..], lookup)
  {
    var kept := reqs[n..];
    forall k | 0 <= k < |kept|
      ensures kept[k].tab == tab && kept[k].requestId in lookup && lookup[kept[k].requestId] == kept[k]
    {
      assert kept[k] == reqs[k + n];
      assert forall j :: 0 <= j < n ==> reqs[..n][j] == reqs[j] && reqs[j].requestId != reqs[k + n].requestId;
    }
    forall id | id in lookup
      ensures lookup[id] in kept
    {
      assert forall j :: 0 <= j < n ==> reqs[j] == reqs[..n][j] && reqs[j] != byId[id];
      var j :| n <= j < |reqs| && reqs[j] == byId[id];
      assert kept[j - n] == byId[id];
    }
  }

  lemma ShownGrows(reqs: seq<Record>, record: Record)
    ensures Shown(reqs + [record]) == Shown(reqs) + [Entry(record.requestId, record.fields)]
  {
  }

  lemma ShownShrinks(reqs: seq<Record>, n: nat)
    requires n <= |reqs|
    ensures Shown(reqs[n..]) == Shown(reqs)[n..]
  {
  }

  /** Append a new record, then drop what is over the limit. */
  method Push(ghost tab: int, reqs: seq<Record>, byId: map<string, Record>, id: string, record: Record)
    returns (pushed: seq<Record>, lookup: map<string, Record>)
    requires Agree(tab, reqs, byId) && |reqs| <= LIMIT
    requires record.tab == tab && record.requestId == id && id !in byId
    ensures Agree(tab, pushed, lookup) && |pushed| <= LIMIT
    ensures Shown(pushed) == Newest(Shown(reqs) + [Entry(id, record.fields)])
  {
    hide Agree, Shown;
    AppendAgrees(tab, reqs, byId, record);
    ShownGrows(reqs, record);
    pushed, lookup := Trim(tab, reqs + [record], byId[id := record]);
  }

  method Trim(ghost tab: int, reqs: seq<Record>, byId: map<string, Record>)
    returns (kept: seq<Record>, lookup: map<string, Record>)
    requires Agree(tab, reqs, byId)
    ensures Agree(tab, kept, lookup) && |kept| <= LIMIT && Shown(kept) == Newest(Shown(reqs))
  {
    hide Agree, Shown;
    kept, lookup := reqs, byId;
    if |reqs| > LIMIT {
      ShownShrinks(reqs, |reqs| - LIMIT);
      kept, lookup := Evict(tab, reqs, byId, |reqs| - LIMIT);
    }
  }

  class NetworkRecords {
    var networkRequests: map<int, seq<Record>>
    var networkByRequestId: map<int, map<string, Record>>

    constructor ()
      ensures Valid() && forall tab :: List(tab) == []
    {
      networkRequests, networkByRequestId := map[], map[];
    }

    function List(tab: int): seq<Record>
      reads this
    {
      if tab in networkRequests then networkRequests[tab] else []
    }

    function Lookup(tab: int): map<string, Record>
      reads this
    {
      if tab in networkByRequestId then networkByRequestId[tab] else map[]
    }

    ghost predicate Valid()
      reads this
    {
      forall tab :: Agree(tab, List(tab), Lookup(tab)) && |List(tab)| <= LIMIT
    }

    /** The lists and lookups of the other tabs are kept. */
    twostate predicate OthersKept(tab: int)
      reads this
    {
      && networkRequests - {tab} == old(networkRequests) - {tab}
      && networkByRequestId - {tab} == old(networkByRequestId) - {tab}
    }

    /** No record is shared, so an event in one tab shows in no other. */
    lemma TabsShareNoRecord(tab: int, other: int, r: Record)
      requires Valid() && tab != other && r in List(tab)
      ensures r !in List(other)
    {
      var k :| 0 <= k < |List(tab)| && List(tab)[k] == r;
      assert Agree(tab, List(tab), Lookup(tab)) && r.tab == tab;
      assert Agree(other, List(other), Lookup(other));
    }

    /** What is left to show after one tab changed and the others were kept. */
    twostate lemma StaysValid(tab: int)
      requires old(Valid()) && OthersKept(tab)
      requires Agree(tab, List(tab), Lookup(tab)) && |List(tab)| <= LIMIT
      ensures Valid()
    {
      forall t: int
        ensures Agree(t, List(t), Lookup(t)) && |List(t)| <= LIMIT
      {
        if t != tab {
          assert t in networkRequests <==> t in networkRequests - {tab};
          assert t in networkByRequestId <==> t in networkByRequestId - {tab};
          assert t in old(networkRequests) <==> t in old(networkRequests) - {tab};
          assert t in old(networkByRequestId) <==> t in old(networkByRequestId) - {tab};
          assert List(t) == old(List(t)) && Lookup(t) == old(Lookup(t));
        }
      }
    }

    /** `recordNetworkEvent`: a record that exists is patched in place, otherwise one is appended. */
    method RecordNetworkEvent(tab: int, id: string, makeRecord: Patch)
      requires Valid()
      modifies this, List(tab)
      ensures Valid() && OthersKept(tab)
      ensures Shown(List(tab)) == Recorded(old(Shown(List(tab))), id, makeRecord)
      ensures old(id in Lookup(tab)) ==> List(tab) == old(List(tab)) && Lookup(tab) == old(Lookup(tab))
    {
      hide Recorded;
      if id in Lookup(tab) {
        PatchExisting(tab, id, makeRecord);
      } else {
        AppendRecord(tab, id, makeRecord);
      }
    }

    method PatchExisting(tab: int, id: string, makeRecord: Patch)
      requires Valid() && id in Lookup(tab)
      modifies List(tab)
      ensures Shown(List(tab)) == Recorded(old(Shown(List(tab))), id, makeRecord)
    {
      LookupIsSearch(tab, List(tab), Lookup(tab), id);
      ghost var was, k := Shown(List(tab)), Position(Shown(List(tab)), id);
      var existing := Lookup(tab)[id];
      existing.fields := makeRecord(Some(existing.fields));
      forall j | 0 <= j < |was|
        ensures Shown(List(tab))[j] == was[k := Entry(id, makeRecord(Some(was[k].fields)))][j]
      {
        assert j != k ==> List(tab)[j].requestId != List(tab)[k].requestId;
      }
    }

    method AppendRecord(tab: int, id: string, makeRecord: Patch)
      requires Valid() && id !in Lookup(tab)
      modifies this
      ensures Valid() && OthersKept(tab)
      ensures Shown(List(tab)) == Recorded(old(Shown(List(tab))), id, makeRecord)
    {
      hide Agree, Newest, Recorded, Shown, Position;
      LookupIsSearch(tab, List(tab), Lookup(tab), id);
      RecordedNew(Shown(List(tab)), id, makeRecord);
      var record := new Record(makeRecord(None), tab, id);
      var reqs, byId := Push(tab, List(tab), Lookup(tab), id, record);
      networkRequests := networkRequests[tab := reqs];
      networkByRequestId := networkByRequestId[tab := byId];
      StaysValid(tab);
    }

    /** `read_network_requests`: the last matches, and with `clear` the tab starts empty. */
    method ReadNetworkRequests(tab: int, matches: Fields -> bool, limit: nat, clear: bool) returns (r: seq<Fields>)
      requires Valid()
      modifies this
      ensures Valid() && OthersKept(tab)
      ensures r == LastOf(Matching(old(Shown(List(tab))), matches), limit)
      ensures if clear then List(tab) == [] && Lookup(tab) == map[] else List(tab) == old(List(tab)) && Lookup(tab) == old(Lookup(tab))
    {
      var reqs := List(tab);
      r := [];
      for k := 0 to |reqs|
        invariant r == Matching(Shown(reqs)[..k], matches)
      {
        assert Shown(reqs)[..k + 1][..k] == Shown(reqs)[..k];
        if matches(reqs[k].fields) {
          r := r + [reqs[k].fields];
        }
      }
      assert Shown(reqs)[..|reqs|] == Shown(reqs);
      r := LastOf(r, limit);
      if clear {
        networkRequests := networkRequests[tab := []];
        networkByRequestId := networkByRequestId[tab := map[]];
        StaysValid(tab);
      }
    }

    /** The tab is closed. */
    method OnRemoved(tab: int)
      requires Valid()
      modifies this
      ensures Valid() && OthersKept(tab) && List(tab) == [] && Lookup(tab) == map[]
    {
      networkRequests := networkRequests - {tab};
      networkByRequestId := networkByRequestId - {tab};
      StaysValid(tab);
    }
  }

  function Matching(log: Log, matches: Fields -> bool): seq<Fields> {
    if log == [] then []
    else if matches(log[|log| - 1].fields) then Matching(log[..|log| - 1], matches) + [log[|log| - 1].fields]
    else Matching(log[..|log| - 1], matches)
  }

  /** The places of the matching records, in order. */
  ghost predicate Places(log: Log, matches: Fields -> bool, at: seq<nat>) {
    && (forall j, k :: 0 <= j < k < |at| ==> at[j] < at[k])
    && (forall j :: j in at ==> j < |log| && matches(log[j].fields))
    && (forall j :: 0 <= j < |log| && matches(log[j].fields) ==> j in at)
  }

  /** What is listed are exactly the matching records, oldest first. */
  lemma {:induction false} MatchingPlaces(log: Log, matches: Fields -> bool) returns (at: seq<nat>)
    ensures Places(log, matches, at) && |at| == |Matching(log, matches)|
    ensures forall k :: 0 <= k < |at| ==> at[k] < |log| && Matching(log, matches)[k] == log[at[k]].fields
  {
    at := [];
    if |log| > 0 {
      var n := |log| - 1;
      at := MatchingPlaces(log[..n], matches);
      if matches(log[n].fields) {
        OnePlaceMore(log, matches, at);
        at := at + [n];
      } else {
        NoPlaceMore(log, matches, at);
      }
    }
  }

  lemma OnePlaceMore(log: Log, matches: Fields -> bool, at: seq<nat>)
    requires |log| > 0 && Places(log[..|log| - 1], matches, at) && matches(log[|log| - 1].fields)
    ensures Places(log, matches, at + [|log| - 1])
  {
    var n := |log| - 1;
    var more := at + [n];
    assert forall k :: 0 <= k < |at| ==> at[k] in at;
    assert more[|at|] == n;
    forall j | 0 <= j < |log| && matches(log[j].fields)
      ensures j in more
    {
      if j < n {
        assert log[..n][j] == log[j];
      }
    }
  }

  lemma NoPlaceMore(log: Log, matches: Fields -> bool, at: seq<nat>)
    requires |log| > 0 && Places(log[..|log| - 1], matches, at) && !matches(log[|log| - 1].fields)
    ensures Places(log, matches, at)
  {
    var n := |log| - 1;
    forall j | 0 <= j < |log| && matches(log[j].fields)
      ensures j in at
    {
      assert log[..n][j] == log[j];
    }
  }

  /** The newest are kept: as many as the limit says, or all there are. */
  lemma LastOfIsTheNewest<T>(s: seq<T>, limit: nat)
    ensures var r := LastOf(s, limit);
            && |r| <= |s| && s[..|s| - |r|] + r == s
            && (limit == 0 ==> r == s) && (limit > 0 ==> |r| <= limit) && (|r| < |s| ==> |r| == limit)
  {
  }

  /** `slice(-limit)`; a limit of 0 keeps everything. */
  function LastOf<T>(s: seq<T>, limit: nat): seq<T> {
    if limit == 0 || limit >= |s| then s else s[|s| - limit..]
  }
}
