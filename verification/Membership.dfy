/** Membership over whole runs of heartbeats, releases and refreshes by any number of peers. */
module Membership {
  import opened Options
  import opened Leases
  import opened Rendezvous
  import opened PeerRegistry

  /** A write that landed in a peer's own lease, at server time `at`; a heartbeat carries the clock
      reading it sampled before it was sent. */
  datatype Event = Renew(self: PeerInfo, sampled: int, at: int) | Release(self: PeerInfo, at: int)

  /** The heartbeat leases, by peer id, after the events so far. */
  function Store(evs: seq<Event>, ttl: int): map<string, PeerLease> {
    if evs == [] then map[]
    else
      var m, ev := Store(evs[..|evs|-1], ttl), evs[|evs|-1];
      var id := ev.self.id;
      match ev
      case Renew(self, sampled, _) => m[id := Heartbeat(if id in m then Some(m[id]) else None, self, ttl, sampled)]
      case Release(self, _) => if id in m then m[id := Cleared(m[id], self)] else m
  }

  /** The clock reading of the peer's last heartbeat, unless it has released since. */
  function Latest(evs: seq<Event>, id: string): Option<int> {
    if evs == [] then None
    else if evs[|evs|-1].self.id != id then Latest(evs[..|evs|-1], id)
    else if evs[|evs|-1].Renew? then Some(evs[|evs|-1].sampled)
    else None
  }

  predicate Named(evs: seq<Event>) {
    forall ev <- evs :: ev.self.id != ""
  }

  lemma {:induction false} StoreShowsLatest(evs: seq<Event>, ttl: int, id: string)
    requires Named(evs)
    ensures
      var m := Store(evs, ttl);
      match Latest(evs, id)
      case Some(t) => id in m && m[id].lease.holder == Some(id) && m[id].lease.renewed == Some(t)
                      && m[id].lease.seconds == Some(WholeSeconds(ttl))
      case None => id in m ==> m[id].lease.holder == Some("")
  {
    if evs != [] {
      StoreShowsLatest(evs[..|evs|-1], ttl, id);
      assert evs[|evs|-1] in evs;
    }
  }

  lemma {:induction false} FromListHas(list: seq<PeerLease>, now: int, id: string)
    ensures id in FromList(list, now) <==> exists l :: l in list && Listed(l, now).Some? && l.lease.holder == Some(id)
  {
    if list != [] {
      var rest, last := list[..|list|-1], list[|list|-1];
      FromListHas(rest, now, id);
      assert last in list && forall x <- rest :: x in list;
      assert forall x <- list :: x in rest || x == last;
    }
  }

  /** `list` is the server's answer: the stored leases, in some order. */
  ghost predicate Lists(list: seq<PeerLease>, m: map<string, PeerLease>) {
    && (forall l <- list :: exists k :: k in m && m[k] == l)
    && (forall k <- m :: m[k] in list)
  }

  /** In every run, another peer's refresh shows a peer exactly when that peer's last write was a
      heartbeat sampled at most ttl before the refresh. */
  lemma MembershipIff(evs: seq<Event>, ttl: int, list: seq<PeerLease>, now: int, reader: PeerInfo, id: string)
    requires Named(evs) && Lists(list, Store(evs, ttl)) && id != "" && id != reader.id
    ensures id in Refreshed(list, now, reader) <==>
      Latest(evs, id).Some? && now <= Latest(evs, id).value + WholeSeconds(ttl) * SECOND
  {
    var m := Store(evs, ttl);
    FromListHas(list, now, id);
    StoreShowsLatest(evs, ttl, id);
    if exists l :: l in list && Listed(l, now).Some? && l.lease.holder == Some(id) {
      var l :| l in list && Listed(l, now).Some? && l.lease.holder == Some(id);
      var k :| k in m && m[k] == l;
      StoreShowsLatest(evs, ttl, k);
      assert k == id;
    }
    if Latest(evs, id).Some? && now <= Latest(evs, id).value + WholeSeconds(ttl) * SECOND {
      assert m[id] in list && Listed(m[id], now).Some?;
    }
  }

  // ---------- consequences ----------

  /** `id` writes nothing in evs[i..]. */
  predicate QuietFrom(evs: seq<Event>, i: nat, id: string) {
    forall j :: i <= j < |evs| ==> evs[j].self.id != id
  }

  lemma {:induction false} LatestUnchanged(evs: seq<Event>, i: nat, id: string)
    requires i <= |evs| && QuietFrom(evs, i, id)
    ensures Latest(evs, id) == Latest(evs[..i], id)
  {
    if i < |evs| {
      LatestUnchanged(evs[..|evs|-1], i, id);
      assert evs[..|evs|-1][..i] == evs[..i];
    } else {
      assert evs[..i] == evs;
    }
  }

  /** Consecutive heartbeats of `id`: the next one lands, even `delay` late, within ttl of the clock
      reading of the one before. */
  ghost predicate Steady(evs: seq<Event>, id: string, ttl: int, delay: int) {
    && (forall ev <- evs :: ev.self.id == id ==> ev.Renew?)
    && (forall i, j :: 0 <= i < j < |evs| ==> evs[i].at <= evs[j].at)
    && (forall i, j :: Consecutive(evs, i, j, id) ==> evs[j].at + delay <= evs[i].sampled + WholeSeconds(ttl) * SECOND)
  }

  /** evs[i] and evs[j] are heartbeats of `id` with no write of it in between. */
  predicate Consecutive(evs: seq<Event>, i: int, j: int, id: string) {
    && 0 <= i < j < |evs| && evs[i].self.id == id && evs[j].self.id == id && evs[i].Renew?
    && forall m :: i < m < j ==> evs[m].self.id != id
  }

  lemma LastWriteBefore(evs: seq<Event>, k: nat, id: string) returns (i: nat)
    requires k <= |evs| && exists j :: 0 <= j < k && evs[j].self.id == id
    ensures i < k && evs[i].self.id == id && QuietFrom(evs[..k], i + 1, id)
  {
    i := k - 1;
    while evs[i].self.id != id
      invariant i < k && (exists j :: 0 <= j <= i && evs[j].self.id == id) && QuietFrom(evs[..k], i + 1, id)
      decreases i
    {
      i := i - 1;
    }
  }

  lemma NextWriteAfter(evs: seq<Event>, k: nat, id: string) returns (j: nat)
    requires exists j :: k <= j < |evs| && evs[j].self.id == id
    ensures k <= j < |evs| && evs[j].self.id == id && forall m :: k <= m < j ==> evs[m].self.id != id
  {
    j := k;
    while evs[j].self.id != id
      invariant k <= j < |evs| && (exists m :: j <= m < |evs| && evs[m].self.id == id)
      invariant forall m :: k <= m < j ==> evs[m].self.id != id
      decreases |evs| - j
    {
      j := j + 1;
    }
  }

  lemma LatestIs(evs: seq<Event>, k: nat, i: nat, id: string)
    requires i < k <= |evs| && evs[i].self.id == id && evs[i].Renew? && QuietFrom(evs[..k], i + 1, id)
    ensures Latest(evs[..k], id) == Some(evs[i].sampled)
  {
    LatestUnchanged(evs[..k], i + 1, id);
    assert evs[..k][..i+1] == evs[..i+1];
  }

  /** A peer with steady heartbeats is in every refresh between its first and its last one: the
      refresh lists the leases after k events and samples its clock at most `delay` later. */
  lemma SteadyPeerStays(evs: seq<Event>, k: nat, ttl: int, delay: int, list: seq<PeerLease>, listed: int, now: int,
      reader: PeerInfo, id: string)
    requires Named(evs) && Steady(evs, id, ttl, delay) && k <= |evs| && id != ""
    requires Lists(list, Store(evs[..k], ttl)) && listed <= now <= listed + delay
    requires exists i :: 0 <= i < k && evs[i].self.id == id
    requires exists j :: k <= j < |evs| && evs[j].self.id == id
    requires forall j :: k <= j < |evs| ==> listed <= evs[j].at
    ensures id in Refreshed(list, now, reader)
  {
    if id != reader.id {
      var i := LastWriteBefore(evs, k, id);
      var j := NextWriteAfter(evs, k, id);
      assert evs[i] in evs;
      assert Consecutive(evs, i, j, id) by {
        forall m | i < m < j ensures evs[m].self.id != id { if m < k { assert evs[..k][m] == evs[m]; } }
      }
      LatestIs(evs, k, i, id);
      MembershipIff(evs[..k], ttl, list, now, reader, id);
    }
  }

  /** A peer that stops writing is gone from every other peer's refresh taken after its last clock
      reading + ttl; after a release it is gone at once and for good. */
  lemma SilentPeerLeaves(evs: seq<Event>, i: nat, ttl: int, list: seq<PeerLease>, now: int, reader: PeerInfo, id: string)
    requires Named(evs) && i <= |evs| && QuietFrom(evs, i, id) && id != "" && id != reader.id
    requires Lists(list, Store(evs, ttl))
    requires Latest(evs[..i], id).None? || now > Latest(evs[..i], id).value + WholeSeconds(ttl) * SECOND
    ensures id !in Refreshed(list, now, reader)
  {
    LatestUnchanged(evs, i, id);
    MembershipIff(evs, ttl, list, now, reader, id);
  }

  // ---------- the writes of a process's Run ----------

  /** The landed writes of one peer. */
  function OfPeer(evs: seq<Event>, id: string): seq<Event> {
    if evs == [] then []
    else OfPeer(evs[..|evs|-1], id) + if evs[|evs|-1].self.id == id then [evs[|evs|-1]] else []
  }

  /** The event of lease `l`, as sent by `self`, reaching the server. */
  predicate Conveys(ev: Event, self: PeerInfo, l: PeerLease) {
    match ev
    case Renew(p, sampled, _) => p == self && l.lease.holder == Some(self.id) && l.lease.renewed == Some(sampled)
    case Release(p, _) => p == self && l.lease.holder != Some(self.id)
  }

  /** Of the leases `sent`, those at the positions `landed` reached the server, in that order, and
      they are all that the peer ever wrote. */
  ghost predicate Carries(evs: seq<Event>, self: PeerInfo, sent: seq<PeerLease>, landed: seq<nat>) {
    && |landed| == |OfPeer(evs, self.id)|
    && (forall i, j :: 0 <= i < j < |landed| ==> landed[i] < landed[j])
    && (forall i :: 0 <= i < |landed| ==> landed[i] < |sent| && Conveys(OfPeer(evs, self.id)[i], self, sent[landed[i]]))
  }

  lemma {:induction false} LatestOfPeer(evs: seq<Event>, id: string)
    ensures var own := OfPeer(evs, id);
      Latest(evs, id) == if own != [] && own[|own|-1].Renew? then Some(own[|own|-1].sampled) else None
  {
    if evs != [] { LatestOfPeer(evs[..|evs|-1], id); }
  }

  lemma {:induction false} SentAreHeartbeats(self: PeerInfo, ttl: int, passes: seq<Pass>)
    ensures forall l <- Sent(self, ttl, passes) :: l.lease.holder == Some(self.id) && l.lease.renewed.Some?
  {
    if passes != [] { SentAreHeartbeats(self, ttl, passes[..|passes|-1]); }
  }

  /** Whatever became of the leases a Run sent, others list the process exactly when the last one
      that landed was a heartbeat sampled at most ttl ago. */
  lemma ListedByLastLanded(evs: seq<Event>, self: PeerInfo, ttl: int, sent: seq<PeerLease>, landed: seq<nat>,
      list: seq<PeerLease>, now: int, reader: PeerInfo)
    requires Named(evs) && Lists(list, Store(evs, ttl)) && self.id != "" && self.id != reader.id
    requires Carries(evs, self, sent, landed)
    ensures self.id in Refreshed(list, now, reader) <==>
      landed != [] && var l := sent[landed[|landed|-1]].lease;
        l.holder == Some(self.id) && l.renewed.Some? && now <= l.renewed.value + WholeSeconds(ttl) * SECOND
  {
    LatestOfPeer(evs, self.id);
    MembershipIff(evs, ttl, list, now, reader, self.id);
  }

  /** Run sends nothing after its release, so once that has landed, whichever heartbeats did, the
      process is absent from every other peer's refresh, at any time and however the run goes on. */
  lemma ReleasedPeerNeverReturns(evs: seq<Event>, self: PeerInfo, ttl: int, passes: seq<Pass>, found: Option<PeerLease>,
      landed: seq<nat>, list: seq<PeerLease>, now: int, reader: PeerInfo)
    requires Named(evs) && Lists(list, Store(evs, ttl)) && self.id != "" && self.id != reader.id
    requires Carries(evs, self, Sent(self, ttl, passes) + ReleaseSent(self, found), landed)
    requires ReleaseSent(self, found) != [] && |Sent(self, ttl, passes)| in landed
    ensures self.id !in Refreshed(list, now, reader)
  {
    var sent := Sent(self, ttl, passes) + ReleaseSent(self, found);
    var i :| 0 <= i < |landed| && landed[i] == |sent| - 1;
    assert landed[i] <= landed[|landed|-1];
    assert sent[|sent|-1] == Cleared(found.value, self);
    ListedByLastLanded(evs, self, ttl, sent, landed, list, now, reader);
  }

  /** Without a landed release it stays listed until its last landed heartbeat is ttl old. */
  lemma UnreleasedPeerExpires(evs: seq<Event>, self: PeerInfo, ttl: int, passes: seq<Pass>, landed: seq<nat>,
      list: seq<PeerLease>, now: int, reader: PeerInfo)
    requires Named(evs) && Lists(list, Store(evs, ttl)) && self.id != "" && self.id != reader.id
    requires Carries(evs, self, Sent(self, ttl, passes), landed) && landed != []
    ensures var l := Sent(self, ttl, passes)[landed[|landed|-1]].lease;
      l.renewed.Some? && (self.id in Refreshed(list, now, reader) <==> now <= l.renewed.value + WholeSeconds(ttl) * SECOND)
  {
    SentAreHeartbeats(self, ttl, passes);
    assert Sent(self, ttl, passes)[landed[|landed|-1]] in Sent(self, ttl, passes);
    ListedByLastLanded(evs, self, ttl, Sent(self, ttl, passes), landed, list, now, reader);
  }
}
