/** Membership by heartbeat leases: what each process publishes, what it reads back, and when
    processes agree on who owns a cluster. */
module PeerRegistry {
  import opened Options
  import opened Leases
  import opened Rendezvous
  import opened Sanitize

  // ---------- weights as decimal annotations ----------

  predicate IsDigit(c: char) {
    '0' <= c <= '9'
  }

  /** strconv.FormatUint(n, 10) */
  function Format(n: nat): (s: string)
    ensures s != "" && forall c <- s :: IsDigit(c)
  {
    if n < 10 then ['0' + n as char] else Format(n / 10) + ['0' + (n % 10) as char]
  }

  function DigitsValue(s: string): nat
    requires forall c <- s :: IsDigit(c)
  {
    if s == "" then 0
    else
      assert forall c <- s[..|s|-1] :: c in s;
      assert IsDigit(s[|s|-1]);
      10 * DigitsValue(s[..|s|-1]) + ((s[|s|-1] as int) - ('0' as int))
  }

  /** strconv.ParseUint(s, 10, 32): digits only, and the value must fit 32 bits. */
  function ParseUint32(s: string): Option<U32> {
    if s == "" || exists c <- s :: !IsDigit(c) then None
    else if DigitsValue(s) >= 0x1_0000_0000 then None
    else Some(DigitsValue(s))
  }

  lemma {:induction false} FormatValue(n: nat)
    ensures DigitsValue(Format(n)) == n
  {
    if n >= 10 {
      FormatValue(n / 10);
      assert Format(n)[..|Format(n)|-1] == Format(n / 10);
    }
  }

  lemma WeightRoundTrip(w: U32)
    ensures ParseUint32(Format(w)) == Some(w)
  {
    FormatValue(w);
  }

  // ---------- publishing and reading ----------

  /** A peer's heartbeat lease; `weight` is its annotation, "" when there is none. */
  datatype PeerLease = PeerLease(lease: Lease, weight: string)

  /** The weight a reader takes from the annotation: anything unusable counts as 1. */
  function WeightOf(annotation: string): U32 {
    match ParseUint32(annotation)
    case Some(w) => if w > 0 then w else 1
    case None => 1
  }

  /** What one listed lease contributes to a snapshot taken at `now`. */
  function Listed(l: PeerLease, now: int): Option<PeerInfo> {
    if l.lease.holder.None? || l.lease.holder.value == "" || Expired(l.lease, now) then None
    else Some(PeerInfo(l.lease.holder.value, WeightOf(l.weight)))
  }

  /** The map built from the list; a later lease of the same holder overwrites an earlier one. */
  function FromList(list: seq<PeerLease>, now: int): map<string, PeerInfo> {
    if list == [] then map[]
    else
      var m := FromList(list[..|list|-1], now);
      var p := Listed(list[|list|-1], now);
      if p.Some? then m[p.value.id := p.value] else m
  }

  /** A refresh always includes the process itself, with its own weight. */
  function Refreshed(list: seq<PeerLease>, now: int, self: PeerInfo): map<string, PeerInfo> {
    FromList(list, now)[self.id := self]
  }

  /** What a heartbeat writes over whatever lease it found. */
  function Heartbeat(found: Option<PeerLease>, self: PeerInfo, ttl: int, now: int): PeerLease {
    PeerLease(
      Lease(Some(self.id), Some(WholeSeconds(ttl)), if found.Some? then found.value.lease.acquired else None, Some(now)),
      Format(self.weight))
  }

  /** What a release writes: the holder is cleared if it is us. */
  function Cleared(found: PeerLease, self: PeerInfo): PeerLease {
    if found.lease.holder == Some(self.id) then found.(lease := found.lease.(holder := Some(""))) else found
  }

  /** One pass of Run: what Get and List returned (None for an error) and the clock readings. */
  datatype Pass = Pass(found: Option<Option<PeerLease>>, renewAt: int, list: Option<seq<PeerLease>>, refreshAt: int)

  /** The leases sent to the server by the given passes, and the snapshot they leave. */
  function Sent(self: PeerInfo, ttl: int, passes: seq<Pass>): seq<PeerLease> {
    if passes == [] then []
    else
      var p := passes[|passes|-1];
      Sent(self, ttl, passes[..|passes|-1]) + if p.found.Some? then [Heartbeat(p.found.value, self, ttl, p.renewAt)] else []
  }

  function Seen(self: PeerInfo, peers: map<string, PeerInfo>, passes: seq<Pass>): map<string, PeerInfo> {
    if passes == [] then peers
    else
      var p := passes[|passes|-1];
      if p.list.Some? then Refreshed(p.list.value, p.refreshAt, self) else Seen(self, peers, passes[..|passes|-1])
  }

  /** The release writes only over a lease that is still ours. */
  function ReleaseSent(self: PeerInfo, found: Option<PeerLease>): seq<PeerLease> {
    if found.Some? && found.value.lease.holder == Some(self.id) then [Cleared(found.value, self)] else []
  }

  // ---------- what is published is what is read ----------

  /** The lease is in the peer's name and carries its weight. */
  predicate Publishes(l: PeerLease, p: PeerInfo) {
    l.lease.holder == Some(p.id) && l.weight == Format(p.weight)
  }

  /** A heartbeat publishes its sender for ttl from the time it sampled, and keeps AcquireTime. */
  lemma HeartbeatPublishes(found: Option<PeerLease>, self: PeerInfo, ttl: int, now: int)
    ensures var l := Heartbeat(found, self, ttl, now);
      && Publishes(l, self) && l.lease.renewed == Some(now) && l.lease.seconds == Some(WholeSeconds(ttl))
      && l.lease.acquired == if found.Some? then found.value.lease.acquired else None
  {
  }

  /** A reader gets back exactly the sender, with its weight, until ttl is over. */
  lemma HeartbeatReadsBack(found: Option<PeerLease>, self: PeerInfo, ttl: int, sampled: int, now: int)
    requires self.id != "" && self.weight >= 1
    ensures Listed(Heartbeat(found, self, ttl, sampled), now) ==
      if now <= sampled + WholeSeconds(ttl) * SECOND then Some(self) else None
  {
    WeightRoundTrip(self.weight);
  }

  /** A missing, unreadable, oversized or zero annotation counts as 1, any other as its value. */
  lemma WeightOfIs(a: string)
    ensures a == "" || (exists c <- a :: !IsDigit(c)) ==> WeightOf(a) == 1
    ensures a != "" && (forall c <- a :: IsDigit(c)) ==>
      WeightOf(a) == if 0 < DigitsValue(a) < 0x1_0000_0000 then DigitsValue(a) else 1
  {
  }

  /** A live lease that names its holder. */
  predicate Live(l: PeerLease, id: string, now: int) {
    && id != "" && l.lease.holder == Some(id) && l.lease.renewed.Some? && l.lease.seconds.Some?
    && now <= l.lease.renewed.value + l.lease.seconds.value * SECOND
  }

  /** Of several live leases of one holder the last in the list counts, with its weight ... */
  lemma {:induction false} LastListedCounts(list: seq<PeerLease>, now: int, id: string, i: nat)
    requires i < |list| && Live(list[i], id, now) && forall j :: i < j < |list| ==> !Live(list[j], id, now)
    ensures id in FromList(list, now) && FromList(list, now)[id] == PeerInfo(id, WeightOf(list[i].weight))
  {
    if i < |list| - 1 { LastListedCounts(list[..|list|-1], now, id, i); }
  }

  /** ... and without one the holder is not listed. */
  lemma {:induction false} UnlistedIsAbsent(list: seq<PeerLease>, now: int, id: string)
    requires forall l <- list :: !Live(l, id, now)
    ensures id !in FromList(list, now)
  {
    if list != [] {
      assert list[|list|-1] in list && forall l <- list[..|list|-1] :: l in list;
      UnlistedIsAbsent(list[..|list|-1], now, id);
    }
  }

  /** How many of the passes could read their own lease. */
  function Successes(passes: seq<Pass>): nat {
    if passes == [] then 0 else Successes(passes[..|passes|-1]) + if passes[|passes|-1].found.Some? then 1 else 0
  }

  /** Each such pass sends one heartbeat, in order, with the clock reading of that pass. */
  lemma {:induction false} SentIs(self: PeerInfo, ttl: int, passes: seq<Pass>, i: nat)
    requires i < |passes| && passes[i].found.Some?
    ensures |Sent(self, ttl, passes)| == Successes(passes) && Successes(passes[..i]) < Successes(passes)
    ensures var l := Sent(self, ttl, passes)[Successes(passes[..i])];
      Publishes(l, self) && l.lease.renewed == Some(passes[i].renewAt) && l.lease.seconds == Some(WholeSeconds(ttl))
  {
    var rest := passes[..|passes|-1];
    SentCounts(self, ttl, passes);
    SentCounts(self, ttl, rest);
    if i < |rest| {
      assert rest[..i] == passes[..i];
      SentIs(self, ttl, rest, i);
    }
  }

  lemma {:induction false} SentCounts(self: PeerInfo, ttl: int, passes: seq<Pass>)
    ensures |Sent(self, ttl, passes)| == Successes(passes)
  {
    if passes != [] { SentCounts(self, ttl, passes[..|passes|-1]); }
  }

  /** The snapshot is that of the last pass that could list ... */
  lemma {:induction false} SeenIs(self: PeerInfo, peers: map<string, PeerInfo>, passes: seq<Pass>, i: nat)
    requires i < |passes| && passes[i].list.Some? && forall j :: i < j < |passes| ==> passes[j].list.None?
    ensures Seen(self, peers, passes) == FromList(passes[i].list.value, passes[i].refreshAt)[self.id := self]
  {
    if i < |passes| - 1 { SeenIs(self, peers, passes[..|passes|-1], i); }
  }

  /** ... or the one there was. */
  lemma {:induction false} SeenNothingNew(self: PeerInfo, peers: map<string, PeerInfo>, passes: seq<Pass>)
    requires forall p <- passes :: p.list.None?
    ensures Seen(self, peers, passes) == peers
  {
    if passes != [] {
      assert passes[|passes|-1] in passes && forall p <- passes[..|passes|-1] :: p in passes;
      SeenNothingNew(self, peers, passes[..|passes|-1]);
    }
  }

  /** A release is sent over a lease that is still ours, clearing the holder and nothing else, and not
      otherwise. */
  lemma ReleaseSentIs(self: PeerInfo, found: Option<PeerLease>)
    ensures if found.Some? && found.value.lease.holder == Some(self.id)
      then ReleaseSent(self, found) == [PeerLease(found.value.lease.(holder := Some("")), found.value.weight)]
      else ReleaseSent(self, found) == []
  {
  }

  class LeaseRegistry {
    const self: PeerInfo
    const ttl: int
    var peers: map<string, PeerInfo>

    constructor (self: PeerInfo, ttl: int)
      ensures this.self == self && this.ttl == ttl && peers == map[]
    {
      this.self, this.ttl, peers := self, ttl, map[];
    }

    /** The identity a process registers under: a normal, non-empty name and a weight of at least 1. */
    static method Identity(selfID: string, hostname: string, weight: U32) returns (info: PeerInfo)
      ensures Normal(info.id) && info.weight >= 1
      ensures selfID != "" ==> IsDns1123(selfID, info.id)
      ensures selfID == "" && hostname != "" ==> IsDns1123(hostname, info.id)
      ensures selfID == "" && hostname == "" ==> info.id == "unknown"
      ensures info.weight == if weight == 0 then 1 else weight
    {
      var name := if selfID != "" then selfID else if hostname != "" then hostname else "unknown";
      var id := DNS1123(name);
      Retraction(name, id);
      info := PeerInfo(id, if weight == 0 then 1 else weight);
    }

    /** `found` is what Get returned: an error, no lease, or a lease. */
    method RenewSelfLease(found: Option<Option<PeerLease>>, now: int) returns (write: Option<PeerLease>)
      ensures write == if found.Some? then Some(Heartbeat(found.value, self, ttl, now)) else None
    {
      if found.None? { return None; }
      match found.value {
        case None =>
          return Some(PeerLease(Lease(Some(self.id), Some(WholeSeconds(ttl)), None, Some(now)), Format(self.weight)));
        case Some(l) =>
          var lease := l.lease.(holder := Some(self.id), renewed := Some(now), seconds := Some(WholeSeconds(ttl)));
          return Some(PeerLease(lease, Format(self.weight)));
      }
    }

    /** A failed List leaves the old snapshot in place. */
    method RefreshPeers(list: Option<seq<PeerLease>>, now: int)
      modifies this
      ensures peers == if list.Some? then Refreshed(list.value, now, self) else old(peers)
    {
      if list.None? { return; }
      var items := list.value;
      var next: map<string, PeerInfo> := map[];
      for i := 0 to |items|
        invariant next == FromList(items[..i], now) && peers == old(peers)
      {
        var l := items[i];
        assert items[..i+1][..i] == items[..i] && items[..i+1][i] == l;
        if l.lease.holder.None? || l.lease.holder.value == "" { continue; }
        var id := l.lease.holder.value;
        if l.lease.renewed.None? || l.lease.seconds.None? { continue; }
        if now > l.lease.renewed.value + l.lease.seconds.value * SECOND { continue; }
        var weight: U32 := 1;
        if l.weight != "" {
          var w := ParseUint32(l.weight);
          if w.Some? && w.value > 0 { weight := w.value; }
        }
        next := next[id := PeerInfo(id, weight)];
      }
      assert items[..|items|] == items;
      next := next[self.id := PeerInfo(self.id, self.weight)];
      peers := next;
    }

    method Release(found: Option<PeerLease>) returns (sent: seq<PeerLease>)
      ensures sent == ReleaseSent(self, found)
    {
      if found.None? { return []; }
      var l := found.value;
      if l.lease.holder.None? || l.lease.holder.value != self.id { return []; }
      l := l.(lease := l.lease.(holder := Some("")));
      return [l];
    }

    /** Renew and refresh on every pass until the context ends; then, if so configured, release. */
    method Run(passes: seq<Pass>, releaseOnCancel: bool, found: Option<PeerLease>) returns (sent: seq<PeerLease>)
      modifies this
      ensures sent == Sent(self, ttl, passes) + if releaseOnCancel then ReleaseSent(self, found) else []
      ensures peers == Seen(self, old(peers), passes)
    {
      sent := [];
      for i := 0 to |passes|
        invariant sent == Sent(self, ttl, passes[..i]) && peers == Seen(self, old(peers), passes[..i])
      {
        assert passes[..i+1][..i] == passes[..i];
        var write := RenewSelfLease(passes[i].found, passes[i].renewAt);
        if write.Some? { sent := sent + [write.value]; }
        RefreshPeers(passes[i].list, passes[i].refreshAt);
      }
      assert passes[..|passes|] == passes;
      if releaseOnCancel {
        var last := Release(found);
        sent := sent + last;
      }
    }

    /** The snapshot lists every peer once, in whatever order the map yields them. */
    method Snapshot() returns (out: seq<PeerInfo>)
      ensures Members(out) == peers.Values && |out| == |peers|
    {
      out := [];
      var rest := peers.Keys;
      while rest != {}
        invariant rest <= peers.Keys && |out| + |rest| == |peers|
        invariant forall p :: p in out <==> exists k :: k in peers && k !in rest && peers[k] == p
        decreases |rest|
      {
        var k :| k in rest;
        out := out + [peers[k]];
        rest := rest - {k};
      }
      forall p ensures p in out <==> p in peers.Values {
      }
    }
  }

  // ---------- agreement ----------

  /** Each process's identity and the moment of its refresh. */
  datatype Fleet = Fleet(procs: map<string, PeerInfo>, refreshed: map<string, int>)

  predicate WellKnown(procs: map<string, PeerInfo>) {
    forall p <- procs :: procs[p].id == p && p != "" && procs[p].weight >= 1
  }

  /** At `now`, the list shows a live heartbeat of every process ... */
  ghost predicate AllPublished(procs: map<string, PeerInfo>, list: seq<PeerLease>, now: int) {
    forall p <- procs :: exists l :: l in list && Publishes(l, procs[p]) && !Expired(l.lease, now)
  }

  /** ... and no live lease of anyone else. */
  ghost predicate NoOneElse(procs: map<string, PeerInfo>, list: seq<PeerLease>, now: int) {
    forall l <- list :: Listed(l, now).Some? ==> l.lease.holder.value in procs && Publishes(l, procs[l.lease.holder.value])
  }

  /** All refresh from `list`; each lease is live for all of them or expired for all, every process
      has published a live lease, and the live leases are those heartbeats. */
  ghost predicate SameView(f: Fleet, list: seq<PeerLease>, at: int) {
    && f.procs.Keys == f.refreshed.Keys && WellKnown(f.procs)
    && (forall l <- list, p <- f.procs :: Expired(l.lease, f.refreshed[p]) == Expired(l.lease, at))
    && AllPublished(f.procs, list, at) && NoOneElse(f.procs, list, at)
  }

  lemma ViewAtRefresh(f: Fleet, list: seq<PeerLease>, at: int, p: string)
    requires SameView(f, list, at) && p in f.procs
    ensures AllPublished(f.procs, list, f.refreshed[p]) && NoOneElse(f.procs, list, f.refreshed[p])
  {
  }

  /** The map built from the list holds only processes, with their own weights, and one for every
      live lease, whatever the order of the list. */
  lemma {:induction false} FromListIs(procs: map<string, PeerInfo>, list: seq<PeerLease>, now: int)
    requires WellKnown(procs) && NoOneElse(procs, list, now)
    ensures forall p <- FromList(list, now) :: p in procs && FromList(list, now)[p] == procs[p]
    ensures forall l <- list :: Listed(l, now).Some? ==> l.lease.holder.value in FromList(list, now)
  {
    if list != [] {
      var rest, l := list[..|list|-1], list[|list|-1];
      assert forall x <- rest :: x in list;
      FromListIs(procs, rest, now);
      if Listed(l, now).Some? {
        assert l in list;
        WeightRoundTrip(procs[l.lease.holder.value].weight);
      }
      assert forall x <- list :: x in rest || x == l;
    }
  }

  /** Under one view every process computes the same snapshot: the fleet itself. */
  lemma SnapshotsAgree(f: Fleet, list: seq<PeerLease>, at: int, p: string)
    requires SameView(f, list, at) && p in f.procs
    ensures Refreshed(list, f.refreshed[p], f.procs[p]) == f.procs
  {
    var now := f.refreshed[p];
    ViewAtRefresh(f, list, at, p);
    FromListIs(f.procs, list, now);
    forall q <- f.procs ensures q in FromList(list, now) {
      var l :| l in list && Publishes(l, f.procs[q]) && !Expired(l.lease, now);
      assert Listed(l, now).Some?;
    }
  }

  /** Of all processes, each asking with its own snapshot, only `w` is told to own the cluster. */
  ghost predicate SoleProcess(f: Fleet, score: Scoring, snapshots: map<string, seq<PeerInfo>>, w: string) {
    && w in f.procs
    && forall p <- f.procs :: p in snapshots && (Owns(score, snapshots[p], p) <==> p == w)
  }

  /** Ownership agreement: with one view and distinct scores, whatever order each process's
      snapshot comes in, exactly one process is told to own the cluster. */
  lemma OwnershipAgreement(f: Fleet, list: seq<PeerLease>, at: int, score: Scoring, snapshots: map<string, seq<PeerInfo>>)
    requires SameView(f, list, at) && f.procs != map[] && DistinctScores(score, f.procs.Values)
    requires snapshots.Keys == f.procs.Keys
    requires forall p <- f.procs :: Members(snapshots[p]) == Refreshed(list, f.refreshed[p], f.procs[p]).Values
    ensures exists w :: SoleProcess(f, score, snapshots, w)
  {
    forall p <- f.procs ensures Members(snapshots[p]) == f.procs.Values { SnapshotsAgree(f, list, at, p); }
    var some :| some in f.procs;
    var w := TopProcess(f.procs, score, snapshots[some], some);
    forall p <- f.procs ensures Owns(score, snapshots[p], p) <==> p == w {
      TopIsOwner(score, snapshots[p], f.procs[w]);
    }
    assert SoleProcess(f, score, snapshots, w);
  }

  lemma TopProcess(procs: map<string, PeerInfo>, score: Scoring, snapshot: seq<PeerInfo>, some: string) returns (w: string)
    requires WellKnown(procs) && some in procs && Members(snapshot) == procs.Values && DistinctScores(score, procs.Values)
    ensures w in procs && IsTop(score, procs.Values, procs[w])
  {
    assert procs[some] in Members(snapshot);
    OwnerIsTop(score, snapshot);
    assert Owner(score, snapshot) in procs.Values;
    w :| w in procs && procs[w] == Owner(score, snapshot);
  }
}
