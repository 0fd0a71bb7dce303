/** Rendezvous hashing: the peer with the highest score owns a cluster.

    The 64-bit hash is a parameter; everything here holds for every hash. */
module Rendezvous {
  import opened WrappingScores

  type U64 = x: nat | x < TWO64
  type U32 = x: nat | x < 0x1_0000_0000
  type Hash = string -> U64

  datatype PeerInfo = PeerInfo(id: string, weight: U32)

  /** What a process scores each peer with, for one cluster. */
  type Scoring = PeerInfo -> int

  /** A weight of 0 counts as 1. */
  function Weight(p: PeerInfo): nat {
    if p.weight == 0 then 1 else p.weight
  }

  function Score(hash: Hash, cluster: string, p: PeerInfo): int {
    WrappingProduct(hash(cluster + "|" + p.id), Weight(p))
  }

  function Scores(hash: Hash, cluster: string): Scoring {
    p => Score(hash, cluster, p)
  }

  /** Position `i` holds a highest score, and is the last to do so. */
  ghost predicate IsLastMax(score: Scoring, peers: seq<PeerInfo>, i: nat) {
    && i < |peers|
    && (forall j :: 0 <= j < |peers| ==> score(peers[j]) <= score(peers[i]))
    && (forall j :: i < j < |peers| ==> score(peers[j]) < score(peers[i]))
  }

  function Winner(score: Scoring, peers: seq<PeerInfo>): (i: nat)
    requires peers != []
    ensures IsLastMax(score, peers, i)
  {
    var n := |peers| - 1;
    if n == 0 then 0
    else
      var w := Winner(score, peers[..n]);
      if score(peers[n]) >= score(peers[..n][w]) then n else w
  }

  function Owner(score: Scoring, peers: seq<PeerInfo>): PeerInfo
    requires peers != []
  {
    peers[Winner(score, peers)]
  }

  /** The answer of ShouldOwn; an empty snapshot says yes. */
  predicate Owns(score: Scoring, peers: seq<PeerInfo>, id: string) {
    peers == [] || Owner(score, peers).id == id
  }

  /** The 64-bit unsigned value of the hash of "cluster|id" times the weight, 0 counting as 1. */
  lemma ScoreIs(hash: Hash, cluster: string, p: PeerInfo)
    ensures 0 <= Score(hash, cluster, p) < TWO64
    ensures Divides(TWO64, Score(hash, cluster, p) - hash(cluster + "|" + p.id) * (if p.weight == 0 then 1 else p.weight))
  {
    var x := hash(cluster + "|" + p.id) * (if p.weight == 0 then 1 else p.weight);
    DivMod(x, TWO64);
    assert x % TWO64 - x == (-(x / TWO64)) * TWO64;
  }

  /** `s` lists what the peers score: the 64-bit values of their products. */
  ghost predicate ScoreList(hash: Hash, cluster: string, peers: seq<PeerInfo>, s: seq<int>) {
    && |s| == |peers|
    && forall i :: 0 <= i < |peers| ==>
         0 <= s[i] < TWO64 &&
         Divides(TWO64, s[i] - hash(cluster + "|" + peers[i].id) * (if peers[i].weight == 0 then 1 else peers[i].weight))
  }

  /** The id stands at the last position of a highest score. */
  ghost predicate LastHighest(peers: seq<PeerInfo>, s: seq<int>, id: string)
    requires |s| == |peers|
  {
    exists i :: 0 <= i < |peers| && peers[i].id == id
      && (forall j :: 0 <= j < |peers| ==> s[j] <= s[i]) && (forall j :: i < j < |peers| ==> s[j] < s[i])
  }

  lemma SmallResidues(a: int, b: int)
    requires 0 <= a < TWO64 && 0 <= b < TWO64 && Divides(TWO64, a - b)
    ensures a == b
  {
    CongruentIff(a, b, TWO64);
  }

  lemma ScoreListIs(hash: Hash, cluster: string, peers: seq<PeerInfo>, s: seq<int>, i: nat)
    requires ScoreList(hash, cluster, peers, s) && i < |peers|
    ensures s[i] == Score(hash, cluster, peers[i])
  {
    var p := peers[i];
    var x := hash(cluster + "|" + p.id) * (if p.weight == 0 then 1 else p.weight);
    ScoreIs(hash, cluster, p);
    CongruentIff(s[i], x, TWO64);
    CongruentIff(Score(hash, cluster, p), x, TWO64);
    CongruentIff(s[i], Score(hash, cluster, p), TWO64);
    SmallResidues(s[i], Score(hash, cluster, p));
  }

  /** Who owns, by the scores alone: the peer last listed with the highest one. */
  lemma OwnsIff(hash: Hash, cluster: string, peers: seq<PeerInfo>, s: seq<int>, id: string)
    requires ScoreList(hash, cluster, peers, s)
    ensures Owns(Scores(hash, cluster), peers, id) <==> peers == [] || LastHighest(peers, s, id)
  {
    var score := Scores(hash, cluster);
    forall i | 0 <= i < |peers| ensures s[i] == score(peers[i]) { ScoreListIs(hash, cluster, peers, s, i); }
    if peers != [] {
      var w := Winner(score, peers);
      assert IsLastMax(score, peers, w);
      if LastHighest(peers, s, id) {
        var i :| 0 <= i < |peers| && peers[i].id == id
          && (forall j :: 0 <= j < |peers| ==> s[j] <= s[i]) && (forall j :: i < j < |peers| ==> s[j] < s[i]);
        LastMaxIsUnique(score, peers, i, w);
      }
      if peers[w].id == id {
        assert forall j :: 0 <= j < |peers| ==> s[j] <= s[w];
      }
    }
  }

  /** The products themselves, when none of them wraps around. */
  ghost predicate Products(hash: Hash, cluster: string, peers: seq<PeerInfo>, s: seq<int>) {
    && |s| == |peers|
    && forall i :: 0 <= i < |peers| ==>
         s[i] == hash(cluster + "|" + peers[i].id) * (if peers[i].weight == 0 then 1 else peers[i].weight) && s[i] < TWO64
  }

  lemma ProductsAreScores(hash: Hash, cluster: string, peers: seq<PeerInfo>, s: seq<int>)
    requires Products(hash, cluster, peers, s)
    ensures ScoreList(hash, cluster, peers, s)
  {
    forall i | 0 <= i < |peers|
      ensures 0 <= s[i]
      ensures Divides(TWO64, s[i] - hash(cluster + "|" + peers[i].id) * (if peers[i].weight == 0 then 1 else peers[i].weight))
    {
      assert 0 == 0 * TWO64;
    }
  }

  /** Answers yes to an empty list, and otherwise to the id of the last peer with the highest score,
      which without wrap-around is the highest product of hash and weight. */
  method ShouldOwn(hash: Hash, cluster: string, peers: seq<PeerInfo>, self: PeerInfo) returns (r: bool)
    ensures r == Owns(Scores(hash, cluster), peers, self.id)
    ensures forall s :: ScoreList(hash, cluster, peers, s) ==> (r <==> peers == [] || LastHighest(peers, s, self.id))
    ensures forall s :: Products(hash, cluster, peers, s) ==> (r <==> peers == [] || LastHighest(peers, s, self.id))
  {
    forall s | ScoreList(hash, cluster, peers, s) { OwnsIff(hash, cluster, peers, s, self.id); }
    forall s | Products(hash, cluster, peers, s) { ProductsAreScores(hash, cluster, peers, s); }
    if |peers| == 0 { return true; }
    var best := PeerInfo("", 0);
    var bestScore := 0;
    ghost var at := 0;
    ghost var score := Scores(hash, cluster);
    for i := 0 to |peers|
      invariant i == 0 ==> bestScore == 0
      invariant i > 0 ==> IsLastMax(score, peers[..i], at) && best.id == peers[at].id && bestScore == score(peers[at])
    {
      var p := peers[i];
      if p.weight == 0 { p := p.(weight := 1); }
      var s := WrappingProduct(hash(cluster + "|" + p.id), p.weight);
      assert s == score(peers[i]);
      if s >= bestScore {
        bestScore := s;
        best := p;
        at := i;
      }
    }
    assert peers[..|peers|] == peers;
    LastMaxIsUnique(score, peers, at, Winner(score, peers));
    return best.id == self.id;
  }

  lemma LastMaxIsUnique(score: Scoring, peers: seq<PeerInfo>, i: nat, j: nat)
    requires IsLastMax(score, peers, i) && IsLastMax(score, peers, j)
    ensures i == j
  {
    assert score(peers[i]) == score(peers[j]);
  }

  // ---------- one winner ----------

  ghost predicate DistinctIds(peers: seq<PeerInfo>) {
    forall p, q :: p in peers && q in peers && p.id == q.id ==> p == q
  }

  /** `w` is listed, and of all listed peers only it is told to own the cluster. */
  ghost predicate SoleOwner(score: Scoring, peers: seq<PeerInfo>, w: PeerInfo) {
    w in peers && forall p <- peers :: Owns(score, peers, p.id) <==> p == w
  }

  /** Among listed peers with distinct ids, exactly one is told to own the cluster. */
  lemma ExactlyOneOwner(score: Scoring, peers: seq<PeerInfo>)
    requires peers != [] && DistinctIds(peers)
    ensures exists w :: SoleOwner(score, peers, w)
  {
    var w := Owner(score, peers);
    assert w in peers;
    forall p <- peers ensures Owns(score, peers, p.id) <==> p == w {
      if Owns(score, peers, p.id) { assert p.id == w.id; }
    }
    assert SoleOwner(score, peers, w);
  }

  /** `w` scores strictly above every other peer of the set. */
  ghost predicate IsTop(score: Scoring, peers: set<PeerInfo>, w: PeerInfo) {
    w in peers && forall q <- peers :: q != w ==> score(q) < score(w)
  }

  ghost predicate DistinctScores(score: Scoring, peers: set<PeerInfo>) {
    forall p <- peers, q <- peers :: p != q ==> score(p) != score(q)
  }

  function Members(peers: seq<PeerInfo>): set<PeerInfo> {
    set p <- peers :: p
  }

  lemma OwnerScoresHighest(score: Scoring, peers: seq<PeerInfo>, q: PeerInfo)
    requires q in peers
    ensures peers != [] && Owner(score, peers) in peers && score(q) <= score(Owner(score, peers))
  {
    var j :| 0 <= j < |peers| && peers[j] == q;
  }

  lemma OwnerIsTop(score: Scoring, peers: seq<PeerInfo>)
    requires peers != [] && DistinctScores(score, Members(peers))
    ensures IsTop(score, Members(peers), Owner(score, peers))
  {
    var w := Owner(score, peers);
    assert w in peers;
    forall q <- Members(peers) ensures q != w ==> score(q) < score(w) { OwnerScoresHighest(score, peers, q); }
  }

  lemma TopIsOwner(score: Scoring, peers: seq<PeerInfo>, w: PeerInfo)
    requires IsTop(score, Members(peers), w)
    ensures peers != [] && Owner(score, peers) == w
  {
    assert w in peers;
    OwnerScoresHighest(score, peers, w);
    assert Owner(score, peers) in Members(peers);
  }

  lemma SameMembers(a: seq<PeerInfo>, b: seq<PeerInfo>)
    requires multiset(a) == multiset(b)
    ensures Members(a) == Members(b)
  {
    forall p ensures p in a <==> p in b {
      assert p in a <==> p in multiset(a);
      assert p in b <==> p in multiset(b);
    }
  }

  /** A peer with a highest score wins once it is listed last. */
  lemma ListedLastWins(score: Scoring, others: seq<PeerInfo>, q: PeerInfo)
    requires forall p <- others :: score(p) <= score(q)
    ensures Owner(score, others + [q]) == q
  {
    var all := others + [q];
    assert IsLastMax(score, all, |others|);
    LastMaxIsUnique(score, all, |others|, Winner(score, all));
  }

  ghost predicate OrderIndependent(score: Scoring, peers: seq<PeerInfo>)
    requires peers != []
  {
    forall other :: multiset(other) == multiset(peers) && other != [] ==> Owner(score, other) == Owner(score, peers)
  }

  lemma TopIsOrderIndependent(score: Scoring, peers: seq<PeerInfo>)
    requires peers != [] && IsTop(score, Members(peers), Owner(score, peers))
    ensures OrderIndependent(score, peers)
  {
    forall other | multiset(other) == multiset(peers) && other != []
      ensures Owner(score, other) == Owner(score, peers)
    {
      SameMembers(other, peers);
      TopIsOwner(score, other, Owner(score, peers));
    }
  }

  lemma MovedLast(peers: seq<PeerInfo>, q: PeerInfo) returns (others: seq<PeerInfo>)
    requires q in peers
    ensures multiset(others + [q]) == multiset(peers)
  {
    var j :| 0 <= j < |peers| && peers[j] == q;
    others := peers[..j] + peers[j+1..];
    assert peers == peers[..j] + [q] + peers[j+1..];
  }

  /** A peer tied with the owner wins in another order of the same snapshot. */
  lemma TieDependsOnOrder(score: Scoring, peers: seq<PeerInfo>, q: PeerInfo)
    requires q in peers && q != Owner(score, peers) && score(q) >= score(Owner(score, peers))
    ensures !OrderIndependent(score, peers)
  {
    var others := MovedLast(peers, q);
    SameMembers(others + [q], peers);
    forall p <- others ensures score(p) <= score(q) {
      assert p in others + [q];
      assert p in Members(peers);
      OwnerScoresHighest(score, peers, p);
    }
    ListedLastWins(score, others, q);
  }

  /** The owner does not depend on the order of the snapshot exactly when one peer alone has the
      highest score; the sharder's comment promises it without this condition. */
  lemma OrderIndependentIff(score: Scoring, peers: seq<PeerInfo>)
    requires peers != []
    ensures OrderIndependent(score, peers) <==> exists w :: IsTop(score, Members(peers), w)
  {
    var w := Owner(score, peers);
    if t :| IsTop(score, Members(peers), t) {
      TopIsOwner(score, peers, t);
      TopIsOrderIndependent(score, peers);
    } else {
      assert w in peers && !IsTop(score, Members(peers), w);
      var q :| q in Members(peers) && q != w && score(q) >= score(w);
      TieDependsOnOrder(score, peers, q);
    }
  }

  // ---------- minimal disruption ----------

  /** Removing `gone` from the members changes the owner only of clusters it owned; read the other
      way, adding it moves clusters only to it. The two snapshots may list peers in any order. */
  lemma MembershipChangeIsMinimal(score: Scoring, full: seq<PeerInfo>, rest: seq<PeerInfo>, gone: PeerInfo)
    requires rest != [] && Members(full) == Members(rest) + {gone} && gone !in Members(rest)
    requires DistinctScores(score, Members(full))
    ensures full != [] && Owner(score, full) in {gone, Owner(score, rest)}
  {
    assert gone in Members(full);
    OwnerIsTop(score, full);
    var w := Owner(score, full);
    if w != gone {
      assert IsTop(score, Members(rest), w);
      TopIsOwner(score, rest, w);
    }
  }

  /** Changing one peer's weight moves clusters only to or from that peer. */
  lemma WeightChangeIsMinimal(score: Scoring, before: seq<PeerInfo>, after: seq<PeerInfo>, rest: set<PeerInfo>,
      was: PeerInfo, now: PeerInfo)
    requires was.id == now.id && was !in rest && now !in rest
    requires Members(before) == rest + {was} && Members(after) == rest + {now}
    requires DistinctScores(score, Members(before)) && DistinctScores(score, Members(after))
    ensures before != [] && after != []
    ensures Owner(score, before) == Owner(score, after) || Owner(score, before) == was || Owner(score, after) == now
  {
    assert was in Members(before) && now in Members(after);
    OwnerIsTop(score, before);
    OwnerIsTop(score, after);
  }

  // ---------- ties ----------

  /** Equal odd weights tie only on a hash collision. */
  lemma OddWeightTies(hash: Hash, cluster: string, p: PeerInfo, q: PeerInfo)
    requires var w, v := if p.weight == 0 then 1 else p.weight, if q.weight == 0 then 1 else q.weight; w == v && w % 2 == 1
    ensures Score(hash, cluster, p) == Score(hash, cluster, q) <==>
      hash(cluster + "|" + p.id) == hash(cluster + "|" + q.id)
  {
    ProductsTieIff(hash(cluster + "|" + p.id), hash(cluster + "|" + q.id), 0, if p.weight == 0 then 1 else p.weight);
    Pow2Of64();
  }

  /** A weight divisible by 2^k gives only scores divisible by 2^k. */
  lemma ScoreDivisible(hash: Hash, cluster: string, p: PeerInfo, k: nat)
    requires k <= 64 && (if p.weight == 0 then 1 else p.weight) % Pow2(k) == 0
    ensures Score(hash, cluster, p) % Pow2(k) == 0
  {
    ProductDivisible(hash(cluster + "|" + p.id), Weight(p), k);
  }
}
