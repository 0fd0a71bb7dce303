/** The multi-cluster controller's cluster-by-source matrix of watches. */
module WatchMatrix {

  /** Whether a source's filter lets it watch the named cluster; the nats name a source and a
      cluster object. */
  type Accepts = (nat, string, nat) -> bool

  /** An engaged cluster; its context is its own, so it also stands for the cleanup token. */
  datatype Engaged = Engaged(cluster: nat, ctx: nat)

  /** A watch of a source, started to end with a context. */
  datatype Watch = Watch(ctx: nat, src: nat)

  /** `done` are the contexts that have ended, whether cancelled here or by a parent. */
  datatype Matrix = Matrix(
    clusters: map<string, Engaged>, sources: seq<nat>, watches: multiset<Watch>, done: set<nat>, contexts: nat)

  const EMPTY := Matrix(map[], [], multiset{}, {}, 0)

  /** The watches one cluster gets from the given sources. */
  function ForSources(ok: Accepts, e: Engaged, name: string, sources: seq<nat>): multiset<Watch> {
    if sources == [] then multiset{}
    else
      var n := |sources| - 1;
      ForSources(ok, e, name, sources[..n])
        + if ok(sources[n], name, e.cluster) then multiset{Watch(e.ctx, sources[n])} else multiset{}
  }

  /** The watches one source gets from the given clusters. */
  function ForClusters(ok: Accepts, clusters: map<string, Engaged>, names: seq<string>, src: nat): multiset<Watch>
    requires forall n <- names :: n in clusters
  {
    if names == [] then multiset{}
    else
      var n := names[|names|-1];
      assert forall m <- names[..|names|-1] :: m in names;
      ForClusters(ok, clusters, names[..|names|-1], src)
        + if ok(src, n, clusters[n].cluster) then multiset{Watch(clusters[n].ctx, src)} else multiset{}
  }

  // ---------- the operations, each under the controller's lock ----------

  /** The name is engaged with this very cluster and that engagement is live. */
  predicate Unchanged(m: Matrix, name: string, cluster: nat) {
    name in m.clusters && m.clusters[name].cluster == cluster && m.clusters[name].ctx !in m.done
  }

  function Disengaged(m: Matrix, name: string): Matrix {
    if name in m.clusters then m.(clusters := m.clusters - {name}, done := m.done + {m.clusters[name].ctx}) else m
  }

  /** Engaging a name that is free. `failAt` is the position of the first source that fails, or the
      number of sources; `refused` says that the controller itself, being cluster-aware, refused. */
  function EngageFree(ok: Accepts, m: Matrix, name: string, cluster: nat, refused: bool, failAt: nat): Matrix {
    var e := Engaged(cluster, m.contexts);
    if refused then m.(done := m.done + {e.ctx}, contexts := m.contexts + 1)
    else if failAt < |m.sources| then
      m.(watches := m.watches + ForSources(ok, e, name, m.sources[..failAt]),
         done := m.done + {e.ctx}, contexts := m.contexts + 1)
    else
      m.(clusters := m.clusters[name := e], watches := m.watches + ForSources(ok, e, name, m.sources),
         contexts := m.contexts + 1)
  }

  function Engage(ok: Accepts, m: Matrix, name: string, cluster: nat, refused: bool, failAt: nat): Matrix {
    if Unchanged(m, name, cluster) then m else EngageFree(ok, Disengaged(m, name), name, cluster, refused, failAt)
  }

  /** The clusters come in whatever order the map yields them. */
  ghost predicate Enumerates(names: seq<string>, clusters: map<string, Engaged>) {
    && (forall n <- names :: n in clusters) && (forall n <- clusters :: n in names)
    && forall i, j :: 0 <= i < j < |names| ==> names[i] != names[j]
  }

  /** MultiClusterWatch; `failAt` is the position of the first cluster that fails. */
  function AddSource(ok: Accepts, m: Matrix, src: nat, names: seq<string>, failAt: nat): Matrix
    requires forall n <- names :: n in m.clusters
  {
    if failAt < |names| then
      assert forall n <- names[..failAt] :: n in names;
      m.(watches := m.watches + ForClusters(ok, m.clusters, names[..failAt], src))
    else
      m.(watches := m.watches + ForClusters(ok, m.clusters, names, src), sources := m.sources + [src])
  }

  /** The goroutine waiting for an engagement's context: it removes that engagement only. */
  function Cleanup(m: Matrix, name: string, token: nat): Matrix {
    if name in m.clusters && m.clusters[name].ctx == token then m.(clusters := m.clusters - {name}) else m
  }

  /** Contexts are numbered as they are made, and no two engaged clusters share one. */
  ghost predicate Sound(m: Matrix) {
    && (forall n <- m.clusters :: m.clusters[n].ctx < m.contexts)
    && (forall n <- m.clusters, k <- m.clusters :: m.clusters[n].ctx == m.clusters[k].ctx ==> n == k)
    && (forall w <- m.watches :: w.ctx < m.contexts)
    && (forall ctx <- m.done :: ctx < m.contexts)
  }

  /** From `m` to `t`: the name is engaged anew with this cluster, under a new context that has not
      ended and has one watch per registration of each accepting source; the context it may have had
      has ended, and nothing else has changed. */
  ghost predicate EngagedAnew(ok: Accepts, m: Matrix, t: Matrix, name: string, cluster: nat) {
    && t.clusters == m.clusters[name := Engaged(cluster, m.contexts)]
    && t.contexts == m.contexts + 1 && m.contexts !in t.done && t.sources == m.sources
    && t.done == m.done + (if name in m.clusters then {m.clusters[name].ctx} else {})
    && (forall w: Watch :: t.watches[w] ==
         if w.ctx == m.contexts then (if ok(w.src, name, cluster) then multiset(m.sources)[w.src] else 0) else m.watches[w])
  }

  /** From `m` to `t`: nothing is engaged under the name, the context it may have had and the one that
      was tried have ended, the latter with watches of the sources `tried`, and nothing else has changed. */
  ghost predicate NotEngaged(ok: Accepts, m: Matrix, t: Matrix, name: string, cluster: nat, tried: seq<nat>) {
    && t.clusters == m.clusters - {name}
    && t.contexts == m.contexts + 1 && t.sources == m.sources
    && t.done == m.done + {m.contexts} + (if name in m.clusters then {m.clusters[name].ctx} else {})
    && (forall w: Watch :: t.watches[w] ==
         if w.ctx == m.contexts then (if ok(w.src, name, cluster) then multiset(tried)[w.src] else 0) else m.watches[w])
  }

  /** What Engage comes to, by its outcome. */
  lemma EngageOutcome(ok: Accepts, m: Matrix, name: string, cluster: nat, refused: bool, failAt: nat)
    requires Sound(m)
    ensures
      var t := Engage(ok, m, name, cluster, refused, failAt);
      if name in m.clusters && m.clusters[name].cluster == cluster && m.clusters[name].ctx !in m.done then t == m
      else if !refused && failAt >= |m.sources| then EngagedAnew(ok, m, t, name, cluster)
      else NotEngaged(ok, m, t, name, cluster, if refused then [] else m.sources[..failAt])
  {
    if !(name in m.clusters && m.clusters[name].cluster == cluster && m.clusters[name].ctx !in m.done) {
      if !refused && failAt >= |m.sources| {
        EngageSucceeds(ok, m, name, cluster, failAt);
      } else {
        EngageFails(ok, m, name, cluster, refused, failAt);
      }
    }
  }

  lemma EngageSucceeds(ok: Accepts, m: Matrix, name: string, cluster: nat, failAt: nat)
    requires Sound(m) && failAt >= |m.sources|
    ensures EngagedAnew(ok, m, EngageFree(ok, Disengaged(m, name), name, cluster, false, failAt), name, cluster)
  {
    var t := EngageFree(ok, Disengaged(m, name), name, cluster, false, failAt);
    forall w: Watch
      ensures t.watches[w] ==
        if w.ctx == m.contexts then (if ok(w.src, name, cluster) then multiset(m.sources)[w.src] else 0) else m.watches[w]
    {
      ForSourcesCounts(ok, Engaged(cluster, m.contexts), name, m.sources, w);
      assert w.ctx == m.contexts ==> w !in m.watches;
    }
  }

  lemma EngageFails(ok: Accepts, m: Matrix, name: string, cluster: nat, refused: bool, failAt: nat)
    requires Sound(m) && (refused || failAt < |m.sources|)
    ensures NotEngaged(ok, m, EngageFree(ok, Disengaged(m, name), name, cluster, refused, failAt), name, cluster,
      if refused then [] else m.sources[..failAt])
  {
    var t := EngageFree(ok, Disengaged(m, name), name, cluster, refused, failAt);
    var tried := if refused then [] else m.sources[..failAt];
    forall w: Watch
      ensures t.watches[w] ==
        if w.ctx == m.contexts then (if ok(w.src, name, cluster) then multiset(tried)[w.src] else 0) else m.watches[w]
    {
      ForSourcesCounts(ok, Engaged(cluster, m.contexts), name, tried, w);
      assert w.ctx == m.contexts ==> w !in m.watches;
    }
  }

  /** From `m` to `t`: each of the given clusters that accepts the source has one watch of it more,
      under its own context, and nothing else has changed but the sources. */
  ghost predicate WatchedIn(ok: Accepts, m: Matrix, t: Matrix, src: nat, names: seq<string>) {
    && t.clusters == m.clusters && t.done == m.done && t.contexts == m.contexts
    && (forall n <- m.clusters, s :: t.watches[Watch(m.clusters[n].ctx, s)] == m.watches[Watch(m.clusters[n].ctx, s)] +
         if n in names && s == src && ok(src, n, m.clusters[n].cluster) then 1 else 0)
    && (forall w: Watch :: (forall n <- m.clusters :: m.clusters[n].ctx != w.ctx) ==> t.watches[w] == m.watches[w])
  }

  /** What MultiClusterWatch comes to: on success every accepting cluster watches the source and it is
      registered, on failure those before the failing one watch it and it is not. */
  lemma WatchOutcome(ok: Accepts, m: Matrix, src: nat, names: seq<string>, failAt: nat)
    requires Sound(m) && Enumerates(names, m.clusters)
    ensures
      var t := AddSource(ok, m, src, names, failAt);
      && WatchedIn(ok, m, t, src, if failAt < |names| then names[..failAt] else names)
      && t.sources == if failAt < |names| then m.sources else m.sources + [src]
  {
    var t := AddSource(ok, m, src, names, failAt);
    var part := if failAt < |names| then names[..failAt] else names;
    assert forall n <- part :: n in names;
    forall n <- m.clusters, s
      ensures t.watches[Watch(m.clusters[n].ctx, s)] == m.watches[Watch(m.clusters[n].ctx, s)] +
        if n in part && s == src && ok(src, n, m.clusters[n].cluster) then 1 else 0
    {
      ForClustersCounts(ok, m.clusters, part, src, n, s);
    }
    forall w: Watch | forall n <- m.clusters :: m.clusters[n].ctx != w.ctx ensures t.watches[w] == m.watches[w] {
      ForClustersUnder(ok, m.clusters, part, src, w);
    }
  }

  lemma SoundWatched(ok: Accepts, m: Matrix, src: nat, names: seq<string>, failAt: nat)
    requires Sound(m) && Enumerates(names, m.clusters)
    ensures Sound(AddSource(ok, m, src, names, failAt))
  {
    var t := AddSource(ok, m, src, names, failAt);
    var part := if failAt < |names| then names[..failAt] else names;
    assert forall n <- part :: n in names;
    forall w <- t.watches ensures w.ctx < t.contexts { ForClustersUnder(ok, m.clusters, part, src, w); }
  }

  lemma SoundEngaged(ok: Accepts, m: Matrix, name: string, cluster: nat, refused: bool, failAt: nat)
    requires Sound(m)
    ensures Sound(Engage(ok, m, name, cluster, refused, failAt))
  {
    EngageOutcome(ok, m, name, cluster, refused, failAt);
  }

  // ---------- the controller in place ----------

  class Controller {
    const ok: Accepts
    var clusters: map<string, Engaged>
    var sources: seq<nat>
    var watches: multiset<Watch>
    var done: set<nat>
    var contexts: nat

    constructor (ok: Accepts)
      ensures this.ok == ok && State() == EMPTY && Sound(State())
    {
      this.ok, clusters, sources, watches, done, contexts := ok, map[], [], multiset{}, {}, 0;
    }

    function State(): Matrix
      reads this
    {
      Matrix(clusters, sources, watches, done, contexts)
    }

    /** Starts the sources' watches for one cluster, up to the first failure. */
    method WatchSources(name: string, e: Engaged, failAt: nat) returns (success: bool)
      modifies this`watches
      ensures success <==> failAt >= |sources|
      ensures watches == old(watches) + ForSources(ok, e, name, if success then sources else sources[..failAt])
    {
      for i := 0 to |sources|
        invariant i <= failAt && watches == old(watches) + ForSources(ok, e, name, sources[..i])
      {
        if i == failAt { return false; }
        assert sources[..i+1][..i] == sources[..i];
        if ok(sources[i], name, e.cluster) { watches := watches + multiset{Watch(e.ctx, sources[i])}; }
      }
      assert sources[..|sources|] == sources;
      return true;
    }

    /** Stops and forgets whatever is engaged under the name. */
    method Disengage(name: string)
      modifies this`clusters, this`done
      ensures State() == Disengaged(old(State()), name)
    {
      if name in clusters {
        if clusters[name].ctx !in done { done := done + {clusters[name].ctx}; }
        clusters := clusters - {name};
      }
    }

    method EngageFreeName(name: string, cluster: nat, refused: bool, failAt: nat) returns (success: bool)
      modifies this
      ensures State() == EngageFree(ok, old(State()), name, cluster, refused, failAt)
      ensures success <==> !refused && failAt >= |old(sources)|
    {
      var e := Engaged(cluster, contexts);
      contexts := contexts + 1;
      if refused {
        done := done + {e.ctx};
        return false;
      }
      success := WatchSources(name, e, failAt);
      if success { clusters := clusters[name := e]; } else { done := done + {e.ctx}; }
    }

    /** Leaves a live engagement of the same cluster alone; otherwise the name is engaged anew, or, if
        the controller or a source fails, not at all. */
    method EngageCluster(name: string, cluster: nat, refused: bool, failAt: nat) returns (success: bool)
      requires Sound(State())
      modifies this
      ensures Sound(State()) && State() == Engage(ok, old(State()), name, cluster, refused, failAt)
      ensures
        var same := name in old(clusters) && old(clusters)[name].cluster == cluster && old(clusters)[name].ctx !in old(done);
        && (success <==> same || (!refused && failAt >= |old(sources)|))
        && (same ==> State() == old(State()))
        && (success && !same ==> EngagedAnew(ok, old(State()), State(), name, cluster))
        && (!success ==> NotEngaged(ok, old(State()), State(), name, cluster,
              if refused then [] else old(sources)[..failAt]))
    {
      EngageOutcome(ok, State(), name, cluster, refused, failAt);
      SoundEngaged(ok, State(), name, cluster, refused, failAt);
      if name in clusters && clusters[name].cluster == cluster && clusters[name].ctx !in done { return true; }
      Disengage(name);
      success := EngageFreeName(name, cluster, refused, failAt);
    }

    /** Starts one source's watches in the given clusters, up to the first failure. */
    method WatchClusters(src: nat, names: seq<string>, failAt: nat) returns (success: bool)
      requires forall n <- names :: n in clusters
      modifies this`watches
      ensures success <==> failAt >= |names|
      ensures forall n <- names[..if success then |names| else failAt] :: n in clusters
      ensures watches == old(watches) + ForClusters(ok, clusters, names[..if success then |names| else failAt], src)
    {
      for i := 0 to |names|
        invariant i <= failAt && forall n <- names[..i] :: n in clusters
        invariant watches == old(watches) + ForClusters(ok, clusters, names[..i], src)
      {
        if i == failAt { return false; }
        assert names[i] in names;
        var e := clusters[names[i]];
        assert names[..i+1][..i] == names[..i];
        if ok(src, names[i], e.cluster) { watches := watches + multiset{Watch(e.ctx, src)}; }
      }
      return true;
    }

    method MultiClusterWatch(src: nat, names: seq<string>, failAt: nat) returns (success: bool)
      requires Sound(State()) && Enumerates(names, clusters)
      modifies this`watches, this`sources
      ensures Sound(State()) && State() == AddSource(ok, old(State()), src, names, failAt)
      ensures success <==> failAt >= |names|
      ensures WatchedIn(ok, old(State()), State(), src, if success then names else names[..failAt])
      ensures sources == if success then old(sources) + [src] else old(sources)
    {
      WatchOutcome(ok, State(), src, names, failAt);
      SoundWatched(ok, State(), src, names, failAt);
      success := WatchClusters(src, names, failAt);
      if success {
        assert names[..|names|] == names;
        sources := sources + [src];
      }
    }

    method OnContextDone(name: string, token: nat)
      requires Sound(State())
      modifies this
      ensures Sound(State()) && State() == Cleanup(old(State()), name, token)
      ensures clusters ==
        if name in old(clusters) && old(clusters)[name].ctx == token then old(clusters) - {name} else old(clusters)
      ensures State() == old(State()).(clusters := clusters)
    {
      if name in clusters && clusters[name].ctx == token { clusters := clusters - {name}; }
    }
  }

  // ---------- runs ----------

  datatype Event =
    | Engaging(name: string, cluster: nat, refused: bool, failAt: nat)
    | Watching(src: nat, names: seq<string>)
    | Ending(ctx: nat)
    | Cleaning(name: string, token: nat)

  /** MultiClusterWatch visits the engaged clusters in some order and does not fail; a cleanup runs
      only once its context has ended; contexts that do not exist cannot end. */
  ghost predicate Possible(m: Matrix, ev: Event) {
    match ev
    case Engaging(_, _, _, _) => true
    case Watching(_, names) => Enumerates(names, m.clusters)
    case Ending(ctx) => ctx < m.contexts
    case Cleaning(_, token) => token in m.done
  }

  function After(ok: Accepts, m: Matrix, ev: Event): Matrix
    requires Possible(m, ev)
  {
    match ev
    case Engaging(name, cluster, refused, failAt) => Engage(ok, m, name, cluster, refused, failAt)
    case Watching(src, names) => AddSource(ok, m, src, names, |names|)
    case Ending(ctx) => m.(done := m.done + {ctx})
    case Cleaning(name, token) => Cleanup(m, name, token)
  }

  ghost predicate Next(ok: Accepts, m: Matrix, t: Matrix) {
    exists ev :: Possible(m, ev) && t == After(ok, m, ev)
  }

  ghost predicate IsRun(ok: Accepts, run: seq<Matrix>) {
    |run| > 0 && run[0] == EMPTY && forall i :: 0 < i < |run| ==> Next(ok, run[i-1], run[i])
  }

  /** The watches of a source under an engagement: one for each time the source was registered. */
  ghost predicate Covered(ok: Accepts, m: Matrix, name: string, src: nat)
    requires name in m.clusters
  {
    var e := m.clusters[name];
    m.watches[Watch(e.ctx, src)] == if ok(src, name, e.cluster) then multiset(m.sources)[src] else 0
  }

  ghost predicate Complete(ok: Accepts, m: Matrix) {
    && Sound(m)
    && (forall n <- m.clusters, src :: Covered(ok, m, n, src))
    && (forall ctx: nat :: ctx < m.contexts ==> ctx in m.done || exists n :: n in m.clusters && m.clusters[n].ctx == ctx)
  }

  lemma {:induction false} ForSourcesCounts(ok: Accepts, e: Engaged, name: string, sources: seq<nat>, w: Watch)
    ensures ForSources(ok, e, name, sources)[w] ==
      if w.ctx == e.ctx && ok(w.src, name, e.cluster) then multiset(sources)[w.src] else 0
  {
    if sources != [] {
      var n := |sources| - 1;
      ForSourcesCounts(ok, e, name, sources[..n], w);
      assert sources == sources[..n] + [sources[n]];
    }
  }

  lemma {:induction false} ForClustersCounts(ok: Accepts, clusters: map<string, Engaged>, names: seq<string>, src: nat,
      n: string, s: nat)
    requires (forall m <- names :: m in clusters) && n in clusters
    requires forall i, j :: 0 <= i < j < |names| ==> names[i] != names[j]
    requires forall a <- clusters, b <- clusters :: clusters[a].ctx == clusters[b].ctx ==> a == b
    ensures ForClusters(ok, clusters, names, src)[Watch(clusters[n].ctx, s)] ==
      if n in names && s == src && ok(src, n, clusters[n].cluster) then 1 else 0
  {
    if names != [] {
      var rest, last := names[..|names|-1], names[|names|-1];
      assert forall m <- rest :: m in names;
      ForClustersCounts(ok, clusters, rest, src, n, s);
      assert n in names <==> n in rest || n == last;
      assert last !in rest;
    }
  }

  lemma CompleteDisengaged(ok: Accepts, m: Matrix, name: string)
    requires Complete(ok, m)
    ensures Complete(ok, Disengaged(m, name))
  {
    var d := Disengaged(m, name);
    forall n <- d.clusters, src ensures Covered(ok, d, n, src) { assert Covered(ok, m, n, src); }
    forall ctx: nat | ctx < d.contexts ensures ctx in d.done || exists n :: n in d.clusters && d.clusters[n].ctx == ctx {
      if ctx !in m.done {
        var n :| n in m.clusters && m.clusters[n].ctx == ctx;
        assert n != name ==> n in d.clusters;
      }
    }
  }

  /** A cluster that is newly engaged, or whose engagement failed part way. */
  lemma CompleteEngaged(ok: Accepts, m: Matrix, name: string, cluster: nat, refused: bool, failAt: nat)
    requires Complete(ok, m) && name !in m.clusters
    ensures Complete(ok, EngageFree(ok, m, name, cluster, refused, failAt))
  {
    var t := EngageFree(ok, m, name, cluster, refused, failAt);
    var e := Engaged(cluster, m.contexts);
    var used := if refused then [] else if failAt < |m.sources| then m.sources[..failAt] else m.sources;
    assert t.watches == m.watches + ForSources(ok, e, name, used);
    forall w <- t.watches ensures w.ctx < t.contexts { ForSourcesCounts(ok, e, name, used, w); }
    forall n <- t.clusters, src ensures Covered(ok, t, n, src) {
      ForSourcesCounts(ok, e, name, used, Watch(t.clusters[n].ctx, src));
      if n != name { assert Covered(ok, m, n, src); }
    }
    forall ctx: nat | ctx < t.contexts ensures ctx in t.done || exists n :: n in t.clusters && t.clusters[n].ctx == ctx {
      if ctx < m.contexts && ctx !in m.done {
        var n :| n in m.clusters && m.clusters[n].ctx == ctx;
        assert n in t.clusters;
      } else if ctx == m.contexts && ctx !in t.done {
        assert name in t.clusters;
      }
    }
  }

  lemma CompleteWatched(ok: Accepts, m: Matrix, src: nat, names: seq<string>)
    requires Complete(ok, m) && Enumerates(names, m.clusters)
    ensures Complete(ok, AddSource(ok, m, src, names, |names|))
  {
    var t := AddSource(ok, m, src, names, |names|);
    forall n <- t.clusters, s ensures Covered(ok, t, n, s) {
      assert Covered(ok, m, n, s);
      ForClustersCounts(ok, m.clusters, names, src, n, s);
    }
    forall w <- t.watches ensures w.ctx < t.contexts { ForClustersUnder(ok, m.clusters, names, src, w); }
  }

  lemma {:induction false} ForClustersUnder(ok: Accepts, clusters: map<string, Engaged>, names: seq<string>, src: nat,
      w: Watch)
    requires forall n <- names :: n in clusters
    ensures w in ForClusters(ok, clusters, names, src) ==> exists n :: n in clusters && clusters[n].ctx == w.ctx
  {
    if names != [] {
      assert forall n <- names[..|names|-1] :: n in names;
      ForClustersUnder(ok, clusters, names[..|names|-1], src, w);
      assert names[|names|-1] in clusters;
    }
  }

  lemma CompleteShrinks(ok: Accepts, m: Matrix, name: string)
    requires Complete(ok, m) && name in m.clusters && m.clusters[name].ctx in m.done
    ensures Complete(ok, m.(clusters := m.clusters - {name}))
  {
    var t := m.(clusters := m.clusters - {name});
    forall n <- t.clusters, src ensures Covered(ok, t, n, src) { assert Covered(ok, m, n, src); }
    forall ctx: nat | ctx < t.contexts ensures ctx in t.done || exists n :: n in t.clusters && t.clusters[n].ctx == ctx {
      if ctx !in m.done {
        var n :| n in m.clusters && m.clusters[n].ctx == ctx;
        assert n in t.clusters;
      }
    }
  }

  lemma CompleteNext(ok: Accepts, m: Matrix, t: Matrix)
    requires Complete(ok, m) && Next(ok, m, t)
    ensures Complete(ok, t)
  {
    var ev :| Possible(m, ev) && t == After(ok, m, ev);
    match ev
    case Engaging(name, cluster, refused, failAt) =>
      if !Unchanged(m, name, cluster) {
        CompleteDisengaged(ok, m, name);
        CompleteEngaged(ok, Disengaged(m, name), name, cluster, refused, failAt);
      }
    case Watching(src, names) => CompleteWatched(ok, m, src, names);
    case Ending(ctx) => CompleteEnding(ok, m, ctx);
    case Cleaning(name, token) =>
      if name in m.clusters && m.clusters[name].ctx == token { CompleteShrinks(ok, m, name); }
  }

  lemma CompleteEnding(ok: Accepts, m: Matrix, ctx: nat)
    requires Complete(ok, m) && ctx < m.contexts
    ensures Complete(ok, m.(done := m.done + {ctx}))
  {
    var t := m.(done := m.done + {ctx});
    forall n <- t.clusters, src ensures Covered(ok, t, n, src) { assert Covered(ok, m, n, src); }
  }

  lemma {:induction false} CompleteRun(ok: Accepts, run: seq<Matrix>, i: nat)
    requires IsRun(ok, run) && i < |run|
    ensures Complete(ok, run[i])
  {
    if i > 0 {
      CompleteRun(ok, run, i - 1);
      CompleteNext(ok, run[i-1], run[i]);
    }
  }

  /** In every run without a failed MultiClusterWatch, whatever the order of the calls, each engaged
      cluster has under its own context one watch per registration of each source that accepts it
      and none of a source that does not, and every context ever made has ended or is that of an
      engaged cluster. */
  lemma MatrixIsComplete(ok: Accepts, run: seq<Matrix>, i: nat, name: string, src: nat)
    requires IsRun(ok, run) && i < |run| && name in run[i].clusters
    ensures var m := run[i]; var e := m.clusters[name];
      m.watches[Watch(e.ctx, src)] == (if ok(src, name, e.cluster) then multiset(m.sources)[src] else 0)
    ensures forall ctx: nat :: ctx < run[i].contexts && ctx !in run[i].done ==>
      exists n :: n in run[i].clusters && run[i].clusters[n].ctx == ctx
  {
    CompleteRun(ok, run, i);
    assert Covered(ok, run[i], name, src);
  }

  /** A failed Engage leaves no entry under the name, and the context it made has ended. */
  lemma FailedEngageLeavesNothing(ok: Accepts, m: Matrix, name: string, cluster: nat, refused: bool, failAt: nat)
    requires !Unchanged(m, name, cluster) && (refused || failAt < |m.sources|)
    ensures var t := Engage(ok, m, name, cluster, refused, failAt);
      && name !in t.clusters && t.contexts == m.contexts + 1 && m.contexts in t.done
      && (name in m.clusters ==> m.clusters[name].ctx in t.done)
      && t.clusters == m.clusters - {name}
  {
  }

  // ---------- who stays engaged ----------

  /** An engagement ends in two ways only: by the cleanup of its own ended context, and by an Engage
      of its name that finds it ended or brings another cluster. */
  lemma EngagementEndsBy(ok: Accepts, m: Matrix, ev: Event, name: string)
    requires Possible(m, ev) && name in m.clusters
    requires var t := After(ok, m, ev); name !in t.clusters || t.clusters[name] != m.clusters[name]
    ensures EndsEngagement(m, ev, name)
  {
  }

  predicate EndsEngagement(m: Matrix, ev: Event, name: string)
    requires name in m.clusters
  {
    match ev
    case Cleaning(n, token) => n == name && token == m.clusters[name].ctx && token in m.done
    case Engaging(n, cluster, _, _) =>
      n == name && (m.clusters[name].ctx in m.done || m.clusters[name].cluster != cluster)
    case _ => false
  }

  ghost predicate IsTrace(ok: Accepts, run: seq<Matrix>, evs: seq<Event>) {
    && |run| == |evs| + 1
    && forall i :: 0 <= i < |evs| ==> Possible(run[i], evs[i]) && run[i+1] == After(ok, run[i], evs[i])
  }

  /** While its context lives and no other cluster is engaged under its name, an engagement stays,
      whatever else is engaged, watched, ended and cleaned up. */
  lemma {:induction false} LiveEngagementStays(ok: Accepts, run: seq<Matrix>, evs: seq<Event>, i: nat, j: nat, name: string)
    requires IsTrace(ok, run, evs) && i <= j < |run| && name in run[i].clusters && run[i].clusters[name].ctx !in run[j].done
    requires forall k :: i <= k < j && evs[k].Engaging? && evs[k].name == name ==>
      evs[k].cluster == run[i].clusters[name].cluster
    ensures name in run[j].clusters && run[j].clusters[name] == run[i].clusters[name]
    decreases j
  {
    if i < j {
      var k := j - 1;
      assert run[k+1] == After(ok, run[k], evs[k]);
      DoneGrows(ok, run[k], evs[k]);
      LiveEngagementStays(ok, run, evs, i, k, name);
      if name !in run[j].clusters || run[j].clusters[name] != run[k].clusters[name] {
        EngagementEndsBy(ok, run[k], evs[k], name);
      }
    }
  }

  lemma DoneGrows(ok: Accepts, m: Matrix, ev: Event)
    requires Possible(m, ev)
    ensures m.done <= After(ok, m, ev).done
  {
  }

  /** The proviso is needed: a MultiClusterWatch that fails at the second cluster leaves the first
      with a watch the sources do not account for, so trying again watches it twice. */
  lemma FailedWatchIsNotUndone(ok: Accepts, m: Matrix, src: nat, names: seq<string>, failAt: nat)
    requires Complete(ok, m) && Enumerates(names, m.clusters) && 0 < failAt < |names|
    requires ok(src, names[0], m.clusters[names[0]].cluster)
    ensures var f := AddSource(ok, m, src, names, failAt);
      var t := AddSource(ok, f, src, names, |names|);
      t.watches[Watch(m.clusters[names[0]].ctx, src)] == multiset(t.sources)[src] + 1
  {
    var part := names[..failAt];
    assert names[0] == part[0] && forall n <- part :: n in names;
    assert Covered(ok, m, names[0], src);
    ForClustersCounts(ok, m.clusters, part, src, names[0], src);
    ForClustersCounts(ok, m.clusters, names, src, names[0], src);
  }

  /** No cluster before position `k` accepts the source. */
  ghost predicate NoneAccept(ok: Accepts, m: Matrix, src: nat, names: seq<string>, k: nat)
    requires k <= |names| && forall n <- names :: n in m.clusters
  {
    forall j :: 0 <= j < k ==> !ok(src, names[j], m.clusters[names[j]].cluster)
  }

  lemma FailedWatchAdds(ok: Accepts, m: Matrix, src: nat, names: seq<string>, failAt: nat, j: nat)
    requires Complete(ok, m) && Enumerates(names, m.clusters) && j < failAt < |names|
    requires ok(src, names[j], m.clusters[names[j]].cluster)
    ensures !Covered(ok, AddSource(ok, m, src, names, failAt), names[j], src)
  {
    var part := names[..failAt];
    assert names[j] == part[j] && forall n <- part :: n in names;
    assert Covered(ok, m, names[j], src);
    ForClustersCounts(ok, m.clusters, part, src, names[j], src);
  }

  /** Exactly when a failed MultiClusterWatch does no harm: when no cluster before the failing one
      accepts the source. */
  lemma FailedWatchIsHarmlessIff(ok: Accepts, m: Matrix, src: nat, names: seq<string>, failAt: nat)
    requires Complete(ok, m) && Enumerates(names, m.clusters) && failAt < |names|
    ensures Complete(ok, AddSource(ok, m, src, names, failAt)) <==> NoneAccept(ok, m, src, names, failAt)
  {
    if NoneAccept(ok, m, src, names, failAt) {
      assert forall n <- names[..failAt] :: n in names;
      ForNobody(ok, m.clusters, names[..failAt], src);
      assert AddSource(ok, m, src, names, failAt) == m;
    } else {
      var j :| 0 <= j < failAt && ok(src, names[j], m.clusters[names[j]].cluster);
      FailedWatchAdds(ok, m, src, names, failAt, j);
      assert names[j] in AddSource(ok, m, src, names, failAt).clusters;
    }
  }

  lemma {:induction false} ForNobody(ok: Accepts, clusters: map<string, Engaged>, names: seq<string>, src: nat)
    requires forall n <- names :: n in clusters
    requires forall j :: 0 <= j < |names| ==> !ok(src, names[j], clusters[names[j]].cluster)
    ensures ForClusters(ok, clusters, names, src) == multiset{}
  {
    if names != [] {
      assert forall n <- names[..|names|-1] :: n in names;
      ForNobody(ok, clusters, names[..|names|-1], src);
    }
  }
}
