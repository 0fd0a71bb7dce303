/** One process's coordinator: the engagement of each cluster and the work contexts it creates.

    An engagement object is a value here; its `token` stands for the pointer's identity, which
    is all the cleanup goroutines compare. */
module Coordination {
  import opened Options
  import opened Rendezvous

  /** `work` says that `cancel` is set; `starts` counts the work contexts made so far. `fence` names
      the guard object by the token of the engagement that made it. */
  datatype Engagement = Engagement(
    token: nat, handle: nat, starts: nat, work: bool, started: bool, fence: Option<nat>, nextTry: Option<int>)

  /** A work context: the nth one created for the engagement with this token. */
  datatype Work = Work(name: string, token: nat, nth: nat)

  /** A guard object of the named cluster. */
  datatype Fence = Fence(name: string, guard: nat)

  /** `live` holds the work contexts created and not cancelled by the coordinator. */
  datatype Local = Local(engaged: map<string, Engagement>, live: set<Work>, tokens: nat)

  const EMPTY := Local(map[], {}, 0)

  function WorkOf(name: string, e: Engagement): Work {
    Work(name, e.token, e.starts)
  }

  predicate Throttled(now: int, nextTry: Option<int>) {
    nextTry.Some? && now < nextTry.value
  }

  function Cancelled(live: set<Work>, name: string, e: Engagement): set<Work> {
    if e.work then live - {WorkOf(name, e)} else live
  }

  // ---------- the steps, each taken under the coordinator's lock ----------

  /** A re-engagement stops the old work and carries the fence over to a new token. */
  function Engage(l: Local, name: string, handle: nat): Local {
    var known := name in l.engaged;
    Local(
      l.engaged[name := Engagement(l.tokens, handle, 0, false, false, if known then l.engaged[name].fence else None, None)],
      if known then Cancelled(l.live, name, l.engaged[name]) else l.live,
      l.tokens + 1)
  }

  /** The provider's context ended: only the engagement it was given to is removed. */
  function ProviderDone(l: Local, name: string, token: nat): Local {
    if name in l.engaged && l.engaged[name].token == token then
      var e := l.engaged[name];
      l.(engaged := l.engaged - {name}, live := if e.started then Cancelled(l.live, name, e) else l.live)
    else l
  }

  /** The name's work cancelled and the engagement marked stopped. */
  function Halted(l: Local, name: string): Local
    requires name in l.engaged
  {
    var e := l.engaged[name];
    l.(engaged := l.engaged[name := e.(started := false)], live := Cancelled(l.live, name, e))
  }

  /** onLost, called by name. */
  function Lost(l: Local, name: string): Local {
    if name in l.engaged && l.engaged[name].started && l.engaged[name].work then Halted(l, name) else l
  }

  /** An aware component refused the cluster; again by name. */
  function StartFailed(l: Local, name: string): Local {
    if name in l.engaged && l.engaged[name].work then Halted(l, name) else l
  }

  predicate StartsNow(e: Engagement, should: bool, now: int, grant: bool) {
    should && !e.started && !Throttled(now, e.nextTry) && grant
  }

  predicate StopsNow(e: Engagement, should: bool) {
    !should && e.started
  }

  /** The guard the engagement has, or the one it makes at its first attempt to start. */
  function GuardOf(e: Engagement): nat {
    if e.fence.Some? then e.fence.value else e.token
  }

  /** What recompute does to one engagement; `grant` is TryAcquire's answer. */
  function Decide(e: Engagement, should: bool, now: int, throttle: int, grant: bool): Engagement {
    if should && !e.started then
      var f := e.(fence := Some(GuardOf(e)));
      if Throttled(now, e.nextTry) then f
      else if !grant then f.(nextTry := Some(now + throttle))
      else f.(starts := e.starts + 1, work := true, started := true)
    else if StopsNow(e, should) then e.(work := false, started := false, nextTry := None)
    else e
  }

  function Decided(l: Local, name: string, should: bool, now: int, throttle: int, grant: bool): Local
    requires name in l.engaged
  {
    var e := l.engaged[name];
    var d := Decide(e, should, now, throttle, grant);
    l.(engaged := l.engaged[name := d],
       live := if StartsNow(e, should, now, grant) then l.live + {WorkOf(name, d)}
               else if StopsNow(e, should) then Cancelled(l.live, name, e)
               else l.live)
  }

  /** What a pass decides on: the names the hash gives us, one clock reading, the back-off, and the
      names whose fence TryAcquire would return true. */
  datatype View = View(owned: set<string>, now: int, throttle: int, grants: set<string>)

  /** A whole pass: every engagement decided from the same snapshot and clock reading. */
  ghost function Recomputed(l: Local, v: View): Local {
    Local(
      map n | n in l.engaged :: Decide(l.engaged[n], n in v.owned, v.now, v.throttle, n in v.grants),
      (l.live - StoppedWork(l.engaged, v)) + StartedWork(l.engaged, v),
      l.tokens)
  }

  ghost function StartedWork(engaged: map<string, Engagement>, v: View): set<Work> {
    set n | n in engaged && StartsNow(engaged[n], n in v.owned, v.now, n in v.grants) ::
      Work(n, engaged[n].token, engaged[n].starts + 1)
  }

  ghost function StoppedWork(engaged: map<string, Engagement>, v: View): set<Work> {
    set n | n in engaged && StopsNow(engaged[n], n in v.owned) && engaged[n].work :: WorkOf(n, engaged[n])
  }

  ghost function ReleasedFences(engaged: map<string, Engagement>, v: View): set<Fence> {
    set n | n in engaged && StopsNow(engaged[n], n in v.owned) && engaged[n].fence.Some? ::
      Fence(n, engaged[n].fence.value)
  }

  // ---------- the coordinator in place ----------

  datatype ToStart = ToStart(name: string, handle: nat, work: Work)

  /** The names the sharder gives to `self`. */
  ghost function OwnedNames(hash: Hash, peers: seq<PeerInfo>, self: PeerInfo, names: set<string>): set<string> {
    set n | n in names && Owns(Scores(hash, n), peers, self.id)
  }

  /** Ours are the names whose last highest score is our own. */
  lemma OwnedIff(hash: Hash, peers: seq<PeerInfo>, self: PeerInfo, names: set<string>, n: string, s: seq<int>)
    requires ScoreList(hash, n, peers, s)
    ensures n in OwnedNames(hash, peers, self, names) <==> n in names && (peers == [] || LastHighest(peers, s, self.id))
  {
    OwnsIff(hash, n, peers, s, self.id);
  }

  ghost function Works(starts: seq<ToStart>): set<Work> {
    set s <- starts :: s.work
  }

  /** `starts` lists each cluster that starts once, with its own handle and new work context. */
  ghost predicate StartsAre(starts: seq<ToStart>, engaged: map<string, Engagement>, v: View) {
    && Works(starts) == StartedWork(engaged, v)
    && (forall s <- starts :: s.name == s.work.name && s.name in engaged && s.handle == engaged[s.name].handle)
    && (forall i, j :: 0 <= i < j < |starts| ==> starts[i].name != starts[j].name)
  }

  function StartList(n: string, e: Engagement, should: bool, now: int, grant: bool): seq<ToStart> {
    if StartsNow(e, should, now, grant) then [ToStart(n, e.handle, Work(n, e.token, e.starts + 1))] else []
  }

  function StopList(n: string, e: Engagement, should: bool): seq<Work> {
    if StopsNow(e, should) && e.work then [WorkOf(n, e)] else []
  }

  function ReleaseSet(n: string, e: Engagement, should: bool): set<Fence> {
    if StopsNow(e, should) && e.fence.Some? then {Fence(n, e.fence.value)} else {}
  }

  ghost function Elems(ws: seq<Work>): set<Work> {
    set w | w in ws
  }

  lemma ElemsAppend(a: seq<Work>, b: seq<Work>)
    ensures Elems(a + b) == Elems(a) + Elems(b)
  {
  }

  /** One more engagement considered by the pass. */
  lemma PassGrows(seen: map<string, Engagement>, n: string, e: Engagement, v: View)
    requires n !in seen
    ensures StartedWork(seen[n := e], v) == StartedWork(seen, v) + Works(StartList(n, e, n in v.owned, v.now, n in v.grants))
    ensures StoppedWork(seen[n := e], v) == StoppedWork(seen, v) + Elems(StopList(n, e, n in v.owned))
    ensures ReleasedFences(seen[n := e], v) == ReleasedFences(seen, v) + ReleaseSet(n, e, n in v.owned)
  {
  }

  lemma StartsGrow(starts: seq<ToStart>, seen: map<string, Engagement>, n: string, e: Engagement, v: View)
    requires n !in seen && StartsAre(starts, seen, v)
    ensures StartsAre(starts + StartList(n, e, n in v.owned, v.now, n in v.grants), seen[n := e], v)
  {
    PassGrows(seen, n, e, v);
    var more := StartList(n, e, n in v.owned, v.now, n in v.grants);
    assert Works(starts + more) == Works(starts) + Works(more) by {
      assert forall s :: s in starts + more <==> s in starts || s in more;
    }
  }

  /** A pass over `before` that has still to decide the names in `rest`. */
  ghost predicate Passing(before: Local, v: View, rest: set<string>, l: Local, starts: seq<ToStart>, stops: seq<Work>,
      released: set<Fence>)
  {
    var seen := before.engaged - rest;
    && rest <= before.engaged.Keys == l.engaged.Keys && l.tokens == before.tokens
    && (forall n <- rest :: l.engaged[n] == before.engaged[n])
    && (forall n <- seen :: l.engaged[n] == Decide(seen[n], n in v.owned, v.now, v.throttle, n in v.grants))
    && l.live == before.live + StartedWork(seen, v)
    && StartsAre(starts, seen, v)
    && Elems(stops) == StoppedWork(seen, v)
    && released == ReleasedFences(seen, v)
  }

  lemma PassBegins(before: Local, v: View)
    ensures Passing(before, v, before.engaged.Keys, before, [], [], {})
  {
    assert before.engaged - before.engaged.Keys == map[];
  }

  /** The pass's state after one more engagement. */
  ghost function PassStep(v: View, l: Local, n: string): Local
    requires n in l.engaged
  {
    var e := l.engaged[n];
    l.(engaged := l.engaged[n := Decide(e, n in v.owned, v.now, v.throttle, n in v.grants)],
       live := l.live + Works(StartList(n, e, n in v.owned, v.now, n in v.grants)))
  }

  lemma PassContinues(before: Local, v: View, rest: set<string>, l: Local, starts: seq<ToStart>, stops: seq<Work>,
      released: set<Fence>, n: string)
    requires Passing(before, v, rest, l, starts, stops, released) && n in rest
    ensures
      var e, should := l.engaged[n], n in v.owned;
      Passing(before, v, rest - {n}, PassStep(v, l, n), starts + StartList(n, e, should, v.now, n in v.grants),
        stops + StopList(n, e, should), released + ReleaseSet(n, e, should))
  {
    var e, should := l.engaged[n], n in v.owned;
    var seen := before.engaged - rest;
    assert before.engaged - (rest - {n}) == seen[n := e];
    PassGrows(seen, n, e, v);
    StartsGrow(starts, seen, n, e, v);
    ElemsAppend(stops, StopList(n, e, should));
  }

  lemma PassEnds(before: Local, v: View, l: Local, starts: seq<ToStart>, stops: seq<Work>, released: set<Fence>)
    requires Passing(before, v, {}, l, starts, stops, released)
    ensures l.(live := l.live - Elems(stops)) == Recomputed(before, v)
    ensures StartsAre(starts, before.engaged, v) && released == ReleasedFences(before.engaged, v)
  {
    assert before.engaged - {} == before.engaged;
    assert StartedWork(before.engaged, v) !! StoppedWork(before.engaged, v);
  }

  class Coordinator {
    const hash: Hash
    const self: PeerInfo
    const throttle: int
    var engaged: map<string, Engagement>
    var live: set<Work>
    var tokens: nat

    constructor (hash: Hash, self: PeerInfo, throttle: int)
      ensures this.hash == hash && this.self == self && this.throttle == throttle && State() == EMPTY
    {
      this.hash, this.self, this.throttle := hash, self, throttle;
      engaged, live, tokens := map[], {}, 0;
    }

    function State(): Local
      reads this
    {
      Local(engaged, live, tokens)
    }

    method Cancel(w: Work)
      modifies this`live
      ensures live == old(live) - {w}
    {
      live := live - {w};
    }

    /** A parent context that is already done is refused without a trace. */
    method EngageCluster(parentDone: bool, name: string, handle: nat) returns (ok: bool)
      modifies this
      ensures ok == !parentDone
      ensures State() == if ok then Engage(old(State()), name, handle) else old(State())
      ensures ok ==>
        && tokens == old(tokens) + 1 && name in engaged && engaged == old(engaged)[name := engaged[name]]
        && engaged[name].token == old(tokens) && engaged[name].handle == handle
        && !engaged[name].started && !engaged[name].work && engaged[name].nextTry == None
        && engaged[name].fence == if name in old(engaged) then old(engaged)[name].fence else None
    {
      if parentDone { return false; }
      var eng := Engagement(tokens, handle, 0, false, false, None, None);
      tokens := tokens + 1;
      if name in engaged {
        var cur := engaged[name];
        if cur.work { Cancel(WorkOf(name, cur)); }
        eng := eng.(fence := cur.fence);
      }
      engaged := engaged[name := eng];
      return true;
    }

    /** `release` is the guard whose Release it launches. */
    method OnProviderDone(name: string, token: nat) returns (release: Option<nat>)
      modifies this
      ensures State() == ProviderDone(old(State()), name, token)
      ensures release == if name in old(engaged) && old(engaged)[name].token == token then old(engaged)[name].fence else None
    {
      release := None;
      if name in engaged && engaged[name].token == token {
        var ee := engaged[name];
        if ee.started && ee.work { Cancel(WorkOf(name, ee)); }
        release := ee.fence;
        engaged := engaged - {name};
      }
    }

    method OnLost(name: string)
      modifies this
      ensures State() == Lost(old(State()), name)
    {
      if name in engaged && engaged[name].started && engaged[name].work {
        Cancel(WorkOf(name, engaged[name]));
        engaged := engaged[name := engaged[name].(started := false)];
      }
    }

    method OnStartFailed(name: string)
      modifies this
      ensures State() == StartFailed(old(State()), name)
    {
      if name in engaged && engaged[name].work {
        Cancel(WorkOf(name, engaged[name]));
        engaged := engaged[name := engaged[name].(started := false)];
      }
    }

    /** recompute's treatment of one engagement; stopping is left to the caller. */
    method DecideOne(name: string, should: bool, now: int, grant: bool)
        returns (start: seq<ToStart>, stop: seq<Work>, release: set<Fence>)
      requires name in engaged
      modifies this
      ensures var e := old(engaged)[name];
        && start == StartList(name, e, should, now, grant)
        && stop == StopList(name, e, should)
        && release == ReleaseSet(name, e, should)
        && State() == old(State()).(
             engaged := old(engaged)[name := Decide(e, should, now, throttle, grant)],
             live := old(live) + Works(start))
    {
      start, stop, release := [], [], {};
      var e := engaged[name];
      if should && !e.started {
        if e.fence.None? { e := e.(fence := Some(e.token)); }
        if !Throttled(now, e.nextTry) {
          if !grant {
            e := e.(nextTry := Some(now + throttle));
          } else {
            e := e.(starts := e.starts + 1, work := true, started := true);
            live := live + {WorkOf(name, e)};
            start := [ToStart(name, e.handle, WorkOf(name, e))];
          }
        }
      } else if !should && e.started {
        if e.work { stop := [WorkOf(name, e)]; }
        if e.fence.Some? { release := {Fence(name, e.fence.value)}; }
        e := e.(work := false, started := false, nextTry := None);
      }
      engaged := engaged[name := e];
    }

    method CancelAll(stops: seq<Work>)
      modifies this`live
      ensures live == old(live) - Elems(stops)
    {
      for i := 0 to |stops|
        invariant live == old(live) - Elems(stops[..i])
      {
        assert stops[..i+1] == stops[..i] + [stops[i]];
        ElemsAppend(stops[..i], [stops[i]]);
        Cancel(stops[i]);
      }
      assert stops[..|stops|] == stops;
    }

    /** One pass over the engagements, in whatever order the map yields them; `grants` holds the
        names whose fence TryAcquire would return true. */
    method Recompute(peers: seq<PeerInfo>, now: int, grants: set<string>)
        returns (starts: seq<ToStart>, released: set<Fence>)
      modifies this
      ensures
        var v := View(OwnedNames(hash, peers, self, old(engaged).Keys), now, throttle, grants);
        && State() == Recomputed(old(State()), v)
        && StartsAre(starts, old(engaged), v)
        && released == ReleasedFences(old(engaged), v)
    {
      ghost var v := View(OwnedNames(hash, peers, self, engaged.Keys), now, throttle, grants);
      ghost var before := State();
      PassBegins(before, v);
      starts, released := [], {};
      var stops: seq<Work> := [];
      var rest := engaged.Keys;
      while rest != {}
        invariant Passing(before, v, rest, State(), starts, stops, released)
        decreases |rest|
      {
        var name :| name in rest;
        PassContinues(before, v, rest, State(), starts, stops, released, name);
        ghost var next := PassStep(v, State(), name);
        var should := ShouldOwn(hash, name, peers, self);
        assert should == (name in v.owned);
        var start, stop, release := DecideOne(name, should, now, name in grants);
        assert State() == next;
        starts, stops, released := starts + start, stops + stop, released + release;
        rest := rest - {name};
      }
      PassEnds(before, v, State(), starts, stops, released);
      CancelAll(stops);
    }
  }
}
