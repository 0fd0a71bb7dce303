/** What every run of one coordinator keeps: no work context is leaked, doubled or stopped by a
    cleanup that is not its own. */
module WorkContexts {
  import opened Options
  import opened Coordination

  datatype Event =
    | Engaged(name: string, handle: nat)
    | Pass(view: View)
    | FenceLost(name: string)
    | StartRefused(name: string)
    | ContextDone(name: string, token: nat)

  ghost function After(l: Local, ev: Event): Local {
    match ev
    case Engaged(n, h) => Engage(l, n, h)
    case Pass(v) => Recomputed(l, v)
    case FenceLost(n) => Lost(l, n)
    case StartRefused(n) => StartFailed(l, n)
    case ContextDone(n, token) => ProviderDone(l, n, token)
  }

  ghost function Replay(l: Local, evs: seq<Event>): Local {
    if evs == [] then l else After(Replay(l, evs[..|evs|-1]), evs[|evs|-1])
  }

  /** `w` is the work context of its cluster's current, started engagement. */
  predicate Current(l: Local, w: Work) {
    w.name in l.engaged && l.engaged[w.name].started && w == WorkOf(w.name, l.engaged[w.name])
  }

  ghost predicate Conserved(l: Local) {
    && (forall n <- l.engaged :: l.engaged[n].token < l.tokens && (l.engaged[n].started ==> l.engaged[n].work))
    && (forall w :: w in l.live <==> Current(l, w))
  }

  lemma ConservedAfter(l: Local, ev: Event)
    requires Conserved(l)
    ensures Conserved(After(l, ev))
  {
  }

  lemma {:induction false} ConservedReplay(l: Local, evs: seq<Event>)
    requires Conserved(l)
    ensures Conserved(Replay(l, evs))
  {
    if evs != [] {
      ConservedReplay(l, evs[..|evs|-1]);
      ConservedAfter(Replay(l, evs[..|evs|-1]), evs[|evs|-1]);
    }
  }

  /** In every run, a cluster has a work context that the coordinator has not cancelled exactly
      while its current engagement is started, and then that one context only. */
  lemma WorkConservation(evs: seq<Event>, name: string)
    ensures var l := Replay(EMPTY, evs);
      (exists w :: w in l.live && w.name == name) <==> name in l.engaged && l.engaged[name].started
    ensures var l := Replay(EMPTY, evs);
      forall v, w :: v in l.live && w in l.live && v.name == w.name ==> v == w
  {
    ConservedReplay(EMPTY, evs);
    var l := Replay(EMPTY, evs);
    if name in l.engaged && l.engaged[name].started {
      assert WorkOf(name, l.engaged[name]) in l.live;
    }
  }

  /** The engagement of `name` is gone or carries a token of at least `floor`. */
  ghost predicate Superseded(l: Local, name: string, floor: nat) {
    floor <= l.tokens && (name in l.engaged ==> l.engaged[name].token >= floor)
  }

  lemma {:induction false} StaysSuperseded(l: Local, evs: seq<Event>, name: string, floor: nat)
    requires Superseded(l, name, floor)
    ensures Superseded(Replay(l, evs), name, floor)
  {
    if evs != [] { StaysSuperseded(l, evs[..|evs|-1], name, floor); }
  }

  /** Once a cluster has been re-engaged, whatever happens next, the cleanup of the engagement it
      replaced changes nothing: it neither stops nor removes the current one. */
  lemma SupersededCleanupIsInert(before: seq<Event>, name: string, handle: nat, later: seq<Event>)
    requires name in Replay(EMPTY, before).engaged
    ensures
      var l := Replay(EMPTY, before);
      var m := Replay(Engage(l, name, handle), later);
      ProviderDone(m, name, l.engaged[name].token) == m
  {
    var l := Replay(EMPTY, before);
    ConservedReplay(EMPTY, before);
    StaysSuperseded(Engage(l, name, handle), later, name, l.tokens);
  }

  // ---------- a pass is its per-cluster decisions, in any order ----------

  ghost function DecideAll(l: Local, names: seq<string>, v: View): (r: Local)
    requires forall n <- names :: n in l.engaged
    ensures r.engaged.Keys == l.engaged.Keys
  {
    if names == [] then l
    else
      var m := names[|names|-1];
      Decided(DecideAll(l, names[..|names|-1], v), m, m in v.owned, v.now, v.throttle, m in v.grants)
  }

  /** The engagements of the given names only. */
  ghost function Only(engaged: map<string, Engagement>, names: seq<string>): map<string, Engagement> {
    map n | n in engaged && n in names :: engaged[n]
  }

  ghost predicate Distinct(names: seq<string>) {
    forall i, j :: 0 <= i < j < |names| ==> names[i] != names[j]
  }

  /** The contexts alive once the engagements in `seen` have been decided. */
  ghost function LiveAfter(live: set<Work>, seen: map<string, Engagement>, v: View): set<Work> {
    (live - StoppedWork(seen, v)) + StartedWork(seen, v)
  }

  lemma LiveGrows(live: set<Work>, seen: map<string, Engagement>, m: string, e: Engagement, v: View)
    requires m !in seen
    ensures LiveAfter(live, seen[m := e], v) ==
      Decided(Local(map[m := e], LiveAfter(live, seen, v), 0), m, m in v.owned, v.now, v.throttle, m in v.grants).live
  {
    PassGrows(seen, m, e, v);
    assert WorkOf(m, e) !in StartedWork(seen, v);
  }

  lemma {:induction false} DecideAllEffect(l: Local, names: seq<string>, v: View)
    requires Distinct(names) && forall n <- names :: n in l.engaged
    ensures var r := DecideAll(l, names, v);
      && r.tokens == l.tokens
      && (forall n <- l.engaged :: r.engaged[n] ==
           if n in names then Decide(l.engaged[n], n in v.owned, v.now, v.throttle, n in v.grants) else l.engaged[n])
      && r.live == LiveAfter(l.live, Only(l.engaged, names), v)
  {
    if names == [] {
      assert Only(l.engaged, names) == map[];
    } else {
      var rest, m := names[..|names|-1], names[|names|-1];
      DecideAllEffect(l, rest, v);
      var seen := Only(l.engaged, rest);
      assert m !in seen && Only(l.engaged, names) == seen[m := l.engaged[m]];
      LiveGrows(l.live, seen, m, l.engaged[m], v);
    }
  }

  /** Deciding the clusters one by one, in any order, adds up to the pass. */
  lemma PassIsDecisionByDecision(l: Local, names: seq<string>, v: View)
    requires Distinct(names) && (forall n <- names :: n in l.engaged) && (forall n <- l.engaged :: n in names)
    ensures DecideAll(l, names, v) == Recomputed(l, v)
  {
    DecideAllEffect(l, names, v);
    assert Only(l.engaged, names) == l.engaged;
  }

  // ---------- what each operation comes to ----------

  /** Of all names, at most `name` has a changed engagement or changed work. */
  ghost predicate OnlyAt(l: Local, r: Local, name: string) {
    && (forall n :: n != name ==> (n in r.engaged <==> n in l.engaged) && (n in l.engaged ==> r.engaged[n] == l.engaged[n]))
    && (forall w: Work :: w.name != name ==> (w in r.live <==> w in l.live))
  }

  ghost predicate NoWork(l: Local, name: string) {
    forall w <- l.live :: w.name != name
  }

  /** A new engagement: this cluster object, a token above all others, no work, not throttled, and the
      fence of the engagement it replaces. */
  lemma EngageOutcome(l: Local, name: string, handle: nat)
    requires Conserved(l)
    ensures var r := Engage(l, name, handle);
      && OnlyAt(l, r, name) && NoWork(r, name) && name in r.engaged
      && var e := r.engaged[name];
         && e.handle == handle && !e.started && e.nextTry == None && (forall n <- l.engaged :: l.engaged[n].token < e.token)
         && e.fence == if name in l.engaged then l.engaged[name].fence else None
  {
  }

  /** A lost fence and a refused start both leave the cluster stopped, without work, and keep the rest
      of its engagement, so that a later pass can start it again. */
  lemma StopOutcome(l: Local, name: string, r: Local)
    requires Conserved(l) && (r == Lost(l, name) || r == StartFailed(l, name))
    ensures OnlyAt(l, r, name) && NoWork(r, name) && r.tokens == l.tokens
    ensures name in r.engaged <==> name in l.engaged
    ensures name in l.engaged ==> r.engaged[name] == l.engaged[name].(started := false)
  {
  }

  /** The end of the provider's context removes the engagement that was given it, with its work, and no
      other. */
  lemma ProviderDoneOutcome(l: Local, name: string, token: nat)
    requires Conserved(l)
    ensures var r := ProviderDone(l, name, token);
      if name in l.engaged && l.engaged[name].token == token then OnlyAt(l, r, name) && NoWork(r, name) && name !in r.engaged
      else r == l
  {
  }

  /** What a pass makes of one engagement. A cluster that is ours starts when the throttle has run out
      and the fence is granted, and backs off when it is refused; one that is not ours is stopped. */
  ghost predicate PassedOver(e: Engagement, d: Engagement, owned: bool, now: int, throttle: int, granted: bool) {
    var throttled := e.nextTry.Some? && now < e.nextTry.value;
    && d.token == e.token && d.handle == e.handle
    && (d.started <==> owned && (e.started || (!throttled && granted)))
    && (e.started == d.started ==> d.starts == e.starts && d.work == e.work)
    && (d.started && !e.started ==> d.starts == e.starts + 1 && d.work)
    && d.fence == (if owned && !e.started && e.fence.None? then Some(e.token) else e.fence)
    && d.nextTry == if owned && !e.started && !throttled && !granted then Some(now + throttle)
                    else if !owned && e.started then None
                    else e.nextTry
  }

  lemma PassOutcome(l: Local, v: View, n: string)
    requires Conserved(l) && n in l.engaged
    ensures var r := Recomputed(l, v);
      && r.engaged.Keys == l.engaged.Keys && r.tokens == l.tokens
      && PassedOver(l.engaged[n], r.engaged[n], n in v.owned, v.now, v.throttle, n in v.grants)
      && (NoWork(r, n) <==> !r.engaged[n].started)
    ensures forall g: nat :: Fence(n, g) in ReleasedFences(l.engaged, v) <==>
      n !in v.owned && l.engaged[n].started && l.engaged[n].fence == Some(g)
  {
    var r := Recomputed(l, v);
    ConservedAfter(l, Pass(v));
    if r.engaged[n].started { assert WorkOf(n, r.engaged[n]) in r.live; }
  }
}
