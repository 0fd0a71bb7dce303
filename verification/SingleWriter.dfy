/** Any number of coordinators over the lease protocol: who may be running a cluster. */
module SingleWriter {
  import opened Options
  import opened Leases
  import opened Sanitize
  import P = LeaseProtocol
  import C = Coordination
  import W = WorkContexts

  /** Peers with the whole-second lease duration each writes, and the fence of each cluster. */
  datatype Setup = Setup(seconds: map<string, int>, fences: map<string, string>, throttle: int, skew: int)

  /** How the coordinators treat their guards. With `prompt`, giving up a fence marks the guard free
      in the same step. The source does it later, in a goroutine or after onLost has returned, and a
      pass may come in between. `waits` is what a TryAcquire waits for. */
  datatype Rules = Rules(prompt: bool, waits: P.Discipline)

  /** What the source does, and what the guarantee takes. */
  const AS_WRITTEN := Rules(false, P.Unrestricted)
  const STRICT := Rules(true, P.EachPeer)

  /** `owed` are the guards whose Release has been decided and not yet been entered. */
  datatype World = World(net: P.State, local: map<string, C.Local>, owed: set<P.Key>)

  function Slots(u: Setup): set<P.Slot> {
    set p <- u.seconds, c <- u.fences :: P.Slot(p, c)
  }

  function Cfg(u: Setup): P.Config {
    P.Config(map a | a in Slots(u) :: P.Conf(a.peer, u.fences[a.cluster], u.seconds[a.peer]), u.skew)
  }

  /** The record the fence of slot `a` is kept in. */
  function RecordOf(u: Setup, w: World, a: P.Slot): Record
    requires a in Slots(u)
  {
    P.Stored(w.net, u.fences[a.cluster])
  }

  ghost predicate WellFormed(u: Setup) {
    && "" !in u.seconds
    && forall c <- u.fences, d <- u.fences :: u.fences[c] == u.fences[d] ==> c == d
  }

  lemma SetupIsWellNamed(u: Setup)
    requires WellFormed(u)
    ensures P.WellNamed(Cfg(u))
  {
  }

  /** What a coordinator does about one cluster. */
  datatype Action =
    | Engage(handle: nat)
    | TryStart(op: nat, now: int)
    | Acquired(op: nat, now: int)
    | AcquireFailed(op: nat, now: int, landed: bool)
    | Stop(op: nat, now: int)
    | Lose(op: nat, landed: bool)
    | StaleLoss
    | StartRefused
    | ProviderDone(token: nat, op: nat)

  /** A step of the lease protocol that no coordinator takes part in, a coordinator's action, or the
      Release of a guard that was given up before. */
  datatype Step = Background(step: P.Step) | Act(slot: P.Slot, act: Action) | Repay(key: P.Key, op: nat)

  /** The peer's coordinator lock is free: no TryAcquire of it is under way. */
  predicate Unlocked(net: P.State, p: string) {
    forall o <- net.ops :: net.ops[o].call.Acquire? ==> net.ops[o].key.slot.peer != p
  }

  predicate IsCall(net: P.State, o: nat, k: P.Key, call: P.Call) {
    o in net.ops && net.ops[o].call == call && net.ops[o].key == k
  }

  predicate FenceIs(l: C.Local, c: string, guard: nat) {
    c in l.engaged && l.engaged[c].fence == Some(guard)
  }

  predicate FencedIn(l: C.Local, c: string) {
    c in l.engaged && l.engaged[c].fence.Some?
  }

  predicate StartedIn(l: C.Local, c: string) {
    c in l.engaged && l.engaged[c].started
  }

  predicate WaitingIn(l: C.Local, c: string) {
    c in l.engaged && !l.engaged[c].started
  }

  /** The guard of the current engagement, or the one it would make. */
  function KeyAt(l: C.Local, a: P.Slot): P.Key {
    P.Key(a, if a.cluster in l.engaged then C.GuardOf(l.engaged[a.cluster]) else l.tokens)
  }

  predicate HeldAt(net: P.State, l: C.Local, a: P.Slot) {
    KeyAt(l, a) in net.held
  }

  /** Clocks, renewals in progress and releases under way. */
  predicate InBackground(s: P.State, step: P.Step) {
    match step
    case Tick(_) => true
    case Begin(_, _, call) => call.Renew?
    case Read(_) => true
    case Write(o, replied) =>
      o in s.ops && !s.ops[o].call.Acquire? && (replied || s.ops[o].call.Release? || s.ops[o].key !in s.held)
    case Fail(o) => o in s.ops && !s.ops[o].call.Acquire? && (s.ops[o].call.Release? || s.ops[o].key !in s.held)
    case Drop(o) => o in s.ops && !s.ops[o].call.Acquire?
    case Crash(_) => false
  }

  /** When a coordinator may act: most actions take its lock, TryAcquire's outcome holds it. A pass
      samples its clock before TryAcquire does. */
  predicate MayAct(net: P.State, l: C.Local, a: P.Slot, act: Action) {
    match act
    case TryStart(_, now) =>
      Unlocked(net, a.peer) && WaitingIn(l, a.cluster) && a.peer in net.clocks && now <= net.clocks[a.peer]
    case Acquired(o, now) =>
      && IsCall(net, o, KeyAt(l, a), P.Acquire) && a.cluster in l.engaged
      && now <= net.ops[o].now && !C.Throttled(now, l.engaged[a.cluster].nextTry)
    case AcquireFailed(o, now, _) =>
      IsCall(net, o, KeyAt(l, a), P.Acquire) && a.cluster in l.engaged && now <= net.ops[o].now
    case Stop(_, _) => Unlocked(net, a.peer) && StartedIn(l, a.cluster)
    case Lose(o, _) =>
      && Unlocked(net, a.peer) && o in net.ops && net.ops[o].key.slot == a && net.ops[o].call.Renew?
      && net.ops[o].key in net.held
    case _ => Unlocked(net, a.peer)
  }

  /** The action gives up the fence of the current engagement. */
  predicate GivesUp(l: C.Local, c: string, act: Action) {
    FencedIn(l, c) && (act.Stop? || (act.ProviderDone? && l.engaged[c].token == act.token))
  }

  /** The lease-protocol half of an action, if it has one: fence.Release does something only when
      there is a fence and it is held, TryAcquire only when it is neither throttled nor held. */
  function NetHalf(r: Rules, net: P.State, l: C.Local, a: P.Slot, act: Action): Option<P.Step> {
    match act
    case TryStart(o, now) =>
      if HeldAt(net, l, a) || a.cluster !in l.engaged || C.Throttled(now, l.engaged[a.cluster].nextTry) then None
      else Some(P.Begin(o, KeyAt(l, a), P.Acquire))
    case Acquired(o, _) => Some(P.Write(o, true))
    case AcquireFailed(o, _, landed) => Some(if landed then P.Write(o, false) else P.Fail(o))
    case Lose(o, landed) =>
      Some(if r.prompt then (if landed then P.Write(o, false) else P.Fail(o))
           else if landed then P.Write(o, true) else P.Drop(o))
    case Stop(o, _) =>
      if r.prompt && GivesUp(l, a.cluster, act) && HeldAt(net, l, a) then Some(P.Begin(o, KeyAt(l, a), P.Release)) else None
    case ProviderDone(_, o) =>
      if r.prompt && GivesUp(l, a.cluster, act) && HeldAt(net, l, a) then Some(P.Begin(o, KeyAt(l, a), P.Release)) else None
    case _ => None
  }

  /** The coordinator half. */
  function LocalHalf(held: bool, l: C.Local, c: string, act: Action, throttle: int): C.Local {
    match act
    case Engage(h) => C.Engage(l, c, h)
    case TryStart(_, now) =>
      if c !in l.engaged then l
      else if held || C.Throttled(now, l.engaged[c].nextTry) then C.Decided(l, c, true, now, throttle, true)
      else l.(engaged := l.engaged[c := l.engaged[c].(fence := Some(C.GuardOf(l.engaged[c])))])
    case Acquired(_, now) => if c in l.engaged then C.Decided(l, c, true, now, throttle, true) else l
    case AcquireFailed(_, now, _) => if c in l.engaged then C.Decided(l, c, true, now, throttle, false) else l
    case Stop(_, now) => if c in l.engaged then C.Decided(l, c, false, now, throttle, false) else l
    case Lose(_, _) => C.Lost(l, c)
    case StaleLoss => C.Lost(l, c)
    case StartRefused => C.StartFailed(l, c)
    case ProviderDone(token, _) => C.ProviderDone(l, c, token)
  }

  /** The guard whose Release is left for later. */
  function Debt(r: Rules, net: P.State, l: C.Local, a: P.Slot, act: Action): set<P.Key> {
    if r.prompt then {}
    else if act.Lose? then (if act.op in net.ops then {net.ops[act.op].key} else {})
    else if GivesUp(l, a.cluster, act) then {KeyAt(l, a)}
    else {}
  }

  /** The lease-protocol half of a step. */
  function NetStep(r: Rules, w: World, step: Step): Option<P.Step>
    requires step.Act? ==> step.slot.peer in w.local
  {
    match step
    case Background(s) => Some(s)
    case Act(a, act) => NetHalf(r, w.net, w.local[a.peer], a, act)
    case Repay(k, o) => if k in w.net.held then Some(P.Begin(o, k, P.Release)) else None
  }

  predicate MayStep(u: Setup, w: World, step: Step) {
    match step
    case Background(s) => InBackground(w.net, s)
    case Act(a, act) => a in Slots(u) && a.peer in w.local && MayAct(w.net, w.local[a.peer], a, act)
    case Repay(k, _) => k in w.owed
  }

  predicate Enabled(u: Setup, r: Rules, w: World, step: Step) {
    && MayStep(u, w, step)
    && (NetStep(r, w, step).Some? ==> P.Enabled(Cfg(u), r.waits, w.net, NetStep(r, w, step).value))
  }

  function NetAfter(u: Setup, r: Rules, w: World, step: Step): P.State
    requires Enabled(u, r, w, step)
  {
    var s := NetStep(r, w, step);
    if s.Some? then P.Apply(Cfg(u), r.waits, w.net, s.value) else w.net
  }

  function LocalAfter(u: Setup, w: World, a: P.Slot, act: Action): map<string, C.Local>
    requires a.peer in w.local
  {
    var l := w.local[a.peer];
    w.local[a.peer := LocalHalf(HeldAt(w.net, l, a), l, a.cluster, act, u.throttle)]
  }

  function Apply(u: Setup, r: Rules, w: World, step: Step): World
    requires Enabled(u, r, w, step)
  {
    match step
    case Background(_) => w.(net := NetAfter(u, r, w, step))
    case Act(a, act) =>
      World(NetAfter(u, r, w, step), LocalAfter(u, w, a, act), w.owed + Debt(r, w.net, w.local[a.peer], a, act))
    case Repay(k, _) => w.(net := NetAfter(u, r, w, step), owed := w.owed - {k})
  }

  predicate Init(u: Setup, w: World) {
    && P.Init(Cfg(u), w.net) && w.local.Keys == u.seconds.Keys && w.owed == {}
    && forall p <- w.local :: w.local[p] == C.EMPTY
  }

  ghost predicate Next(u: Setup, r: Rules, w: World, x: World) {
    exists step :: Enabled(u, r, w, step) && x == Apply(u, r, w, step)
  }

  ghost predicate Steps(u: Setup, r: Rules, run: seq<World>) {
    forall i :: 0 < i < |run| ==> Next(u, r, run[i-1], run[i])
  }

  ghost predicate IsRun(u: Setup, r: Rules, run: seq<World>) {
    |run| > 0 && Init(u, run[0]) && Steps(u, r, run)
  }

  // ---------- the invariant ----------

  predicate Holds(w: World, p: string, c: string) {
    p in w.local && FencedIn(w.local[p], c) && HeldAt(w.net, w.local[p], P.Slot(p, c))
  }

  predicate Started(w: World, p: string, c: string) {
    p in w.local && StartedIn(w.local[p], c)
  }

  /** Guard `k` is the fence of the cluster's current engagement. */
  predicate Current(w: World, k: P.Key) {
    k.slot.peer in w.local && FenceIs(w.local[k.slot.peer], k.slot.cluster, k.gen)
  }

  /** Work needs the fence, the fence needs an engagement, and a fence being acquired belongs to
      an engagement that waits for it. */
  ghost predicate Linked(u: Setup, w: World) {
    && w.local.Keys == u.seconds.Keys && w.owed == {}
    && (forall p, c :: Started(w, p, c) ==> Holds(w, p, c))
    && (forall k <- w.net.held :: Current(w, k))
    && (forall o <- w.net.ops :: w.net.ops[o].call.Acquire? ==>
         Current(w, w.net.ops[o].key) && Waits(w, w.net.ops[o].key.slot))
  }

  predicate Waits(w: World, a: P.Slot) {
    !Started(w, a.peer, a.cluster)
  }

  ghost predicate Inv(u: Setup, w: World) {
    && P.Inv(Cfg(u), w.net) && Linked(u, w)
    && forall p <- w.local :: W.Conserved(w.local[p])
  }

  lemma NetInv(u: Setup, w: World, step: Step)
    requires WellFormed(u) && Inv(u, w) && Enabled(u, STRICT, w, step)
    ensures P.Inv(Cfg(u), NetAfter(u, STRICT, w, step))
  {
    SetupIsWellNamed(u);
    if NetStep(STRICT, w, step).Some? { P.InvNext(Cfg(u), w.net, NetStep(STRICT, w, step).value); }
  }

  lemma LocalInv(held: bool, l: C.Local, c: string, act: Action, throttle: int)
    requires W.Conserved(l)
    ensures W.Conserved(LocalHalf(held, l, c, act, throttle))
  {
  }

  // ---------- the link between the two halves ----------

  /** Two coordinator states that differ at most in the engagement of `c`. */
  ghost predicate SameElsewhere(l: C.Local, m: C.Local, c: string) {
    forall d :: d != c ==> (d in m.engaged <==> d in l.engaged) && (d in l.engaged ==> m.engaged[d] == l.engaged[d])
  }

  /** Likewise for the network: other slots' guards hold what they held, and no call of theirs is new. */
  ghost predicate SameElsewhereNet(s: P.State, t: P.State, a: P.Slot) {
    && (forall g: P.Key :: g.slot != a ==> (g in t.held <==> g in s.held))
    && (forall o <- t.ops :: t.ops[o].call.Acquire? && t.ops[o].key.slot != a ==>
         o in s.ops && s.ops[o].call.Acquire? && s.ops[o].key == t.ops[o].key)
  }

  /** The link at slot `a`. */
  ghost predicate LinkAt(net: P.State, l: C.Local, a: P.Slot) {
    && (forall k <- net.held :: k.slot == a ==> FenceIs(l, a.cluster, k.gen))
    && (StartedIn(l, a.cluster) ==> FencedIn(l, a.cluster) && HeldAt(net, l, a))
    && (forall o <- net.ops :: net.ops[o].call.Acquire? && net.ops[o].key.slot == a ==>
         FenceIs(l, a.cluster, net.ops[o].key.gen) && !StartedIn(l, a.cluster))
  }

  lemma LinkedAt(u: Setup, w: World, a: P.Slot)
    requires Linked(u, w) && a.peer in w.local
    ensures LinkAt(w.net, w.local[a.peer], a)
  {
    forall k <- w.net.held | k.slot == a ensures FenceIs(w.local[a.peer], a.cluster, k.gen) { assert Current(w, k); }
    if StartedIn(w.local[a.peer], a.cluster) { assert Started(w, a.peer, a.cluster) && Holds(w, a.peer, a.cluster); }
    forall o <- w.net.ops | w.net.ops[o].call.Acquire? && w.net.ops[o].key.slot == a
      ensures FenceIs(w.local[a.peer], a.cluster, w.net.ops[o].key.gen) && !StartedIn(w.local[a.peer], a.cluster)
    {
      assert Current(w, w.net.ops[o].key) && Waits(w, a);
    }
  }

  /** A step about slot `a` alone keeps the link if it keeps it at `a`. */
  lemma Relinked(u: Setup, w: World, net: P.State, a: P.Slot, l: C.Local)
    requires Linked(u, w) && a.peer in w.local
    requires SameElsewhere(w.local[a.peer], l, a.cluster) && SameElsewhereNet(w.net, net, a) && LinkAt(net, l, a)
    ensures Linked(u, World(net, w.local[a.peer := l], {}))
  {
    var x := World(net, w.local[a.peer := l], {});
    forall q, c | Started(x, q, c) ensures Holds(x, q, c) {
      if P.Slot(q, c) != a { assert Started(w, q, c) && Holds(w, q, c); }
    }
    forall g <- net.held ensures Current(x, g) {
      if g.slot != a { assert Current(w, g); }
    }
    forall o <- net.ops | net.ops[o].call.Acquire? ensures Current(x, net.ops[o].key) && Waits(x, net.ops[o].key.slot) {
      var g := net.ops[o].key;
      if g.slot != a { assert Current(w, g) && Waits(w, g.slot); }
    }
  }

  /** Background steps change neither who holds a fence nor which acquisitions are under way. */
  lemma BackgroundFrame(cfg: P.Config, s: P.State, step: P.Step)
    requires InBackground(s, step) && P.Enabled(cfg, P.EachPeer, s, step)
    ensures var t := P.Apply(cfg, P.EachPeer, s, step); t.held == s.held && AcquiresWithin(s, t)
  {
  }

  ghost predicate AcquiresWithin(s: P.State, t: P.State) {
    forall o <- t.ops :: t.ops[o].call.Acquire? ==> o in s.ops && s.ops[o].call.Acquire? && s.ops[o].key == t.ops[o].key
  }

  lemma LinkedBackground(u: Setup, w: World, net: P.State)
    requires Linked(u, w) && net.held == w.net.held && AcquiresWithin(w.net, net)
    ensures Linked(u, w.(net := net))
  {
    var x := w.(net := net);
    forall k <- net.held ensures Current(x, k) { assert Current(w, k); }
    forall p, c | Started(x, p, c) ensures Holds(x, p, c) { assert Started(w, p, c) && Holds(w, p, c); }
    forall o <- net.ops | net.ops[o].call.Acquire? ensures Current(x, net.ops[o].key) && Waits(x, net.ops[o].key.slot) {
      var k := w.net.ops[o].key;
      assert Current(w, k) && Waits(w, k.slot);
    }
  }

  /** An action about one slot leaves every other guard and engagement alone. */
  lemma ActElsewhere(held: bool, l: C.Local, c: string, act: Action, throttle: int)
    ensures SameElsewhere(l, LocalHalf(held, l, c, act, throttle), c)
  {
  }

  lemma ActElsewhereNet(cfg: P.Config, net: P.State, l: C.Local, a: P.Slot, act: Action)
    requires MayAct(net, l, a, act)
    requires var s := NetHalf(STRICT, net, l, a, act); s.Some? && P.Enabled(cfg, P.EachPeer, net, s.value)
    ensures SameElsewhereNet(net, P.Apply(cfg, P.EachPeer, net, NetHalf(STRICT, net, l, a, act).value), a)
  {
  }

  /** At the slot itself: which guards it holds and acquires afterwards. */
  ghost predicate Settled(net: P.State, t: P.State, l: C.Local, a: P.Slot, act: Action) {
    && (forall k <- t.held :: k.slot == a ==> (act.Acquired? && k == KeyAt(l, a)) || (act.AcquireFailed? && k in net.held))
    && (act.Acquired? ==> KeyAt(l, a) in t.held)
    && (forall o <- t.ops :: t.ops[o].call.Acquire? && t.ops[o].key.slot == a ==> act.TryStart? && t.ops[o].key == KeyAt(l, a))
  }

  lemma ActHold(cfg: P.Config, net: P.State, l: C.Local, a: P.Slot, act: Action)
    requires P.Inv(cfg, net) && LinkAt(net, l, a) && MayAct(net, l, a, act)
    requires var s := NetHalf(STRICT, net, l, a, act); s.Some? && P.Enabled(cfg, P.EachPeer, net, s.value)
    ensures Settled(net, P.Apply(cfg, P.EachPeer, net, NetHalf(STRICT, net, l, a, act).value), l, a, act)
  {
    if act.Acquired? || act.AcquireFailed? { assert P.OpOk(cfg, net, net.ops[act.op]); }
  }

  /** The net half, where there is one. */
  function NetActed(cfg: P.Config, net: P.State, l: C.Local, a: P.Slot, act: Action): P.State
    requires var s := NetHalf(STRICT, net, l, a, act); s.Some? ==> P.Enabled(cfg, P.EachPeer, net, s.value)
  {
    var s := NetHalf(STRICT, net, l, a, act);
    if s.Some? then P.Apply(cfg, P.EachPeer, net, s.value) else net
  }

  lemma LinkKept(cfg: P.Config, net: P.State, l: C.Local, a: P.Slot, act: Action, throttle: int)
    requires P.Inv(cfg, net) && LinkAt(net, l, a) && MayAct(net, l, a, act)
    requires StartedIn(l, a.cluster) ==> l.engaged[a.cluster].work
    requires var s := NetHalf(STRICT, net, l, a, act); s.Some? ==> P.Enabled(cfg, P.EachPeer, net, s.value)
    ensures LinkAt(NetActed(cfg, net, l, a, act), LocalHalf(HeldAt(net, l, a), l, a.cluster, act, throttle), a)
  {
    if NetHalf(STRICT, net, l, a, act).Some? { ActHold(cfg, net, l, a, act); }
  }

  lemma LinkedAct(u: Setup, w: World, a: P.Slot, act: Action)
    requires Inv(u, w) && Enabled(u, STRICT, w, Act(a, act))
    ensures Linked(u, Apply(u, STRICT, w, Act(a, act)))
  {
    var l := w.local[a.peer];
    LinkedAt(u, w, a);
    ActElsewhere(HeldAt(w.net, l, a), l, a.cluster, act, u.throttle);
    if NetHalf(STRICT, w.net, l, a, act).Some? { ActElsewhereNet(Cfg(u), w.net, l, a, act); }
    assert W.Conserved(l);
    LinkKept(Cfg(u), w.net, l, a, act, u.throttle);
    var m := LocalHalf(HeldAt(w.net, l, a), l, a.cluster, act, u.throttle);
    Relinked(u, w, NetActed(Cfg(u), w.net, l, a, act), a, m);
  }

  lemma InvInit(u: Setup, w: World)
    requires Init(u, w)
    ensures Inv(u, w)
  {
    P.InvInit(Cfg(u), w.net);
    LinkedInit(u, w);
    forall p <- w.local ensures W.Conserved(w.local[p]) { W.ConservedReplay(C.EMPTY, []); }
  }

  lemma LinkedInit(u: Setup, w: World)
    requires w.net.held == {} && w.net.ops == map[] && w.owed == {} && w.local.Keys == u.seconds.Keys
    requires forall p <- w.local :: w.local[p] == C.EMPTY
    ensures Linked(u, w)
  {
  }

  lemma InvAct(u: Setup, w: World, a: P.Slot, act: Action)
    requires WellFormed(u) && Inv(u, w) && Enabled(u, STRICT, w, Act(a, act))
    ensures Inv(u, Apply(u, STRICT, w, Act(a, act)))
  {
    NetInv(u, w, Act(a, act));
    LinkedAct(u, w, a, act);
    LocalInv(HeldAt(w.net, w.local[a.peer], a), w.local[a.peer], a.cluster, act, u.throttle);
  }

  lemma InvBackground(u: Setup, w: World, s: P.Step)
    requires WellFormed(u) && Inv(u, w) && Enabled(u, STRICT, w, Background(s))
    ensures Inv(u, Apply(u, STRICT, w, Background(s)))
  {
    NetInv(u, w, Background(s));
    BackgroundFrame(Cfg(u), w.net, s);
    LinkedBackground(u, w, NetAfter(u, STRICT, w, Background(s)));
  }

  lemma InvNext(u: Setup, w: World, x: World)
    requires WellFormed(u) && Inv(u, w) && Next(u, STRICT, w, x)
    ensures Inv(u, x)
  {
    var step :| Enabled(u, STRICT, w, step) && x == Apply(u, STRICT, w, step);
    match step
    case Background(s) => InvBackground(u, w, s);
    case Act(a, act) => InvAct(u, w, a, act);
    case Repay(k, o) =>
  }

  lemma {:induction false} InvRun(u: Setup, run: seq<World>, i: nat)
    requires WellFormed(u) && IsRun(u, STRICT, run) && i < |run|
    ensures Inv(u, run[i])
  {
    if i == 0 {
      InvInit(u, run[0]);
    } else {
      InvRun(u, run, i - 1);
      InvNext(u, run[i-1], run[i]);
    }
  }

  /** A lost or given-up fence: its guard is free, its Release under way and its cluster stopped. */
  ghost predicate Freed(w: World, x: World, a: P.Slot, o: nat) {
    && a.peer in w.local && a.peer in x.local && !StartedIn(x.local[a.peer], a.cluster)
    && P.Unheld(x.net, a) && IsCall(x.net, o, KeyAt(w.local[a.peer], a), P.Release)
  }

  /** The action gives up a fence that is held. */
  predicate LetsGo(l: C.Local, a: P.Slot, act: Action) {
    act.Lose? || GivesUp(l, a.cluster, act)
  }

  lemma LettingGoNet(cfg: P.Config, net: P.State, l: C.Local, a: P.Slot, act: Action)
    requires P.Inv(cfg, net) && LinkAt(net, l, a) && MayAct(net, l, a, act) && HeldAt(net, l, a) && LetsGo(l, a, act)
    requires var s := NetHalf(STRICT, net, l, a, act); s.Some? ==> P.Enabled(cfg, P.EachPeer, net, s.value)
    ensures var t := NetActed(cfg, net, l, a, act); P.Unheld(t, a) && IsCall(t, act.op, KeyAt(l, a), P.Release)
  {
  }

  /** Under the strict rules, losing a fence, stopping the cluster and the end of its engagement all
      free the fence in the same step. */
  lemma GivingUpFrees(u: Setup, w: World, a: P.Slot, act: Action)
    requires Inv(u, w) && Enabled(u, STRICT, w, Act(a, act))
    requires HeldAt(w.net, w.local[a.peer], a) && LetsGo(w.local[a.peer], a, act)
    ensures Freed(w, Apply(u, STRICT, w, Act(a, act)), a, act.op)
  {
    LinkedAt(u, w, a);
    assert W.Conserved(w.local[a.peer]);
    LettingGoNet(Cfg(u), w.net, w.local[a.peer], a, act);
  }

  // ---------- the guarantee ----------

  /** The peer runs the cluster, inside the window of the lease it last wrote. */
  predicate Running(u: Setup, w: World, p: string, c: string) {
    Started(w, p, c) && P.Slot(p, c) in Slots(u) && P.InWindow(Cfg(u), w.net, P.Slot(p, c))
  }

  /** No two peers run one cluster inside their lease windows. */
  ghost predicate SoleRunner(u: Setup, w: World) {
    forall p, q, c :: Running(u, w, p, c) && Running(u, w, q, c) ==> p == q
  }

  ghost predicate AlwaysSole(u: Setup, r: Rules) {
    forall run, i: nat :: IsRun(u, r, run) && i < |run| ==> SoleRunner(u, run[i])
  }

  /** In every reachable state: a started cluster has its fence held, a held fence belongs to a
      current engagement, and no two peers run one cluster inside their lease windows. */
  lemma SingleWriterEverywhere(u: Setup, run: seq<World>, i: nat)
    requires WellFormed(u) && IsRun(u, STRICT, run) && i < |run|
    ensures forall p, c :: Started(run[i], p, c) ==> Holds(run[i], p, c)
    ensures forall k <- run[i].net.held :: Current(run[i], k)
    ensures SoleRunner(u, run[i])
  {
    InvRun(u, run, i);
    SetupIsWellNamed(u);
    P.InvExcludes(Cfg(u), run[i].net);
    forall p, q, c | Running(u, run[i], p, c) && Running(u, run[i], q, c) ensures p == q {
      assert Holds(run[i], p, c) && Holds(run[i], q, c);
      var g, h := KeyAt(run[i].local[p], P.Slot(p, c)), KeyAt(run[i].local[q], P.Slot(q, c));
      assert P.Fencing(Cfg(u), run[i].net, g) && P.Fencing(Cfg(u), run[i].net, h);
    }
  }

  /** What a coordinator's TryAcquire waits for under these rules is the Release of an earlier guard
      of its own for the cluster, and nothing else: no other guard of the slot is ever held then. */
  lemma OnlyReleasesDelay(u: Setup, run: seq<World>, i: nat, a: P.Slot)
    requires WellFormed(u) && IsRun(u, STRICT, run) && i < |run| && a in Slots(u)
    ensures a.peer in run[i].local
    ensures var net, l := run[i].net, run[i].local[a.peer];
      Unlocked(net, a.peer) && !HeldAt(net, l, a) ==>
        (P.CanBegin(P.EachPeer, net, KeyAt(l, a), P.Acquire) <==> !Releasing(net, a))
  {
    InvRun(u, run, i);
    LinkedAt(u, run[i], a);
  }

  predicate Releasing(net: P.State, a: P.Slot) {
    exists o <- net.ops :: net.ops[o].key.slot == a && net.ops[o].call.Release?
  }

  /** With the default per-cluster leases and normalised cluster names, distinct fences come for
      free: the single-writer guarantee needs only non-empty peer ids. */
  lemma NormalNamesAreWellFormed(u: Setup, prefix: string)
    requires "" !in u.seconds
    requires forall c <- u.fences :: Normal(c) && IsFenceName(prefix, true, c, u.fences[c])
    ensures WellFormed(u)
  {
    forall c <- u.fences, d <- u.fences | u.fences[c] == u.fences[d] ensures c == d {
      var x :| IsDns1123(c, x) && u.fences[c] == prefix + "-" + x;
      var y :| IsDns1123(d, y) && u.fences[d] == prefix + "-" + y;
      FencesCollideIff(prefix, true, c, d, x, y, u.fences[c], u.fences[d]);
    }
  }
}
