/** Runs of the coordinators in which two peers come to run one cluster, and exactly when there
    are none. */
module TwoWriters {
  import opened Options
  import opened Leases
  import opened LeaseGuards
  import opened Paths
  import opened SingleWriter
  import P = LeaseProtocol
  import C = Coordination

  ghost function Relation(u: Setup, r: Rules): (World, World) -> bool {
    (w, x) => Next(u, r, w, x)
  }

  ghost predicate Reaches(u: Setup, r: Rules, w: World, x: World) {
    Connects(Relation(u, r), w, x)
  }

  lemma One(u: Setup, r: Rules, w: World, step: Step)
    requires Enabled(u, r, w, step)
    ensures Reaches(u, r, w, Apply(u, r, w, step))
  {
    assert Next(u, r, w, Apply(u, r, w, step));
    Single(Relation(u, r), w, Apply(u, r, w, step));
  }

  lemma Then(u: Setup, r: Rules, w: World, x: World, y: World)
    requires Reaches(u, r, w, x) && Reaches(u, r, x, y)
    ensures Reaches(u, r, w, y)
  {
    Transitive(Relation(u, r), w, x, y);
  }

  // ---------- one peer takes a cluster, or gives it up ----------

  /** Slot `a` may take its lease now: the record is absent, free or its own. */
  predicate Free(u: Setup, w: World, a: P.Slot)
    requires a in Slots(u)
  {
    var r := RecordOf(u, w, a);
    r.Present? ==> HolderName(r.lease) in {"", a.peer}
  }

  /** Apart from slot `a`, whoever ran still runs. */
  ghost predicate OthersRun(u: Setup, w: World, x: World, a: P.Slot) {
    forall p, c :: Running(u, w, p, c) && P.Slot(p, c) != a ==> Running(u, x, p, c)
  }

  /** A new engagement begins to acquire its fence ... */
  lemma BeginTake(u: Setup, r: Rules, w: World, a: P.Slot, o: nat) returns (x: World)
    requires a in Slots(u) && a.peer in w.local && a.peer in w.net.clocks && o !in w.net.ops && Unlocked(w.net, a.peer)
    requires a.cluster !in w.local[a.peer].engaged
    requires P.CanBegin(r.waits, w.net, P.Key(a, w.local[a.peer].tokens), P.Acquire)
    ensures Reaches(u, r, w, x) && x.owed == w.owed
    ensures var l := w.local[a.peer]; var k := P.Key(a, l.tokens);
      && x.net == w.net.(ops := w.net.ops[o := P.Op(k, P.Acquire, w.net.clocks[a.peer], P.Begun)])
      && x.local == w.local[a.peer := C.Local(
           l.engaged[a.cluster := C.Engagement(l.tokens, 0, 0, false, false, Some(l.tokens), None)], l.live, l.tokens + 1)]
  {
    var engage, try := Act(a, Engage(0)), Act(a, TryStart(o, w.net.clocks[a.peer]));
    var y := Apply(u, r, w, engage);
    One(u, r, w, engage);
    One(u, r, y, try);
    x := Apply(u, r, y, try);
    Then(u, r, w, y, x);
    var l := w.local[a.peer];
    var e := C.Engagement(l.tokens, 0, 0, false, false, Some(l.tokens), None);
    assert x.local[a.peer].engaged == l.engaged[a.cluster := e];
    assert x.local == w.local[a.peer := C.Local(l.engaged[a.cluster := e], l.live, l.tokens + 1)];
  }

  /** Between `w` and `x`, guard `gen` of slot `a` took its lease at time `now` and nothing else was done. */
  ghost predicate Acquires(u: Setup, w: World, x: World, a: P.Slot, gen: nat, now: int) {
    && a.peer in w.local && a.peer in x.local && x.local == w.local[a.peer := x.local[a.peer]]
    && SameElsewhere(w.local[a.peer], x.local[a.peer], a.cluster)
    && x.net.clocks == w.net.clocks && x.net.held == w.net.held + {P.Key(a, gen)}
    && x.net.written == w.net.written[a := now] && x.owed == w.owed
    && a in Slots(u) && P.Recorded(Cfg(u), x.net, a)
    && StartedIn(x.local[a.peer], a.cluster) && FenceIs(x.local[a.peer], a.cluster, gen)
    && x.local[a.peer].engaged[a.cluster].nextTry.None? && x.local[a.peer].engaged[a.cluster].work
  }

  /** The server's side of adopting the record it has read ... */
  lemma AdoptNet(u: Setup, d: P.Discipline, net: P.State, a: P.Slot, o: nat, gen: nat)
    requires a in Slots(u) && IsCall(net, o, P.Key(a, gen), P.Acquire)
    requires var seen := P.Stored(net, u.fences[a.cluster]);
      net.ops[o].phase == P.Seen(seen) && (seen.Present? ==> HolderName(seen.lease) in {"", a.peer})
    ensures P.Enabled(Cfg(u), d, net, P.Write(o, true))
    ensures var t := P.Apply(Cfg(u), d, net, P.Write(o, true));
      && t.clocks == net.clocks && t.held == net.held + {P.Key(a, gen)} && t.ops == net.ops - {o}
      && t.written == net.written[a := net.ops[o].now] && P.Recorded(Cfg(u), t, a)
  {
  }

  /** ... and the coordinator's: the cluster starts. */
  lemma AdoptLocal(l: C.Local, c: string, now: int, throttle: int, gen: nat)
    requires WaitingIn(l, c) && FenceIs(l, c, gen) && l.engaged[c].nextTry.None?
    ensures var m := C.Decided(l, c, true, now, throttle, true);
      && SameElsewhere(l, m, c) && m.tokens == l.tokens && StartedIn(m, c) && FenceIs(m, c, gen)
      && m.engaged[c].nextTry.None? && m.engaged[c].work
  {
  }

  lemma Adopt(u: Setup, r: Rules, w: World, a: P.Slot, o: nat, gen: nat) returns (x: World)
    requires a in Slots(u) && a.peer in w.local && WaitingIn(w.local[a.peer], a.cluster)
    requires FenceIs(w.local[a.peer], a.cluster, gen) && w.local[a.peer].engaged[a.cluster].nextTry.None?
    requires IsCall(w.net, o, P.Key(a, gen), P.Acquire) && w.net.ops[o].phase == P.Seen(RecordOf(u, w, a)) && Free(u, w, a)
    ensures Reaches(u, r, w, x) && Acquires(u, w, x, a, gen, w.net.ops[o].now)
    ensures x.net.ops == w.net.ops - {o} && x.local[a.peer].tokens == w.local[a.peer].tokens
  {
    var now := w.net.ops[o].now;
    AdoptNet(u, r.waits, w.net, a, o, gen);
    AdoptLocal(w.local[a.peer], a.cluster, now, u.throttle, gen);
    One(u, r, w, Act(a, Acquired(o, now)));
    x := Apply(u, r, w, Act(a, Acquired(o, now)));
  }

  lemma ReadStep(u: Setup, r: Rules, w: World, a: P.Slot, o: nat) returns (x: World)
    requires a in Slots(u) && o in w.net.ops && w.net.ops[o].key.slot == a && w.net.ops[o].phase.Begun?
    ensures Reaches(u, r, w, x)
    ensures x == w.(net := w.net.(ops := w.net.ops[o := w.net.ops[o].(phase := P.Seen(RecordOf(u, w, a)))]))
  {
    One(u, r, w, Background(P.Read(o)));
    x := Apply(u, r, w, Background(P.Read(o)));
  }

  /** Since `w`, a new engagement of slot `a` has begun to acquire its fence and read the record. */
  ghost predicate Poised(u: Setup, w: World, z: World, a: P.Slot, o: nat, gen: nat) {
    && a in Slots(u) && a.peer in w.local && a.peer in z.local && z.local == w.local[a.peer := z.local[a.peer]]
    && SameElsewhere(w.local[a.peer], z.local[a.peer], a.cluster) && z.owed == w.owed
    && z.local[a.peer].tokens == w.local[a.peer].tokens + 1
    && WaitingIn(z.local[a.peer], a.cluster) && FenceIs(z.local[a.peer], a.cluster, gen)
    && z.local[a.peer].engaged[a.cluster].nextTry.None?
    && a.peer in w.net.clocks && z.net == w.net.(ops :=
         w.net.ops[o := P.Op(P.Key(a, gen), P.Acquire, w.net.clocks[a.peer], P.Seen(RecordOf(u, w, a)))])
  }

  lemma Prepare(u: Setup, r: Rules, w: World, a: P.Slot, o: nat) returns (z: World)
    requires a in Slots(u) && a.peer in w.local && a.peer in w.net.clocks && o !in w.net.ops && Unlocked(w.net, a.peer)
    requires a.cluster !in w.local[a.peer].engaged
    requires P.CanBegin(r.waits, w.net, P.Key(a, w.local[a.peer].tokens), P.Acquire)
    ensures Reaches(u, r, w, z) && Poised(u, w, z, a, o, w.local[a.peer].tokens)
  {
    var y := BeginTake(u, r, w, a, o);
    z := ReadStep(u, r, y, a, o);
    Then(u, r, w, y, z);
  }

  /** A new engagement takes the cluster from beginning to end. */
  lemma Take(u: Setup, r: Rules, w: World, a: P.Slot, o: nat) returns (x: World)
    requires a in Slots(u) && a.peer in w.local && a.peer in w.net.clocks && o !in w.net.ops && Unlocked(w.net, a.peer)
    requires a.cluster !in w.local[a.peer].engaged && Free(u, w, a)
    requires P.CanBegin(r.waits, w.net, P.Key(a, w.local[a.peer].tokens), P.Acquire)
    ensures Reaches(u, r, w, x) && Acquires(u, w, x, a, w.local[a.peer].tokens, w.net.clocks[a.peer])
    ensures x.net.ops == w.net.ops && x.local[a.peer].tokens == w.local[a.peer].tokens + 1
  {
    var z := Prepare(u, r, w, a, o);
    x := Adopt(u, r, z, a, o, w.local[a.peer].tokens);
    Then(u, r, w, z, x);
    FromPoised(u, w, z, x, a, o, w.local[a.peer].tokens);
  }

  lemma FromPoised(u: Setup, w: World, z: World, x: World, a: P.Slot, o: nat, gen: nat)
    requires Poised(u, w, z, a, o, gen) && o !in w.net.ops && x.net.ops == z.net.ops - {o}
    requires Acquires(u, z, x, a, gen, w.net.clocks[a.peer])
    ensures Acquires(u, w, x, a, gen, w.net.clocks[a.peer]) && x.net.ops == w.net.ops
  {
  }

  lemma TakerRuns(u: Setup, w: World, x: World, a: P.Slot, gen: nat)
    requires a.peer in w.net.clocks && Acquires(u, w, x, a, gen, w.net.clocks[a.peer])
    requires u.seconds[a.peer] * SECOND >= u.skew
    ensures Running(u, x, a.peer, a.cluster) && OthersRun(u, w, x, a)
  {
  }

  lemma RoomFor(u: Setup, a: P.Slot)
    requires P.Roomy(Cfg(u)) && a in Slots(u)
    ensures u.seconds[a.peer] * SECOND >= u.skew
  {
    assert Cfg(u).slots[a].seconds * SECOND >= u.skew;
  }

  /** A Release under way finds its own identity in the record and clears it. */
  lemma Clear(u: Setup, r: Rules, w: World, a: P.Slot, o: nat) returns (x: World)
    requires a in Slots(u) && o in w.net.ops && w.net.ops[o].key.slot == a
    requires w.net.ops[o].call.Release? && w.net.ops[o].phase.Begun?
    requires RecordOf(u, w, a).Present? && RecordOf(u, w, a).lease.holder == Some(a.peer)
    ensures Reaches(u, r, w, x) && x.local == w.local && x.owed == w.owed
    ensures x.net == w.net.(ops := w.net.ops - {o}, store := x.net.store)
    ensures RecordOf(u, x, a).Present? && RecordOf(u, x, a).lease.holder == Some("")
  {
    var y := ReadStep(u, r, w, a, o);
    x := Apply(u, r, y, Background(P.Write(o, true)));
    One(u, r, y, Background(P.Write(o, true)));
    Then(u, r, w, y, x);
    assert x.net.ops == w.net.ops - {o};
  }

  // ---------- from the start ----------

  /** Clocks at zero, no leases and no engagements. */
  function Begin(u: Setup): World {
    World(P.Start(Cfg(u)), map p | p in u.seconds :: C.EMPTY, {})
  }

  lemma Begins(u: Setup, a: P.Slot)
    requires u.skew >= 0 && a in Slots(u)
    ensures Init(u, Begin(u)) && a.peer in Begin(u).net.clocks && a.peer in Begin(u).local
  {
    assert a in Cfg(u).slots;
  }

  /** The guarantee is not empty: from any start without leases, under any rules, any peer can come
      to run any cluster. */
  lemma AnyPeerCanRun(u: Setup, r: Rules, w: World, a: P.Slot) returns (x: World)
    requires Init(u, w) && w.net.store == map[] && a in Slots(u) && u.seconds[a.peer] * SECOND >= u.skew
    ensures Reaches(u, r, w, x) && Running(u, x, a.peer, a.cluster)
    ensures a.peer in w.net.clocks && Acquires(u, w, x, a, 0, w.net.clocks[a.peer])
    ensures x.net.ops == map[] && x.local[a.peer].tokens == 1
  {
    assert a in Cfg(u).slots;
    x := Take(u, r, w, a, 0);
    TakerRuns(u, w, x, a, 0);
  }

  lemma FirstTakes(u: Setup, r: Rules, a: P.Slot) returns (x: World)
    requires P.Roomy(Cfg(u)) && a in Slots(u)
    ensures Reaches(u, r, Begin(u), x) && Acquires(u, Begin(u), x, a, 0, 0) && x.net.ops == map[]
    ensures x.local[a.peer].tokens == 1 && Running(u, x, a.peer, a.cluster)
  {
    Begins(u, a);
    RoomFor(u, a);
    x := AnyPeerCanRun(u, r, Begin(u), a);
  }

  /** Two peers run cluster `c` in a state reached from the start. */
  ghost predicate Shared(u: Setup, r: Rules, p: string, q: string, c: string) {
    exists x :: Reaches(u, r, Begin(u), x) && Running(u, x, p, c) && Running(u, x, q, c)
  }

  /** After a run in which slot `a` runs its cluster although the record names nobody, or the empty
      identity, another peer takes it as well. */
  lemma SecondTakes(u: Setup, r: Rules, w: World, a: P.Slot, q: string)
    requires P.Roomy(Cfg(u)) && Reaches(u, r, Begin(u), w) && Running(u, w, a.peer, a.cluster) && q in u.seconds && q != a.peer
    requires w.net.clocks == Begin(u).net.clocks && w.net.ops == map[] && w.net.held <= {P.Key(a, 0), P.Key(a, 1)}
    requires q in w.local && a.cluster !in w.local[q].engaged && a in Slots(u)
    requires RecordOf(u, w, a).Present? && HolderName(RecordOf(u, w, a).lease) == ""
    ensures Shared(u, r, a.peer, q, a.cluster)
  {
    var b := P.Slot(q, a.cluster);
    Begins(u, b);
    var x := Take(u, r, w, b, 0);
    RoomFor(u, b);
    TakerRuns(u, w, x, b, w.local[q].tokens);
    Then(u, r, Begin(u), w, x);
  }

  // ---------- names ----------

  /** A peer without an identity leaves the lease looking free. */
  lemma EmptyIdentity(u: Setup, q: string, c: string)
    requires P.Roomy(Cfg(u)) && "" in u.seconds && q in u.seconds && q != "" && c in u.fences
    ensures Shared(u, STRICT, "", q, c)
  {
    var a := P.Slot("", c);
    var w := FirstTakes(u, STRICT, a);
    SecondTakes(u, STRICT, w, a, q);
  }

  /** A started cluster is stopped, and its Release runs to the end. */
  lemma GiveUp(u: Setup, w: World, a: P.Slot, gen: nat) returns (x: World)
    requires a in Slots(u) && a.peer in w.local && a.peer in w.net.clocks && w.net.ops == map[]
    requires StartedIn(w.local[a.peer], a.cluster) && FenceIs(w.local[a.peer], a.cluster, gen) && P.Key(a, gen) in w.net.held
    requires RecordOf(u, w, a).Present? && RecordOf(u, w, a).lease.holder == Some(a.peer)
    ensures Reaches(u, STRICT, w, x) && a.peer in x.local && x.local == w.local[a.peer := x.local[a.peer]]
    ensures SameElsewhere(w.local[a.peer], x.local[a.peer], a.cluster)
    ensures x.net.ops == map[] && x.net.held == w.net.held - {P.Key(a, gen)}
    ensures x.net.written == w.net.written && x.net.clocks == w.net.clocks
    ensures RecordOf(u, x, a).Present? && RecordOf(u, x, a).lease.holder == Some("")
  {
    var y := Apply(u, STRICT, w, Act(a, Stop(0, 0)));
    One(u, STRICT, w, Act(a, Stop(0, 0)));
    x := Clear(u, STRICT, y, a, 0);
    Then(u, STRICT, w, y, x);
  }

  /** Two clusters on one lease: giving up one of them frees the lease of the other. */
  lemma SharedFence(u: Setup, p: string, q: string, c: string, d: string)
    requires P.Roomy(Cfg(u)) && p in u.seconds && q in u.seconds && p != q
    requires c in u.fences && d in u.fences && c != d && u.fences[c] == u.fences[d]
    ensures Shared(u, STRICT, p, q, c)
  {
    var a, b := P.Slot(p, c), P.Slot(p, d);
    var w := FirstTakes(u, STRICT, a);
    var x := Take(u, STRICT, w, b, 0);
    RoomFor(u, b);
    TakerRuns(u, w, x, b, 1);
    var y := GiveUp(u, x, b, 1);
    Then(u, STRICT, Begin(u), w, x);
    Then(u, STRICT, Begin(u), x, y);
    SecondTakes(u, STRICT, y, a, q);
  }

  // ---------- rules ----------

  /** The Release that was owed is entered. */
  lemma Enter(u: Setup, r: Rules, w: World, a: P.Slot) returns (x: World)
    requires a in Slots(u) && a.peer in w.net.clocks && w.net.ops == map[]
    requires w.net.held == {P.Key(a, 0)} && w.owed == {P.Key(a, 0)}
    ensures Reaches(u, r, w, x) && x.local == w.local
    ensures x.net == w.net.(held := {}, ops := map[1 := P.Op(P.Key(a, 0), P.Release, w.net.clocks[a.peer], P.Begun)])
  {
    One(u, r, w, Repay(P.Key(a, 0), 1));
    x := Apply(u, r, w, Repay(P.Key(a, 0), 1));
  }

  /** The provider's context ends: the engagement goes, and its guard's Release is entered. */
  lemma Leave(u: Setup, r: Rules, w: World, a: P.Slot) returns (x: World)
    requires a in Slots(u) && a.peer in w.local && a.peer in w.net.clocks && w.net.ops == map[] && w.owed == {}
    requires FenceIs(w.local[a.peer], a.cluster, 0) && w.net.held == {P.Key(a, 0)}
    ensures Reaches(u, r, w, x) && x.local.Keys == w.local.Keys && a.cluster !in x.local[a.peer].engaged
    ensures x.local == w.local[a.peer := x.local[a.peer]] && x.local[a.peer].tokens == w.local[a.peer].tokens
    ensures x.net == w.net.(held := {}, ops := map[1 := P.Op(P.Key(a, 0), P.Release, w.net.clocks[a.peer], P.Begun)])
  {
    var done := Act(a, ProviderDone(w.local[a.peer].engaged[a.cluster].token, 1));
    One(u, r, w, done);
    x := Apply(u, r, w, done);
    if !r.prompt {
      var y := Enter(u, r, x, a);
      Then(u, r, w, x, y);
      x := y;
    }
  }

  /** A TryAcquire that does not wait for the peer's earlier guards: the provider's context ends, the
      cluster is engaged anew with a new guard, and the old guard's Release clears the new hold. */
  lemma LateRelease(u: Setup, r: Rules, p: string, q: string, c: string)
    requires P.Roomy(Cfg(u)) && p in u.seconds && q in u.seconds && p != q && c in u.fences
    requires !r.waits.EachPeer?
    ensures Shared(u, r, p, q, c)
  {
    var a := P.Slot(p, c);
    var w := FirstTakes(u, r, a);
    var x := Leave(u, r, w, a);
    var y := Take(u, r, x, a, 0);
    RoomFor(u, a);
    TakerRuns(u, x, y, a, 1);
    var z := Clear(u, r, y, a, 1);
    Then(u, r, Begin(u), w, x);
    Then(u, r, Begin(u), x, y);
    Then(u, r, Begin(u), y, z);
    SecondTakes(u, r, z, a, q);
  }

  /** A renewal fails and onLost stops the work; before Release is entered, a pass finds the guard
      still held and starts the cluster again. */
  lemma Restart(u: Setup, r: Rules, w: World, a: P.Slot) returns (x: World)
    requires !r.prompt && a in Slots(u) && a.peer in w.local && a.peer in w.net.clocks && w.net.ops == map[] && w.owed == {}
    requires P.Key(a, 0) in w.net.held && FenceIs(w.local[a.peer], a.cluster, 0) && StartedIn(w.local[a.peer], a.cluster)
    requires w.local[a.peer].engaged[a.cluster].work && w.local[a.peer].engaged[a.cluster].nextTry.None?
    ensures Reaches(u, r, w, x) && x.net == w.net && x.owed == {P.Key(a, 0)}
    ensures a.peer in x.local && x.local == w.local[a.peer := x.local[a.peer]] && StartedIn(x.local[a.peer], a.cluster)
  {
    var y := Notify(u, r, w, a);
    var again := Act(a, TryStart(0, w.net.clocks[a.peer]));
    One(u, r, y, again);
    x := Apply(u, r, y, again);
    Then(u, r, w, y, x);
  }

  lemma Notify(u: Setup, r: Rules, w: World, a: P.Slot) returns (x: World)
    requires !r.prompt && a in Slots(u) && a.peer in w.local && a.peer in w.net.clocks && w.net.ops == map[] && w.owed == {}
    requires P.Key(a, 0) in w.net.held && FenceIs(w.local[a.peer], a.cluster, 0) && StartedIn(w.local[a.peer], a.cluster)
    requires w.local[a.peer].engaged[a.cluster].work
    ensures Reaches(u, r, w, x) && x.net == w.net && x.owed == {P.Key(a, 0)}
    ensures x.local == w.local[a.peer := C.Halted(w.local[a.peer], a.cluster)]
  {
    var renew, lose := Background(P.Begin(0, P.Key(a, 0), P.Renew)), Act(a, Lose(0, false));
    var y := Apply(u, r, w, renew);
    One(u, r, w, renew);
    One(u, r, y, lose);
    x := Apply(u, r, y, lose);
    Then(u, r, w, y, x);
    assert x.net.ops == map[];
  }

  /** onLost and Release as two steps: the pass in between runs on a fence that is then given up. */
  lemma SplitLoss(u: Setup, r: Rules, p: string, q: string, c: string)
    requires P.Roomy(Cfg(u)) && p in u.seconds && q in u.seconds && p != q && c in u.fences && !r.prompt
    ensures Shared(u, r, p, q, c)
  {
    var a := P.Slot(p, c);
    var w := FirstTakes(u, r, a);
    var x := Restart(u, r, w, a);
    var y := Enter(u, r, x, a);
    var z := Clear(u, r, y, a, 1);
    Then(u, r, Begin(u), w, x);
    Then(u, r, Begin(u), x, y);
    Then(u, r, Begin(u), y, z);
    SecondTakes(u, r, z, a, q);
  }

  // ---------- the exact condition ----------

  lemma SharedIsARun(u: Setup, r: Rules, p: string, q: string, c: string)
    requires u.skew >= 0 && Shared(u, r, p, q, c) && p != q
    ensures !AlwaysSole(u, r)
  {
    var x :| Reaches(u, r, Begin(u), x) && Running(u, x, p, c) && Running(u, x, q, c);
    var run :| IsPath(Relation(u, r), run, Begin(u), x);
    forall i | 0 < i < |run| ensures Next(u, r, run[i-1], run[i]) { assert Leads(Relation(u, r), run, i); }
    Begins(u, P.Slot(p, c));
    assert IsRun(u, r, run) && !SoleRunner(u, run[|run|-1]);
  }

  lemma TwoOf(m: map<string, int>) returns (p: string, q: string)
    requires |m| >= 2
    ensures p in m && q in m && p != q
  {
    p :| p in m;
    var rest := m.Keys - {p};
    assert |rest| == |m| - 1;
    q :| q in rest;
  }

  /** Whenever the condition fails, some run has two peers running one cluster. */
  lemma TwoPeersRun(u: Setup, r: Rules)
    requires P.Roomy(Cfg(u)) && |u.seconds| >= 2 && u.fences != map[] && !(r == STRICT && WellFormed(u))
    ensures exists p, q, c :: p != q && Shared(u, r, p, q, c)
  {
    var p, q := TwoOf(u.seconds);
    var c :| c in u.fences;
    if !r.waits.EachPeer? {
      LateRelease(u, r, p, q, c);
    } else if !r.prompt {
      SplitLoss(u, r, p, q, c);
    } else if "" in u.seconds {
      EmptyIdentity(u, if p == "" then q else p, c);
    } else {
      var e, f :| e in u.fences && f in u.fences && u.fences[e] == u.fences[f] && e != f;
      SharedFence(u, p, q, e, f);
    }
  }

  lemma NoOneToShare(u: Setup, w: World)
    requires |u.seconds| < 2 || u.fences == map[]
    ensures SoleRunner(u, w)
  {
    forall p, q, c | Running(u, w, p, c) && Running(u, w, q, c) ensures p == q {
      if |u.seconds| < 2 { AtMostOne(u.seconds, p, q); }
    }
  }

  lemma AtMostOne(m: map<string, int>, p: string, q: string)
    requires p in m && q in m && |m| < 2
    ensures p == q
  {
    var rest := m.Keys - {p};
    assert m.Keys == rest + {p};
    assert |rest| == 0;
  }

  /** In all runs no two peers run one cluster inside their lease windows, exactly when there are no
      two peers or no clusters, or giving up a fence frees it at once, a TryAcquire waits for all of
      the peer's earlier guards, no peer has an empty identity and no two clusters share a fence. */
  lemma SingleWriterIff(u: Setup, r: Rules)
    requires P.Roomy(Cfg(u))
    ensures AlwaysSole(u, r) <==> |u.seconds| < 2 || u.fences == map[] || (r == STRICT && WellFormed(u))
  {
    if |u.seconds| < 2 || u.fences == map[] {
      forall run, i: nat | IsRun(u, r, run) && i < |run| ensures SoleRunner(u, run[i]) { NoOneToShare(u, run[i]); }
    } else if r == STRICT && WellFormed(u) {
      forall run, i: nat | IsRun(u, r, run) && i < |run| ensures SoleRunner(u, run[i]) {
        SingleWriterEverywhere(u, run, i);
      }
    } else {
      TwoPeersRun(u, r);
      var p, q, c :| p != q && Shared(u, r, p, q, c);
      SharedIsARun(u, r, p, q, c);
    }
  }

  /** The code as written never has it once there are two peers and a cluster, however they are named. */
  lemma AsWrittenIff(u: Setup)
    requires P.Roomy(Cfg(u))
    ensures AlwaysSole(u, AS_WRITTEN) <==> |u.seconds| < 2 || u.fences == map[]
  {
    SingleWriterIff(u, AS_WRITTEN);
  }
}
