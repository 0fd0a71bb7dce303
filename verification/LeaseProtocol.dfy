/** Every interleaving of lease guards against one API server.

    A guard's call samples its clock, reads the record and then tries a version-checked
    write; other guards, clock ticks and failures may come between any two of these. */
module LeaseProtocol {
  import opened Options
  import opened Leases
  import opened LeaseGuards

  /** The fence a peer keeps for a cluster. Over time several guard objects serve it, one at a time
      from the peer's point of view, each numbered by `gen`. */
  datatype Slot = Slot(peer: string, cluster: string)
  datatype Key = Key(slot: Slot, gen: nat)
  datatype Conf = Conf(id: string, lease: string, seconds: int)

  /** `skew` bounds how far apart any two peers' clocks ever are. */
  datatype Config = Config(slots: map<Slot, Conf>, skew: int)

  datatype Call = Acquire | Renew | Release
  datatype Phase = Begun | Seen(record: Record)
  datatype Op = Op(key: Key, call: Call, now: int, phase: Phase)

  /** `written` is the RenewTime of the last write of each slot's guards that reached the store. */
  datatype State = State(
    clocks: map<string, int>,
    store: map<string, Record>,
    held: set<Key>,
    written: map<Slot, int>,
    ops: map<nat, Op>)

  /** What a TryAcquire waits for. `EachGuard` is the contract of leaseguard.go:47-49: no other
      TryAcquire or Release of the same guard object. `EachPeer` asks it of all the guards the peer
      has made for the cluster, and that none of the others is held. */
  datatype Discipline = Unrestricted | EachGuard | EachPeer

  datatype Step =
    | Tick(clocks: map<string, int>)
    | Begin(op: nat, key: Key, call: Call)
    | Read(op: nat)
    | Write(op: nat, replied: bool)
    | Fail(op: nat)
    | Drop(op: nat)
    | Crash(key: Key)

  function Stored(s: State, lease: string): Record {
    if lease in s.store then s.store[lease] else Absent
  }

  predicate Synchronised(cfg: Config, clocks: map<string, int>) {
    && (forall k <- cfg.slots :: k.peer in clocks)
    && (forall p <- clocks, q <- clocks :: clocks[p] - clocks[q] <= cfg.skew)
  }

  /** No TryAcquire or Release of guard `k` is under way. */
  predicate Idle(s: State, k: Key) {
    forall o <- s.ops :: s.ops[o].key == k ==> s.ops[o].call.Renew?
  }

  predicate Unheld(s: State, slot: Slot) {
    forall k <- s.held :: k.slot != slot
  }

  /** No guard of the slot is held, and none has a TryAcquire or Release under way. */
  predicate Quiet(s: State, slot: Slot) {
    && Unheld(s, slot)
    && (forall o <- s.ops :: s.ops[o].key.slot == slot ==> s.ops[o].call.Renew?)
  }

  /** The lease a call writes back, given what it read. */
  function Proposal(cfg: Config, op: Op): Option<Lease>
    requires op.key.slot in cfg.slots && op.phase.Seen?
  {
    var c := cfg.slots[op.key.slot];
    match op.call
    case Acquire => AcquireWrite(op.phase.record, c.id, c.seconds, op.now)
    case Renew => RenewWrite(op.phase.record, c.id, c.seconds, op.now)
    case Release => ReleaseWrite(op.phase.record, c.id)
  }

  /** TryAcquire on a held guard and Release on one that is not held return without contacting the
      server. */
  predicate CanBegin(d: Discipline, s: State, k: Key, call: Call) {
    match call
    case Acquire => k !in s.held && (d.EachGuard? ==> Idle(s, k)) && (d.EachPeer? ==> Quiet(s, k.slot))
    case Renew => true
    case Release => k in s.held
  }

  predicate Enabled(cfg: Config, d: Discipline, s: State, step: Step) {
    match step
    case Tick(clocks) =>
      clocks.Keys == s.clocks.Keys && Synchronised(cfg, clocks) && forall p <- clocks :: s.clocks[p] <= clocks[p]
    case Begin(o, k, call) =>
      o !in s.ops && k.slot in cfg.slots && k.slot.peer in s.clocks && CanBegin(d, s, k, call)
    case Read(o) => o in s.ops && s.ops[o].key.slot in cfg.slots && s.ops[o].phase.Begun?
    case Write(o, _) =>
      && o in s.ops && s.ops[o].key.slot in cfg.slots && s.ops[o].phase.Seen?
      && Proposal(cfg, s.ops[o]).Some?
      && CanWrite(Stored(s, cfg.slots[s.ops[o].key.slot].lease), s.ops[o].phase.record)
    case Fail(o) => o in s.ops
    case Drop(o) => o in s.ops
    case Crash(k) => true
  }

  /** A call that failed: a renewal of a held guard turns into the loss of the fence, whose
      Release starts at once; any other call just ends. */
  function Failed(s: State, o: nat): State
    requires o in s.ops
  {
    var op := s.ops[o];
    if op.call.Renew? && op.key in s.held then
      s.(held := s.held - {op.key}, ops := s.ops[o := Op(op.key, Release, op.now, Begun)])
    else
      s.(ops := s.ops - {o})
  }

  /** The store after call `o` wrote; only TryAcquire and renewal set RenewTime. */
  function Landed(cfg: Config, s: State, o: nat): State
    requires o in s.ops && s.ops[o].key.slot in cfg.slots && s.ops[o].phase.Seen?
    requires Proposal(cfg, s.ops[o]).Some?
  {
    var op := s.ops[o];
    var lease := cfg.slots[op.key.slot].lease;
    s.(store := s.store[lease := Written(Stored(s, lease), Proposal(cfg, op).value)],
       written := if op.call.Release? then s.written else s.written[op.key.slot := op.now])
  }

  function Apply(cfg: Config, d: Discipline, s: State, step: Step): State
    requires Enabled(cfg, d, s, step)
  {
    match step
    case Tick(clocks) => s.(clocks := clocks)
    case Begin(o, k, call) =>
      s.(held := if call.Release? then s.held - {k} else s.held,
         ops := s.ops[o := Op(k, call, s.clocks[k.slot.peer], Begun)])
    case Read(o) =>
      var op := s.ops[o];
      s.(ops := s.ops[o := op.(phase := Seen(Stored(s, cfg.slots[op.key.slot].lease)))])
    case Write(o, replied) =>
      var t := Landed(cfg, s, o);
      if !replied then Failed(t, o)
      else t.(held := if s.ops[o].call.Acquire? then s.held + {s.ops[o].key} else s.held, ops := s.ops - {o})
    case Fail(o) => Failed(s, o)
    case Drop(o) => s.(ops := s.ops - {o})
    case Crash(k) => s.(held := s.held - {k})
  }

  ghost predicate Next(cfg: Config, d: Discipline, s: State, t: State) {
    exists step :: Enabled(cfg, d, s, step) && t == Apply(cfg, d, s, step)
  }

  /** Guards start idle, on any leases earlier processes may have left behind. */
  predicate Init(cfg: Config, s: State) {
    s.held == {} && s.ops == map[] && s.written == map[] && Synchronised(cfg, s.clocks)
  }

  ghost predicate IsRun(cfg: Config, d: Discipline, run: seq<State>) {
    && |run| > 0 && Init(cfg, run[0])
    && forall i :: 0 < i < |run| ==> Next(cfg, d, run[i-1], run[i])
  }

  /** The peer's own clock has not passed the slot's last written RenewTime + duration, less the skew. */
  predicate InWindow(cfg: Config, s: State, slot: Slot)
    requires slot in cfg.slots
  {
    && slot in s.written && slot.peer in s.clocks
    && s.clocks[slot.peer] <= s.written[slot] + cfg.slots[slot].seconds * SECOND - cfg.skew
  }

  predicate Fencing(cfg: Config, s: State, k: Key) {
    k.slot in cfg.slots && k in s.held && InWindow(cfg, s, k.slot)
  }

  predicate SameLease(cfg: Config, a: Slot, b: Slot) {
    a in cfg.slots && b in cfg.slots && cfg.slots[a].lease == cfg.slots[b].lease
  }

  /** Only guards of one slot can be fencing one lease. */
  ghost predicate Exclusive(cfg: Config, s: State) {
    forall g, h :: Fencing(cfg, s, g) && Fencing(cfg, s, h) && SameLease(cfg, g.slot, h.slot) ==> g.slot == h.slot
  }

  ghost predicate AlwaysExclusive(cfg: Config, d: Discipline) {
    forall run, i: nat :: IsRun(cfg, d, run) && i < |run| ==> Exclusive(cfg, run[i])
  }

  /** Slots sharing a lease have different, non-empty identities. */
  ghost predicate WellNamed(cfg: Config) {
    forall a, b :: SameLease(cfg, a, b) && a != b ==> cfg.slots[a].id != cfg.slots[b].id && cfg.slots[a].id != ""
  }

  // ---------- the invariant ----------

  /** What a call read is still current, or an older version. */
  predicate Stale(seen: Record, current: Record) {
    seen.Present? ==>
      current.Present? && seen.version <= current.version && (seen.version == current.version ==> seen == current)
  }

  predicate OpOk(cfg: Config, s: State, op: Op) {
    && op.key.slot in cfg.slots && op.key.slot.peer in s.clocks && op.now <= s.clocks[op.key.slot.peer]
    && (!op.call.Renew? ==> Unheld(s, op.key.slot))
    && (op.phase.Seen? ==> Stale(op.phase.record, Stored(s, cfg.slots[op.key.slot].lease)))
  }

  /** The record says what the slot's guards last wrote. */
  predicate Recorded(cfg: Config, s: State, slot: Slot)
    requires slot in cfg.slots
  {
    var c := cfg.slots[slot];
    var r := Stored(s, c.lease);
    && slot in s.written && r.Present? && r.lease.holder == Some(c.id)
    && r.lease.renewed == Some(s.written[slot]) && r.lease.seconds == Some(c.seconds)
  }

  ghost predicate Serial(s: State) {
    forall o <- s.ops, q <- s.ops :: o != q && s.ops[o].key.slot == s.ops[q].key.slot ==>
      s.ops[o].call.Renew? || s.ops[q].call.Renew?
  }

  /** At most one guard of a slot is held. */
  ghost predicate OneGuard(s: State) {
    forall g <- s.held, h <- s.held :: g.slot == h.slot ==> g == h
  }

  ghost predicate Inv(cfg: Config, s: State) {
    && Synchronised(cfg, s.clocks)
    && (forall o <- s.ops :: OpOk(cfg, s, s.ops[o]))
    && Serial(s) && OneGuard(s)
    && (forall k :: Fencing(cfg, s, k) ==> Recorded(cfg, s, k.slot))
  }

  lemma InvTick(cfg: Config, s: State, clocks: map<string, int>)
    requires Inv(cfg, s) && Enabled(cfg, EachPeer, s, Tick(clocks))
    ensures Inv(cfg, Apply(cfg, EachPeer, s, Tick(clocks)))
  {
    var t := Apply(cfg, EachPeer, s, Tick(clocks));
    forall o <- t.ops ensures OpOk(cfg, t, t.ops[o]) { assert OpOk(cfg, s, s.ops[o]); }
    forall k | Fencing(cfg, t, k) ensures Recorded(cfg, t, k.slot) { assert Fencing(cfg, s, k); }
  }

  lemma InvBegin(cfg: Config, s: State, o: nat, k: Key, call: Call)
    requires Inv(cfg, s) && Enabled(cfg, EachPeer, s, Begin(o, k, call))
    ensures Inv(cfg, Apply(cfg, EachPeer, s, Begin(o, k, call)))
  {
    var t := Apply(cfg, EachPeer, s, Begin(o, k, call));
    forall q <- t.ops ensures OpOk(cfg, t, t.ops[q]) { if q != o { assert OpOk(cfg, s, s.ops[q]); } }
    forall g | Fencing(cfg, t, g) ensures Recorded(cfg, t, g.slot) { assert Fencing(cfg, s, g); }
  }

  lemma InvRead(cfg: Config, s: State, o: nat)
    requires Inv(cfg, s) && Enabled(cfg, EachPeer, s, Read(o))
    ensures Inv(cfg, Apply(cfg, EachPeer, s, Read(o)))
  {
    var t := Apply(cfg, EachPeer, s, Read(o));
    forall q <- t.ops ensures OpOk(cfg, t, t.ops[q]) { assert OpOk(cfg, s, s.ops[q]); }
    forall g | Fencing(cfg, t, g) ensures Recorded(cfg, t, g.slot) { assert Fencing(cfg, s, g); }
  }

  lemma InvGone(cfg: Config, s: State, gone: set<nat>, lost: set<Key>)
    requires Inv(cfg, s)
    ensures Inv(cfg, s.(held := s.held - lost, ops := s.ops - gone))
  {
    var t := s.(held := s.held - lost, ops := s.ops - gone);
    forall q <- t.ops ensures OpOk(cfg, t, t.ops[q]) { assert OpOk(cfg, s, s.ops[q]); }
    forall g | Fencing(cfg, t, g) ensures Recorded(cfg, t, g.slot) { assert Fencing(cfg, s, g); }
  }

  /** A lost fence: its failed renewal becomes its Release. */
  lemma InvLost(cfg: Config, s: State, o: nat)
    requires Inv(cfg, s) && o in s.ops && s.ops[o].call.Renew? && s.ops[o].key in s.held
    ensures Inv(cfg, Failed(s, o))
  {
    var t := Failed(s, o);
    forall q <- t.ops ensures OpOk(cfg, t, t.ops[q]) { assert OpOk(cfg, s, s.ops[q]); }
    forall g | Fencing(cfg, t, g) ensures Recorded(cfg, t, g.slot) { assert Fencing(cfg, s, g); }
  }

  lemma InvFailed(cfg: Config, s: State, o: nat)
    requires Inv(cfg, s) && o in s.ops
    ensures Inv(cfg, Failed(s, o))
  {
    if s.ops[o].call.Renew? && s.ops[o].key in s.held {
      InvLost(cfg, s, o);
    } else {
      InvGone(cfg, s, {o}, {});
      assert s.held - {} == s.held;
    }
  }

  /** The heart of the protocol: while guard `k` fences its lease, no other peer's write lands, nor
      any Release or TryAcquire of the peer's own. */
  lemma OnlyTheFencerWrites(cfg: Config, s: State, o: nat, replied: bool, k: Key)
    requires WellNamed(cfg) && Inv(cfg, s) && Enabled(cfg, EachPeer, s, Write(o, replied))
    requires Fencing(cfg, s, k) && SameLease(cfg, s.ops[o].key.slot, k.slot)
    ensures s.ops[o].key.slot == k.slot && s.ops[o].call.Renew?
  {
    var op := s.ops[o];
    assert OpOk(cfg, s, op) && Recorded(cfg, s, k.slot);
    assert s.clocks[op.key.slot.peer] - s.clocks[k.slot.peer] <= cfg.skew;
  }

  /** A write that reached the store keeps the invariant, whether or not its caller hears of it. */
  lemma InvLanded(cfg: Config, s: State, o: nat, replied: bool)
    requires WellNamed(cfg) && Inv(cfg, s) && Enabled(cfg, EachPeer, s, Write(o, replied))
    ensures Inv(cfg, Landed(cfg, s, o))
    ensures !s.ops[o].call.Release? ==> Recorded(cfg, Landed(cfg, s, o), s.ops[o].key.slot)
  {
    var op := s.ops[o];
    var t := Landed(cfg, s, o);
    assert OpOk(cfg, s, op);
    forall q <- t.ops ensures OpOk(cfg, t, t.ops[q]) { assert OpOk(cfg, s, s.ops[q]); }
    forall g | Fencing(cfg, t, g) ensures Recorded(cfg, t, g.slot) {
      if g.slot != op.key.slot {
        assert Fencing(cfg, s, g);
        if SameLease(cfg, op.key.slot, g.slot) { OnlyTheFencerWrites(cfg, s, o, replied, g); }
      }
    }
  }

  /** A successful TryAcquire marks the guard held. */
  lemma InvAcquired(cfg: Config, s: State, k: Key)
    requires Inv(cfg, s) && k.slot in cfg.slots && Recorded(cfg, s, k.slot) && Quiet(s, k.slot)
    ensures Inv(cfg, s.(held := s.held + {k}))
  {
    var t := s.(held := s.held + {k});
    forall q <- t.ops ensures OpOk(cfg, t, t.ops[q]) { assert OpOk(cfg, s, s.ops[q]); }
    forall g | Fencing(cfg, t, g) ensures Recorded(cfg, t, g.slot) {
      if g != k { assert Fencing(cfg, s, g); }
    }
  }

  lemma InvWrite(cfg: Config, s: State, o: nat, replied: bool)
    requires WellNamed(cfg) && Inv(cfg, s) && Enabled(cfg, EachPeer, s, Write(o, replied))
    ensures Inv(cfg, Apply(cfg, EachPeer, s, Write(o, replied)))
  {
    InvLanded(cfg, s, o, replied);
    var t := Landed(cfg, s, o);
    if !replied {
      InvFailed(cfg, t, o);
    } else {
      InvGone(cfg, t, {o}, {});
      var u := t.(held := t.held - {}, ops := t.ops - {o});
      assert u.held == s.held && u.ops == s.ops - {o};
      if s.ops[o].call.Acquire? {
        assert OpOk(cfg, s, s.ops[o]);
        InvAcquired(cfg, u, s.ops[o].key);
      }
    }
  }

  lemma InvNext(cfg: Config, s: State, step: Step)
    requires WellNamed(cfg) && Inv(cfg, s) && Enabled(cfg, EachPeer, s, step)
    ensures Inv(cfg, Apply(cfg, EachPeer, s, step))
  {
    match step
    case Tick(clocks) => InvTick(cfg, s, clocks);
    case Begin(o, k, call) => InvBegin(cfg, s, o, k, call);
    case Read(o) => InvRead(cfg, s, o);
    case Write(o, replied) => InvWrite(cfg, s, o, replied);
    case Fail(o) => InvFailed(cfg, s, o);
    case Drop(o) =>
      InvGone(cfg, s, {o}, {});
      assert s.held - {} == s.held;
    case Crash(k) =>
      InvGone(cfg, s, {}, {k});
      assert s.ops - {} == s.ops;
  }

  lemma InvSuccessor(cfg: Config, s: State, t: State)
    requires WellNamed(cfg) && Inv(cfg, s) && Next(cfg, EachPeer, s, t)
    ensures Inv(cfg, t)
  {
    var step :| Enabled(cfg, EachPeer, s, step) && t == Apply(cfg, EachPeer, s, step);
    InvNext(cfg, s, step);
  }

  lemma InvInit(cfg: Config, s: State)
    requires Init(cfg, s)
    ensures Inv(cfg, s)
  {
  }

  lemma {:induction false} InvRun(cfg: Config, run: seq<State>, i: nat)
    requires WellNamed(cfg) && IsRun(cfg, EachPeer, run) && i < |run|
    ensures Inv(cfg, run[i])
  {
    if i == 0 {
      InvInit(cfg, run[0]);
    } else {
      InvRun(cfg, run, i - 1);
      InvSuccessor(cfg, run[i-1], run[i]);
    }
  }

  lemma InvExcludes(cfg: Config, s: State)
    requires WellNamed(cfg) && Inv(cfg, s)
    ensures Exclusive(cfg, s)
  {
    forall g, h | Fencing(cfg, s, g) && Fencing(cfg, s, h) && SameLease(cfg, g.slot, h.slot)
      ensures g.slot == h.slot
    {
      assert Recorded(cfg, s, g.slot) && Recorded(cfg, s, h.slot);
    }
  }

  // ---------- mutual exclusion ----------

  /** In every state of every run, a held guard inside its window is the record's holder, with the
      RenewTime last written for it; so no two guards of one lease are in that position at once, be
      they of different peers or made one after the other by the same. */
  lemma MutualExclusion(cfg: Config, run: seq<State>, i: nat)
    requires WellNamed(cfg) && IsRun(cfg, EachPeer, run) && i < |run|
    ensures Exclusive(cfg, run[i]) && OneGuard(run[i])
    ensures forall k :: Fencing(cfg, run[i], k) ==> Recorded(cfg, run[i], k.slot)
  {
    InvRun(cfg, run, i);
    InvExcludes(cfg, run[i]);
  }

  // ---------- the naming condition is exact ----------

  function Peers(cfg: Config): set<string> {
    set k <- cfg.slots :: k.peer
  }

  function Start(cfg: Config): State {
    State(map p | p in Peers(cfg) :: 0, map[], {}, map[], map[])
  }

  /** Consecutive states are one step apart. */
  ghost predicate Steps(cfg: Config, d: Discipline, run: seq<State>) {
    forall i :: 0 < i < |run| ==> Next(cfg, d, run[i-1], run[i])
  }

  lemma Joined(cfg: Config, d: Discipline, a: seq<State>, b: seq<State>)
    requires |a| > 0 && |b| > 0 && b[0] == a[|a|-1] && Steps(cfg, d, a) && Steps(cfg, d, b)
    ensures Steps(cfg, d, a + b[1..]) && (a + b[1..])[|a|+|b|-2] == b[|b|-1]
  {
  }

  /** One uninterrupted TryAcquire, as protocol steps. */
  lemma AcquireRun(cfg: Config, d: Discipline, s: State, k: Key, o: nat) returns (run: seq<State>)
    requires Enabled(cfg, d, s, Begin(o, k, Acquire))
    requires var c := cfg.slots[k.slot];
      AcquireWrite(Stored(s, c.lease), c.id, c.seconds, s.clocks[k.slot.peer]).Some?
    ensures |run| == 4 && run[0] == s && Steps(cfg, d, run)
    ensures run[3].clocks == s.clocks && run[3].ops == s.ops && run[3].held == s.held + {k}
    ensures run[3].written == s.written[k.slot := s.clocks[k.slot.peer]]
    ensures Recorded(cfg, run[3], k.slot)
  {
    var s1 := Apply(cfg, d, s, Begin(o, k, Acquire));
    var s2 := Apply(cfg, d, s1, Read(o));
    var s3 := Apply(cfg, d, s2, Write(o, true));
    assert s3.ops == s.ops;
    run := [s, s1, s2, s3];
    assert Next(cfg, d, s, s1) && Next(cfg, d, s1, s2) && Next(cfg, d, s2, s3);
  }

  /** Slot `b` takes the lease just written by `a` without waiting for its expiry. */
  predicate Confusable(cfg: Config, a: Slot, b: Slot) {
    a != b && SameLease(cfg, a, b) && (cfg.slots[a].id == "" || cfg.slots[a].id == cfg.slots[b].id)
  }

  /** Lease durations are at least the clock skew: windows are not empty. */
  ghost predicate Roomy(cfg: Config) {
    cfg.skew >= 0 && forall k <- cfg.slots :: cfg.slots[k].seconds * SECOND >= cfg.skew
  }

  lemma ConfusableRun(cfg: Config, a: Slot, b: Slot) returns (run: seq<State>)
    requires Roomy(cfg) && Confusable(cfg, a, b)
    ensures IsRun(cfg, EachPeer, run) && !Exclusive(cfg, run[|run|-1])
  {
    var first := AcquireRun(cfg, EachPeer, Start(cfg), Key(a, 0), 0);
    var second := AcquireRun(cfg, EachPeer, first[3], Key(b, 0), 0);
    run := first + second[1..];
    Joined(cfg, EachPeer, first, second);
    assert Fencing(cfg, second[3], Key(a, 0)) && Fencing(cfg, second[3], Key(b, 0));
  }

  /** Mutual exclusion holds in every run exactly when slots on one lease carry different,
      non-empty identities. */
  lemma ExclusionIffWellNamed(cfg: Config)
    requires Roomy(cfg)
    ensures AlwaysExclusive(cfg, EachPeer) <==> WellNamed(cfg)
  {
    if WellNamed(cfg) {
      forall run, i: nat | IsRun(cfg, EachPeer, run) && i < |run| ensures Exclusive(cfg, run[i]) {
        MutualExclusion(cfg, run, i);
      }
    } else {
      var a, b :| SameLease(cfg, a, b) && a != b && (cfg.slots[a].id == cfg.slots[b].id || cfg.slots[a].id == "");
      var run := ConfusableRun(cfg, a, b);
    }
  }

  // ---------- waiting for the peer's earlier guards is needed ----------

  /** A held guard is released, and a new guard of the slot is acquired before that Release has read
      the record. The Release finds the slot's own identity and clears it. */
  lemma LateReleaseRun(cfg: Config, d: Discipline, s: State, slot: Slot) returns (run: seq<State>)
    requires !d.EachPeer? && slot in cfg.slots && slot.peer in s.clocks && s.ops == map[] && Recorded(cfg, s, slot)
    requires s.held == {Key(slot, 0)}
    ensures |run| == 7 && run[0] == s && Steps(cfg, d, run)
    ensures run[6].clocks == s.clocks && run[6].ops == map[] && run[6].held == {Key(slot, 1)}
    ensures run[6].written == s.written[slot := s.clocks[slot.peer]]
    ensures var r := Stored(run[6], cfg.slots[slot].lease); r.Present? && r.lease.holder == Some("")
  {
    var s1 := Apply(cfg, d, s, Begin(1, Key(slot, 0), Release));
    var again := AcquireRun(cfg, d, s1, Key(slot, 1), 0);
    var s5 := Apply(cfg, d, again[3], Read(1));
    var s6 := Apply(cfg, d, s5, Write(1, true));
    assert s6.ops == map[];
    assert Next(cfg, d, s, s1) && Next(cfg, d, again[3], s5) && Next(cfg, d, s5, s6);
    Joined(cfg, d, [s, s1], again);
    Joined(cfg, d, [s, s1] + again[1..], [again[3], s5, s6]);
    run := [s, s1] + again[1..] + [again[3], s5, s6][1..];
  }

  /** With every call on every guard object serialised, a Release still on its way when the peer's
      next guard is acquired clears the new hold, and another peer takes the lease inside its window. */
  lemma LateReleaseBreaksExclusion(cfg: Config, d: Discipline, a: Slot, b: Slot) returns (run: seq<State>)
    requires !d.EachPeer? && Roomy(cfg) && SameLease(cfg, a, b) && a != b
    ensures IsRun(cfg, d, run) && !Exclusive(cfg, run[|run|-1])
  {
    var first := AcquireRun(cfg, d, Start(cfg), Key(a, 0), 0);
    var late := LateReleaseRun(cfg, d, first[3], a);
    var other := AcquireRun(cfg, d, late[6], Key(b, 0), 0);
    assert Fencing(cfg, other[3], Key(a, 1)) && Fencing(cfg, other[3], Key(b, 0));
    Joined(cfg, d, first, late);
    Joined(cfg, d, first + late[1..], other);
    run := first + late[1..] + other[1..];
  }

  /** Unless a TryAcquire waits for all the guards the peer made before, the lease excludes nobody:
      in all runs exactly when no two slots share a lease in the first place. The contract on each
      guard object does not change that. */
  lemma PerGuardExclusionIff(cfg: Config, d: Discipline)
    requires Roomy(cfg) && !d.EachPeer?
    ensures AlwaysExclusive(cfg, d) <==> forall a, b :: SameLease(cfg, a, b) ==> a == b
  {
    if a, b :| SameLease(cfg, a, b) && a != b {
      var run := LateReleaseBreaksExclusion(cfg, d, a, b);
    }
  }

  // ---------- stable ownership ----------

  ghost predicate IsTrace(cfg: Config, run: seq<State>, steps: seq<Step>) {
    && |run| == |steps| + 1 && Init(cfg, run[0])
    && forall i :: 0 <= i < |steps| ==>
         Enabled(cfg, EachPeer, run[i], steps[i]) && run[i+1] == Apply(cfg, EachPeer, run[i], steps[i])
  }

  /** The step writes the store on behalf of a guard of `slot`. */
  predicate WritesFor(s: State, step: Step, slot: Slot) {
    step.Write? && step.op in s.ops && s.ops[step.op].key.slot == slot
  }

  lemma TraceIsRun(cfg: Config, run: seq<State>, steps: seq<Step>)
    requires IsTrace(cfg, run, steps)
    ensures IsRun(cfg, EachPeer, run)
  {
  }

  /** A step that is not a write for `k` leaves its written RenewTime alone and, while `k` fences
      its lease, the record too; clocks only advance. */
  lemma QuietStep(cfg: Config, s: State, step: Step, k: Key)
    requires WellNamed(cfg) && Inv(cfg, s) && Enabled(cfg, EachPeer, s, step) && !WritesFor(s, step, k.slot)
    requires k.slot in cfg.slots
    ensures var t, slot := Apply(cfg, EachPeer, s, step), k.slot;
      && (slot in t.written <==> slot in s.written) && (slot in s.written ==> t.written[slot] == s.written[slot])
      && (slot.peer in t.clocks && s.clocks[slot.peer] <= t.clocks[slot.peer])
      && (Fencing(cfg, s, k) ==> Stored(t, cfg.slots[slot].lease) == Stored(s, cfg.slots[slot].lease))
  {
    if step.Write? && Fencing(cfg, s, k) && SameLease(cfg, s.ops[step.op].key.slot, k.slot) {
      OnlyTheFencerWrites(cfg, s, step.op, step.replied, k);
    }
  }

  /** Backwards along the run: if the window is open when the next write for `k` lands, it was
      open at every state since the previous one. */
  lemma {:induction false} WindowStaysOpen(cfg: Config, run: seq<State>, steps: seq<Step>, i: nat, j: nat, k: Key)
    requires WellNamed(cfg) && IsTrace(cfg, run, steps) && i <= j < |run| && k.slot in cfg.slots
    requires InWindow(cfg, run[j], k.slot)
    requires forall m :: i <= m < j && WritesFor(run[m], steps[m], k.slot) ==> InWindow(cfg, run[m], k.slot)
    ensures InWindow(cfg, run[i], k.slot)
    decreases j - i
  {
    if i < j {
      WindowStaysOpen(cfg, run, steps, i + 1, j, k);
      if !WritesFor(run[i], steps[i], k.slot) {
        TraceIsRun(cfg, run, steps);
        InvRun(cfg, run, i);
        QuietStep(cfg, run[i], steps[i], k);
      }
    }
  }

  /** If every write for a held guard lands while the window of the previous RenewTime is open, it
      stays the recorded holder, and no other peer's write lands in between: what the guard read
      at `i` still passes the version check at `j` unless the peer itself wrote meanwhile. */
  lemma {:induction false} StableOwnership(cfg: Config, run: seq<State>, steps: seq<Step>, i: nat, j: nat, k: Key)
    requires WellNamed(cfg) && IsTrace(cfg, run, steps) && i <= j < |run| && k.slot in cfg.slots
    requires forall m :: i <= m <= j ==> k in run[m].held
    requires forall m :: i <= m < j && WritesFor(run[m], steps[m], k.slot) ==> InWindow(cfg, run[m], k.slot)
    requires InWindow(cfg, run[j], k.slot)
    ensures Recorded(cfg, run[i], k.slot) && Recorded(cfg, run[j], k.slot)
    ensures (forall m :: i <= m < j ==> !WritesFor(run[m], steps[m], k.slot)) ==>
      Stored(run[j], cfg.slots[k.slot].lease) == Stored(run[i], cfg.slots[k.slot].lease)
    decreases j - i
  {
    TraceIsRun(cfg, run, steps);
    InvRun(cfg, run, i);
    WindowStaysOpen(cfg, run, steps, i, j, k);
    assert Fencing(cfg, run[i], k);
    if i < j {
      StableOwnership(cfg, run, steps, i + 1, j, k);
      if !WritesFor(run[i], steps[i], k.slot) { QuietStep(cfg, run[i], steps[i], k); }
    }
  }

  // ---------- renewals get through ----------

  /** Only three steps end call `o`. */
  predicate Ends(step: Step, o: nat) {
    match step
    case Write(q, _) => q == o
    case Fail(q) => q == o
    case Drop(q) => q == o
    case _ => false
  }

  lemma CallGoesOn(cfg: Config, d: Discipline, s: State, step: Step, o: nat)
    requires Enabled(cfg, d, s, step) && o in s.ops && !Ends(step, o)
    ensures var t := Apply(cfg, d, s, step);
      && o in t.ops && t.ops[o] == s.ops[o].(phase := t.ops[o].phase)
      && (s.ops[o].phase.Seen? ==> t.ops[o].phase == s.ops[o].phase)
  {
  }

  /** What call `o` read at step `i` is what it still goes by at `j`. */
  lemma {:induction false} ReadIsKept(cfg: Config, run: seq<State>, steps: seq<Step>, i: nat, j: nat, o: nat)
    requires IsTrace(cfg, run, steps) && i < j < |run| && steps[i] == Read(o)
    requires forall m :: i < m < j ==> !Ends(steps[m], o)
    ensures o in run[i].ops && run[i].ops[o].key.slot in cfg.slots && o in run[j].ops
    ensures run[j].ops[o] ==
      run[i].ops[o].(phase := Seen(Stored(run[i], cfg.slots[run[i].ops[o].key.slot].lease)))
    decreases j
  {
    assert Enabled(cfg, EachPeer, run[i], steps[i]) && run[i+1] == Apply(cfg, EachPeer, run[i], steps[i]);
    if i + 1 < j {
      ReadIsKept(cfg, run, steps, i, j - 1, o);
      CallGoesOn(cfg, EachPeer, run[j-1], steps[j-1], o);
      assert run[j-1+1] == Apply(cfg, EachPeer, run[j-1], steps[j-1]);
    }
  }

  /** A held guard whose writes land inside its window is never turned away: a renewal that has read
      since the last write for it may write, and then the lease is its own from the time it sampled. */
  lemma RenewalGetsThrough(cfg: Config, run: seq<State>, steps: seq<Step>, i: nat, j: nat, k: Key, o: nat)
    requires WellNamed(cfg) && IsTrace(cfg, run, steps) && i < j < |run| && k.slot in cfg.slots
    requires (forall m :: i <= m <= j ==> k in run[m].held) && InWindow(cfg, run[j], k.slot)
    requires forall m :: i <= m < j ==> !WritesFor(run[m], steps[m], k.slot)
    requires steps[i] == Read(o) && o in run[i].ops && run[i].ops[o].call.Renew? && run[i].ops[o].key.slot == k.slot
    requires forall m :: i < m < j ==> !Ends(steps[m], o)
    ensures Enabled(cfg, EachPeer, run[j], Write(o, true))
    ensures var t := Apply(cfg, EachPeer, run[j], Write(o, true));
      Recorded(cfg, t, k.slot) && t.written[k.slot] == run[i].ops[o].now && k in t.held
  {
    StableOwnership(cfg, run, steps, i, j, k);
    ReadIsKept(cfg, run, steps, i, j, o);
    RenewalWrites(cfg, run[j], k.slot, o);
  }

  /** A renewal that read the current record, in its own name, may write it. */
  lemma RenewalWrites(cfg: Config, s: State, slot: Slot, o: nat)
    requires slot in cfg.slots && Recorded(cfg, s, slot) && o in s.ops && s.ops[o].call.Renew? && s.ops[o].key.slot == slot
    requires s.ops[o].phase == Seen(Stored(s, cfg.slots[slot].lease))
    ensures Enabled(cfg, EachPeer, s, Write(o, true))
    ensures var t := Apply(cfg, EachPeer, s, Write(o, true));
      Recorded(cfg, t, slot) && t.written[slot] == s.ops[o].now && t.held == s.held
  {
  }
}
