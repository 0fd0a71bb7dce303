/** Takeover on the runs of the coordinators: a peer that keeps passing starts an abandoned cluster
    within the bound. */
module TakeoverRuns {
  import opened Leases
  import opened LeaseGuards
  import opened SingleWriter
  import P = LeaseProtocol
  import T = Takeover

  /** The lease as slot `a` finds it. */
  function Found(u: Setup, w: World, a: P.Slot): T.Abandoned
    requires a in Slots(u)
  {
    T.Abandoned(RecordOf(u, w, a), a.peer, u.seconds[a.peer], u.throttle)
  }

  /** Call `o` of slot `a` read a lease that it may not take. */
  predicate Refused(u: Setup, net: P.State, o: nat, a: P.Slot)
    requires a in Slots(u)
  {
    && o in net.ops && net.ops[o].phase.Seen?
    && AcquireWrite(net.ops[o].phase.record, a.peer, u.seconds[a.peer], net.ops[o].now).None?
  }

  predicate IsAct(step: Step, a: P.Slot) {
    step.Act? && step.slot == a
  }

  /** The peer goes on wanting the cluster and its requests get through: all that happens at the slot
      are passes and their outcomes, and a TryAcquire fails only because it is refused. */
  predicate Wanting(u: Setup, w: World, step: Step, a: P.Slot)
    requires a in Slots(u)
  {
    IsAct(step, a) ==>
      step.act.TryStart? || step.act.Acquired? ||
      (step.act.AcquireFailed? && !step.act.landed && Refused(u, w.net, step.act.op, a))
  }

  /** Nobody but slot `a`'s TryAcquire writes its lease. */
  predicate Undisturbed(u: Setup, w: World, step: Step, x: World, a: P.Slot)
    requires a in Slots(u)
  {
    RecordOf(u, x, a) == RecordOf(u, w, a) || (IsAct(step, a) && step.act.Acquired?)
  }

  /** The slot's calls have read nothing but the abandoned lease. */
  ghost predicate Reading(net: P.State, a: P.Slot, record: Record) {
    forall o <- net.ops :: net.ops[o].call.Acquire? && net.ops[o].key.slot == a ==>
      net.ops[o].phase in {P.Begun, P.Seen(record)}
  }

  /** Still waiting, and not throttled beyond expiry + throttle. */
  ghost predicate Waiting(u: Setup, w: World, a: P.Slot, f: T.Abandoned) {
    && T.HeldElsewhere(f) && a in Slots(u) && Found(u, w, a) == f
    && a.peer in w.local && a.cluster in w.local[a.peer].engaged && T.Waiting(f, w.local[a.peer].engaged[a.cluster])
    && Reading(w.net, a, f.record)
  }

  /** Call `o` is a TryAcquire of the slot that sampled its clock after expiry. */
  predicate Late(net: P.State, a: P.Slot, o: nat, expiry: int) {
    o in net.ops && net.ops[o].call.Acquire? && net.ops[o].key.slot == a && net.ops[o].now > expiry
  }

  lemma ReadingNet(cfg: P.Config, d: P.Discipline, s: P.State, step: P.Step, a: P.Slot)
    requires a in cfg.slots && Reading(s, a, P.Stored(s, cfg.slots[a].lease)) && P.Enabled(cfg, d, s, step)
    ensures Reading(P.Apply(cfg, d, s, step), a, P.Stored(s, cfg.slots[a].lease))
  {
  }

  lemma ReadingStep(u: Setup, r: Rules, w: World, step: Step, a: P.Slot)
    requires a in Slots(u) && Reading(w.net, a, RecordOf(u, w, a)) && Enabled(u, r, w, step)
    ensures Reading(Apply(u, r, w, step).net, a, RecordOf(u, w, a))
  {
    if NetStep(r, w, step).Some? { ReadingNet(Cfg(u), r.waits, w.net, NetStep(r, w, step).value, a); }
  }

  lemma RefusedBeforeExpiry(u: Setup, net: P.State, o: nat, a: P.Slot, f: T.Abandoned)
    requires a in Slots(u) && T.HeldElsewhere(f) && f.id == a.peer && Reading(net, a, f.record) && Refused(u, net, o, a)
    requires net.ops[o].call.Acquire? && net.ops[o].key.slot == a
    ensures net.ops[o].now <= T.Expiry(f)
  {
  }

  lemma EngagementStep(u: Setup, r: Rules, w: World, step: Step, a: P.Slot, f: T.Abandoned)
    requires Waiting(u, w, a, f) && Enabled(u, r, w, step) && Wanting(u, w, step, a)
    ensures var x := Apply(u, r, w, step);
      && a.peer in x.local && a.cluster in x.local[a.peer].engaged
      && (Started(x, a.peer, a.cluster) || T.Waiting(f, x.local[a.peer].engaged[a.cluster]))
      && (IsAct(step, a) && step.act.Acquired? ==> Started(x, a.peer, a.cluster))
  {
    if IsAct(step, a) && step.act.AcquireFailed? { RefusedBeforeExpiry(u, w.net, step.act.op, a, f); }
  }

  /** A step during the abandonment: the peer wants the cluster and nobody else writes the lease. */
  ghost predicate Goes(u: Setup, r: Rules, w: World, step: Step, x: World, a: P.Slot) {
    && Enabled(u, r, w, step) && x == Apply(u, r, w, step)
    && a in Slots(u) && Wanting(u, w, step, a) && Undisturbed(u, w, step, x, a)
  }

  lemma WaitingStep(u: Setup, r: Rules, w: World, step: Step, x: World, a: P.Slot, f: T.Abandoned)
    requires Waiting(u, w, a, f) && Goes(u, r, w, step, x, a) && !Started(x, a.peer, a.cluster)
    ensures Waiting(u, x, a, f)
  {
    ReadingStep(u, r, w, step, a);
    EngagementStep(u, r, w, step, a, f);
  }

  /** A TryAcquire under way ends in its own outcome and in no other step. */
  lemma CallGoesOn(u: Setup, r: Rules, w: World, step: Step, a: P.Slot, o: nat)
    requires Enabled(u, r, w, step) && o in w.net.ops && w.net.ops[o].call.Acquire? && w.net.ops[o].key.slot == a
    requires !(IsAct(step, a) && (step.act.Acquired? || step.act.AcquireFailed?) && step.act.op == o)
    ensures var t := Apply(u, r, w, step).net;
      o in t.ops && t.ops[o].call.Acquire? && t.ops[o].key.slot == a && t.ops[o].now == w.net.ops[o].now
  {
    if NetStep(r, w, step).Some? { P.CallGoesOn(Cfg(u), r.waits, w.net, NetStep(r, w, step).value, o); }
  }

  lemma LateStep(u: Setup, r: Rules, w: World, step: Step, x: World, a: P.Slot, o: nat, f: T.Abandoned)
    requires Waiting(u, w, a, f) && Late(w.net, a, o, T.Expiry(f))
    requires Goes(u, r, w, step, x, a) && !Started(x, a.peer, a.cluster)
    ensures Late(x.net, a, o, T.Expiry(f))
  {
    EngagementStep(u, r, w, step, a, f);
    if IsAct(step, a) && step.act.AcquireFailed? { RefusedBeforeExpiry(u, w.net, step.act.op, a, f); }
    CallGoesOn(u, r, w, step, a, o);
  }

  /** A pass after expiry + throttle begins such a TryAcquire, unless it starts the cluster at once. */
  lemma LatePass(u: Setup, r: Rules, w: World, step: Step, x: World, a: P.Slot, f: T.Abandoned)
    requires Waiting(u, w, a, f) && Goes(u, r, w, step, x, a) && !Started(x, a.peer, a.cluster)
    requires IsPass(step, a, T.Expiry(f) + f.throttle + 1) && f.throttle >= 0
    ensures Late(x.net, a, step.act.op, T.Expiry(f))
  {
  }

  /** A pass of the peer over the cluster, sampled at `since` or later. */
  predicate IsPass(step: Step, a: P.Slot, since: int) {
    IsAct(step, a) && step.act.TryStart? && step.act.now >= since
  }

  /** The cluster starts by a TryAcquire that sampled its clock after expiry, or on a guard that the
      peer had never let go. */
  lemma StartStep(u: Setup, r: Rules, w: World, step: Step, x: World, a: P.Slot, f: T.Abandoned)
    requires Waiting(u, w, a, f) && Goes(u, r, w, step, x, a) && Started(x, a.peer, a.cluster)
    ensures StartsRightly(w, step, a, T.Expiry(f))
  {
  }

  predicate StartsRightly(w: World, step: Step, a: P.Slot, expiry: int) {
    && IsAct(step, a) && a.peer in w.local
    && match step.act
       case Acquired(o, _) => o in w.net.ops && w.net.ops[o].now > expiry
       case TryStart(_, _) => HeldAt(w.net, w.local[a.peer], a)
       case _ => false
  }

  /** A stretch of a run, from a state in which somebody else holds the lease. */
  ghost predicate Abandonment(u: Setup, r: Rules, run: seq<World>, steps: seq<Step>, a: P.Slot, f: T.Abandoned) {
    && |run| == |steps| + 1 && Waiting(u, run[0], a, f)
    && forall i :: 0 <= i < |steps| ==> Goes(u, r, run[i], steps[i], run[i+1], a)
  }

  ghost predicate NotStarted(run: seq<World>, a: P.Slot, n: nat)
    requires n <= |run|
  {
    forall i :: 0 <= i < n ==> !Started(run[i], a.peer, a.cluster)
  }

  lemma {:induction false} WaitingAt(u: Setup, r: Rules, run: seq<World>, steps: seq<Step>, a: P.Slot, f: T.Abandoned, i: nat)
    requires Abandonment(u, r, run, steps, a, f) && i < |run| && NotStarted(run, a, i + 1)
    ensures Waiting(u, run[i], a, f)
  {
    if i > 0 {
      WaitingAt(u, r, run, steps, a, f, i - 1);
      WaitingStep(u, r, run[i-1], steps[i-1], run[i-1+1], a, f);
    }
  }

  lemma LateOnce(u: Setup, r: Rules, run: seq<World>, steps: seq<Step>, a: P.Slot, o: nat, f: T.Abandoned, i: nat)
    requires Abandonment(u, r, run, steps, a, f) && i < |steps| && NotStarted(run, a, |run|)
    requires Late(run[i].net, a, o, T.Expiry(f))
    ensures Late(run[i+1].net, a, o, T.Expiry(f))
  {
    WaitingAt(u, r, run, steps, a, f, i);
    LateStep(u, r, run[i], steps[i], run[i+1], a, o, f);
  }

  lemma {:induction false} LateAt(u: Setup, r: Rules, run: seq<World>, steps: seq<Step>, a: P.Slot, o: nat, f: T.Abandoned,
      i: nat)
    requires Abandonment(u, r, run, steps, a, f) && i < |run| && NotStarted(run, a, |run|)
    requires Late(run[i].net, a, o, T.Expiry(f))
    ensures Late(run[|steps|].net, a, o, T.Expiry(f))
    decreases |run| - i
  {
    if i < |steps| {
      LateOnce(u, r, run, steps, a, o, f, i);
      LateAt(u, r, run, steps, a, o, f, i + 1);
    }
  }

  lemma FirstStart(run: seq<World>, a: P.Slot) returns (i: nat)
    requires |run| > 0 && !Started(run[0], a.peer, a.cluster) && !NotStarted(run, a, |run|)
    ensures i + 1 < |run| && Started(run[i+1], a.peer, a.cluster) && NotStarted(run, a, i + 1)
  {
    i := 0;
    while !Started(run[i+1], a.peer, a.cluster)
      invariant i + 1 < |run| && NotStarted(run, a, i + 1) && exists j :: i < j < |run| && Started(run[j], a.peer, a.cluster)
      decreases |run| - i
    {
      i := i + 1;
    }
  }

  /** A late pass that has had its answer started the cluster, if nothing before it did. */
  lemma LatePassStarts(u: Setup, r: Rules, run: seq<World>, steps: seq<Step>, a: P.Slot, f: T.Abandoned, j: nat)
    requires Abandonment(u, r, run, steps, a, f) && f.throttle >= 0 && Unlocked(run[|steps|].net, a.peer)
    requires j < |steps| && IsPass(steps[j], a, T.Expiry(f) + f.throttle + 1)
    ensures !NotStarted(run, a, |run|)
  {
    if NotStarted(run, a, |run|) {
      WaitingAt(u, r, run, steps, a, f, j);
      LatePass(u, r, run[j], steps[j], run[j+1], a, f);
      LateAt(u, r, run, steps, a, steps[j].act.op, f, j + 1);
    }
  }

  /** Step `i` of the run is the first after which the cluster is started, and a right one. */
  ghost predicate StartsAt(run: seq<World>, steps: seq<Step>, a: P.Slot, i: int, expiry: int) {
    && 0 <= i < |steps| && i + 1 < |run| && NotStarted(run, a, i + 1) && Started(run[i+1], a.peer, a.cluster)
    && StartsRightly(run[i], steps[i], a, expiry)
  }

  /** In every stretch of every run, under any rules: once the holder is silent, a peer that goes on
      wanting the cluster has started it by the time its clock shows expiry + throttle + probe, given
      that its last pass is at most `probe` ago and has had its answer; and it started it only after
      expiry, or on a guard it had never let go. */
  lemma TakenOver(u: Setup, r: Rules, run: seq<World>, steps: seq<Step>, a: P.Slot, f: T.Abandoned, j: nat, probe: int)
    requires Abandonment(u, r, run, steps, a, f) && f.throttle >= 0
    requires a.peer in run[|steps|].net.clocks && Unlocked(run[|steps|].net, a.peer)
    requires var now := run[|steps|].net.clocks[a.peer];
      now > T.Expiry(f) + f.throttle + probe && j < |steps| && IsPass(steps[j], a, now - probe)
    ensures exists i :: StartsAt(run, steps, a, i, T.Expiry(f))
  {
    LatePassStarts(u, r, run, steps, a, f, j);
    var i := FirstStart(run, a);
    WaitingAt(u, r, run, steps, a, f, i);
    StartStep(u, r, run[i], steps[i], run[i+1], a, f);
    assert StartsAt(run, steps, a, i, T.Expiry(f));
  }
}
