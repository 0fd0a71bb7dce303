/** How long a cluster can stay without a runner after its holder stops writing. */
module Takeover {
  import opened Options
  import opened Leases
  import opened LeaseGuards
  import opened Coordination

  /** One recompute pass of the peer that should own the cluster: the pass samples `now`, the
      TryAcquire in it samples its own clock reading a little later. */
  datatype Tick = Tick(now: int, acquire: int)

  /** The abandoned lease, and the peer that wants it. */
  datatype Abandoned = Abandoned(record: Record, id: string, seconds: int, throttle: int)

  /** Held by someone else, with the RenewTime and duration it was last written with. */
  predicate HeldElsewhere(a: Abandoned) {
    && a.record.Present? && HolderName(a.record.lease) != "" && HolderName(a.record.lease) != a.id
    && a.record.lease.renewed.Some? && a.record.lease.seconds.Some?
  }

  function Expiry(a: Abandoned): int
    requires HeldElsewhere(a)
  {
    a.record.lease.renewed.value + a.record.lease.seconds.value * SECOND
  }

  predicate Granted(a: Abandoned, t: Tick) {
    AcquireWrite(a.record, a.id, a.seconds, t.acquire).Some?
  }

  /** The engagement after the given passes, the cluster being ours by hash throughout and nobody
      else writing the lease. */
  function After(a: Abandoned, e: Engagement, ticks: seq<Tick>): Engagement {
    if ticks == [] then e
    else
      var t := ticks[|ticks|-1];
      Decide(After(a, e, ticks[..|ticks|-1]), true, t.now, a.throttle, Granted(a, t))
  }

  predicate Paced(ticks: seq<Tick>, probe: int) {
    && (forall t <- ticks :: t.now <= t.acquire)
    && (forall i :: 0 < i < |ticks| ==> ticks[i-1].now <= ticks[i].now <= ticks[i-1].now + probe)
  }

  /** Attempts that failed so far were all made before expiry. */
  predicate Waiting(a: Abandoned, e: Engagement)
    requires HeldElsewhere(a)
  {
    !e.started && (e.nextTry.Some? ==> e.nextTry.value <= Expiry(a) + a.throttle)
  }

  lemma {:induction false} StillWaiting(a: Abandoned, e: Engagement, ticks: seq<Tick>)
    requires HeldElsewhere(a) && Waiting(a, e) && (forall t <- ticks :: t.now <= t.acquire)
    ensures After(a, e, ticks).started || Waiting(a, After(a, e, ticks))
  {
    if ticks != [] { StillWaiting(a, e, ticks[..|ticks|-1]); }
  }

  /** Pass `i` is the one that starts the cluster. */
  predicate StartsAt(a: Abandoned, e: Engagement, ticks: seq<Tick>, i: nat) {
    i < |ticks| && !After(a, e, ticks[..i]).started && After(a, e, ticks[..i+1]).started
  }

  lemma {:induction false} SomePassStarts(a: Abandoned, e: Engagement, ticks: seq<Tick>, n: nat) returns (i: nat)
    requires 0 < n <= |ticks| && !e.started && After(a, e, ticks[..n]).started
    ensures i < n && StartsAt(a, e, ticks, i)
  {
    if n > 1 && After(a, e, ticks[..n-1]).started {
      i := SomePassStarts(a, e, ticks, n - 1);
    } else {
      i := n - 1;
    }
  }

  /** The first pass late enough that no throttle from before expiry can hold it back. */
  lemma {:induction false} FirstLatePass(a: Abandoned, ticks: seq<Tick>, n: nat) returns (i: nat)
    requires HeldElsewhere(a) && n < |ticks| && ticks[n].now > Expiry(a) && ticks[n].now >= Expiry(a) + a.throttle
    ensures i <= n && ticks[i].now > Expiry(a) && ticks[i].now >= Expiry(a) + a.throttle
    ensures i > 0 ==> ticks[i-1].now <= Expiry(a) || ticks[i-1].now < Expiry(a) + a.throttle
  {
    if n > 0 && ticks[n-1].now > Expiry(a) && ticks[n-1].now >= Expiry(a) + a.throttle {
      i := FirstLatePass(a, ticks, n - 1);
    } else {
      i := n;
    }
  }

  lemma Monotone(ticks: seq<Tick>, probe: int, i: nat, j: nat)
    requires Paced(ticks, probe) && i <= j < |ticks|
    ensures ticks[i].now <= ticks[j].now
  {
    if i < j { Monotone(ticks, probe, i, j - 1); }
  }

  lemma PassEffect(a: Abandoned, e: Engagement, ticks: seq<Tick>, i: nat)
    requires i < |ticks|
    ensures After(a, e, ticks[..i+1]) == Decide(After(a, e, ticks[..i]), true, ticks[i].now, a.throttle, Granted(a, ticks[i]))
  {
    assert ticks[..i+1][..i] == ticks[..i];
  }

  /** A late pass starts the cluster, if an earlier one has not. */
  lemma LatePassStarts(a: Abandoned, e: Engagement, ticks: seq<Tick>, i: nat)
    requires HeldElsewhere(a) && Waiting(a, e) && (forall t <- ticks :: t.now <= t.acquire)
    requires i < |ticks| && ticks[i].now > Expiry(a) && ticks[i].now >= Expiry(a) + a.throttle
    ensures After(a, e, ticks[..i+1]).started
  {
    StillWaiting(a, e, ticks[..i]);
    PassEffect(a, e, ticks, i);
    assert ticks[i] in ticks;
  }

  /** No pass starts it before the lease has expired. */
  lemma StartsAfterExpiry(a: Abandoned, e: Engagement, ticks: seq<Tick>, i: nat)
    requires HeldElsewhere(a) && StartsAt(a, e, ticks, i)
    ensures ticks[i].acquire > Expiry(a)
  {
    PassEffect(a, e, ticks, i);
  }

  /** Once the holder has written its last RenewTime, a peer that keeps winning the hash and
      passes at least every `probe` starts the cluster after the lease has expired and no later than
      expiry + throttle + probe, however its earlier attempts were throttled. */
  lemma TakeoverBound(a: Abandoned, e: Engagement, ticks: seq<Tick>, probe: int)
    requires HeldElsewhere(a) && a.throttle >= 0 && Waiting(a, e) && Paced(ticks, probe)
    requires ticks != [] && ticks[0].now <= Expiry(a) + a.throttle + probe
    requires var last := ticks[|ticks|-1].now; last > Expiry(a) && last >= Expiry(a) + a.throttle
    ensures exists i: nat ::
      StartsAt(a, e, ticks, i) && ticks[i].now <= Expiry(a) + a.throttle + probe && ticks[i].acquire > Expiry(a)
  {
    var late := FirstLatePass(a, ticks, |ticks| - 1);
    LatePassStarts(a, e, ticks, late);
    var i := SomePassStarts(a, e, ticks, late + 1);
    Monotone(ticks, probe, i, late);
    StartsAfterExpiry(a, e, ticks, i);
  }

  // ---------- the throttle ----------

  /** Pass `i` calls TryAcquire: the cluster is not started and the throttle has run out. */
  predicate Attempts(a: Abandoned, e: Engagement, ticks: seq<Tick>, i: nat) {
    i < |ticks| && var before := After(a, e, ticks[..i]); !before.started && !Throttled(ticks[i].now, before.nextTry)
  }

  lemma {:induction false} BackedOff(a: Abandoned, e: Engagement, ticks: seq<Tick>, probe: int, i: nat, j: nat)
    requires a.throttle >= 0 && Paced(ticks, probe) && i < j <= |ticks| && Attempts(a, e, ticks, i)
    ensures var d := After(a, e, ticks[..j]);
      d.started || (d.nextTry.Some? && d.nextTry.value >= ticks[i].now + a.throttle)
  {
    PassEffect(a, e, ticks, j - 1);
    if i < j - 1 {
      BackedOff(a, e, ticks, probe, i, j - 1);
      Monotone(ticks, probe, i, j - 1);
    }
  }

  /** Two attempts on a fence held elsewhere are never closer than the throttle. */
  lemma AttemptsAreSpaced(a: Abandoned, e: Engagement, ticks: seq<Tick>, probe: int, i: nat, j: nat)
    requires a.throttle >= 0 && Paced(ticks, probe) && i < j < |ticks|
    requires Attempts(a, e, ticks, i) && Attempts(a, e, ticks, j)
    ensures ticks[j].now >= ticks[i].now + a.throttle
  {
    BackedOff(a, e, ticks, probe, i, j);
  }
}
