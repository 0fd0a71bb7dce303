/** One lease guard: TryAcquire, the renew loop and Release against one Lease object.

    The pure functions say what a call writes back given what it read; `LeaseProtocol` runs
    them under every interleaving. The class runs them in place, one call after another. */
module LeaseGuards {
  import opened Options
  import opened Leases

  /** HolderIdentity with nil read as "". */
  function HolderName(l: Lease): string {
    if l.holder.Some? then l.holder.value else ""
  }

  /** TryAcquire: create, or adopt a lease that is free, ours or expired. */
  function AcquireWrite(seen: Record, id: string, seconds: int, now: int): Option<Lease> {
    match seen
    case Absent => Some(Lease(Some(id), Some(seconds), Some(now), Some(now)))
    case Present(_, l) =>
      var ho := HolderName(l);
      if ho != "" && ho != id && !Expired(l, now) then None
      else Some(Lease(Some(id), Some(seconds), if ho != id || l.acquired.None? then Some(now) else l.acquired, Some(now)))
  }

  /** Renewal: a cleared holder counts as another holder until the lease expires. */
  function RenewWrite(seen: Record, id: string, seconds: int, now: int): Option<Lease> {
    match seen
    case Absent => None
    case Present(_, l) =>
      if l.holder.Some? && l.holder.value != id && !Expired(l, now) then None
      else Some(l.(holder := Some(id), seconds := Some(seconds), renewed := Some(now)))
  }

  /** Release: clear the holder if it is still us, and nothing else. */
  function ReleaseWrite(seen: Record, id: string): Option<Lease> {
    if seen.Present? && seen.lease.holder == Some(id) then Some(seen.lease.(holder := Some(""))) else None
  }

  // ---------- what the calls do, field by field ----------

  /** Still within RenewTime + LeaseDurationSeconds, both being set. */
  predicate Unexpired(l: Lease, now: int) {
    l.renewed.Some? && l.seconds.Some? && now <= l.renewed.value + l.seconds.value * SECOND
  }

  /** TryAcquire takes every lease but another holder's unexpired one, in its own name from `now` on;
      AcquireTime is kept exactly when the lease was already ours and had one. */
  lemma AcquireWriteIs(seen: Record, id: string, seconds: int, now: int)
    ensures AcquireWrite(seen, id, seconds, now).None? <==>
      seen.Present? && seen.lease.holder.Some? && seen.lease.holder.value != "" && seen.lease.holder.value != id
      && Unexpired(seen.lease, now)
    ensures var w := AcquireWrite(seen, id, seconds, now);
      w.Some? ==>
        && w.value.holder == Some(id) && w.value.seconds == Some(seconds) && w.value.renewed == Some(now)
        && w.value.acquired == if seen.Present? && HolderName(seen.lease) == id && seen.lease.acquired.Some?
                               then seen.lease.acquired else Some(now)
  {
  }

  /** A renewal is refused without a lease, and by another holder's unexpired one, be that holder "";
      it keeps AcquireTime. */
  lemma RenewWriteIs(seen: Record, id: string, seconds: int, now: int)
    ensures RenewWrite(seen, id, seconds, now).Some? <==>
      seen.Present? && (seen.lease.holder.None? || seen.lease.holder == Some(id) || !Unexpired(seen.lease, now))
    ensures RenewWrite(seen, id, seconds, now).Some? ==>
      RenewWrite(seen, id, seconds, now).value == Lease(Some(id), Some(seconds), seen.lease.acquired, Some(now))
  {
  }

  lemma ReleaseWriteIs(seen: Record, id: string)
    ensures ReleaseWrite(seen, id).Some? <==> seen.Present? && seen.lease.holder == Some(id)
    ensures ReleaseWrite(seen, id).Some? ==>
      ReleaseWrite(seen, id).value == Lease(Some(""), seen.lease.seconds, seen.lease.acquired, seen.lease.renewed)
  {
  }

  /** What goes wrong for a call: which of its two requests the API server refuses, and what another
      client wrote in between. A write whose reply got lost is such a write of the guard's own. */
  datatype Faults = Faults(readFails: bool, writeFails: bool, meanwhile: Option<Lease>)

  const NO_FAULTS := Faults(false, false, None)

  /** The record after another client's write, if there was one. */
  function Interfered(r: Record, others: Option<Lease>): Record {
    if others.Some? then Written(r, others.value) else r
  }

  /** The record after a call that proposed `w`. */
  function Outcome(r: Record, w: Option<Lease>, f: Faults): Record {
    if Lands(w, f) then Written(r, w.value) else Interfered(r, f.meanwhile)
  }

  predicate Lands(w: Option<Lease>, f: Faults) {
    !f.readFails && w.Some? && !f.writeFails && f.meanwhile.None?
  }

  /** The Lease object behind a guard's key, as the API server serves it. */
  class LeaseObject {
    var record: Record

    constructor (r: Record)
      ensures record == r
    {
      record := r;
    }

    /** The read of a call; another client may write right after it. */
    method Get(f: Faults) returns (seen: Option<Record>)
      modifies this
      ensures seen == if f.readFails then None else Some(old(record))
      ensures record == Interfered(old(record), f.meanwhile)
    {
      seen := if f.readFails then None else Some(record);
      if f.meanwhile.Some? { record := Written(record, f.meanwhile.value); }
    }

    /** Create or Update: refused when the version moved since `seen`. */
    method Put(seen: Record, l: Lease, fails: bool) returns (ok: bool)
      modifies this
      ensures ok <==> !fails && CanWrite(old(record), seen)
      ensures record == if ok then Written(old(record), l) else old(record)
    {
      ok := !fails && CanWrite(record, seen);
      if ok { record := Written(record, l); }
    }
  }

  /** One turn of the renew loop's select: its context ended, or the ticker fired after some
      other client may have written the lease. */
  datatype Turn = Done | Fired(others: Option<Lease>, now: int, renew: Faults, release: Faults)

  datatype LoopEnd = LoopEnd(record: Record, lost: bool)

  /** The record and the outcome after the loop has taken the given turns. */
  function Renewals(r: Record, id: string, seconds: int, turns: seq<Turn>): LoopEnd
    decreases |turns|
  {
    if turns == [] || turns[0].Done? then LoopEnd(r, false)
    else
      var t := turns[0];
      var r1 := Interfered(r, t.others);
      var w := RenewWrite(r1, id, seconds, t.now);
      if Lands(w, t.renew) then Renewals(Written(r1, w.value), id, seconds, turns[1..])
      else
        var r2 := Interfered(r1, t.renew.meanwhile);
        LoopEnd(Outcome(r2, ReleaseWrite(r2, id), t.release), true)
  }

  class LeaseGuard {
    const api: LeaseObject
    const id: string
    const ldur: int
    var held: bool
    /** the context that keeps the renew loop going has been created and not cancelled */
    var renewing: bool

    constructor (api: LeaseObject, id: string, ldur: int)
      ensures this.api == api && this.id == id && this.ldur == ldur && !held && !renewing
    {
      this.api, this.id, this.ldur, held, renewing := api, id, ldur, false, false;
    }

    method TryAcquire(now: int, f: Faults) returns (ok: bool)
      modifies this, api
      ensures ok <==> old(held) || Lands(AcquireWrite(old(api.record), id, WholeSeconds(ldur), now), f)
      ensures held == ok
      ensures renewing == (old(renewing) || (ok && !old(held)))
      ensures api.record == if old(held) then old(api.record)
                            else Outcome(old(api.record), AcquireWrite(old(api.record), id, WholeSeconds(ldur), now), f)
      ensures !old(held) && f == NO_FAULTS ==>
        (ok <==> old(api.record).Absent? || old(api.record).lease.holder in {None, Some(""), Some(id)}
                 || !Unexpired(old(api.record).lease, now))
      ensures ok && !old(held) ==>
        && api.record.Present? && api.record.lease.holder == Some(id)
        && api.record.lease.seconds == Some(WholeSeconds(ldur)) && api.record.lease.renewed == Some(now)
    {
      if held { return true; }
      var secs := WholeSeconds(ldur);
      var seen := api.Get(f);
      if seen.None? { return false; }
      var l;
      match seen.value {
        case Absent => l := Lease(Some(id), Some(secs), Some(now), Some(now));
        case Present(_, found) =>
          l := found;
          var ho := "";
          if l.holder.Some? { ho := l.holder.value; }
          if ho != "" && ho != id {
            if !Expired(l, now) { return false; }
          }
          l := l.(holder := Some(id), seconds := Some(secs));
          if ho != id || l.acquired.None? { l := l.(acquired := Some(now)); }
          l := l.(renewed := Some(now));
      }
      var written := api.Put(seen.value, l, f.writeFails);
      if !written { return false; }
      renewing := true;
      held := true;
      return true;
    }

    method RenewOnce(now: int, f: Faults) returns (ok: bool)
      modifies api
      ensures ok <==> Lands(RenewWrite(old(api.record), id, WholeSeconds(ldur), now), f)
      ensures api.record == Outcome(old(api.record), RenewWrite(old(api.record), id, WholeSeconds(ldur), now), f)
      ensures ok <==>
        && !f.readFails && !f.writeFails && f.meanwhile.None? && old(api.record).Present?
        && (old(api.record).lease.holder in {None, Some(id)} || !Unexpired(old(api.record).lease, now))
      ensures ok ==>
        && api.record.Present?
        && api.record.lease == Lease(Some(id), Some(WholeSeconds(ldur)), old(api.record).lease.acquired, Some(now))
      ensures !ok && f.meanwhile.None? ==> api.record == old(api.record)
    {
      var seen := api.Get(f);
      if seen.None? || seen.value.Absent? { return false; }
      var l := seen.value.lease;
      if l.holder.Some? && l.holder.value != id && !Expired(l, now) { return false; }
      l := l.(holder := Some(id), seconds := Some(WholeSeconds(ldur)), renewed := Some(now));
      ok := api.Put(seen.value, l, f.writeFails);
    }

    method Release(f: Faults)
      modifies this, api
      ensures !held && renewing == (old(renewing) && !old(held))
      ensures api.record == if old(held) then Outcome(old(api.record), ReleaseWrite(old(api.record), id), f)
                            else old(api.record)
      ensures old(held) && f == NO_FAULTS && old(api.record).Present? && old(api.record).lease.holder == Some(id) ==>
        api.record.Present? && api.record.lease == old(api.record).lease.(holder := Some(""))
    {
      if !held { return; }
      renewing := false;
      held := false;
      var seen := api.Get(f);
      if seen.Some? && seen.value.Present? && seen.value.lease.holder == Some(id) {
        var _ := api.Put(seen.value, seen.value.lease.(holder := Some("")), f.writeFails);
      }
    }

    /** Runs until its context ends or a renewal fails; `lost` counts the onLost calls. */
    method RenewLoop(turns: seq<Turn>) returns (lost: nat)
      requires held && renewing
      modifies this, api
      ensures var end := Renewals(old(api.record), id, WholeSeconds(ldur), turns);
        api.record == end.record && lost == (if end.lost then 1 else 0) && held == !end.lost && renewing == !end.lost
    {
      lost := 0;
      var i := 0;
      while i < |turns|
        invariant i <= |turns| && held && renewing && lost == 0
        invariant Renewals(api.record, id, WholeSeconds(ldur), turns[i..]) ==
          Renewals(old(api.record), id, WholeSeconds(ldur), turns)
      {
        if turns[i].Done? { return; }
        if turns[i].others.Some? { api.record := Written(api.record, turns[i].others.value); }
        var ok := RenewOnce(turns[i].now, turns[i].renew);
        if !ok {
          lost := lost + 1;
          Release(turns[i].release);
          return;
        }
        assert turns[i..][1..] == turns[i+1..];
        i := i + 1;
      }
    }
  }

  // ---------- what the loop guarantees ----------

  /** The last turn the loop gets to: the index of the first Done, or the end. */
  function Turns(turns: seq<Turn>): (n: nat)
    ensures n <= |turns|
  {
    if turns == [] || turns[0].Done? then 0 else 1 + Turns(turns[1..])
  }

  predicate Shows(r: Record, id: string, seconds: int, t: Turn) {
    && t.Fired? && r.Present?
    && r.lease.holder == Some(id) && r.lease.seconds == Some(seconds) && r.lease.renewed == Some(t.now)
  }

  /** A loop that ends without loss has written its identity and its latest clock reading; a loop
      that lost the fence leaves it free for others whenever its Release gets through. */
  lemma {:induction false} LoopKeepsOrFrees(r: Record, id: string, seconds: int, turns: seq<Turn>)
    requires id != ""
    ensures var end := Renewals(r, id, seconds, turns);
      !end.lost && Turns(turns) > 0 ==> Shows(end.record, id, seconds, turns[Turns(turns)-1])
    ensures var end := Renewals(r, id, seconds, turns);
      end.lost && (forall t <- turns :: t.Fired? ==> t.release == NO_FAULTS) ==>
        end.record.Absent? || end.record.lease.holder != Some(id)
    decreases |turns|
  {
    if turns != [] && turns[0].Fired? {
      var t := turns[0];
      var r1 := Interfered(r, t.others);
      var w := RenewWrite(r1, id, seconds, t.now);
      if Lands(w, t.renew) {
        LoopKeepsOrFrees(Written(r1, w.value), id, seconds, turns[1..]);
        assert Turns(turns[1..]) > 0 ==> turns[1..][Turns(turns[1..])-1] == turns[Turns(turns)-1];
      }
    }
  }

  /** The turn's renewal meets no fault and no other client. */
  predicate Undisturbed(t: Turn) {
    t.Done? || (t.others.None? && t.renew == NO_FAULTS)
  }

  /** From a lease in its own name, a loop that nothing disturbs never loses it, however late its
      ticks, and its AcquireTime stays. */
  lemma {:induction false} UndisturbedLoopKeeps(r: Record, id: string, seconds: int, turns: seq<Turn>)
    requires r.Present? && r.lease.holder == Some(id) && forall t <- turns :: Undisturbed(t)
    ensures var end := Renewals(r, id, seconds, turns);
      !end.lost && end.record.Present? && end.record.lease.holder == Some(id) && end.record.lease.acquired == r.lease.acquired
    decreases |turns|
  {
    if turns != [] && turns[0].Fired? {
      assert Undisturbed(turns[0]);
      UndisturbedLoopKeeps(Written(r, RenewWrite(r, id, seconds, turns[0].now).value), id, seconds, turns[1..]);
    }
  }

  /** A renewal that meets a fault, no lease, or another's unexpired lease is the loop's last. */
  lemma DisturbedTurnLoses(r: Record, id: string, seconds: int, t: Turn, rest: seq<Turn>)
    requires t.Fired?
    requires var now := Interfered(r, t.others);
      || t.renew != NO_FAULTS || now.Absent?
      || (now.lease.holder.Some? && now.lease.holder.value != id && Unexpired(now.lease, t.now))
    ensures Renewals(r, id, seconds, [t] + rest).lost
  {
    var turns := [t] + rest;
    assert turns != [] && turns[0] == t;
  }
}
