/** The set of clusters a provider has found: their contexts, and the indexes they all carry. */
module ClusterSet {
  import opened Options

  /** One successful insertion: the cluster object, with the context it was given. `config` is
      what EqualClusters compares. */
  datatype Entry = Entry(inst: nat, config: nat)

  /** How far the Add call of an instance has come. */
  datatype Phase = Inserted | Indexed | Returned | Failed

  /** An IndexField call: the clusters of its clone it has still to index, and whether one failed. */
  datatype IndexCall = IndexCall(todo: set<nat>, failed: bool)

  /** `calls` runs parallel to the registered indexes; `applied` holds (instance, index) pairs;
      `ended` are the contexts cancelled. */
  datatype State = State(
    clusters: map<string, Entry>, cancels: map<string, nat>, phases: seq<Phase>, ended: set<nat>,
    calls: seq<IndexCall>, applied: set<(nat, nat)>)

  const EMPTY := State(map[], map[], [], {}, [], {})

  // ---------- the atomic steps ----------

  /** `add`, under the lock; a name already present is refused. */
  function Insert(s: State, name: string, config: nat): State {
    if name in s.clusters then s
    else
      var i := |s.phases|;
      s.(clusters := s.clusters[name := Entry(i, config)], cancels := s.cancels[name := i], phases := s.phases + [Inserted])
  }

  /** Remove, under the lock: by name, whoever is registered there. */
  function Remove(s: State, name: string): State {
    s.(clusters := s.clusters - {name}, cancels := s.cancels - {name},
       ended := if name in s.cancels then s.ended + {s.cancels[name]} else s.ended)
  }

  /** (inst, 0) ... (inst, n-1) */
  function Applied(inst: nat, n: nat): set<(nat, nat)> {
    set j | 0 <= j < n :: (inst, j)
  }

  /** Add's index phase, under the read lock, which keeps new indexes out; `failAt` is the first
      index that cannot be applied. */
  function IndexAll(s: State, inst: nat, failAt: nat): State
    requires inst < |s.phases|
  {
    var n := |s.calls|;
    s.(applied := s.applied + Applied(inst, if failAt < n then failAt else n),
       phases := s.phases[inst := if failAt < n then Failed else Indexed])
  }

  function Instances(clusters: map<string, Entry>): set<nat> {
    set n <- clusters :: clusters[n].inst
  }

  /** IndexField's first phase, under the lock: register the index and clone the clusters. */
  function Register(s: State): State {
    s.(calls := s.calls + [IndexCall(Instances(s.clusters), false)])
  }

  /** IndexField's second phase, outside the lock, for one cluster of the clone. */
  function ApplyOne(s: State, j: nat, inst: nat, ok: bool): State
    requires j < |s.calls|
  {
    var c := s.calls[j];
    s.(calls := s.calls[j := IndexCall(c.todo - {inst}, c.failed || !ok)],
       applied := if ok then s.applied + {(inst, j)} else s.applied)
  }

  // ---------- every interleaving ----------

  datatype Step =
    | Inserting(name: string, config: nat)
    | Removing(name: string)
    | SyncTimedOut(inst: nat)
    | Indexing(inst: nat, failAt: nat)
    | Engaging(inst: nat, ok: bool)
    | Registering
    | Applying(index: nat, inst: nat, ok: bool)

  predicate Enabled(s: State, step: Step) {
    match step
    case Inserting(_, _) => true
    case Removing(_) => true
    case SyncTimedOut(i) => i < |s.phases| && s.phases[i].Inserted?
    case Indexing(i, _) => i < |s.phases| && s.phases[i].Inserted?
    case Engaging(i, _) => i < |s.phases| && s.phases[i].Indexed?
    case Registering => true
    case Applying(j, i, _) => j < |s.calls| && i in s.calls[j].todo
  }

  function Apply(s: State, step: Step): State
    requires Enabled(s, step)
  {
    match step
    case Inserting(name, config) => Insert(s, name, config)
    case Removing(name) => Remove(s, name)
    case SyncTimedOut(i) => s.(phases := s.phases[i := Failed])
    case Indexing(i, failAt) => IndexAll(s, i, failAt)
    case Engaging(i, ok) => s.(phases := s.phases[i := if ok then Returned else Failed])
    case Registering => Register(s)
    case Applying(j, i, ok) => ApplyOne(s, j, i, ok)
  }

  ghost predicate Next(s: State, t: State) {
    exists step :: Enabled(s, step) && t == Apply(s, step)
  }

  ghost predicate IsRun(run: seq<State>) {
    |run| > 0 && run[0] == EMPTY && forall i :: 0 < i < |run| ==> Next(run[i-1], run[i])
  }

  /** Entries and cancel functions go together, and a context either has ended or is still that of
      a present entry. */
  ghost predicate Conserved(s: State) {
    && s.clusters.Keys == s.cancels.Keys
    && (forall n <- s.clusters :: s.cancels[n] == s.clusters[n].inst < |s.phases|)
    && (forall n <- s.clusters, m <- s.clusters :: s.clusters[n].inst == s.clusters[m].inst ==> n == m)
    && (forall i: nat :: i < |s.phases| ==> i in s.ended || exists n :: n in s.cancels && s.cancels[n] == i)
  }

  /** Index `j` has reached instance `i`, will still reach it, or one of the two calls reports an
      error. */
  predicate Covered(s: State, i: nat, j: nat)
    requires i < |s.phases| && j < |s.calls|
  {
    s.phases[i].Inserted? || s.phases[i].Failed? || (i, j) in s.applied || i in s.calls[j].todo || s.calls[j].failed
  }

  ghost predicate Inv(s: State) {
    && Conserved(s)
    && forall n <- s.clusters, j: nat | j < |s.calls| :: Covered(s, s.clusters[n].inst, j)
  }

  lemma InvInsert(s: State, name: string, config: nat)
    requires Inv(s)
    ensures Inv(Insert(s, name, config))
  {
    var t := Insert(s, name, config);
    forall i: nat | i < |t.phases| ensures i in t.ended || exists n :: n in t.cancels && t.cancels[n] == i {
      if i < |s.phases| && i !in s.ended {
        var n :| n in s.cancels && s.cancels[n] == i;
        assert n in t.cancels;
      } else if i == |s.phases| {
        assert name in t.cancels;
      }
    }
    forall n <- t.clusters, j: nat | j < |t.calls| ensures Covered(t, t.clusters[n].inst, j) {
      if n in s.clusters { assert Covered(s, s.clusters[n].inst, j); }
    }
  }

  lemma InvRemove(s: State, name: string)
    requires Inv(s)
    ensures Inv(Remove(s, name))
  {
    var t := Remove(s, name);
    forall i: nat | i < |t.phases| ensures i in t.ended || exists n :: n in t.cancels && t.cancels[n] == i {
      if i !in s.ended {
        var n :| n in s.cancels && s.cancels[n] == i;
        assert n in t.cancels || i in t.ended;
      }
    }
    forall n <- t.clusters, j: nat | j < |t.calls| ensures Covered(t, t.clusters[n].inst, j) {
      assert Covered(s, s.clusters[n].inst, j);
    }
  }

  /** Steps that leave the entries and contexts alone. */
  lemma InvKept(s: State, t: State)
    requires Inv(s) && t.clusters == s.clusters && t.cancels == s.cancels && t.ended == s.ended && |t.phases| == |s.phases|
    requires |s.calls| <= |t.calls|
    requires forall i: nat, j: nat | i < |s.phases| && j < |s.calls| :: Covered(s, i, j) ==> Covered(t, i, j)
    requires forall n <- s.clusters, j: nat | |s.calls| <= j < |t.calls| :: s.clusters[n].inst in t.calls[j].todo
    ensures Inv(t)
  {
  }

  lemma InvNext(s: State, t: State)
    requires Inv(s) && Next(s, t)
    ensures Inv(t)
  {
    var step :| Enabled(s, step) && t == Apply(s, step);
    match step
    case Inserting(name, config) => InvInsert(s, name, config);
    case Removing(name) => InvRemove(s, name);
    case SyncTimedOut(_) => InvKept(s, t);
    case Indexing(_, _) => InvKept(s, t);
    case Engaging(_, _) => InvKept(s, t);
    case Registering => InvKept(s, t);
    case Applying(_, _, _) => InvKept(s, t);
  }

  lemma {:induction false} InvRun(run: seq<State>, i: nat)
    requires IsRun(run) && i < |run|
    ensures Inv(run[i])
  {
    if i > 0 {
      InvRun(run, i - 1);
      InvNext(run[i-1], run[i]);
    }
  }

  /** IndexField's two kinds of step: registering the index with every cluster then present still to
      do, and doing one of them. */
  lemma IndexSteps(s: State, j: nat, i: nat, ok: bool)
    ensures var t := Apply(s, Registering);
      && t.calls[..|s.calls|] == s.calls && |t.calls| == |s.calls| + 1 && !t.calls[|s.calls|].failed
      && (forall n <- s.clusters :: s.clusters[n].inst in t.calls[|s.calls|].todo) && t == s.(calls := t.calls)
    ensures Enabled(s, Applying(j, i, ok)) ==>
      var t := Apply(s, Applying(j, i, ok));
      && i !in t.calls[j].todo && (forall k <- s.calls[j].todo :: k != i ==> k in t.calls[j].todo)
      && (ok ==> (i, j) in t.applied && t.calls[j].failed == s.calls[j].failed) && (!ok ==> t.calls[j].failed)
      && s.applied <= t.applied && t == s.(calls := s.calls[j := t.calls[j]], applied := t.applied)
  {
  }

  predicate AddReturned(s: State, inst: nat) {
    inst < |s.phases| && s.phases[inst].Returned?
  }

  /** In every interleaving, once an Add and an IndexField call have both returned without error,
      the index has been applied to the cluster if it is still present. */
  lemma IndexCoverage(run: seq<State>, i: nat, name: string, j: nat)
    requires IsRun(run) && i < |run| && name in run[i].clusters && j < |run[i].calls|
    requires AddReturned(run[i], run[i].clusters[name].inst) && run[i].calls[j] == IndexCall({}, false)
    ensures (run[i].clusters[name].inst, j) in run[i].applied
  {
    InvRun(run, i);
    assert Covered(run[i], run[i].clusters[name].inst, j);
  }

  /** In every interleaving, the two maps have the same names, and every context ever created is
      that of a present cluster or has been cancelled. */
  lemma ContextConservation(run: seq<State>, i: nat, inst: nat)
    requires IsRun(run) && i < |run| && inst < |run[i].phases|
    ensures run[i].clusters.Keys == run[i].cancels.Keys
    ensures inst in run[i].ended || exists n :: n in run[i].clusters && run[i].clusters[n].inst == inst
  {
    InvRun(run, i);
    if inst !in run[i].ended {
      var n :| n in run[i].cancels && run[i].cancels[n] == inst;
      assert n in run[i].clusters;
    }
  }

  // ---------- the operations, run without interruption ----------

  /** Add: insert, wait for the cache, index, engage; any failure removes the name again. */
  function Added(s: State, name: string, config: nat, synced: bool, failAt: nat, engaged: bool): State {
    if name in s.clusters then s
    else
      var inst := |s.phases|;
      var a := Insert(s, name, config);
      if !synced then Remove(Apply(a, SyncTimedOut(inst)), name)
      else
        var b := IndexAll(a, inst, failAt);
        if failAt < |s.calls| then Remove(b, name)
        else
          var c := Apply(b, Engaging(inst, engaged));
          if engaged then c else Remove(c, name)
  }

  function Replaced(s: State, name: string, config: nat, synced: bool, failAt: nat, engaged: bool): State {
    if name in s.clusters && s.clusters[name].config == config then s
    else Added(if name in s.clusters then Remove(s, name) else s, name, config, synced, failAt, engaged)
  }

  /** Contexts are numbered as they are made, and each entry has its own cancel function. */
  ghost predicate Sound(s: State) {
    && s.clusters.Keys == s.cancels.Keys
    && (forall n <- s.clusters :: s.cancels[n] == s.clusters[n].inst < |s.phases|)
    && (forall i <- s.ended :: i < |s.phases|)
  }

  /** From `s` to `t`: the name has a new entry of this configuration, under a new context that has not
      ended, with every registered index applied; nothing else has changed. */
  ghost predicate EnteredAnew(s: State, t: State, name: string, config: nat) {
    var inst := |s.phases|;
    && t.clusters == s.clusters[name := Entry(inst, config)] && t.cancels == s.cancels[name := inst]
    && t.phases == s.phases + [Returned] && inst !in t.ended && t.ended == s.ended && t.calls == s.calls
    && (forall i, j :: (i, j) in t.applied <==> (i, j) in s.applied || (i == inst && 0 <= j < |s.calls|))
  }

  /** From `s` to `t`: the name has no entry and the context made for it has ended; the registered
      indexes may have been applied to that cluster, and nothing else has changed. */
  ghost predicate NotEntered(s: State, t: State, name: string) {
    var inst := |s.phases|;
    && t.clusters == s.clusters - {name} && t.cancels == s.cancels - {name}
    && t.phases == s.phases + [Failed] && t.ended == s.ended + {inst} && t.calls == s.calls
    && (forall i, j :: i != inst ==> ((i, j) in t.applied <==> (i, j) in s.applied))
  }

  /** What Add comes to, by its outcome. */
  lemma AddOutcome(s: State, name: string, config: nat, synced: bool, failAt: nat, engaged: bool)
    requires Sound(s)
    ensures
      var t := Added(s, name, config, synced, failAt, engaged);
      if name in s.clusters then t == s
      else if synced && failAt >= |s.calls| && engaged then EnteredAnew(s, t, name, config)
      else NotEntered(s, t, name)
  {
    if name !in s.clusters {
      var a := Insert(s, name, config);
      assert a.clusters - {name} == s.clusters && a.cancels - {name} == s.cancels;
      assert s.clusters - {name} == s.clusters && s.cancels - {name} == s.cancels;
    }
  }

  /** What AddOrReplace comes to: nothing for an equal configuration; otherwise the old context ends
      and Add decides. */
  lemma ReplaceOutcome(s: State, name: string, config: nat, synced: bool, failAt: nat, engaged: bool)
    requires Sound(s)
    ensures
      var t := Replaced(s, name, config, synced, failAt, engaged);
      if name in s.clusters && s.clusters[name].config == config then t == s
      else
        var gone := s.(clusters := s.clusters - {name}, cancels := s.cancels - {name},
          ended := s.ended + if name in s.clusters then {s.clusters[name].inst} else {});
        if synced && failAt >= |s.calls| && engaged then EnteredAnew(gone, t, name, config) else NotEntered(gone, t, name)
  {
    var gone := s.(clusters := s.clusters - {name}, cancels := s.cancels - {name},
      ended := s.ended + if name in s.clusters then {s.clusters[name].inst} else {});
    if name !in s.clusters { assert s.clusters - {name} == s.clusters && s.cancels - {name} == s.cancels; }
    AddOutcome(gone, name, config, synced, failAt, engaged);
  }

  function Pairs(insts: set<nat>, j: nat): set<(nat, nat)> {
    set i <- insts :: (i, j)
  }

  /** Index `j` has been applied to the clusters of call `c` except those in `todo`. */
  ghost predicate Doing(c: IndexCall, was: set<(nat, nat)>, refuse: set<nat>, j: nat, todo: set<nat>, failed: bool,
      applied: set<(nat, nat)>)
  {
    && todo <= c.todo && (failed <==> c.failed || (c.todo - todo) * refuse != {})
    && applied == was + Pairs((c.todo - todo) - refuse, j)
  }

  lemma DoingOne(c: IndexCall, was: set<(nat, nat)>, refuse: set<nat>, j: nat, todo: set<nat>, failed: bool,
      applied: set<(nat, nat)>, i: nat)
    requires Doing(c, was, refuse, j, todo, failed, applied) && i in todo
    ensures Doing(c, was, refuse, j, todo - {i}, failed || i in refuse, if i in refuse then applied else applied + {(i, j)})
  {
    var seen := c.todo - todo;
    assert c.todo - (todo - {i}) == seen + {i};
    assert (seen + {i}) - refuse == (seen - refuse) + if i in refuse then {} else {i};
    assert (seen + {i}) * refuse == (seen * refuse) + if i in refuse then {i} else {};
  }

  lemma DoingAll(c: IndexCall, was: set<(nat, nat)>, refuse: set<nat>, j: nat)
    ensures Doing(c, was, refuse, j, c.todo, c.failed, was)
    ensures forall failed, applied :: Doing(c, was, refuse, j, {}, failed, applied) ==>
      (failed <==> c.failed || c.todo * refuse != {}) && applied == was + Pairs(c.todo - refuse, j)
  {
    assert c.todo - {} == c.todo;
  }

  class Clusters {
    var clusters: map<string, Entry>
    var cancels: map<string, nat>
    var phases: seq<Phase>
    var ended: set<nat>
    var calls: seq<IndexCall>
    var applied: set<(nat, nat)>

    constructor ()
      ensures Now() == EMPTY && Sound(Now())
    {
      clusters, cancels, phases, ended, calls, applied := map[], map[], [], {}, [], {};
    }

    function Now(): State
      reads this
    {
      State(clusters, cancels, phases, ended, calls, applied)
    }

    method InsertCluster(name: string, config: nat) returns (inst: Option<nat>)
      modifies this
      ensures Now() == Insert(old(Now()), name, config)
      ensures inst == if name in old(clusters) then None else Some(|old(phases)|)
      ensures inst.None? ==> Now() == old(Now())
      ensures inst.Some? ==>
        clusters == old(clusters)[name := Entry(inst.value, config)] && cancels == old(cancels)[name := inst.value]
    {
      if name in clusters { return None; }
      var i := |phases|;
      phases := phases + [Inserted];
      clusters := clusters[name := Entry(i, config)];
      cancels := cancels[name := i];
      return Some(i);
    }

    method RemoveCluster(name: string)
      modifies this
      ensures Now() == Remove(old(Now()), name)
      ensures clusters == old(clusters) - {name} && cancels == old(cancels) - {name}
      ensures ended == old(ended) + if name in old(cancels) then {old(cancels)[name]} else {}
    {
      if name in cancels { ended := ended + {cancels[name]}; }
      cancels := cancels - {name};
      clusters := clusters - {name};
    }

    method IndexCluster(inst: nat, failAt: nat) returns (ok: bool)
      requires inst < |phases|
      modifies this`applied, this`phases
      ensures Now() == IndexAll(old(Now()), inst, failAt)
      ensures ok <==> failAt >= |calls|
    {
      for j := 0 to |calls|
        invariant j <= failAt && phases == old(phases) && applied == old(applied) + Applied(inst, j)
      {
        if j == failAt {
          phases := phases[inst := Failed];
          return false;
        }
        assert Applied(inst, j + 1) == Applied(inst, j) + {(inst, j)};
        applied := applied + {(inst, j)};
      }
      phases := phases[inst := Indexed];
      return true;
    }

    /** Refuses a taken name; otherwise the name is entered with all its indexes, or, if waiting,
        indexing or engaging fails, it is not and the context made for it has ended. */
    method Add(name: string, config: nat, synced: bool, failAt: nat, engaged: bool) returns (ok: bool)
      requires Sound(Now())
      modifies this
      ensures Sound(Now()) && Now() == Added(old(Now()), name, config, synced, failAt, engaged)
      ensures ok <==> name !in old(clusters) && synced && failAt >= |old(calls)| && engaged
      ensures ok ==> EnteredAnew(old(Now()), Now(), name, config)
      ensures !ok && name !in old(clusters) ==> NotEntered(old(Now()), Now(), name)
      ensures name in old(clusters) ==> Now() == old(Now())
    {
      AddOutcome(Now(), name, config, synced, failAt, engaged);
      var inst := InsertCluster(name, config);
      if inst.None? { return false; }
      if !synced {
        phases := phases[inst.value := Failed];
        RemoveCluster(name);
        return false;
      }
      var indexed := IndexCluster(inst.value, failAt);
      if !indexed {
        RemoveCluster(name);
        return false;
      }
      phases := phases[inst.value := if engaged then Returned else Failed];
      if !engaged {
        RemoveCluster(name);
        return false;
      }
      return true;
    }

    /** Keeps an entry of equal configuration; any other is removed, its context ended, and the name
        entered anew if nothing fails. */
    method AddOrReplace(name: string, config: nat, synced: bool, failAt: nat, engaged: bool) returns (ok: bool)
      requires Sound(Now())
      modifies this
      ensures Sound(Now()) && Now() == Replaced(old(Now()), name, config, synced, failAt, engaged)
      ensures ok == ((name in old(clusters) && old(clusters)[name].config == config)
                     || (synced && failAt >= |old(calls)| && engaged))
      ensures name in old(clusters) && old(clusters)[name].config == config ==> Now() == old(Now())
      ensures name in old(clusters) && old(clusters)[name].config != config ==> old(clusters)[name].inst in ended
      ensures !(name in old(clusters) && old(clusters)[name].config == config) ==>
        && clusters == (if ok then old(clusters)[name := Entry(|old(phases)|, config)] else old(clusters) - {name})
        && (|old(phases)| in ended <==> !ok) && (ok ==> forall j :: 0 <= j < |calls| ==> (|old(phases)|, j) in applied)
    {
      ReplaceOutcome(Now(), name, config, synced, failAt, engaged);
      if name !in clusters {
        ok := Add(name, config, synced, failAt, engaged);
        return;
      }
      if clusters[name].config == config { return true; }
      RemoveCluster(name);
      ok := Add(name, config, synced, failAt, engaged);
    }

    /** Applies index `j` to its clone; `refuse` holds the instances whose indexer fails. */
    method ApplyIndex(j: nat, refuse: set<nat>)
      requires j < |calls|
      modifies this`calls, this`applied
      ensures
        var c := old(calls)[j];
        && calls == old(calls)[j := IndexCall({}, c.failed || c.todo * refuse != {})]
        && applied == old(applied) + Pairs(c.todo - refuse, j)
    {
      var todo, failed := calls[j].todo, calls[j].failed;
      DoingAll(calls[j], applied, refuse, j);
      while todo != {}
        invariant calls == old(calls) && Doing(calls[j], old(applied), refuse, j, todo, failed, applied)
        decreases |todo|
      {
        var i :| i in todo;
        DoingOne(calls[j], old(applied), refuse, j, todo, failed, applied, i);
        if i in refuse { failed := true; } else { applied := applied + {(i, j)}; }
        todo := todo - {i};
      }
      calls := calls[j := IndexCall({}, failed)];
    }

    method IndexField(refuse: set<nat>) returns (ok: bool)
      modifies this`calls, this`applied
      ensures
        var clone := Instances(old(clusters));
        && Now() == old(Now()).(
             calls := old(calls) + [IndexCall({}, clone * refuse != {})],
             applied := old(applied) + Pairs(clone - refuse, |old(calls)|))
        && (ok <==> clone * refuse == {})
    {
      var j := |calls|;
      calls := calls + [IndexCall(Instances(clusters), false)];
      ApplyIndex(j, refuse);
      ok := !calls[j].failed;
    }
  }
}
