/** A kind source in one cluster: the one event handler it keeps on the cluster's informer. */
module KindSource {
  import opened Options

  /** Where a Start call is; calls are serialised, cleanups are not. A handler is named by its
      registration, and belongs to the context it was built for. */
  datatype Progress =
    | Idle
    | Checked(ctx: nat)
    | Located(ctx: nat)
    | Emptied(ctx: nat)
    | Registered(ctx: nat, reg: nat)
    | Stored(ctx: nat)

  /** `handlers` maps each registration the informer holds for this source to its context;
      `watched` holds the contexts that a goroutine still waits for, `done` those that have ended. */
  datatype State = State(
    registration: Option<nat>, active: Option<nat>, handlers: map<nat, nat>, regs: nat,
    done: set<nat>, watched: multiset<nat>, start: Progress)

  const EMPTY := State(None, None, map[], 0, {}, multiset{}, Idle)

  /** Drop the stored registration, and its handler with it. */
  function Dropped(s: State): State {
    s.(handlers := if s.registration.Some? then s.handlers - {s.registration.value} else s.handlers,
       registration := None, active := None)
  }

  /** Already registered for this very, still live, context. */
  predicate Running(s: State, ctx: nat) {
    s.registration.Some? && s.active == Some(ctx) && ctx !in s.done
  }

  /** The goroutine of a Start that succeeded with `ctx`, once that context has ended. */
  function Cleaned(s: State, ctx: nat): State {
    (if s.active == Some(ctx) && s.registration.Some? then Dropped(s) else s).(watched := s.watched - multiset{ctx})
  }

  // ---------- every interleaving ----------

  datatype Step =
    | Call(ctx: nat)
    | Locate(ok: bool)
    | RemoveOld
    | Register(ok: bool)
    | Store
    | Sync(ok: bool)
    | End(ctx: nat)
    | Cleanup(ctx: nat)

  predicate Enabled(s: State, step: Step) {
    match step
    case Call(_) => s.start.Idle?
    case Locate(_) => s.start.Checked?
    case RemoveOld => s.start.Located?
    case Register(_) => s.start.Emptied?
    case Store => s.start.Registered?
    case Sync(_) => s.start.Stored?
    case End(_) => true
    case Cleanup(ctx) => ctx in s.watched && ctx in s.done
  }

  /** Building the handler and adding it to the informer may each fail; either way nothing is added. */
  function Apply(s: State, step: Step): State
    requires Enabled(s, step)
  {
    match step
    case Call(ctx) => if Running(s, ctx) then s else s.(start := Checked(ctx))
    case Locate(ok) => s.(start := if ok then Located(s.start.ctx) else Idle)
    case RemoveOld => (if s.registration.Some? then Dropped(s) else s).(start := Emptied(s.start.ctx))
    case Register(ok) =>
      if !ok then s.(start := Idle)
      else s.(handlers := s.handlers[s.regs := s.start.ctx], regs := s.regs + 1, start := Registered(s.start.ctx, s.regs))
    case Store => s.(registration := Some(s.start.reg), active := Some(s.start.ctx), start := Stored(s.start.ctx))
    case Sync(ok) => if ok then s.(watched := s.watched + multiset{s.start.ctx}, start := Idle) else Dropped(s).(start := Idle)
    case End(ctx) => s.(done := s.done + {ctx})
    case Cleanup(ctx) => Cleaned(s, ctx)
  }

  ghost predicate Next(s: State, t: State) {
    exists step :: Enabled(s, step) && t == Apply(s, step)
  }

  ghost predicate IsRun(run: seq<State>) {
    |run| > 0 && run[0] == EMPTY && forall i :: 0 < i < |run| ==> Next(run[i-1], run[i])
  }

  /** The informer holds the stored registration, for the active context, and nothing else; only
      between adding a handler and storing it is that handler the unstored one. */
  predicate OneHandler(s: State) {
    && (s.registration.Some? <==> s.active.Some?)
    && (s.start.Emptied? || s.start.Registered? ==> s.registration.None?)
    && s.handlers == if s.start.Registered? then map[s.start.reg := s.start.ctx]
                     else if s.registration.Some? then map[s.registration.value := s.active.value]
                     else map[]
  }

  /** The informer's handlers are the stored registration alone, built for the active context. */
  predicate HoldsStored(s: State) {
    match (s.registration, s.active)
    case (Some(reg), Some(ctx)) => s.handlers == map[reg := ctx]
    case (None, None) => s.handlers == map[]
    case _ => false
  }

  lemma OneHandlerStep(s: State, step: Step)
    requires OneHandler(s) && Enabled(s, step)
    ensures OneHandler(Apply(s, step))
  {
  }

  lemma OneHandlerNext(s: State, t: State)
    requires OneHandler(s) && Next(s, t)
    ensures OneHandler(t)
  {
    var step :| Enabled(s, step) && t == Apply(s, step);
    OneHandlerStep(s, step);
  }

  lemma {:induction false} OneHandlerRun(run: seq<State>, i: nat)
    requires IsRun(run) && i < |run|
    ensures OneHandler(run[i])
  {
    if i > 0 {
      OneHandlerRun(run, i - 1);
      OneHandlerNext(run[i-1], run[i]);
    }
  }

  /** In every interleaving of serialised Start calls with cleanups, the informer never holds two
      handlers of the source, and between calls it holds exactly the stored one, of `active`. */
  lemma OneHandlerAcrossRestarts(run: seq<State>, i: nat)
    requires IsRun(run) && i < |run|
    ensures |run[i].handlers| <= 1
    ensures run[i].start.Idle? ==> HoldsStored(run[i])
  {
    OneHandlerRun(run, i);
  }

  /** Between storing its handler and waiting for the cache, a Start can lose the handler only to a
      cleanup of its own ended context; otherwise the active context has a goroutine waiting for it. */
  predicate Attended(s: State) {
    && (s.start.Stored? ==> s.active == Some(s.start.ctx) || (s.active.None? && s.start.ctx in s.done))
    && (s.active.Some? && !s.start.Stored? ==> s.active.value in s.watched)
  }

  lemma AttendedStep(s: State, step: Step)
    requires OneHandler(s) && Attended(s) && Enabled(s, step)
    ensures Attended(Apply(s, step))
  {
  }

  lemma AttendedNext(s: State, t: State)
    requires OneHandler(s) && Attended(s) && Next(s, t)
    ensures Attended(t)
  {
    var step :| Enabled(s, step) && t == Apply(s, step);
    AttendedStep(s, step);
  }

  lemma {:induction false} AttendedRun(run: seq<State>, i: nat)
    requires IsRun(run) && i < |run|
    ensures OneHandler(run[i]) && Attended(run[i])
  {
    OneHandlerRun(run, i);
    if i > 0 {
      AttendedRun(run, i - 1);
      AttendedNext(run[i-1], run[i]);
    }
  }

  // ---------- survival, failure, success and cleanup, wherever cleanups come in ----------

  predicate Takes(s: State, step: Step, t: State) {
    Enabled(s, step) && t == Apply(s, step)
  }

  ghost predicate IsTrace(run: seq<State>, steps: seq<Step>) {
    && |run| == |steps| + 1 && run[0] == EMPTY
    && forall i :: 0 <= i < |steps| ==> Takes(run[i], steps[i], run[i+1])
  }

  lemma TraceIsRun(run: seq<State>, steps: seq<Step>)
    requires IsTrace(run, steps)
    ensures IsRun(run)
  {
    forall i | 0 < i < |run| ensures Next(run[i-1], run[i]) { assert Takes(run[i-1], steps[i-1], run[i-1+1]); }
  }

  /** A Start gives up a handler in two places: the one it replaces, and its own if the cache does
      not sync. */
  predicate GivesUp(step: Step) {
    step.RemoveOld? || step == Sync(false)
  }

  lemma DoneGrows(s: State, step: Step, t: State)
    requires Takes(s, step, t)
    ensures s.done <= t.done
  {
  }

  lemma LiveHandlerStep(s: State, step: Step, t: State, ctx: nat)
    requires OneHandler(s) && Takes(s, step, t) && !GivesUp(step) && Running(s, ctx) && ctx !in t.done
    ensures Running(t, ctx) && t.handlers == s.handlers
  {
  }

  /** While its context is live, the active handler survives every cleanup and every other step,
      a Start under way or not, until a Start gives it up. */
  lemma {:induction false} LiveHandlerSurvives(run: seq<State>, steps: seq<Step>, i: nat, j: nat, ctx: nat)
    requires IsTrace(run, steps) && i <= j < |run| && Running(run[i], ctx) && ctx !in run[j].done
    requires forall k :: i <= k < j ==> !GivesUp(steps[k])
    ensures Running(run[j], ctx) && run[j].handlers == run[i].handlers
    decreases j
  {
    if i < j {
      var k := j - 1;
      DoneGrows(run[k], steps[k], run[k+1]);
      LiveHandlerSurvives(run, steps, i, k, ctx);
      TraceIsRun(run, steps);
      OneHandlerRun(run, k);
      LiveHandlerStep(run[k], steps[k], run[k+1], ctx);
    }
  }

  /** The active context's cleanup leaves no handler, a Start under way or not. And none is left
      for ever: the handler there is between calls has a goroutine waiting for its context. */
  lemma CleanupLeavesNone(run: seq<State>, i: nat, ctx: nat)
    requires IsRun(run) && i < |run| && run[i].active == Some(ctx)
    ensures Cleaned(run[i], ctx).handlers == map[] && Cleaned(run[i], ctx).registration.None?
    ensures run[i].start.Idle? && ctx in run[i].done ==> Enabled(run[i], Cleanup(ctx))
  {
    AttendedRun(run, i);
  }

  /** A Start that fails leaves no handler, unless it failed to find the informer: then whatever was
      there stays. */
  lemma FailedStartLeavesNone(run: seq<State>, i: nat, step: Step)
    requires IsRun(run) && i < |run| && Enabled(run[i], step) && step in {Locate(false), Register(false), Sync(false)}
    ensures var t := Apply(run[i], step);
      t.start.Idle? && t.handlers == if step == Locate(false) then run[i].handlers else map[]
  {
    OneHandlerRun(run, i);
  }

  /** A Start that succeeds leaves exactly one handler, of its own context, or, if that context has
      ended meanwhile, at most that one and a goroutine to remove it. */
  lemma SuccessfulStartLeavesOne(run: seq<State>, i: nat)
    requires IsRun(run) && i < |run| && Enabled(run[i], Sync(true))
    ensures var ctx, t := run[i].start.ctx, Apply(run[i], Sync(true));
      && t.start.Idle? && ctx in t.watched && t.handlers.Values <= {ctx}
      && (ctx !in t.done ==> Running(t, ctx) && t.handlers == map[t.registration.value := ctx])
  {
    AttendedRun(run, i);
  }

  /** So does one that returns early because it is already running. */
  lemma RepeatedStartKeepsOne(run: seq<State>, i: nat, ctx: nat)
    requires IsRun(run) && i < |run| && run[i].start.Idle? && Running(run[i], ctx)
    ensures Apply(run[i], Call(ctx)) == run[i] && run[i].handlers == map[run[i].registration.value := ctx]
  {
    OneHandlerRun(run, i);
  }

  // ---------- Start in place ----------

  datatype Faults = Faults(locate: bool, register: bool, sync: bool)

  /** The uninterrupted call, as its steps. */
  function Started(s: State, ctx: nat, f: Faults): State
    requires s.start.Idle?
  {
    if Running(s, ctx) then s
    else
      var a := Apply(Apply(s, Call(ctx)), Locate(!f.locate));
      if f.locate then a else Added(Apply(a, RemoveOld), f)
  }

  /** Its second half, once the old handler is gone. */
  function Added(s: State, f: Faults): State
    requires s.start.Emptied?
  {
    var b := Apply(s, Register(!f.register));
    if f.register then b else Apply(Apply(b, Store), Sync(!f.sync))
  }

  /** The steps lead from `s` to `t`. */
  ghost predicate Leads(s: State, steps: seq<Step>, t: State)
    decreases |steps|
  {
    if steps == [] then s == t else Enabled(s, steps[0]) && Leads(Apply(s, steps[0]), steps[1..], t)
  }

  /** The steps of an uninterrupted call: it ends in Sync(true) exactly when it succeeds anew. */
  function StepsOf(running: bool, ctx: nat, f: Faults): seq<Step> {
    if running then [Call(ctx)]
    else if f.locate then [Call(ctx), Locate(false)]
    else if f.register then [Call(ctx), Locate(true), RemoveOld, Register(false)]
    else [Call(ctx), Locate(true), RemoveOld, Register(true), Store, Sync(!f.sync)]
  }

  /** The call is a run of the interleaved model. */
  lemma StartIsARun(s: State, ctx: nat, f: Faults)
    requires s.start.Idle?
    ensures Leads(s, StepsOf(Running(s, ctx), ctx, f), Started(s, ctx, f))
  {
    var t := Started(s, ctx, f);
    if Running(s, ctx) {
      FirstStep(s, Call(ctx), [], t);
    } else {
      var a := Apply(s, Call(ctx));
      var b := Apply(a, Locate(!f.locate));
      if f.locate {
        FirstStep(a, Locate(false), [], t);
        FirstStep(s, Call(ctx), [Locate(false)], t);
      } else {
        var rest := if f.register then [Register(false)] else [Register(true), Store, Sync(!f.sync)];
        AddedIsARun(Apply(b, RemoveOld), f);
        FirstStep(b, RemoveOld, rest, t);
        FirstStep(a, Locate(true), [RemoveOld] + rest, t);
        FirstStep(s, Call(ctx), [Locate(true)] + ([RemoveOld] + rest), t);
        assert StepsOf(false, ctx, f) == [Call(ctx)] + ([Locate(true)] + ([RemoveOld] + rest));
      }
    }
  }

  lemma FirstStep(s: State, step: Step, rest: seq<Step>, t: State)
    requires Enabled(s, step) && Leads(Apply(s, step), rest, t)
    ensures Leads(s, [step] + rest, t)
  {
    assert ([step] + rest)[1..] == rest;
  }

  lemma AddedIsARun(s: State, f: Faults)
    requires s.start.Emptied?
    ensures Leads(s, if f.register then [Register(false)] else [Register(true), Store, Sync(!f.sync)], Added(s, f))
  {
    if f.register {
      FirstStep(s, Register(false), [], Added(s, f));
    } else {
      var a := Apply(s, Register(true));
      var b := Apply(a, Store);
      FirstStep(b, Sync(!f.sync), [], Added(s, f));
      FirstStep(a, Store, [Sync(!f.sync)], Added(s, f));
      FirstStep(s, Register(true), [Store] + [Sync(!f.sync)], Added(s, f));
      assert [Register(true)] + ([Store] + [Sync(!f.sync)]) == [Register(true), Store, Sync(!f.sync)];
    }
  }

  class ClusterKind {
    var registration: Option<nat>
    var active: Option<nat>
    var handlers: map<nat, nat>
    var regs: nat
    var done: set<nat>
    var watched: multiset<nat>

    constructor ()
      ensures Valid() && Now() == EMPTY
    {
      registration, active, handlers, regs, done, watched := None, None, map[], 0, {}, multiset{};
    }

    function Now(): State
      reads this
    {
      State(registration, active, handlers, regs, done, watched, Idle)
    }

    /** Removes the stored registration's handler and forgets both. */
    method Drop()
      modifies this`handlers, this`registration, this`active
      ensures Now() == Dropped(old(Now()))
    {
      if registration.Some? { handlers := handlers - {registration.value}; }
      registration, active := None, None;
    }

    /** The informer holds the stored registration's handler and no other. */
    predicate Valid()
      reads this
    {
      OneHandler(Now())
    }

    /** Succeeds when already running for this context, without a change, or when nothing fails; then
        the only handler is a new one, of this context, and a goroutine waits for the context to end.
        A failure leaves no handler, or the old one if the informer was not found. */
    method Start(ctx: nat, f: Faults) returns (ok: bool)
      requires Valid()
      modifies this
      ensures Valid() && done == old(done)
      ensures Now() == Started(old(Now()), ctx, f)
      ensures Leads(old(Now()), StepsOf(Running(old(Now()), ctx), ctx, f), Now())
      ensures
        var running := old(registration).Some? && old(active) == Some(ctx) && ctx !in old(done);
        && (ok <==> running || f == Faults(false, false, false))
        && (running || f.locate ==> Now() == old(Now()))
        && (ok && !running ==> registration == Some(old(regs)) && watched == old(watched) + multiset{ctx})
      ensures ok ==> registration.Some? && active == Some(ctx) && handlers == map[registration.value := ctx]
      ensures !ok && !f.locate ==> handlers == map[] && registration == None && active == None && watched == old(watched)
    {
      StartIsARun(Now(), ctx, f);
      if registration.Some? && active.Some? && active.value !in done && active.value == ctx { return true; }
      if f.locate { return false; }
      if registration.Some? { Drop(); }
      ok := AddHandler(ctx, f);
    }

    method AddHandler(ctx: nat, f: Faults) returns (ok: bool)
      modifies this
      ensures Now() == Added(old(Now()).(start := Emptied(ctx)), f)
      ensures ok <==> !f.register && !f.sync
    {
      if f.register { return false; }
      var reg := regs;
      regs := regs + 1;
      handlers := handlers[reg := ctx];
      registration := Some(reg);
      active := Some(ctx);
      if f.sync {
        Drop();
        return false;
      }
      watched := watched + multiset{ctx};
      return true;
    }

    /** Removes the handler if it is still that of this context, and touches no other. */
    method OnContextDone(ctx: nat)
      requires Valid()
      modifies this
      ensures Valid() && Now() == Cleaned(old(Now()), ctx)
      ensures old(active) == Some(ctx) ==> handlers == map[] && registration == None && active == None
      ensures old(active) != Some(ctx) ==>
        handlers == old(handlers) && registration == old(registration) && active == old(active)
    {
      watched := watched - multiset{ctx};
      if active == Some(ctx) && registration.Some? { Drop(); }
    }
  }
}
