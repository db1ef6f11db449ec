/**
 * The stage executor of the database-setup worker: one call runs one stage,
 * calls the collaborators that stage needs and emits START, zero or more
 * progress values, then exactly one of DONE or an error.
 *
 * The collaborators' behaviour is an `Env` of abstract outcomes; the signal
 * emissions become appends to the worker's `events`, and the collaborator
 * calls are logged in `calls` so that their order can be stated.
 */
module Worker {
  import opened Stages

  /** The outcome of a module's hook for the LOAD (`loading`) or TEST stage. */
  function Hook(m: Module, loading: bool): Outcome {
    if loading then m.load else m.test
  }

  /** The hook outcomes of all modules, in registry order. */
  function Hooks(mods: seq<Module>, loading: bool): (rs: seq<Outcome>)
    ensures |rs| == |mods|
    ensures forall i :: 0 <= i < |mods| ==> rs[i] == Hook(mods[i], loading)
  {
    seq(|mods|, i requires 0 <= i < |mods| => Hook(mods[i], loading))
  }

  /** Index of the first failing outcome, or the length when none fails. */
  function FirstFailure(rs: seq<Outcome>): (k: nat)
    ensures k <= |rs|
    ensures forall i :: 0 <= i < k ==> rs[i].Ok?
    ensures k < |rs| ==> rs[k].Fail?
  {
    if rs == [] then 0
    else if rs[0].Fail? then 0
    else 1 + FirstFailure(rs[1..])
  }

  /** The progress value emitted after the hook of module `i` of `n`. */
  function ModuleProgress(i: nat, n: nat): (v: real)
    requires i < n
    ensures 0.0 <= v < FINISH
  {
    FINISH * (i as real / n as real)
  }

  /** Progress events after the first `k` of `n` module hooks. */
  function Ramp(s: int, k: nat, n: nat): (r: seq<Event>)
    requires k <= n
    ensures |r| == k
    ensures forall i :: 0 <= i < k ==> r[i] == Progress(s, ModuleProgress(i, n))
  {
    seq(k, i requires 0 <= i < k => Progress(s, ModuleProgress(i, n)))
  }

  /** The calls of the first `k` module hooks. */
  function HookCalls(k: nat, loading: bool): (r: seq<Call>)
    ensures |r| == k
    ensures forall i :: 0 <= i < k ==> r[i] == if loading then LoadModels(i) else TestModels(i)
  {
    seq(k, i requires 0 <= i < k => if loading then LoadModels(i) else TestModels(i))
  }

  /** Whether a LOAD or TEST stage body fails. */
  predicate ModulesFail(env: Env, loading: bool) {
    env.listing.Fail? || exists i :: 0 <= i < |env.modules| && Hook(env.modules[i], loading).Fail?
  }

  /**
   * The events of a LOAD or TEST stage after START and before the closing
   * DONE: one progress value per module whose hook returned, then the
   * error of the first failing step, if any.
   */
  function ModuleEvents(s: int, env: Env, loading: bool): seq<Event> {
    if env.listing.Fail? then [Error(s, env.listing.cause)]
    else
      var rs := Hooks(env.modules, loading);
      var k := FirstFailure(rs);
      Ramp(s, k, |rs|) + (if k < |rs| then [Error(s, rs[k].cause)] else [])
  }

  /** The collaborator calls of a LOAD or TEST stage. */
  function ModuleCalls(env: Env, loading: bool): seq<Call> {
    if env.listing.Fail? then [ListModules]
    else
      var rs := Hooks(env.modules, loading);
      var k := FirstFailure(rs);
      [ListModules] + HookCalls(if k < |rs| then k + 1 else k, loading)
  }

  /** Whether running stage `s` against `env` ends in an error. */
  predicate StageFailed(env: Env, s: int) {
    if s == STATE_INIT then env.init.Fail?
    else if s == STATE_LOAD then ModulesFail(env, true)
    else if s == STATE_CREATE then env.clear.Fail? || env.create.Fail?
    else if s == STATE_TEST then ModulesFail(env, false)
    else false
  }

  /** Every event that one run of stage `s` emits, in order. */
  function StageEvents(env: Env, s: int): (r: seq<Event>)
    ensures |r| >= 2
    ensures r[0] == Progress(s, START)
    ensures forall i :: 0 <= i < |r| ==> r[i].state == s
  {
    [Progress(s, START)] +
    if s == STATE_INIT then
      (if env.init.Fail? then [Error(s, env.init.cause)] else [Progress(s, DONE)])
    else if s == STATE_LOAD || s == STATE_TEST then
      var loading := s == STATE_LOAD;
      ModuleEvents(s, env, loading) + (if ModulesFail(env, loading) then [] else [Progress(s, DONE)])
    else if s == STATE_CREATE then
      if env.clear.Fail? then [Error(s, env.clear.cause)]
      else [Progress(s, FINISH * 0.5)] + CreateTail(s, env)
    else [Progress(s, DONE)]
  }

  /** The events of CREATE after its midpoint progress. */
  function CreateTail(s: int, env: Env): seq<Event> {
    if env.create.Fail? then [Error(s, env.create.cause)] else [Progress(s, DONE)]
  }

  /** Every collaborator call that one run of stage `s` makes, in order. */
  function StageCalls(env: Env, s: int): seq<Call> {
    if s == STATE_INIT then [InitDb]
    else if s == STATE_LOAD then ModuleCalls(env, true)
    else if s == STATE_CREATE then [ClearDb] + (if env.clear.Fail? then [] else [CreateDb])
    else if s == STATE_TEST then ModuleCalls(env, false)
    else []
  }

  /** The worker thread and what its communicator has emitted so far. */
  class SetupWorker {
    var events: seq<Event>
    var calls: seq<Call>
    var running: bool

    /** A freshly started worker thread. */
    constructor ()
      ensures events == [] && calls == [] && running
    {
      events, calls, running := [], [], true;
    }

    /** Runs one stage: the communicator's `runState`. */
    method RunState(state: int, env: Env)
      modifies this
      ensures events == old(events) + StageEvents(env, state)
      ensures calls == old(calls) + StageCalls(env, state)
      ensures running == (old(running) && state != STATE_DONE)
    {
      var out, made := RunStage(state, env);
      if state == STATE_DONE {
        running := false;
      }
      events, calls := events + out, calls + made;
    }
  }

  /**
   * The body of `runState`: what one run of `state` emits and calls, in
   * order; an error ends the run.
   */
  method RunStage(state: int, env: Env) returns (out: seq<Event>, made: seq<Call>)
    ensures out == StageEvents(env, state)
    ensures made == StageCalls(env, state)
  {
    out := [Progress(state, START)];
    if state == STATE_INIT {
      made := [InitDb];
      if env.init.Fail? {
        out := out + [Error(state, env.init.cause)];
      } else {
        out := out + [Progress(state, DONE)];
      }
    } else if state == STATE_LOAD || state == STATE_TEST {
      var ok, emitted, hooks := HookLoop(state, env, state == STATE_LOAD);
      made := hooks;
      out := out + emitted;
      if ok {
        out := out + [Progress(state, DONE)];
      }
    } else if state == STATE_CREATE {
      var rest;
      rest, made := RunCreate(state, env);
      out := out + rest;
    } else {
      made := [];
      out := out + [Progress(state, DONE)];
    }
  }

  /** The CREATE branch of `runState`, after START: clear, midpoint, create, DONE. */
  method RunCreate(state: int, env: Env) returns (out: seq<Event>, made: seq<Call>)
    ensures out == if env.clear.Fail? then [Error(state, env.clear.cause)]
                   else [Progress(state, FINISH * 0.5)] + CreateTail(state, env)
    ensures made == [ClearDb] + (if env.clear.Fail? then [] else [CreateDb])
  {
    made := [ClearDb];
    if env.clear.Fail? {
      out := [Error(state, env.clear.cause)];
      return;
    }
    out := [Progress(state, FINISH * 0.5)];
    made := made + [CreateDb];
    if env.create.Fail? {
      out := out + [Error(state, env.create.cause)];
    } else {
      out := out + [Progress(state, DONE)];
    }
  }

  /**
   * The `for i, mod in enumerate(loaders)` loop of LOAD and TEST, returning
   * what it emits and calls; it stops at the first hook that raises.
   */
  method HookLoop(state: int, env: Env, loading: bool) returns (ok: bool, emitted: seq<Event>, made: seq<Call>)
    ensures ok == !ModulesFail(env, loading)
    ensures emitted == ModuleEvents(state, env, loading)
    ensures made == ModuleCalls(env, loading)
  {
    made := [ListModules];
    if env.listing.Fail? {
      emitted := [Error(state, env.listing.cause)];
      return false, emitted, made;
    }
    var mods := env.modules;
    ghost var rs := Hooks(mods, loading);
    var n := |mods|;
    var i := 0;
    emitted := [];
    while i < n
      invariant 0 <= i <= n
      invariant forall j :: 0 <= j < i ==> rs[j].Ok?
      invariant emitted == Ramp(state, i, n)
      invariant made == [ListModules] + HookCalls(i, loading)
    {
      var call := if loading then LoadModels(i) else TestModels(i);
      made := made + [call];
      assert HookCalls(i + 1, loading) == HookCalls(i, loading) + [call];
      var r := Hook(mods[i], loading);
      if r.Fail? {
        FirstFailureIs(rs, i);
        ModulesFailAt(env, loading);
        emitted := emitted + [Error(state, r.cause)];
        return false, emitted, made;
      }
      var step := Progress(state, ModuleProgress(i, n));
      assert Ramp(state, i + 1, n) == Ramp(state, i, n) + [step];
      emitted := emitted + [step];
      i := i + 1;
    }
    FirstFailureIs(rs, n);
    ModulesFailAt(env, loading);
    ok := true;
  }

  /** The first failure is the index up to which all succeed and which fails. */
  lemma FirstFailureIs(rs: seq<Outcome>, k: nat)
    requires k <= |rs|
    requires forall j :: 0 <= j < k ==> rs[j].Ok?
    requires k < |rs| ==> rs[k].Fail?
    ensures FirstFailure(rs) == k
  {
  }

  /** A LOAD or TEST body fails exactly when the listing or some hook fails. */
  lemma ModulesFailAt(env: Env, loading: bool)
    requires env.listing.Ok?
    ensures ModulesFail(env, loading) <==> FirstFailure(Hooks(env.modules, loading)) < |env.modules|
  {
    var rs := Hooks(env.modules, loading);
    var k := FirstFailure(rs);
    if ModulesFail(env, loading) {
      var i :| 0 <= i < |env.modules| && Hook(env.modules[i], loading).Fail?;
      assert rs[i].Fail?;
    }
    if k < |rs| {
      assert Hook(env.modules[k], loading).Fail?;
    }
  }

  /** Later modules report strictly larger progress values. */
  lemma ModuleProgressIncreasing(i: nat, j: nat, n: nat)
    requires i < j < n
    ensures ModuleProgress(i, n) < ModuleProgress(j, n)
  {
    assert i as real / n as real < j as real / n as real;
  }

  /**
   * A stage run ends in DONE exactly when none of its collaborator calls
   * fails, and in an error exactly when one does; every earlier event is a
   * progress value below DONE, so nothing follows an error and DONE is never
   * reported early.
   */
  lemma StageEndsInDoneOrError(env: Env, s: int)
    ensures var r := StageEvents(env, s);
      && (r[|r| - 1] == Progress(s, DONE) <==> !StageFailed(env, s))
      && (r[|r| - 1].Error? <==> StageFailed(env, s))
      && forall i :: 0 <= i < |r| - 1 ==> r[i].Progress? && r[i].value < DONE
  {
    var r := StageEvents(env, s);
    if s == STATE_LOAD || s == STATE_TEST {
      if env.listing.Ok? {
        ModuleStageShape(env, s);
        ModulesFailAt(env, s == STATE_LOAD);
      } else {
        assert r == [Progress(s, START), Error(s, env.listing.cause)];
      }
    } else if s == STATE_CREATE {
      assert r == [Progress(s, START)] +
        if env.clear.Fail? then [Error(s, env.clear.cause)] else [Progress(s, FINISH * 0.5)] + CreateTail(s, env);
    }
  }

  /**
   * The events of LOAD and TEST with a listing: START, one progress value per
   * module before the first failing hook, then that hook's error or DONE.
   */
  lemma ModuleStageShape(env: Env, s: int)
    requires s == STATE_LOAD || s == STATE_TEST
    requires env.listing.Ok?
    ensures var rs := Hooks(env.modules, s == STATE_LOAD); var k := FirstFailure(rs);
      StageEvents(env, s) == [Progress(s, START)] + Ramp(s, k, |rs|) +
        (if k < |rs| then [Error(s, rs[k].cause)] else [Progress(s, DONE)])
  {
    ModulesFailAt(env, s == STATE_LOAD);
  }

  /**
   * Progress values in `r` never decrease, and those strictly between the
   * first and the last event strictly increase.
   */
  predicate ProgressOrdered(r: seq<Event>) {
    && (forall i, j :: 0 <= i < j < |r| && r[i].Progress? && r[j].Progress? ==> r[i].value <= r[j].value)
    && (forall i, j :: 0 < i < j < |r| - 1 && r[i].Progress? && r[j].Progress? ==> r[i].value < r[j].value)
  }

  /** START, a ramp of module progress values and a terminal event are ordered. */
  lemma RampRunOrdered(s: int, k: nat, n: nat, last: Event)
    requires k <= n
    requires last.Error? || last == Progress(s, DONE)
    ensures ProgressOrdered([Progress(s, START)] + Ramp(s, k, n) + [last])
  {
    var r := [Progress(s, START)] + Ramp(s, k, n) + [last];
    assert forall i :: 0 < i <= k ==> r[i] == Progress(s, ModuleProgress(i - 1, n));
    forall i, j | 0 <= i < j < |r| && r[i].Progress? && r[j].Progress?
      ensures r[i].value <= r[j].value
    {
      if 0 < i && j <= k {
        ModuleProgressIncreasing(i - 1, j - 1, n);
      }
    }
    forall i, j | 0 < i < j < |r| - 1 && r[i].Progress? && r[j].Progress?
      ensures r[i].value < r[j].value
    {
      ModuleProgressIncreasing(i - 1, j - 1, n);
    }
  }

  /** The progress values of one stage run are ordered. */
  lemma StageProgressOrdered(env: Env, s: int)
    ensures ProgressOrdered(StageEvents(env, s))
  {
    if (s == STATE_LOAD || s == STATE_TEST) && env.listing.Ok? {
      var rs := Hooks(env.modules, s == STATE_LOAD);
      var k := FirstFailure(rs);
      ModuleStageShape(env, s);
      RampRunOrdered(s, k, |rs|, if k < |rs| then Error(s, rs[k].cause) else Progress(s, DONE));
    } else if s == STATE_CREATE && env.clear.Ok? {
      assert StageEvents(env, s) == [Progress(s, START), Progress(s, FINISH * 0.5)] + CreateTail(s, env);
    }
  }

  /**
   * With a listing of `n` modules whose hooks all return, LOAD and TEST
   * report one progress value per module, `FINISH * i / n` after module `i`,
   * before DONE.
   */
  lemma ModuleStageSucceeds(env: Env, s: int)
    requires s == STATE_LOAD || s == STATE_TEST
    requires env.listing.Ok?
    requires forall i :: 0 <= i < |env.modules| ==> Hook(env.modules[i], s == STATE_LOAD).Ok?
    ensures var r := StageEvents(env, s); var n := |env.modules|;
      && |r| == n + 2
      && (forall i :: 0 <= i < n ==> r[i + 1] == Progress(s, ModuleProgress(i, n)))
      && r[n + 1] == Progress(s, DONE)
  {
    var n := |env.modules|;
    FirstFailureIs(Hooks(env.modules, s == STATE_LOAD), n);
    ModuleStageShape(env, s);
    var r := StageEvents(env, s);
    var ramp := Ramp(s, n, n);
    assert r == [Progress(s, START)] + ramp + [Progress(s, DONE)];
    assert forall i :: 0 <= i < n ==> r[i + 1] == ramp[i];
  }

  /** With a listing whose hooks all return, LOAD and TEST call every hook once, in registry order. */
  lemma ModuleStageCallsEveryHook(env: Env, s: int)
    requires s == STATE_LOAD || s == STATE_TEST
    requires env.listing.Ok?
    requires forall i :: 0 <= i < |env.modules| ==> Hook(env.modules[i], s == STATE_LOAD).Ok?
    ensures StageCalls(env, s) == [ListModules] + HookCalls(|env.modules|, s == STATE_LOAD)
  {
    var loading := s == STATE_LOAD;
    FirstFailureIs(Hooks(env.modules, loading), |env.modules|);
    assert StageCalls(env, s) == ModuleCalls(env, loading);
  }

  /**
   * When the hook of module `k` raises, LOAD and TEST call no later module's
   * hook, report at most `k` progress values and end in that error.
   */
  lemma FailingModuleStopsStage(env: Env, s: int, k: nat)
    requires s == STATE_LOAD || s == STATE_TEST
    requires env.listing.Ok?
    requires k < |env.modules| && Hook(env.modules[k], s == STATE_LOAD).Fail?
    ensures var r := StageEvents(env, s);
      && |r| <= k + 2
      && r[|r| - 1].Error?
      && forall c :: c in StageCalls(env, s) && (c.LoadModels? || c.TestModels?) ==> c.index <= k
  {
    var loading := s == STATE_LOAD;
    var rs := Hooks(env.modules, loading);
    var f := FirstFailure(rs);
    assert rs[k].Fail?;
    assert f <= k;
    ModulesFailAt(env, loading);
  }

  /**
   * CREATE clears before it creates and reports its midpoint in between; when
   * clearing raises, create is never called and no midpoint is reported.
   */
  lemma CreateClearsFirst(env: Env)
    ensures var r := StageEvents(env, STATE_CREATE); var c := StageCalls(env, STATE_CREATE);
      && c[0] == ClearDb
      && (CreateDb in c <==> env.clear.Ok?)
      && (Progress(STATE_CREATE, FINISH * 0.5) in r <==> env.clear.Ok?)
      && (env.clear.Ok? ==> c == [ClearDb, CreateDb] && r[1] == Progress(STATE_CREATE, FINISH * 0.5))
  {
    var r := StageEvents(env, STATE_CREATE);
    if env.clear.Fail? {
      assert r == [Progress(STATE_CREATE, START), Error(STATE_CREATE, env.clear.cause)];
    }
  }

  /** The DONE stage calls no collaborator and still reports START then DONE. */
  lemma DoneStageDoesNoWork(env: Env)
    ensures StageCalls(env, STATE_DONE) == []
    ensures StageEvents(env, STATE_DONE) == [Progress(STATE_DONE, START), Progress(STATE_DONE, DONE)]
  {
  }
}
