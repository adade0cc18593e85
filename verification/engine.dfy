/** The suite engine of fixture.go:47-115 (`With` and `suiteBuilder.Run`)
    together with the part of Go's `testing.T` it relies on: a scope with a
    last-in-first-out cleanup stack, `Fatal` ending the scope's goroutine,
    and sub-tests whose failure marks the scope failed without stopping it. */
module Engine {
  import opened Hooks
  import opened Fixtures
  import opened Seqs

  /** What a test body did in its sub-test: what it wrote and whether the
      sub-test failed (through `t.Error`, `t.Fatal` and the like). */
  datatype SubTest = SubTest(events: seq<Event>, failed: bool)

  /** A `TestFunc`: the body receives the suite's fixture value. */
  type TestFunc = Fixture -> SubTest

  /** A `suiteBuilder`: the fixture, the `testRun` flag and the latch of
      the `sync.Once` that registers the AfterAll cleanup. */
  datatype Suite = Suite(fixture: Fixture, testRun: bool, afterAllRegistered: bool)

  /** One thing the engine did on behalf of a suite: a hook call on the
      suite's fixture, or a registered test body run as a sub-test. Each
      carries what it wrote to the output. */
  datatype Action =
    | Hooked(suite: nat, hook: Hook, outcome: Outcome, events: seq<Event>)
    | Ran(suite: nat, name: string, events: seq<Event>, failed: bool)

  /** The host test scope `t` (the body of an enclosing `t.Run`) with the
      suites created on it. `cleanups` holds, in registration order, the
      suites whose AfterAll is registered through `t.Cleanup`; `aborted`
      records that `t.Fatal` ended the scope's goroutine; `failed` is the
      scope's failure mark. */
  datatype Scope = Scope(
    suites: seq<Suite>,
    cleanups: seq<nat>,
    log: seq<Action>,
    aborted: bool,
    failed: bool)

  /** A scope that has not run anything yet. */
  const Fresh := Scope([], [], [], false, false)

  /** The output buffer: everything the actions wrote, in order. */
  function Trace(log: seq<Action>): seq<Event>
  {
    if |log| == 0 then [] else log[0].events + Trace(log[1..])
  }

  lemma {:induction false} TraceAppend(a: seq<Action>, b: seq<Action>)
    ensures Trace(a + b) == Trace(a) + Trace(b)
    decreases |a|
  {
    if |a| == 0 {
      assert a + b == b;
    } else {
      assert (a + b)[1..] == a[1..] + b;
      TraceAppend(a[1..], b);
    }
  }

  /** Every registered cleanup names a suite whose fixture has AfterAll. */
  predicate CleanupsOk(sc: Scope)
  {
    forall i :: 0 <= i < |sc.cleanups| ==>
      sc.cleanups[i] < |sc.suites| && Provides(sc.suites[sc.cleanups[i]].fixture, AfterAll)
  }

  /** `r` is `sc` after steps that act on suite `id` alone: the other
      suites are untouched, the fixture keeps its members, no cleanup is
      registered, and every new action is about `id`. A fatal failure is
      never undone. */
  predicate Frames(sc: Scope, r: Scope, id: nat)
  {
    && id < |sc.suites|
    && |r.suites| == |sc.suites|
    && (forall j :: 0 <= j < |sc.suites| && j != id ==> r.suites[j] == sc.suites[j])
    && Erase(r.suites[id].fixture) == Erase(sc.suites[id].fixture)
    && r.suites[id].afterAllRegistered == sc.suites[id].afterAllRegistered
    && r.cleanups == sc.cleanups
    && |r.log| >= |sc.log|
    && r.log[..|sc.log|] == sc.log
    && (forall i :: |sc.log| <= i < |r.log| ==> r.log[i].suite == id)
    && (sc.aborted ==> r.aborted)
    && (sc.failed ==> r.failed)
  }

  lemma FramesTrans(a: Scope, b: Scope, c: Scope, id: nat)
    requires Frames(a, b, id) && Frames(b, c, id)
    ensures Frames(a, c, id)
  {
    assert c.log[..|a.log|] == c.log[..|b.log|][..|a.log|];
  }

  /** Frames keep every registered cleanup's fixture providing AfterAll. */
  lemma FramesKeepCleanupsOk(sc: Scope, r: Scope, id: nat)
    requires Frames(sc, r, id) && CleanupsOk(sc)
    ensures CleanupsOk(r)
  {
    forall i | 0 <= i < |r.cleanups|
      ensures Provides(r.suites[r.cleanups[i]].fixture, AfterAll)
    {
      var j := r.cleanups[i];
      ProvidesErased(r.suites[j].fixture, sc.suites[j].fixture, AfterAll);
    }
  }

  /** `With(t, fixture)`: a new suite on the scope, nothing run yet. Its
      index is the number of suites before it. */
  function With(sc: Scope, f: Fixture): (r: Scope)
    requires CleanupsOk(sc)
    ensures CleanupsOk(r)
    ensures |r.suites| == |sc.suites| + 1
    ensures r.suites[|sc.suites|] == Suite(f, false, false)
    ensures r.suites[..|sc.suites|] == sc.suites
    ensures r.log == sc.log && r.cleanups == sc.cleanups
    ensures r.aborted == sc.aborted && r.failed == sc.failed
  {
    sc.(suites := sc.suites + [Suite(f, false, false)])
  }

  /** `t.Fatal`: the scope is marked failed and its goroutine ends. */
  function Fatal(sc: Scope): Scope
  {
    sc.(aborted := true, failed := true)
  }

  /** The logged call of hook `h` on fixture `f` of suite `id`: what the
      fixture's hook returned and wrote. */
  function Call(id: nat, f: Fixture, h: Hook): (a: Action)
    ensures a.Hooked? && a.suite == id && a.hook == h
  {
    var st := Visit(f, h);
    Hooked(id, h, st.outcome, st.events)
  }

  /** One hook call on suite `id`'s fixture; an error goes to `t.Fatal`. */
  function CallHook(sc: Scope, id: nat, h: Hook): (r: Scope)
    requires id < |sc.suites| && Provides(sc.suites[id].fixture, h)
    ensures Frames(sc, r, id)
    ensures r.suites[id].testRun == sc.suites[id].testRun
    ensures r.suites[id].fixture == Visit(sc.suites[id].fixture, h).fixture
    ensures h != BeforeAll ==> r.suites[id].fixture == sc.suites[id].fixture
    ensures |r.log| == |sc.log| + 1
    ensures r.log[|sc.log|] == Call(id, sc.suites[id].fixture, h)
    ensures var a := r.log[|sc.log|]; a.Hooked? && a.suite == id && a.hook == h
    ensures r.aborted <==> sc.aborted || Visit(sc.suites[id].fixture, h).outcome.Err?
    ensures r.failed <==> sc.failed || Visit(sc.suites[id].fixture, h).outcome.Err?
    ensures r.aborted <==> sc.aborted || r.log[|sc.log|].outcome.Err?
    ensures r.failed <==> sc.failed || r.log[|sc.log|].outcome.Err?
  {
    var s := sc.suites[id];
    var step := Visit(s.fixture, h);
    var called := sc.(suites := sc.suites[id := s.(fixture := step.fixture)],
                      log := sc.log + [Hooked(id, h, step.outcome, step.events)]);
    if step.outcome.Err? then Fatal(called) else called
  }

  /** fixture.go:68-79: the first `Run` on a suite whose fixture has
      AfterAll registers one cleanup that will call it. */
  function RegisterAfterAll(sc: Scope, id: nat): (r: Scope)
    requires id < |sc.suites|
    ensures |r.suites| == |sc.suites|
    ensures forall j :: 0 <= j < |sc.suites| && j != id ==> r.suites[j] == sc.suites[j]
    ensures r.suites[id].fixture == sc.suites[id].fixture
    ensures r.suites[id].testRun == sc.suites[id].testRun
    ensures r.suites[id].afterAllRegistered
            == (sc.suites[id].afterAllRegistered || Provides(sc.suites[id].fixture, AfterAll))
    ensures r.cleanups == sc.cleanups +
              (if Provides(sc.suites[id].fixture, AfterAll) && !sc.suites[id].afterAllRegistered
               then [id] else [])
    ensures CleanupsOk(sc) ==> CleanupsOk(r)
    ensures r.log == sc.log && r.aborted == sc.aborted && r.failed == sc.failed
  {
    var s := sc.suites[id];
    if Provides(s.fixture, AfterAll) && !s.afterAllRegistered then
      sc.(suites := sc.suites[id := s.(afterAllRegistered := true)],
          cleanups := sc.cleanups + [id])
    else sc
  }

  /** fixture.go:81-88: BeforeAll, only while `testRun` is unset; then
      `testRun` is set whether or not the fixture has a BeforeAll. */
  function BeforeAllPhase(sc: Scope, id: nat): (r: Scope)
    requires id < |sc.suites| && !sc.aborted
    ensures Frames(sc, r, id)
    ensures var f := sc.suites[id].fixture;
      var first := !sc.suites[id].testRun && Provides(f, BeforeAll);
      && (first ==> r.log == sc.log + [Call(id, f, BeforeAll)])
      && r.suites[id].fixture == (if first then Visit(f, BeforeAll).fixture else f)
      && (r.aborted <==> first && Visit(f, BeforeAll).outcome.Err?)
    ensures var first := !sc.suites[id].testRun && Provides(sc.suites[id].fixture, BeforeAll);
      && |r.log| == |sc.log| + (if first then 1 else 0)
      && (first ==> r.log[|sc.log|].Hooked? && r.log[|sc.log|].hook == BeforeAll)
      && (r.aborted <==> first && r.log[|sc.log|].outcome.Err?)
      && (r.suites[id].testRun <==> !r.aborted)
      && (r.failed <==> sc.failed || r.aborted)
  {
    var s := sc.suites[id];
    var called := if !s.testRun && Provides(s.fixture, BeforeAll)
                  then CallHook(sc, id, BeforeAll) else sc;
    if called.aborted then called
    else called.(suites := called.suites[id := called.suites[id].(testRun := true)])
  }

  /** fixture.go:90-94 and 100-104: a per-test hook, when the fixture has it. */
  function EachPhase(sc: Scope, id: nat, h: Hook): (r: Scope)
    requires id < |sc.suites| && h != BeforeAll && !sc.aborted
    ensures Frames(sc, r, id)
    ensures r.suites[id] == sc.suites[id]
    ensures var f := sc.suites[id].fixture;
      var called := Provides(f, h);
      && (called ==> r.log == sc.log + [Call(id, f, h)])
      && (r.aborted <==> called && Visit(f, h).outcome.Err?)
    ensures var called := Provides(sc.suites[id].fixture, h);
      && |r.log| == |sc.log| + (if called then 1 else 0)
      && (called ==> r.log[|sc.log|].Hooked? && r.log[|sc.log|].hook == h)
      && (r.aborted <==> called && r.log[|sc.log|].outcome.Err?)
      && (r.failed <==> sc.failed || r.aborted)
  {
    if Provides(sc.suites[id].fixture, h) then CallHook(sc, id, h) else sc
  }

  /** fixture.go:96-98: the body runs as a named sub-test and receives the
      suite's fixture. The sub-test's failure marks the scope failed but
      `Run` ignores the result of `t.Run` and carries on. */
  function BodyPhase(sc: Scope, id: nat, name: string, test: TestFunc): (r: Scope)
    requires id < |sc.suites|
    ensures Frames(sc, r, id)
    ensures r.suites == sc.suites && r.aborted == sc.aborted
    ensures var sub := test(sc.suites[id].fixture);
      && r.log == sc.log + [Ran(id, name, sub.events, sub.failed)]
      && (r.failed <==> sc.failed || sub.failed)
  {
    var sub := test(sc.suites[id].fixture);
    sc.(log := sc.log + [Ran(id, name, sub.events, sub.failed)],
        failed := sc.failed || sub.failed)
  }

  /** `suiteBuilder.Run` (fixture.go:63-107). Once the scope's goroutine
      has ended nothing more runs in it, so a `Run` on an aborted scope
      changes nothing. The same suite stays available for chaining. */
  function Run(sc: Scope, id: nat, name: string, test: TestFunc): (r: Scope)
    requires id < |sc.suites|
    ensures sc.aborted ==> r == sc
    ensures |r.suites| == |sc.suites|
  {
    if sc.aborted then sc
    else
      var s1 := BeforeAllPhase(RegisterAfterAll(sc, id), id);
      if s1.aborted then s1
      else
        var s2 := EachPhase(s1, id, BeforeEach);
        if s2.aborted then s2
        else EachPhase(BodyPhase(s2, id, name, test), id, AfterEach)
  }

  /** What one `Run` does to the scope beyond its own suite's actions: the
      other suites are untouched, the fixture keeps its members, the
      AfterAll cleanup is registered on the first `Run` of a suite whose
      fixture has AfterAll and never again, and the log only grows, by
      actions about this suite. */
  lemma RunFrame(sc: Scope, id: nat, name: string, test: TestFunc)
    requires id < |sc.suites|
    ensures var r := Run(sc, id, name, test);
      && (forall j :: 0 <= j < |sc.suites| && j != id ==> r.suites[j] == sc.suites[j])
      && Erase(r.suites[id].fixture) == Erase(sc.suites[id].fixture)
      && (!sc.aborted ==>
            r.suites[id].afterAllRegistered
            == (sc.suites[id].afterAllRegistered || Provides(sc.suites[id].fixture, AfterAll)))
      && (!sc.aborted ==>
            r.cleanups == sc.cleanups +
              (if Provides(sc.suites[id].fixture, AfterAll) && !sc.suites[id].afterAllRegistered
               then [id] else []))
      && (CleanupsOk(sc) ==> CleanupsOk(r))
      && |r.log| >= |sc.log| && r.log[..|sc.log|] == sc.log
      && (!sc.aborted ==> |r.log| > |sc.log|)
      && (forall i :: |sc.log| <= i < |r.log| ==> r.log[i].suite == id)
      && (sc.failed ==> r.failed)
  {
    if !sc.aborted {
      var s0 := RegisterAfterAll(sc, id);
      var s1 := BeforeAllPhase(s0, id);
      if s1.aborted {
        RunTail(sc, s0, s1, id);
      } else {
        var s2 := EachPhase(s1, id, BeforeEach);
        FramesTrans(s0, s1, s2, id);
        if s2.aborted {
          RunTail(sc, s0, s2, id);
        } else {
          var s3 := BodyPhase(s2, id, name, test);
          var s4 := EachPhase(s3, id, AfterEach);
          FramesTrans(s0, s2, s3, id);
          FramesTrans(s0, s3, s4, id);
          RunTail(sc, s0, s4, id);
        }
      }
    }
  }

  /** The effect of a `Run`: the latch step, then steps on suite `id` only. */
  lemma RunTail(sc: Scope, s0: Scope, r: Scope, id: nat)
    requires id < |sc.suites| && !sc.aborted
    requires s0 == RegisterAfterAll(sc, id)
    requires Frames(s0, r, id) && |r.log| > |s0.log|
    ensures |r.suites| == |sc.suites|
    ensures forall j :: 0 <= j < |sc.suites| && j != id ==> r.suites[j] == sc.suites[j]
    ensures Erase(r.suites[id].fixture) == Erase(sc.suites[id].fixture)
    ensures r.suites[id].afterAllRegistered
            == (sc.suites[id].afterAllRegistered || Provides(sc.suites[id].fixture, AfterAll))
    ensures r.cleanups == s0.cleanups
    ensures CleanupsOk(sc) ==> CleanupsOk(r)
    ensures |r.log| > |sc.log| && r.log[..|sc.log|] == sc.log
    ensures forall i :: |sc.log| <= i < |r.log| ==> r.log[i].suite == id
    ensures sc.failed ==> r.failed
  {
    if CleanupsOk(sc) {
      FramesKeepCleanupsOk(s0, r, id);
    }
  }

  /** A step of the code inside the scope: `With` creates the next suite
      (suites are numbered from 0 in creation order), `RunTest` is a
      `Run(name, test)` on suite `suite`. */
  datatype Command =
    | NewSuite(fixture: Fixture)
    | RunTest(suite: nat, name: string, test: TestFunc)

  /** Every `RunTest` names a suite created before it. */
  predicate ValidProgram(cmds: seq<Command>, suites: nat)
    decreases |cmds|
  {
    if |cmds| == 0 then true
    else match cmds[0]
      case NewSuite(_) => ValidProgram(cmds[1..], suites + 1)
      case RunTest(id, _, _) => id < suites && ValidProgram(cmds[1..], suites)
  }

  /** `r` is `sc` after more of the scope's code: suites, actions and
      registered cleanups are only ever added, and a failure stays. */
  predicate Grows(sc: Scope, r: Scope)
  {
    && |r.suites| >= |sc.suites|
    && |r.log| >= |sc.log| && r.log[..|sc.log|] == sc.log
    && |r.cleanups| >= |sc.cleanups| && r.cleanups[..|sc.cleanups|] == sc.cleanups
    && (sc.failed ==> r.failed)
  }

  lemma GrowsTrans(a: Scope, b: Scope, c: Scope)
    requires Grows(a, b) && Grows(b, c)
    ensures Grows(a, c)
  {
    assert c.log[..|a.log|] == c.log[..|b.log|][..|a.log|];
    assert c.cleanups[..|a.cleanups|] == c.cleanups[..|b.cleanups|][..|a.cleanups|];
  }

  /** One command of the scope's code only adds to the scope. */
  lemma CommandGrows(sc: Scope, c: Command)
    requires CleanupsOk(sc) && !sc.aborted
    requires c.RunTest? ==> c.suite < |sc.suites|
    ensures c.NewSuite? ==> Grows(sc, With(sc, c.fixture)) && CleanupsOk(With(sc, c.fixture))
    ensures c.RunTest? ==> var r := Run(sc, c.suite, c.name, c.test);
      Grows(sc, r) && CleanupsOk(r)
  {
    if c.NewSuite? {
      assert With(sc, c.fixture).cleanups[..|sc.cleanups|] == sc.cleanups;
    } else {
      RunFrame(sc, c.suite, c.name, c.test);
    }
  }

  /** The scope's code, run in order until it ends or `t.Fatal` ends it;
      once it has ended, nothing more runs. */
  function Exec(sc: Scope, cmds: seq<Command>): (r: Scope)
    requires CleanupsOk(sc) && ValidProgram(cmds, |sc.suites|)
    ensures CleanupsOk(r)
    ensures sc.aborted ==> r == sc
    ensures Grows(sc, r)
    decreases |cmds|
  {
    if |cmds| == 0 || sc.aborted then
      assert sc.log[..|sc.log|] == sc.log && sc.cleanups[..|sc.cleanups|] == sc.cleanups;
      sc
    else match cmds[0]
      case NewSuite(f) =>
        CommandGrows(sc, cmds[0]);
        var r := Exec(With(sc, f), cmds[1..]);
        GrowsTrans(sc, With(sc, f), r);
        r
      case RunTest(id, name, test) =>
        CommandGrows(sc, cmds[0]);
        var r := Exec(Run(sc, id, name, test), cmds[1..]);
        GrowsTrans(sc, Run(sc, id, name, test), r);
        r
  }

  /** The end of the scope: registered cleanups run last-registered-first.
      An AfterAll error goes to `t.Fatal`, which marks the scope failed but
      does not stop the remaining cleanups. Every registered AfterAll runs
      exactly once, in reverse registration order. */
  function Teardown(sc: Scope): (r: Scope)
    requires CleanupsOk(sc)
    ensures r.cleanups == []
    ensures r.suites == sc.suites
    ensures |r.log| == |sc.log| + |sc.cleanups| && r.log[..|sc.log|] == sc.log
    ensures forall k :: |sc.log| <= k < |r.log| ==> r.log[k].Hooked? && r.log[k].hook == AfterAll
    ensures Suites(r.log[|sc.log|..]) == Reverse(sc.cleanups)
    ensures sc.failed ==> r.failed
    decreases |sc.cleanups|
  {
    if |sc.cleanups| == 0 then sc
    else
      var called := RunLastCleanup(sc);
      var r := Teardown(called);
      TeardownStep(sc, called, r);
      r
  }

  /** Each cleanup action is the AfterAll call on its suite's fixture, and
      an AfterAll error goes to `t.Fatal`: the scope ends up failed exactly
      when it already was or one of those calls failed. */
  lemma {:induction false} TeardownResults(sc: Scope)
    requires CleanupsOk(sc)
    ensures var r := Teardown(sc);
      && (forall k :: |sc.log| <= k < |r.log| ==> CleanupCall(sc.suites, r.log[k]))
      && (r.failed <==> sc.failed || exists k :: |sc.log| <= k < |r.log| && Fails(r.log[k]))
      && (r.aborted <==> sc.aborted || exists k :: |sc.log| <= k < |r.log| && Fails(r.log[k]))
    decreases |sc.cleanups|
  {
    if |sc.cleanups| > 0 {
      var called := RunLastCleanup(sc);
      TeardownResults(called);
      TeardownCalls(sc, called, Teardown(called));
    }
  }

  /** Pops the last registered cleanup and runs it: the AfterAll call on
      its suite's fixture, whose error goes to `t.Fatal`. */
  function RunLastCleanup(sc: Scope): (r: Scope)
    requires CleanupsOk(sc) && |sc.cleanups| > 0
    ensures CleanupsOk(r)
    ensures r.cleanups == sc.cleanups[..|sc.cleanups| - 1]
    ensures r.suites == sc.suites
    ensures |r.log| == |sc.log| + 1 && r.log[..|sc.log|] == sc.log
    ensures var a := r.log[|sc.log|];
      a.Hooked? && a.hook == AfterAll && a.suite == sc.cleanups[|sc.cleanups| - 1]
    ensures CleanupCall(sc.suites, r.log[|sc.log|])
    ensures r.failed <==> sc.failed || r.log[|sc.log|].outcome.Err?
    ensures r.aborted <==> sc.aborted || r.log[|sc.log|].outcome.Err?
  {
    var id := sc.cleanups[|sc.cleanups| - 1];
    var popped := sc.(cleanups := sc.cleanups[..|sc.cleanups| - 1]);
    var called := CallHook(popped, id, AfterAll);
    assert called.suites == sc.suites;
    FramesKeepCleanupsOk(popped, called, id);
    called
  }

  /** A hook call that returned an error (and so went to `t.Fatal`). */
  predicate Fails(a: Action)
  {
    a.Hooked? && a.outcome.Err?
  }

  /** A cleanup's action: the AfterAll call on its suite's fixture. */
  predicate CleanupCall(suites: seq<Suite>, a: Action)
  {
    a.suite < |suites| && a == Call(a.suite, suites[a.suite].fixture, AfterAll)
  }

  lemma TeardownCalls(sc: Scope, called: Scope, r: Scope)
    requires |called.log| == |sc.log| + 1 && called.log[..|sc.log|] == sc.log
    requires CleanupCall(sc.suites, called.log[|sc.log|])
    requires called.failed <==> sc.failed || called.log[|sc.log|].outcome.Err?
    requires called.aborted <==> sc.aborted || called.log[|sc.log|].outcome.Err?
    requires |r.log| >= |called.log| && r.log[..|called.log|] == called.log
    requires forall k :: |called.log| <= k < |r.log| ==> CleanupCall(sc.suites, r.log[k])
    requires r.failed <==> called.failed || exists k :: |called.log| <= k < |r.log| && Fails(r.log[k])
    requires r.aborted <==> called.aborted || exists k :: |called.log| <= k < |r.log| && Fails(r.log[k])
    ensures forall k :: |sc.log| <= k < |r.log| ==> CleanupCall(sc.suites, r.log[k])
    ensures r.failed <==> sc.failed || exists k :: |sc.log| <= k < |r.log| && Fails(r.log[k])
    ensures r.aborted <==> sc.aborted || exists k :: |sc.log| <= k < |r.log| && Fails(r.log[k])
  {
    var n := |sc.log|;
    assert r.log[n] == called.log[n] by {
      assert r.log[..|called.log|][n] == called.log[n];
    }
    assert (exists k :: n <= k < |r.log| && Fails(r.log[k]))
       <==> Fails(r.log[n]) || exists k :: n + 1 <= k < |r.log| && Fails(r.log[k]);
  }

  lemma TeardownStep(sc: Scope, called: Scope, r: Scope)
    requires |sc.cleanups| > 0
    requires |called.log| == |sc.log| + 1 && called.log[..|sc.log|] == sc.log
    requires var a := called.log[|sc.log|];
      a.Hooked? && a.hook == AfterAll && a.suite == sc.cleanups[|sc.cleanups| - 1]
    requires called.cleanups == sc.cleanups[..|sc.cleanups| - 1]
    requires |r.log| == |called.log| + |called.cleanups| && r.log[..|called.log|] == called.log
    requires forall k :: |called.log| <= k < |r.log| ==> r.log[k].Hooked? && r.log[k].hook == AfterAll
    requires Suites(r.log[|called.log|..]) == Reverse(called.cleanups)
    ensures |r.log| == |sc.log| + |sc.cleanups| && r.log[..|sc.log|] == sc.log
    ensures forall k :: |sc.log| <= k < |r.log| ==> r.log[k].Hooked? && r.log[k].hook == AfterAll
    ensures Suites(r.log[|sc.log|..]) == Reverse(sc.cleanups)
  {
    assert r.log[..|sc.log|] == r.log[..|called.log|][..|sc.log|];
    assert r.log[|sc.log|] == called.log[|sc.log|];
    assert r.log[|sc.log|..][1..] == r.log[|called.log|..];
  }

  /** The suite index of every action. */
  function Suites(log: seq<Action>): (r: seq<nat>)
    ensures |r| == |log|
    ensures forall i :: 0 <= i < |log| ==> r[i] == log[i].suite
  {
    if |log| == 0 then [] else [log[0].suite] + Suites(log[1..])
  }

  /** A `t.Run(name, ...)` whose body is the commands: what is left when it
      returns, after its cleanups. */
  function TestScope(cmds: seq<Command>): (r: Scope)
    requires ValidProgram(cmds, 0)
    ensures var e := Exec(Fresh, cmds);
      && r.cleanups == [] && r.suites == e.suites
      && |r.log| == |e.log| + |e.cleanups| && r.log[..|e.log|] == e.log
      && Suites(r.log[|e.log|..]) == Reverse(e.cleanups)
      && (e.failed ==> r.failed)
  {
    Teardown(Exec(Fresh, cmds))
  }
}
