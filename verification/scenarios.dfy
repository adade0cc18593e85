/** Whole scopes with a particular kind of fixture: a fixture without any
    hook, and a fixture whose BeforeAll fails. */
module Scenarios {
  import opened Hooks
  import opened Fixtures
  import opened Engine

  /** Commands that are all `Run`s on the scope's first suite. */
  predicate RunsOnFirst(runs: seq<Command>)
  {
    forall i :: 0 <= i < |runs| ==> runs[i].RunTest? && runs[i].suite == 0
  }

  lemma {:induction false} RunsOnFirstValid(runs: seq<Command>)
    requires RunsOnFirst(runs)
    ensures ValidProgram(runs, 1)
    decreases |runs|
  {
    if |runs| > 0 {
      RunsOnFirstValid(runs[1..]);
    }
  }

  /** The first command of `runs` is a `Run` on the first suite. */
  lemma ExecUnfold(sc: Scope, runs: seq<Command>)
    requires CleanupsOk(sc) && !sc.aborted && |sc.suites| >= 1 && RunsOnFirst(runs) && |runs| > 0
    ensures ValidProgram(runs, |sc.suites|)
    ensures CleanupsOk(Run(sc, 0, runs[0].name, runs[0].test)) && ValidProgram(runs[1..], |sc.suites|)
    ensures Exec(sc, runs) == Exec(Run(sc, 0, runs[0].name, runs[0].test), runs[1..])
  {
    RunFrame(sc, 0, runs[0].name, runs[0].test);
    RunsOnFirstValid(runs);
    ValidMore(runs, 1, |sc.suites|);
    assert runs[0] == RunTest(0, runs[0].name, runs[0].test);
  }

  lemma {:induction false} ValidMore(cmds: seq<Command>, n: nat, m: nat)
    requires ValidProgram(cmds, n) && n <= m
    ensures ValidProgram(cmds, m)
    decreases |cmds|
  {
    if |cmds| > 0 {
      match cmds[0]
      case NewSuite(_) => ValidMore(cmds[1..], n + 1, m + 1);
      case RunTest(_, _, _) => ValidMore(cmds[1..], n, m);
    }
  }

  /** Reference: the sub-tests of `runs` on fixture `f`, one after the
      other, nothing around them. */
  function BodiesOnly(runs: seq<Command>, f: Fixture): (r: seq<Action>)
    requires RunsOnFirst(runs)
    ensures |r| == |runs|
  {
    if |runs| == 0 then []
    else
      var sub := runs[0].test(f);
      [Ran(0, runs[0].name, sub.events, sub.failed)] + BodiesOnly(runs[1..], f)
  }

  /** Reference: what the bodies of `runs` write on fixture `f`, in order. */
  function BodyOutput(runs: seq<Command>, f: Fixture): seq<Event>
    requires RunsOnFirst(runs)
  {
    if |runs| == 0 then [] else runs[0].test(f).events + BodyOutput(runs[1..], f)
  }

  lemma {:induction false} TraceBodiesOnly(runs: seq<Command>, f: Fixture)
    requires RunsOnFirst(runs)
    ensures Trace(BodiesOnly(runs, f)) == BodyOutput(runs, f)
    decreases |runs|
  {
    if |runs| > 0 {
      TraceBodiesOnly(runs[1..], f);
      var b := BodiesOnly(runs, f);
      assert b[1..] == BodiesOnly(runs[1..], f);
    }
  }

  /** A scope holding only a hookless suite, `ready` telling whether a
      `Run` has already happened. */
  function Hookless(name: string, ready: bool, log: seq<Action>, failed: bool): (sc: Scope)
    ensures CleanupsOk(sc) && |sc.suites| == 1
  {
    Scope([Suite(Leaf(name, map[]), ready, false)], [], log, false, failed)
  }

  lemma {:induction false} ExecHookless(name: string, ready: bool, log: seq<Action>, failed: bool, runs: seq<Command>)
    requires RunsOnFirst(runs)
    ensures ValidProgram(runs, 1)
    ensures var r := Exec(Hookless(name, ready, log, failed), runs);
      r.log == log + BodiesOnly(runs, Leaf(name, map[])) && r.cleanups == [] && !r.aborted
    decreases |runs|
  {
    RunsOnFirstValid(runs);
    var f := Leaf(name, map[]);
    if |runs| > 0 {
      var c := runs[0];
      var sub := c.test(f);
      var sc := Hookless(name, ready, log, failed);
      RunHookless(name, ready, log, failed, c.name, c.test);
      ExecUnfold(sc, runs);
      var log' := log + [Ran(0, c.name, sub.events, sub.failed)];
      ExecHookless(name, true, log', failed || sub.failed, runs[1..]);
      ConcatAssoc(log, [Ran(0, c.name, sub.events, sub.failed)], BodiesOnly(runs[1..], f));
    }
  }

  lemma ConcatAssoc<T>(a: seq<T>, b: seq<T>, c: seq<T>)
    ensures (a + b) + c == a + (b + c)
  {
  }

  /** One `Run` on a hookless fixture: only the body runs. */
  lemma RunHookless(name: string, ready: bool, log: seq<Action>, failed: bool, n: string, test: TestFunc)
    ensures var sub := test(Leaf(name, map[]));
      Run(Hookless(name, ready, log, failed), 0, n, test)
      == Hookless(name, true, log + [Ran(0, n, sub.events, sub.failed)], failed || sub.failed)
  {
    var f := Leaf(name, map[]);
    var sc := Hookless(name, ready, log, failed);
    var s0 := RegisterAfterAll(sc, 0);
    assert s0 == sc;
    var s1 := BeforeAllPhase(s0, 0);
    assert s1 == Hookless(name, true, log, failed);
    var s2 := EachPhase(s1, 0, BeforeEach);
    assert s2 == s1;
    var s3 := BodyPhase(s2, 0, n, test);
    var s4 := EachPhase(s3, 0, AfterEach);
    assert s4 == s3;
  }

  /** fixture.go:67-105 with a fixture that has none of the four hooks:
      every check skips its call, no cleanup is registered, and a suite's
      `Run`s just run the bodies in order; a failing body does not stop
      the following ones. The output is what the bodies write. */
  lemma HooklessRunsBodies(name: string, runs: seq<Command>)
    requires RunsOnFirst(runs)
    ensures ValidProgram([NewSuite(Leaf(name, map[]))] + runs, 0)
    ensures var f := Leaf(name, map[]);
      var r := TestScope([NewSuite(f)] + runs);
      && r.log == BodiesOnly(runs, f)
      && Trace(r.log) == BodyOutput(runs, f)
      && !r.aborted
  {
    var f := Leaf(name, map[]);
    var cmds := [NewSuite(f)] + runs;
    assert cmds[1..] == runs;
    RunsOnFirstValid(runs);
    var s := With(Fresh, f);
    assert s == Hookless(name, false, [], false);
    ExecHookless(name, false, [], false, runs);
    var e := Exec(s, runs);
    assert Exec(Fresh, cmds) == e;
    assert Teardown(e) == e;
    TraceBodiesOnly(runs, f);
  }

  /** fixture.go:68-88 when BeforeAll fails: the AfterAll cleanup was
      registered before BeforeAll was called, so it still runs, on the
      state BeforeAll left behind; `t.Fatal` ends the scope, so no
      BeforeEach, body or AfterEach runs and no later command of the
      scope either. The scope is marked failed. */
  lemma BeforeAllFailureTearsDown(f: Fixture, name: string, test: TestFunc, rest: seq<Command>)
    requires Provides(f, AfterAll) && Visit(f, BeforeAll).outcome.Err?
    requires ValidProgram(rest, 1)
    ensures ValidProgram([NewSuite(f), RunTest(0, name, test)] + rest, 0)
    ensures var ba := Visit(f, BeforeAll);
      var aa := Visit(ba.fixture, AfterAll);
      var r := TestScope([NewSuite(f), RunTest(0, name, test)] + rest);
      && r.log == [Hooked(0, BeforeAll, ba.outcome, ba.events), Hooked(0, AfterAll, aa.outcome, aa.events)]
      && r.failed
  {
    var cmds := [NewSuite(f), RunTest(0, name, test)] + rest;
    assert cmds[1..][1..] == rest;
    var ba := Visit(f, BeforeAll);
    var s := With(Fresh, f);
    var s1 := Run(s, 0, name, test);
    FirstRunFails(f, name, test);
    assert Exec(Fresh, cmds) == Exec(s, cmds[1..]) == Exec(s1, rest) == s1;
    ProvidesErased(ba.fixture, f, AfterAll);
    TeardownOne(ba.fixture, false, s1.log, true, true);
  }

  /** The first `Run` of a new suite whose BeforeAll fails stops right
      after BeforeAll, with the AfterAll cleanup registered. */
  lemma FirstRunFails(f: Fixture, name: string, test: TestFunc)
    requires Provides(f, AfterAll) && Visit(f, BeforeAll).outcome.Err?
    ensures var ba := Visit(f, BeforeAll);
      Run(With(Fresh, f), 0, name, test)
      == Scope([Suite(ba.fixture, false, true)], [0], [Hooked(0, BeforeAll, ba.outcome, ba.events)], true, true)
  {
    var s := With(Fresh, f);
    var s0 := RegisterAfterAll(s, 0);
    assert s0 == Scope([Suite(f, false, true)], [0], [], false, false);
    assert Run(s, 0, name, test) == BeforeAllPhase(s0, 0) == CallHook(s0, 0, BeforeAll);
  }

  /** The teardown of a scope whose only cleanup is one suite's AfterAll:
      that AfterAll is called, on the suite's current state. */
  lemma TeardownOne(g: Fixture, ready: bool, log: seq<Action>, aborted: bool, failed: bool)
    requires Provides(g, AfterAll)
    ensures var aa := Visit(g, AfterAll);
      var r := Teardown(Scope([Suite(g, ready, true)], [0], log, aborted, failed));
      && r.log == log + [Hooked(0, AfterAll, aa.outcome, aa.events)]
      && (failed ==> r.failed)
  {
    var sc := Scope([Suite(g, ready, true)], [0], log, aborted, failed);
    var called := CallHook(sc.(cleanups := []), 0, AfterAll);
    assert Teardown(sc) == Teardown(called) == called;
  }

  /** A tuple whose first member's BeforeAll fails (fixture.go:135-144):
      the composite is already assembled, so the AfterAll cleanup calls the
      second member's AfterAll and then the first's, although the second
      member's BeforeAll never ran. */
  lemma TupleBeforeAllFailure(a: Fixture, b: Fixture, msg: string, name: string, test: TestFunc)
    requires a.Leaf? && a.hooks == map[BeforeAll := Err(msg), AfterAll := Ok]
    requires b.Leaf? && b.hooks == map[BeforeAll := Ok, AfterAll := Ok]
    ensures ValidProgram([NewSuite(NewTuple(a, b)), RunTest(0, name, test)], 0)
    ensures var r := TestScope([NewSuite(NewTuple(a, b)), RunTest(0, name, test)]);
      && Trace(r.log) == [Invoked(a.name, BeforeAll), Invoked(b.name, AfterAll), Invoked(a.name, AfterAll)]
      && r.failed
  {
    var t := NewTuple(a, b);
    assert Visit(a, BeforeAll) == Step(Err(msg), a, [Invoked(a.name, BeforeAll)]);
    assert [a, b][1..] == [b];
    assert FanForward([a, b], BeforeAll) == Fan(Err(msg), [a, b], [Invoked(a.name, BeforeAll)]);
    var ba := Visit(t, BeforeAll);
    assert ba == Step(Err(msg), Tuple(a, b, true), [Invoked(a.name, BeforeAll)]);
    BeforeAllFailureTearsDown(t, name, test, []);
    assert [NewSuite(t), RunTest(0, name, test)] + [] == [NewSuite(t), RunTest(0, name, test)];
    assert Visit(b, AfterAll) == Step(Ok, b, [Invoked(b.name, AfterAll)]);
    assert Visit(a, AfterAll) == Step(Ok, a, [Invoked(a.name, AfterAll)]);
    assert [a, b][..1] == [a];
    assert [a][..0] == [];
    assert FanBackward([a], AfterAll).events == [Invoked(a.name, AfterAll)];
    var aa := Visit(ba.fixture, AfterAll);
    assert aa.events == [Invoked(b.name, AfterAll), Invoked(a.name, AfterAll)];
    var log := [Hooked(0, BeforeAll, ba.outcome, ba.events), Hooked(0, AfterAll, aa.outcome, aa.events)];
    assert log[1..][1..] == [];
    assert Trace(log[1..]) == aa.events + Trace([]);
    assert Trace(log) == ba.events + aa.events;
    assert TestScope([NewSuite(t), RunTest(0, name, test)]).log == log;
  }
}
