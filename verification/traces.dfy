/** The full lifecycle of a suite whose hooks never fail, and the two
    exact outputs the package's tests expect (fixture_test.go:36-81). */
module Traces {
  import opened Hooks
  import opened Fixtures
  import opened Composite
  import opened Engine
  import opened Scenarios
  import opened Expected

  /** After BeforeAll the fixture is in state `g`; every other hook it has
      succeeds on `g`. */
  predicate Settled(g: Fixture)
  {
    forall h: Hook :: h != BeforeAll ==> Provides(g, h) && Visit(g, h).outcome == Ok
  }

  /** A fixture with all four hooks, none of which fails. */
  predicate Smooth(f: Fixture)
  {
    Provides(f, BeforeAll) && Visit(f, BeforeAll).outcome == Ok && Settled(Visit(f, BeforeAll).fixture)
  }

  /** Reference: a `Run` of `test` on a fixture already in state `g` is
      its BeforeEach call, its body, its AfterEach call. */
  function Round(g: Fixture, n: string, test: TestFunc): (r: seq<Action>)
    ensures |r| == 3
  {
    var sub := test(g);
    [ Hooked(0, BeforeEach, Ok, Visit(g, BeforeEach).events),
      Ran(0, n, sub.events, sub.failed),
      Hooked(0, AfterEach, Ok, Visit(g, AfterEach).events) ]
  }

  /** Reference: the rounds of `runs`, one after the other. */
  function Rounds(runs: seq<Command>, g: Fixture): (r: seq<Action>)
    requires RunsOnFirst(runs)
    ensures |r| == 3 * |runs|
  {
    if |runs| == 0 then [] else Round(g, runs[0].name, runs[0].test) + Rounds(runs[1..], g)
  }

  /** Reference output of the rounds: per `Run`, what BeforeEach writes,
      what the body writes, what AfterEach writes. */
  function RoundsOutput(runs: seq<Command>, g: Fixture): seq<Event>
    requires RunsOnFirst(runs)
  {
    if |runs| == 0 then []
    else Visit(g, BeforeEach).events + runs[0].test(g).events + Visit(g, AfterEach).events
         + RoundsOutput(runs[1..], g)
  }

  lemma {:induction false} TraceRounds(runs: seq<Command>, g: Fixture)
    requires RunsOnFirst(runs)
    ensures Trace(Rounds(runs, g)) == RoundsOutput(runs, g)
    decreases |runs|
  {
    if |runs| > 0 {
      var r := Rounds(runs, g);
      TraceRounds(runs[1..], g);
      assert r[1..][1..][1..] == Rounds(runs[1..], g);
      assert Trace(r[1..][1..]) == r[2].events + Trace(r[1..][1..][1..]);
      assert Trace(r[1..]) == r[1].events + Trace(r[1..][1..]);
    }
  }

  /** BeforeEach, body and AfterEach on a suite already set up. */
  lemma RoundStep(sc: Scope, g: Fixture, n: string, test: TestFunc)
    requires sc.suites == [Suite(g, true, true)] && !sc.aborted && Settled(g)
    ensures Run(sc, 0, n, test)
            == sc.(log := sc.log + Round(g, n, test), failed := sc.failed || test(g).failed)
  {
    assert Visit(g, BeforeEach).outcome == Ok && Visit(g, AfterEach).outcome == Ok;
    assert Visit(g, BeforeEach).fixture == g && Visit(g, AfterEach).fixture == g;
    var s0 := RegisterAfterAll(sc, 0);
    assert s0 == sc;
    var s1 := BeforeAllPhase(s0, 0);
    assert s1 == sc;
    var s2 := EachPhase(s1, 0, BeforeEach);
    var s3 := BodyPhase(s2, 0, n, test);
    var s4 := EachPhase(s3, 0, AfterEach);
  }

  /** The first `Run` on a new suite: the AfterAll cleanup is registered,
      BeforeAll runs, then the round. */
  lemma FirstRun(f: Fixture, n: string, test: TestFunc)
    requires Smooth(f) && Provides(f, AfterAll)
    ensures var ba := Visit(f, BeforeAll);
      var g := ba.fixture;
      Run(With(Fresh, f), 0, n, test)
      == Scope([Suite(g, true, true)], [0], [Hooked(0, BeforeAll, Ok, ba.events)] + Round(g, n, test),
               false, test(g).failed)
  {
    var ba := Visit(f, BeforeAll);
    var g := ba.fixture;
    var s := With(Fresh, f);
    var s0 := RegisterAfterAll(s, 0);
    assert s0 == Scope([Suite(f, false, true)], [0], [], false, false);
    var sc := BeforeAllPhase(s0, 0);
    assert sc == Scope([Suite(g, true, true)], [0], [Hooked(0, BeforeAll, Ok, ba.events)], false, false);
    assert Settled(g);
    assert RegisterAfterAll(sc, 0) == sc;
    assert BeforeAllPhase(sc, 0) == sc;
    assert Run(s, 0, n, test) == Run(sc, 0, n, test);
    RoundStep(sc, g, n, test);
  }

  lemma {:induction false} ExecRounds(sc: Scope, g: Fixture, runs: seq<Command>)
    requires sc.suites == [Suite(g, true, true)] && !sc.aborted && Settled(g) && CleanupsOk(sc)
    requires RunsOnFirst(runs)
    ensures ValidProgram(runs, 1)
    ensures var r := Exec(sc, runs);
      r.log == sc.log + Rounds(runs, g) && r.suites == sc.suites && r.cleanups == sc.cleanups && !r.aborted
    decreases |runs|
  {
    RunsOnFirstValid(runs);
    if |runs| > 0 {
      var c := runs[0];
      RoundStep(sc, g, c.name, c.test);
      var s := Run(sc, 0, c.name, c.test);
      ExecRounds(s, g, runs[1..]);
      ExecUnfold(sc, runs);
      ConcatAssoc(sc.log, Round(g, c.name, c.test), Rounds(runs[1..], g));
    }
  }

  /** The scope's code for a new suite and its `Run`s: BeforeAll, then
      the rounds; the AfterAll cleanup waits on the stack. */
  lemma ExecSmooth(f: Fixture, runs: seq<Command>)
    requires Smooth(f) && Provides(f, AfterAll) && RunsOnFirst(runs) && |runs| > 0
    ensures ValidProgram([NewSuite(f)] + runs, 0)
    ensures var ba := Visit(f, BeforeAll);
      var g := ba.fixture;
      var e := Exec(Fresh, [NewSuite(f)] + runs);
      && e.log == [Hooked(0, BeforeAll, Ok, ba.events)] + Rounds(runs, g)
      && e.suites == [Suite(g, true, true)]
      && e.cleanups == [0] && !e.aborted
  {
    var ba := Visit(f, BeforeAll);
    var g := ba.fixture;
    var c := runs[0];
    ExecFirst(f, runs);
    ProvidesErased(g, f, AfterAll);
    ExecAfterFirst(g, [Hooked(0, BeforeAll, Ok, ba.events)], runs);
  }

  /** The `Run`s after the first one, on the suite as the first left it. */
  lemma ExecAfterFirst(g: Fixture, first: seq<Action>, runs: seq<Command>)
    requires Settled(g) && Provides(g, AfterAll) && RunsOnFirst(runs) && |runs| > 0
    ensures ValidProgram(runs[1..], 1)
    ensures var c := runs[0];
      var e := Exec(Scope([Suite(g, true, true)], [0], first + Round(g, c.name, c.test), false, c.test(g).failed),
                    runs[1..]);
      && e.log == first + Rounds(runs, g)
      && e.suites == [Suite(g, true, true)]
      && e.cleanups == [0] && !e.aborted
  {
    var c := runs[0];
    var s1 := Scope([Suite(g, true, true)], [0], first + Round(g, c.name, c.test), false, c.test(g).failed);
    ExecRounds(s1, g, runs[1..]);
    ConcatAssoc(first, Round(g, c.name, c.test), Rounds(runs[1..], g));
  }

  /** The scope's code up to the end of the first `Run`. */
  lemma ExecFirst(f: Fixture, runs: seq<Command>)
    requires Smooth(f) && Provides(f, AfterAll) && RunsOnFirst(runs) && |runs| > 0
    ensures ValidProgram([NewSuite(f)] + runs, 0) && ValidProgram(runs[1..], 1)
    ensures var ba := Visit(f, BeforeAll);
      var g := ba.fixture;
      var c := runs[0];
      Exec(Fresh, [NewSuite(f)] + runs)
      == Exec(Scope([Suite(g, true, true)], [0], [Hooked(0, BeforeAll, Ok, ba.events)] + Round(g, c.name, c.test),
                    false, c.test(g).failed),
              runs[1..])
  {
    ExecFresh(f, runs);
    FirstRun(f, runs[0].name, runs[0].test);
  }

  /** A new suite followed by `Run`s on it: the first command adds the
      suite, the second runs on it. */
  lemma ExecFresh(f: Fixture, runs: seq<Command>)
    requires RunsOnFirst(runs) && |runs| > 0
    ensures ValidProgram([NewSuite(f)] + runs, 0) && ValidProgram(runs[1..], 1)
    ensures Exec(Fresh, [NewSuite(f)] + runs)
            == Exec(Run(With(Fresh, f), 0, runs[0].name, runs[0].test), runs[1..])
  {
    var cmds := [NewSuite(f)] + runs;
    assert cmds[1..] == runs;
    RunsOnFirstValid(runs);
    RunsOnFirstValid(runs[1..]);
    ExecUnfold(With(Fresh, f), runs);
  }

  /** The lifecycle fixture_test.go:36-56 checks, for any fixture whose hooks
      never fail and any non-empty series of `Run`s on it: BeforeAll once,
      then per `Run` BeforeEach, the body (on the fixture as BeforeAll left
      it), AfterEach, and AfterAll once at the very end. */
  lemma SmoothLifecycle(f: Fixture, runs: seq<Command>)
    requires Smooth(f) && Provides(f, AfterAll) && RunsOnFirst(runs) && |runs| > 0
    ensures ValidProgram([NewSuite(f)] + runs, 0)
    ensures var ba := Visit(f, BeforeAll);
      var g := ba.fixture;
      var r := TestScope([NewSuite(f)] + runs);
      && r.log == [Hooked(0, BeforeAll, Ok, ba.events)] + Rounds(runs, g)
                  + [Hooked(0, AfterAll, Ok, Visit(g, AfterAll).events)]
      && Trace(r.log) == ba.events + RoundsOutput(runs, g) + Visit(g, AfterAll).events
  {
    ExecSmooth(f, runs);
    var ba := Visit(f, BeforeAll);
    var g := ba.fixture;
    var e := Exec(Fresh, [NewSuite(f)] + runs);
    assert Settled(g);
    var aa := Visit(g, AfterAll);
    assert e == Scope([Suite(g, true, true)], [0], e.log, false, e.failed);
    TeardownOne(g, true, e.log, false, e.failed);
    SmoothTrace(ba.events, runs, g, aa.events);
  }

  lemma SmoothTrace(before: seq<Event>, runs: seq<Command>, g: Fixture, after: seq<Event>)
    requires RunsOnFirst(runs)
    ensures Trace([Hooked(0, BeforeAll, Ok, before)] + Rounds(runs, g) + [Hooked(0, AfterAll, Ok, after)])
            == before + RoundsOutput(runs, g) + after
  {
    var first := [Hooked(0, BeforeAll, Ok, before)];
    var last := [Hooked(0, AfterAll, Ok, after)];
    TraceAppend(first + Rounds(runs, g), last);
    TraceAppend(first, Rounds(runs, g));
    TraceRounds(runs, g);
    assert Trace(last) == after + Trace([]);
    assert Trace(first) == before + Trace([]);
  }

  /** Two `Run`s on a fixture whose hooks never fail: what each hook call
      and each body writes, in order. */
  lemma TwoRuns(f: Fixture, c1: Command, c2: Command)
    requires Smooth(f) && Provides(f, AfterAll)
    requires c1.RunTest? && c1.suite == 0 && c2.RunTest? && c2.suite == 0
    ensures ValidProgram([NewSuite(f), c1, c2], 0)
    ensures var ba := Visit(f, BeforeAll);
      var g := ba.fixture;
      var be := Visit(g, BeforeEach).events;
      var ae := Visit(g, AfterEach).events;
      Trace(TestScope([NewSuite(f), c1, c2]).log)
      == ba.events + (be + c1.test(g).events + ae) + (be + c2.test(g).events + ae) + Visit(g, AfterAll).events
  {
    var g := Visit(f, BeforeAll).fixture;
    var be := Visit(g, BeforeEach).events;
    var ae := Visit(g, AfterEach).events;
    TwoRunsScope(f, c1, c2);
    RoundsOutputTwo(c1, c2, g);
    Regroup(Visit(f, BeforeAll).events, be + c1.test(g).events + ae,
            be + c2.test(g).events + ae, Visit(g, AfterAll).events);
  }

  lemma Regroup(a: seq<Event>, x: seq<Event>, y: seq<Event>, z: seq<Event>)
    ensures a + (x + y) + z == a + x + y + z
  {
  }

  lemma TwoRunsScope(f: Fixture, c1: Command, c2: Command)
    requires Smooth(f) && Provides(f, AfterAll)
    requires c1.RunTest? && c1.suite == 0 && c2.RunTest? && c2.suite == 0
    ensures ValidProgram([NewSuite(f), c1, c2], 0)
    ensures var ba := Visit(f, BeforeAll);
      var g := ba.fixture;
      Trace(TestScope([NewSuite(f), c1, c2]).log)
      == ba.events + RoundsOutput([c1, c2], g) + Visit(g, AfterAll).events
  {
    assert [NewSuite(f)] + [c1, c2] == [NewSuite(f), c1, c2];
    SmoothLifecycle(f, [c1, c2]);
  }

  lemma RoundsOutputTwo(c1: Command, c2: Command, g: Fixture)
    requires c1.RunTest? && c1.suite == 0 && c2.RunTest? && c2.suite == 0
    ensures var be := Visit(g, BeforeEach).events;
      var ae := Visit(g, AfterEach).events;
      RoundsOutput([c1, c2], g) == (be + c1.test(g).events + ae) + (be + c2.test(g).events + ae)
  {
    var runs := [c1, c2];
    var be := Visit(g, BeforeEach).events;
    var ae := Visit(g, AfterEach).events;
    assert runs[1..] == [c2];
    assert runs[1..][1..] == [];
    assert RoundsOutput([c2], g) == be + c2.test(g).events + ae + [];
    assert RoundsOutput(runs, g) == be + c1.test(g).events + ae + RoundsOutput([c2], g);
  }

  /** `fixtureMock` (fixture_test.go:11-34): a recording fixture with all
      four hooks, none of which fails; it prints its tag and the hook. */
  function Mock(tag: string): (f: Fixture)
    ensures f.Leaf? && f.name == tag
  {
    Leaf(tag, map[BeforeAll := Ok, AfterAll := Ok, BeforeEach := Ok, AfterEach := Ok])
  }

  /** Every hook of the mock is there and returns nil. */
  lemma MockRecords(tag: string)
    ensures Recorder(Mock(tag))
  {
    var f := Mock(tag);
    forall h: Hook ensures h in f.hooks && f.hooks[h] == Ok {
      match h
      case BeforeAll =>
      case AfterAll =>
      case BeforeEach =>
      case AfterEach =>
    }
  }

  /** A recording fixture is its own state after BeforeAll and never fails. */
  lemma RecorderSmooth(f: Fixture)
    requires Recorder(f)
    ensures Smooth(f) && Provides(f, AfterAll)
    ensures Visit(f, BeforeAll) == Step(Ok, f, [Invoked(f.name, BeforeAll)])
    ensures forall h: Hook :: Visit(f, h) == Step(Ok, f, [Invoked(f.name, h)])
  {
  }

  /** A body that writes `text` and passes. */
  function Writes(text: string): TestFunc
  {
    _ => SubTest([Wrote(text)], false)
  }

  /** The two `Run`s of fixture_test.go:41-47. */
  const LifecycleRuns: seq<Command> :=
    [RunTest(0, "test 1", Writes("Test#1")), RunTest(0, "test 2", Writes("Test#2"))]

  /** fixture_test.go:36-56: a mock with an empty label, two `Run`s writing
      `Test#1` and `Test#2`; the buffer holds exactly the expected string. */
  lemma LifecycleTrace()
    ensures ValidProgram([NewSuite(Mock(""))] + LifecycleRuns, 0)
    ensures Render(Trace(TestScope([NewSuite(Mock(""))] + LifecycleRuns).log))
            == "::BeforeAll::BeforeEachTest#1::AfterEach::BeforeEachTest#2::AfterEach::AfterAll"
  {
    LifecycleEvents();
    RenderLifecycle();
  }

  /** The events of fixture_test.go:36-56, in order. */
  lemma LifecycleEvents()
    ensures ValidProgram([NewSuite(Mock(""))] + LifecycleRuns, 0)
    ensures Trace(TestScope([NewSuite(Mock(""))] + LifecycleRuns).log)
            == [Invoked("", BeforeAll)]
               + ([Invoked("", BeforeEach), Wrote("Test#1"), Invoked("", AfterEach)]
                  + [Invoked("", BeforeEach), Wrote("Test#2"), Invoked("", AfterEach)])
               + [Invoked("", AfterAll)]
  {
    var m := Mock("");
    MockRecords("");
    RecorderSmooth(m);
    TwoRuns(m, LifecycleRuns[0], LifecycleRuns[1]);
    assert [NewSuite(m)] + LifecycleRuns == [NewSuite(m), LifecycleRuns[0], LifecycleRuns[1]];
  }

  lemma RenderLifecycle()
    ensures Render([Invoked("", BeforeAll)]
                   + ([Invoked("", BeforeEach), Wrote("Test#1"), Invoked("", AfterEach)]
                      + [Invoked("", BeforeEach), Wrote("Test#2"), Invoked("", AfterEach)])
                   + [Invoked("", AfterAll)])
            == "::BeforeAll::BeforeEachTest#1::AfterEach::BeforeEachTest#2::AfterEach::AfterAll"
  {
    RenderTwoRounds("", "Test#1", "Test#2");
    LifecycleString();
  }

  /** What a recording fixture labelled `tag` and two bodies write. */
  lemma RenderTwoRounds(tag: string, t1: string, t2: string)
    ensures Render([Invoked(tag, BeforeAll)]
                   + ([Invoked(tag, BeforeEach), Wrote(t1), Invoked(tag, AfterEach)]
                      + [Invoked(tag, BeforeEach), Wrote(t2), Invoked(tag, AfterEach)])
                   + [Invoked(tag, AfterAll)])
            == tag + "::BeforeAll"
               + ((tag + "::BeforeEach" + t1 + tag + "::AfterEach")
                  + (tag + "::BeforeEach" + t2 + tag + "::AfterEach"))
               + (tag + "::AfterAll")
  {
    var round1 := [Invoked(tag, BeforeEach), Wrote(t1), Invoked(tag, AfterEach)];
    var round2 := [Invoked(tag, BeforeEach), Wrote(t2), Invoked(tag, AfterEach)];
    RenderFour([Invoked(tag, BeforeAll)], round1, round2, [Invoked(tag, AfterAll)]);
    RenderRound(tag, t1);
    RenderRound(tag, t2);
    HookTexts();
    RenderInvoked(tag, BeforeAll, "::BeforeAll");
    RenderInvoked(tag, AfterAll, "::AfterAll");
  }

  /** What follows the tag when a recording fixture announces a hook. */
  lemma HookTexts()
    ensures "::" + BeforeAll.Name() == "::BeforeAll" && "::" + AfterAll.Name() == "::AfterAll"
    ensures "::" + BeforeEach.Name() == "::BeforeEach" && "::" + AfterEach.Name() == "::AfterEach"
  {
  }

  lemma RenderFour(a: seq<Event>, r1: seq<Event>, r2: seq<Event>, z: seq<Event>)
    ensures Render(a + (r1 + r2) + z) == Render(a) + (Render(r1) + Render(r2)) + Render(z)
  {
    RenderAppend(a + (r1 + r2), z);
    RenderAppend(a, r1 + r2);
    RenderAppend(r1, r2);
  }

  /** What one hook call of a recording fixture writes. */
  lemma RenderInvoked(tag: string, h: Hook, text: string)
    requires text == "::" + h.Name()
    ensures Render([Invoked(tag, h)]) == tag + text
  {
    assert Render([Invoked(tag, h)]) == Text(Invoked(tag, h)) + Render([]);
  }

  /** What one round of a recording fixture labelled `tag` writes. */
  lemma RenderRound(tag: string, text: string)
    ensures Render([Invoked(tag, BeforeEach), Wrote(text), Invoked(tag, AfterEach)])
            == tag + "::BeforeEach" + text + tag + "::AfterEach"
  {
    var r := [Invoked(tag, BeforeEach), Wrote(text), Invoked(tag, AfterEach)];
    assert r[1..] == [Wrote(text), Invoked(tag, AfterEach)];
    assert r[1..][1..] == [Invoked(tag, AfterEach)];
    assert r[1..][1..][1..] == [];
    assert Text(r[0]) == tag + "::BeforeEach";
    assert Text(r[2]) == tag + "::AfterEach";
    assert Render(r[1..][1..]) == tag + "::AfterEach";
    assert Render(r[1..]) == text + tag + "::AfterEach";
  }

  /** A body that writes `t1` and then `t2` and passes. */
  function WritesTwo(t1: string, t2: string): TestFunc
  {
    _ => SubTest([Wrote(t1), Wrote(t2)], false)
  }

  /** The two `Run`s of fixture_test.go:64-72. */
  const TupleRuns: seq<Command> :=
    [ RunTest(0, "test 1", WritesTwo("f1::Test#1", "f2::Test#1")),
      RunTest(0, "test 2", WritesTwo("f1::Test#2", "f2::Test#2")) ]

  /** `t` behaves like two recorders f1 and f2 fanned out in order: its
      BeforeAll leaves it as `g`, and its hooks never fail. */
  predicate RecordsAsPair(t: Fixture, g: Fixture)
  {
    && Smooth(t) && Provides(t, AfterAll)
    && Visit(t, BeforeAll) == Step(Ok, g, [Invoked("f1", BeforeAll), Invoked("f2", BeforeAll)])
    && Visit(g, BeforeEach).events == [Invoked("f1", BeforeEach), Invoked("f2", BeforeEach)]
    && Visit(g, AfterEach).events == [Invoked("f2", AfterEach), Invoked("f1", AfterEach)]
    && Visit(g, AfterAll).events == [Invoked("f2", AfterAll), Invoked("f1", AfterAll)]
  }

  /** `Tuple(f1, f2)` of two mocks: BeforeAll assembles the composite and
      calls f1 then f2, keeping `One` and `Two` the very mocks; after that
      before-hooks go f1 then f2 and after-hooks f2 then f1, none failing. */
  lemma MockTuple()
    ensures RecordsAsPair(NewTuple(Mock("f1"), Mock("f2")), Tuple(Mock("f1"), Mock("f2"), true))
  {
    var a, b := Mock("f1"), Mock("f2");
    MockRecords("f1");
    MockRecords("f2");
    var t := NewTuple(a, b);
    var g := Tuple(a, b, true);
    TupleBeforeAllBuilds(a, b, false);
    TupleKeepsMembers(a, b, false, BeforeAll);
    TwoRecordersOrder(a, b, BeforeAll);
    forall h: Hook | h != BeforeAll
      ensures Visit(g, h).outcome == Ok
      ensures Visit(g, h).events == Visit(Multi([a, b]), h).events
    {
      TupleDelegates(a, b, true, h);
      TwoRecordersOrder(a, b, h);
    }
    TwoRecordersOrder(a, b, BeforeEach);
    TwoRecordersOrder(a, b, AfterEach);
    TwoRecordersOrder(a, b, AfterAll);
  }

  /** What one `Run` of fixture_test.go:64-72 writes: both BeforeEach
      calls, the body's two writes, both AfterEach calls in reverse. */
  function TupleRound(t1: string, t2: string): (r: seq<Event>)
    ensures |r| == 6 && r[2] == Wrote(t1) && r[3] == Wrote(t2)
  {
    [ Invoked("f1", BeforeEach), Invoked("f2", BeforeEach), Wrote(t1), Wrote(t2),
      Invoked("f2", AfterEach), Invoked("f1", AfterEach) ]
  }

  lemma TupleRoundSplit(t1: string, t2: string)
    ensures TupleRound(t1, t2)
            == [Invoked("f1", BeforeEach), Invoked("f2", BeforeEach)] + [Wrote(t1), Wrote(t2)]
               + [Invoked("f2", AfterEach), Invoked("f1", AfterEach)]
  {
  }

  lemma TupleShape(ba: seq<Event>, be: seq<Event>, ae: seq<Event>, aa: seq<Event>, e1: seq<Event>, e2: seq<Event>)
    requires ba == [Invoked("f1", BeforeAll), Invoked("f2", BeforeAll)]
    requires be == [Invoked("f1", BeforeEach), Invoked("f2", BeforeEach)]
    requires ae == [Invoked("f2", AfterEach), Invoked("f1", AfterEach)]
    requires aa == [Invoked("f2", AfterAll), Invoked("f1", AfterAll)]
    requires e1 == [Wrote("f1::Test#1"), Wrote("f2::Test#1")] && e2 == [Wrote("f1::Test#2"), Wrote("f2::Test#2")]
    ensures ba + (be + e1 + ae) + (be + e2 + ae) + aa
            == ba + (TupleRound("f1::Test#1", "f2::Test#1") + TupleRound("f1::Test#2", "f2::Test#2")) + aa
  {
    TupleRoundSplit("f1::Test#1", "f2::Test#1");
    TupleRoundSplit("f1::Test#2", "f2::Test#2");
  }

  /** The bodies of fixture_test.go:64-72 write the same on any fixture. */
  lemma TupleBodies(g: Fixture)
    ensures TupleRuns[0].test(g).events == [Wrote("f1::Test#1"), Wrote("f2::Test#1")]
    ensures TupleRuns[1].test(g).events == [Wrote("f1::Test#2"), Wrote("f2::Test#2")]
  {
  }

  /** The events of fixture_test.go:58-81, in order. */
  lemma TupleEvents()
    ensures ValidProgram([NewSuite(NewTuple(Mock("f1"), Mock("f2")))] + TupleRuns, 0)
    ensures Trace(TestScope([NewSuite(NewTuple(Mock("f1"), Mock("f2")))] + TupleRuns).log)
            == [Invoked("f1", BeforeAll), Invoked("f2", BeforeAll)]
               + (TupleRound("f1::Test#1", "f2::Test#1") + TupleRound("f1::Test#2", "f2::Test#2"))
               + [Invoked("f2", AfterAll), Invoked("f1", AfterAll)]
  {
    var t := NewTuple(Mock("f1"), Mock("f2"));
    var g := Tuple(Mock("f1"), Mock("f2"), true);
    MockTuple();
    TupleBodies(g);
    RecorderPairRuns(t, g, TupleRuns[0], TupleRuns[1]);
    assert [NewSuite(t)] + TupleRuns == [NewSuite(t), TupleRuns[0], TupleRuns[1]];
  }

  /** Two `Run`s on any fixture that records like `Tuple(f1, f2)`. */
  lemma RecorderPairRuns(t: Fixture, g: Fixture, c1: Command, c2: Command)
    requires RecordsAsPair(t, g)
    requires c1.RunTest? && c1.suite == 0 && c2.RunTest? && c2.suite == 0
    requires c1.test(g).events == [Wrote("f1::Test#1"), Wrote("f2::Test#1")]
    requires c2.test(g).events == [Wrote("f1::Test#2"), Wrote("f2::Test#2")]
    ensures ValidProgram([NewSuite(t), c1, c2], 0)
    ensures Trace(TestScope([NewSuite(t), c1, c2]).log)
            == [Invoked("f1", BeforeAll), Invoked("f2", BeforeAll)]
               + (TupleRound("f1::Test#1", "f2::Test#1") + TupleRound("f1::Test#2", "f2::Test#2"))
               + [Invoked("f2", AfterAll), Invoked("f1", AfterAll)]
  {
    TwoRuns(t, c1, c2);
    TupleShape(Visit(t, BeforeAll).events, Visit(g, BeforeEach).events, Visit(g, AfterEach).events,
               Visit(g, AfterAll).events, c1.test(g).events, c2.test(g).events);
  }

  lemma PiecesPair(x: Event, y: Event, sx: string, sy: string)
    requires Text(x) == sx && Text(y) == sy
    ensures Pieces([x, y]) == [sx, sy]
  {
    assert Pieces([x, y])[0] == sx;
  }

  lemma TupleRoundPieces(t1: string, t2: string)
    ensures Pieces(TupleRound(t1, t2))
            == ["f1::BeforeEach", "f2::BeforeEach", t1, t2, "f2::AfterEach", "f1::AfterEach"]
  {
    var before := [Invoked("f1", BeforeEach), Invoked("f2", BeforeEach)];
    var body := [Wrote(t1), Wrote(t2)];
    var after := [Invoked("f2", AfterEach), Invoked("f1", AfterEach)];
    PiecesPair(before[0], before[1], "f1::BeforeEach", "f2::BeforeEach");
    PiecesPair(body[0], body[1], t1, t2);
    PiecesPair(after[0], after[1], "f2::AfterEach", "f1::AfterEach");
    PiecesAppend(before, body);
    PiecesAppend(before + body, after);
    assert TupleRound(t1, t2) == before + body + after;
  }

  /** The writes of fixture_test.go:58-81 as the strings they put in the
      buffer. */
  lemma TuplePieces()
    ensures Pieces([Invoked("f1", BeforeAll), Invoked("f2", BeforeAll)]
                   + (TupleRound("f1::Test#1", "f2::Test#1") + TupleRound("f1::Test#2", "f2::Test#2"))
                   + [Invoked("f2", AfterAll), Invoked("f1", AfterAll)])
            == [ "f1::BeforeAll", "f2::BeforeAll",
                 "f1::BeforeEach", "f2::BeforeEach", "f1::Test#1", "f2::Test#1", "f2::AfterEach", "f1::AfterEach",
                 "f1::BeforeEach", "f2::BeforeEach", "f1::Test#2", "f2::Test#2", "f2::AfterEach", "f1::AfterEach",
                 "f2::AfterAll", "f1::AfterAll" ]
  {
    var first := [Invoked("f1", BeforeAll), Invoked("f2", BeforeAll)];
    var r1 := TupleRound("f1::Test#1", "f2::Test#1");
    var r2 := TupleRound("f1::Test#2", "f2::Test#2");
    var last := [Invoked("f2", AfterAll), Invoked("f1", AfterAll)];
    PiecesPair(first[0], first[1], "f1::BeforeAll", "f2::BeforeAll");
    PiecesPair(last[0], last[1], "f2::AfterAll", "f1::AfterAll");
    TupleRoundPieces("f1::Test#1", "f2::Test#1");
    TupleRoundPieces("f1::Test#2", "f2::Test#2");
    PiecesAppend(r1, r2);
    PiecesAppend(first, r1 + r2);
    PiecesAppend(first + (r1 + r2), last);
  }

  /** fixture_test.go:58-81: `Tuple(f1, f2)` with two `Run`s. The buffer
      receives exactly these writes, whose concatenation is the string the
      test expects; the bodies receive the assembled tuple, whose `One` and
      `Two` are f1 and f2. */
  lemma TupleTrace()
    ensures ValidProgram([NewSuite(NewTuple(Mock("f1"), Mock("f2")))] + TupleRuns, 0)
    ensures var trace := Trace(TestScope([NewSuite(NewTuple(Mock("f1"), Mock("f2")))] + TupleRuns).log);
      && Pieces(trace)
         == [ "f1::BeforeAll", "f2::BeforeAll",
              "f1::BeforeEach", "f2::BeforeEach", "f1::Test#1", "f2::Test#1", "f2::AfterEach", "f1::AfterEach",
              "f1::BeforeEach", "f2::BeforeEach", "f1::Test#2", "f2::Test#2", "f2::AfterEach", "f1::AfterEach",
              "f2::AfterAll", "f1::AfterAll" ]
      && Render(trace) == Concat(Pieces(trace))
    ensures var g := Visit(NewTuple(Mock("f1"), Mock("f2")), BeforeAll).fixture;
      g.one == Mock("f1") && g.two == Mock("f2")
  {
    TupleEvents();
    TuplePieces();
    MockTuple();
    var trace := Trace(TestScope([NewSuite(NewTuple(Mock("f1"), Mock("f2")))] + TupleRuns).log);
    RenderPieces(trace);
  }
}
