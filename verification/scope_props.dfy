/** What holds across every `Run` on every suite of a scope: BeforeAll is
    called at most once per suite and before anything else on it, the
    AfterAll cleanup is registered at most once per suite and its call is
    the suite's last action, after everything the scope's code did. */
module ScopeProps {
  import opened Hooks
  import opened Fixtures
  import opened Seqs
  import opened Engine
  import opened EngineProps

  /** The actions of suite `id`, in order. */
  function Project(log: seq<Action>, id: nat): (r: seq<Action>)
    ensures forall i :: 0 <= i < |r| ==> r[i].suite == id
  {
    if |log| == 0 then []
    else (if log[0].suite == id then [log[0]] else []) + Project(log[1..], id)
  }

  lemma {:induction false} ProjectAppend(a: seq<Action>, b: seq<Action>, id: nat)
    ensures Project(a + b, id) == Project(a, id) + Project(b, id)
    decreases |a|
  {
    if |a| == 0 {
      assert a + b == b;
    } else {
      assert (a + b)[1..] == a[1..] + b;
      ProjectAppend(a[1..], b, id);
    }
  }

  lemma {:induction false} ProjectOwn(a: seq<Action>, id: nat)
    requires forall i :: 0 <= i < |a| ==> a[i].suite == id
    ensures Project(a, id) == a
    decreases |a|
  {
    if |a| > 0 {
      ProjectOwn(a[1..], id);
    }
  }

  lemma {:induction false} ProjectOther(a: seq<Action>, id: nat)
    requires forall i :: 0 <= i < |a| ==> a[i].suite != id
    ensures Project(a, id) == []
    decreases |a|
  {
    if |a| > 0 {
      ProjectOther(a[1..], id);
    }
  }

  /** Suite `id` occurs in `Suites(a)` exactly as often as it has actions. */
  lemma {:induction false} ProjectCount(a: seq<Action>, id: nat)
    ensures |Project(a, id)| == multiset(Suites(a))[id]
    decreases |a|
  {
    if |a| > 0 {
      ProjectCount(a[1..], id);
      assert Suites(a) == [a[0].suite] + Suites(a[1..]);
    }
  }

  /** Every action of `a` is a call of hook `h`, and so is every action
      of its projections. */
  lemma ProjectAllHook(a: seq<Action>, id: nat, h: Hook)
    requires AllHook(a, h)
    ensures AllHook(Project(a, id), h)
    decreases |a|
  {
    if |a| > 0 {
      ProjectAllHook(a[1..], id, h);
    }
  }

  lemma {:induction false} ReverseMultiset<T>(s: seq<T>)
    ensures multiset(Reverse(s)) == multiset(s)
    decreases |s|
  {
    if |s| > 0 {
      var init := s[..|s| - 1];
      ReverseMultiset(init);
      assert s == init + [s[|s| - 1]];
    }
  }

  /** No suite is registered twice. */
  predicate Distinct(c: seq<nat>)
  {
    forall i, j :: 0 <= i < j < |c| ==> c[i] != c[j]
  }

  lemma {:induction false} DistinctCount(c: seq<nat>, x: nat)
    requires Distinct(c)
    ensures multiset(c)[x] == if x in c then 1 else 0
    decreases |c|
  {
    if |c| > 0 {
      var init := c[..|c| - 1];
      assert c == init + [c[|c| - 1]];
      DistinctCount(init, x);
      if c[|c| - 1] == x {
        assert x !in init;
      }
    }
  }

  predicate IsHook(a: Action, h: Hook)
  {
    a.Hooked? && a.hook == h
  }

  /** BeforeAll, if called at all, is the suite's first action. */
  predicate BeforeAllFirst(p: seq<Action>)
  {
    forall i :: 0 < i < |p| ==> !IsHook(p[i], BeforeAll)
  }

  predicate NoAfterAll(p: seq<Action>)
  {
    forall i :: 0 <= i < |p| ==> !IsHook(p[i], AfterAll)
  }

  /** What the scope's code keeps true of suite `id`: its cleanup is
      registered exactly when its latch has fired, which is exactly when its
      fixture has AfterAll and something ran for it; nothing ran for it
      while `testRun` is unset (unless the scope ended); BeforeAll came
      first; AfterAll has not run. */
  predicate SuiteInv(sc: Scope, id: nat)
    requires id < |sc.suites|
  {
    var s := sc.suites[id];
    var p := Project(sc.log, id);
    && (id in sc.cleanups <==> s.afterAllRegistered)
    && (s.afterAllRegistered <==> Provides(s.fixture, AfterAll) && p != [])
    && (!s.testRun && !sc.aborted ==> p == [])
    && BeforeAllFirst(p)
    && NoAfterAll(p)
  }

  predicate Inv(sc: Scope)
  {
    && CleanupsOk(sc)
    && Distinct(sc.cleanups)
    && (forall i :: 0 <= i < |sc.log| ==> sc.log[i].suite < |sc.suites|)
    && (forall id :: 0 <= id < |sc.suites| ==> SuiteInv(sc, id))
  }

  lemma FreshInv()
    ensures Inv(Fresh)
  {
  }

  lemma WithInv(sc: Scope, f: Fixture)
    requires Inv(sc)
    ensures Inv(With(sc, f))
  {
    var r := With(sc, f);
    var n := |sc.suites|;
    ProjectOther(sc.log, n);
    forall id | 0 <= id < |r.suites| ensures SuiteInv(r, id) {
      if id < n {
        assert r.suites[id] == sc.suites[id];
        assert SuiteInv(sc, id);
      } else {
        assert n !in sc.cleanups;
      }
    }
  }

  /** A `Run` appends no BeforeAll after its first action and no AfterAll. */
  lemma RunHooks(sc: Scope, id: nat, name: string, test: TestFunc)
    requires id < |sc.suites| && !sc.aborted
    ensures var r := Run(sc, id, name, test);
      var a := r.log[|sc.log|..];
      && (sc.suites[id].testRun ==> forall i :: 0 <= i < |a| ==> !IsHook(a[i], BeforeAll))
      && BeforeAllFirst(a)
      && NoAfterAll(a)
      && (!r.suites[id].testRun ==> r.aborted)
  {
    var ba, be, body, ae := RunLog(sc, id, name, test);
    assert forall i :: 0 <= i < |body| ==> body[i].Ran?;
    PiecesHooks(ba, be, body, ae);
  }

  /** Pieces of the `RunLog` form: BeforeAll calls only in the first,
      AfterAll nowhere. */
  lemma PiecesHooks(ba: seq<Action>, be: seq<Action>, body: seq<Action>, ae: seq<Action>)
    requires AllHook(ba, BeforeAll) && AllHook(be, BeforeEach) && AllHook(ae, AfterEach)
    requires forall i :: 0 <= i < |body| ==> body[i].Ran?
    ensures var a := ba + be + body + ae;
      && (forall i :: |ba| <= i < |a| ==> !IsHook(a[i], BeforeAll))
      && NoAfterAll(a)
  {
    var a := ba + be + body + ae;
    forall i | 0 <= i < |a|
      ensures i >= |ba| ==> !IsHook(a[i], BeforeAll)
      ensures !IsHook(a[i], AfterAll)
    {
      if i < |ba| {
        assert a[i] == ba[i];
      } else if i < |ba| + |be| {
        assert a[i] == be[i - |ba|];
      } else if i < |ba| + |be| + |body| {
        assert a[i] == body[i - |ba| - |be|];
      } else {
        assert a[i] == ae[i - |ba| - |be| - |body|];
      }
    }
  }

  lemma RunInv(sc: Scope, id: nat, name: string, test: TestFunc)
    requires Inv(sc) && id < |sc.suites|
    ensures Inv(Run(sc, id, name, test))
  {
    if !sc.aborted {
      var r := Run(sc, id, name, test);
      RunIsStep(sc, id, name, test);
      StepInv(sc, r, id, r.log[|sc.log|..]);
    }
  }

  lemma RunIsStep(sc: Scope, id: nat, name: string, test: TestFunc)
    requires CleanupsOk(sc) && id < |sc.suites| && !sc.aborted
    ensures var r := Run(sc, id, name, test);
      RunStep(sc, r, id, r.log[|sc.log|..])
  {
    var r := Run(sc, id, name, test);
    RunFrame(sc, id, name, test);
    RunHooks(sc, id, name, test);
    StepOfRun(sc, r, id);
  }

  /** The facts `RunFrame` and `RunHooks` give about a `Run`, as a step. */
  lemma StepOfRun(sc: Scope, r: Scope, id: nat)
    requires CleanupsOk(sc) && id < |sc.suites| && !sc.aborted
    requires |r.suites| == |sc.suites|
    requires forall j :: 0 <= j < |sc.suites| && j != id ==> r.suites[j] == sc.suites[j]
    requires Erase(r.suites[id].fixture) == Erase(sc.suites[id].fixture)
    requires r.suites[id].afterAllRegistered
             == (sc.suites[id].afterAllRegistered || Provides(sc.suites[id].fixture, AfterAll))
    requires r.cleanups == sc.cleanups +
               (if Provides(sc.suites[id].fixture, AfterAll) && !sc.suites[id].afterAllRegistered
                then [id] else [])
    requires CleanupsOk(r)
    requires |r.log| > |sc.log| && r.log[..|sc.log|] == sc.log
    requires forall i :: |sc.log| <= i < |r.log| ==> r.log[i].suite == id
    requires var a := r.log[|sc.log|..];
      && (sc.suites[id].testRun ==> forall i :: 0 <= i < |a| ==> !IsHook(a[i], BeforeAll))
      && BeforeAllFirst(a)
      && NoAfterAll(a)
      && (!r.suites[id].testRun ==> r.aborted)
    ensures RunStep(sc, r, id, r.log[|sc.log|..])
  {
    assert r.log == sc.log + r.log[|sc.log|..];
  }

  /** What a `Run` on suite `id` guarantees, stated without `Run`. */
  predicate RunStep(sc: Scope, r: Scope, id: nat, a: seq<Action>)
    requires id < |sc.suites|
  {
    var s := sc.suites[id];
    && !sc.aborted
    && |r.suites| == |sc.suites|
    && (forall j :: 0 <= j < |sc.suites| && j != id ==> r.suites[j] == sc.suites[j])
    && Erase(r.suites[id].fixture) == Erase(s.fixture)
    && r.suites[id].afterAllRegistered == (s.afterAllRegistered || Provides(s.fixture, AfterAll))
    && r.cleanups == sc.cleanups + (if Provides(s.fixture, AfterAll) && !s.afterAllRegistered then [id] else [])
    && CleanupsOk(r)
    && r.log == sc.log + a && |a| > 0
    && (forall i :: 0 <= i < |a| ==> a[i].suite == id)
    && (s.testRun ==> forall i :: 0 <= i < |a| ==> !IsHook(a[i], BeforeAll))
    && BeforeAllFirst(a)
    && NoAfterAll(a)
    && (!r.suites[id].testRun ==> r.aborted)
  }

  lemma StepInv(sc: Scope, r: Scope, id: nat, a: seq<Action>)
    requires Inv(sc) && id < |sc.suites| && RunStep(sc, r, id, a)
    ensures Inv(r)
  {
    assert SuiteInv(sc, id);
    assert Distinct(r.cleanups) by {
      if r.cleanups != sc.cleanups {
        assert id !in sc.cleanups;
        assert r.cleanups == sc.cleanups + [id];
      }
    }
    forall j | 0 <= j < |r.suites| ensures SuiteInv(r, j) {
      if j == id {
        StepOwn(sc, r, id, a);
      } else {
        StepOther(sc, r, id, a, j);
      }
    }
  }

  lemma StepOther(sc: Scope, r: Scope, id: nat, a: seq<Action>, j: nat)
    requires Inv(sc) && id < |sc.suites| && RunStep(sc, r, id, a)
    requires j < |sc.suites| && j != id
    ensures SuiteInv(r, j)
  {
    assert SuiteInv(sc, j);
    ProjectAppend(sc.log, a, j);
    ProjectOther(a, j);
    assert Project(r.log, j) == Project(sc.log, j);
  }

  lemma StepOwn(sc: Scope, r: Scope, id: nat, a: seq<Action>)
    requires Inv(sc) && id < |sc.suites| && RunStep(sc, r, id, a)
    ensures SuiteInv(r, id)
  {
    assert SuiteInv(sc, id);
    ProjectAppend(sc.log, a, id);
    ProjectOwn(a, id);
    ProvidesErased(r.suites[id].fixture, sc.suites[id].fixture, AfterAll);
    var p := Project(sc.log, id);
    assert Project(r.log, id) == p + a;
    if !sc.suites[id].testRun {
      assert p == [];
      assert p + a == a;
    } else {
      NoBeforeAllAppend(p, a);
    }
    NoAfterAllAppend(p, a);
  }

  lemma NoBeforeAllAppend(p: seq<Action>, a: seq<Action>)
    requires BeforeAllFirst(p) && forall i :: 0 <= i < |a| ==> !IsHook(a[i], BeforeAll)
    ensures BeforeAllFirst(p + a)
  {
    forall i | 0 < i < |p + a| ensures !IsHook((p + a)[i], BeforeAll) {
      if i >= |p| {
        assert (p + a)[i] == a[i - |p|];
      }
    }
  }

  lemma NoAfterAllAppend(p: seq<Action>, a: seq<Action>)
    requires NoAfterAll(p) && NoAfterAll(a)
    ensures NoAfterAll(p + a)
  {
    forall i | 0 <= i < |p + a| ensures !IsHook((p + a)[i], AfterAll) {
      if i >= |p| {
        assert (p + a)[i] == a[i - |p|];
      }
    }
  }

  lemma {:induction false} ExecInv(sc: Scope, cmds: seq<Command>)
    requires Inv(sc) && ValidProgram(cmds, |sc.suites|)
    ensures Inv(Exec(sc, cmds))
    decreases |cmds|
  {
    if |cmds| > 0 && !sc.aborted {
      match cmds[0]
      case NewSuite(f) =>
        WithInv(sc, f);
        ExecInv(With(sc, f), cmds[1..]);
      case RunTest(id, name, test) =>
        RunInv(sc, id, name, test);
        ExecInv(Run(sc, id, name, test), cmds[1..]);
    }
  }

  /** fixture.go:68-79: when the scope's code is done, every suite's
      AfterAll cleanup is registered at most once, and it is registered
      exactly when the suite's fixture has AfterAll and at least one `Run`
      on the suite began. */
  lemma CleanupRegisteredOnce(cmds: seq<Command>)
    requires ValidProgram(cmds, 0)
    ensures var e := Exec(Fresh, cmds);
      && Distinct(e.cleanups)
      && forall id :: 0 <= id < |e.suites| ==>
           (id in e.cleanups <==> Provides(e.suites[id].fixture, AfterAll) && Project(e.log, id) != [])
  {
    var e := Exec(Fresh, cmds);
    ExecInv(Fresh, cmds);
    forall id | 0 <= id < |e.suites|
      ensures id in e.cleanups <==> Provides(e.suites[id].fixture, AfterAll) && Project(e.log, id) != []
    {
      assert SuiteInv(e, id);
    }
  }

  /** Across any number of `Run` calls on any number of suites of one scope
      (fixture.go:81-88), BeforeAll is called at most once per suite, and
      only as the suite's very first action, that is during its first
      `Run`. */
  lemma BeforeAllAtMostOnce(cmds: seq<Command>)
    requires ValidProgram(cmds, 0)
    ensures var r := TestScope(cmds);
      forall id :: 0 <= id < |r.suites| ==> BeforeAllFirst(Project(r.log, id))
  {
    var e := Exec(Fresh, cmds);
    var r := Teardown(e);
    ExecInv(Fresh, cmds);
    TeardownAppends(e);
    var t := r.log[|e.log|..];
    forall id | 0 <= id < |r.suites| ensures BeforeAllFirst(Project(r.log, id)) {
      assert SuiteInv(e, id);
      ProjectAppend(e.log, t, id);
      ProjectAllHook(t, id, AfterAll);
      BeforeAllFirstAppend(Project(e.log, id), Project(t, id));
    }
  }

  /** Appending AfterAll calls keeps BeforeAll first. */
  lemma BeforeAllFirstAppend(p: seq<Action>, q: seq<Action>)
    requires BeforeAllFirst(p) && AllHook(q, AfterAll)
    ensures BeforeAllFirst(p + q)
  {
    NoBeforeAllAppend(p, q);
  }

  /** The AfterAll cleanup (fixture.go:68-79, exercised by
      fixture_test.go:40-50): after the scope ends, a suite's actions are
      those of the scope's code, in which AfterAll never appears, followed
      by exactly one AfterAll call when its fixture has AfterAll and a `Run`
      on it began (even if BeforeAll then failed), and by nothing
      otherwise. So AfterAll comes once, last, after every body. */
  lemma AfterAllOnceAndLast(cmds: seq<Command>)
    requires ValidProgram(cmds, 0)
    ensures var e := Exec(Fresh, cmds);
      var r := TestScope(cmds);
      |r.suites| == |e.suites| &&
      forall id :: 0 <= id < |e.suites| ==> AfterAllAppended(e, r, id)
  {
    var e := Exec(Fresh, cmds);
    var r := Teardown(e);
    ExecInv(Fresh, cmds);
    TeardownAppends(e);
    var t := r.log[|e.log|..];
    forall id | 0 <= id < |e.suites| ensures AfterAllAppended(e, r, id) {
      TeardownOfSuite(e, r, t, id);
    }
  }

  /** The teardown only appends AfterAll calls, one per registered
      cleanup, latest registration first. */
  lemma TeardownAppends(e: Scope)
    requires CleanupsOk(e)
    ensures var r := Teardown(e);
      var t := r.log[|e.log|..];
      && r.log == e.log + t
      && AllHook(t, AfterAll)
      && Suites(t) == Reverse(e.cleanups)
      && |r.suites| == |e.suites|
  {
    TeardownSuffix(e.log, Teardown(e).log);
    TeardownHooks(e);
  }

  lemma TeardownSuffix(l: seq<Action>, m: seq<Action>)
    requires |l| <= |m| && m[..|l|] == l
    ensures m == l + m[|l|..]
  {
  }

  lemma TeardownHooks(e: Scope)
    requires CleanupsOk(e)
    ensures var r := Teardown(e);
      AllHook(r.log[|e.log|..], AfterAll)
  {
    var r := Teardown(e);
    var t := r.log[|e.log|..];
    forall i | 0 <= i < |t| ensures t[i].Hooked? && t[i].hook == AfterAll {
      assert t[i] == r.log[|e.log| + i];
    }
  }

  /** Suite `id`'s actions at the end of the scope `r` are its actions when
      the scope's code `e` finished, with no AfterAll among them, followed
      by one AfterAll call exactly when its fixture has AfterAll and a
      `Run` on it began. */
  predicate AfterAllAppended(e: Scope, r: Scope, id: nat)
    requires id < |e.suites|
  {
    var p := Project(e.log, id);
    var q := Project(r.log, id);
    && NoAfterAll(p)
    && |q| == |p| + (if Provides(e.suites[id].fixture, AfterAll) && p != [] then 1 else 0)
    && q[..|p|] == p
    && (|q| > |p| ==> IsHook(q[|p|], AfterAll))
  }

  lemma TeardownOfSuite(e: Scope, r: Scope, t: seq<Action>, id: nat)
    requires Inv(e) && id < |e.suites|
    requires r.log == e.log + t && AllHook(t, AfterAll)
    requires Suites(t) == Reverse(e.cleanups)
    ensures AfterAllAppended(e, r, id)
  {
    assert SuiteInv(e, id);
    ReverseMultiset(e.cleanups);
    ProjectAppend(e.log, t, id);
    ProjectCount(t, id);
    DistinctCount(e.cleanups, id);
    ProjectAllHook(t, id, AfterAll);
    var p := Project(e.log, id);
    var q := Project(t, id);
    assert (p + q)[..|p|] == p;
    if |q| > 0 {
      assert (p + q)[|p|] == q[0];
    }
  }
}
