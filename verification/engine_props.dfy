/** What the suite engine promises over one `Run` and over a whole scope:
    the order of the phases, BeforeAll at most once and first, the AfterAll
    cleanup registered at most once and run last, errors ending the scope. */
module EngineProps {
  import opened Hooks
  import opened Fixtures
  import opened Engine

  /** The lifecycle position of an action: BeforeAll, BeforeEach, body,
      AfterEach, AfterAll. */
  function Rank(a: Action): nat
  {
    match a
    case Ran(_, _, _, _) => 2
    case Hooked(_, h, _, _) =>
      match h
      case BeforeAll => 0
      case BeforeEach => 1
      case AfterEach => 3
      case AfterAll => 4
  }

  function Kinds(a: seq<Action>): (k: seq<nat>)
    ensures |k| == |a|
    ensures forall i :: 0 <= i < |a| ==> k[i] == Rank(a[i])
  {
    seq(|a|, i requires 0 <= i < |a| => Rank(a[i]))
  }

  /** Each lifecycle position occurs at most once, in lifecycle order. */
  predicate InOrder(k: seq<nat>)
  {
    forall i, j :: 0 <= i < j < |k| ==> k[i] < k[j]
  }

  /** The one action of a zero-or-one-action piece failed. */
  predicate Failed(q: seq<Action>)
  {
    |q| > 0 && Fails(q[0])
  }

  /** Every action of `q` is a call of hook `h`. */
  predicate AllHook(q: seq<Action>, h: Hook)
  {
    forall i :: 0 <= i < |q| ==> q[i].Hooked? && q[i].hook == h
  }

  /** The pieces one `Run` appends are as `RunLog` describes them. */
  predicate LogPieces(sc: Scope, id: nat, name: string, test: TestFunc,
                      ba: seq<Action>, be: seq<Action>, body: seq<Action>, ae: seq<Action>)
    requires id < |sc.suites| && !sc.aborted
  {
    && PiecesShape(sc, id, name, test, ba, be, body, ae)
    && PiecesEffect(sc, id, name, test, ba, be, body, ae)
    && PiecesCalls(sc, id, name, test, ba, be, body, ae)
  }

  /** The fixture a `Run`'s per-test phases see: the state BeforeAll left
      when this `Run` called it, else the suite's fixture as it was. */
  function Prepared(s: Suite): (g: Fixture)
    ensures Erase(g) == Erase(s.fixture)
  {
    if !s.testRun && Provides(s.fixture, BeforeAll) then Visit(s.fixture, BeforeAll).fixture
    else s.fixture
  }

  /** What each piece is: BeforeAll called on the suite's fixture, then
      BeforeEach, the body and AfterEach on the fixture BeforeAll left,
      which is also the suite's fixture afterwards. */
  predicate PiecesCalls(sc: Scope, id: nat, name: string, test: TestFunc,
                        ba: seq<Action>, be: seq<Action>, body: seq<Action>, ae: seq<Action>)
    requires id < |sc.suites| && !sc.aborted
  {
    var s := sc.suites[id];
    var g := Prepared(s);
    var sub := test(g);
    && Run(sc, id, name, test).suites[id].fixture == g
    && (ba == [] || ba == [Call(id, s.fixture, BeforeAll)])
    && (be == [] || be == [Call(id, g, BeforeEach)])
    && (body == [] || body == [Ran(id, name, sub.events, sub.failed)])
    && (ae == [] || ae == [Call(id, g, AfterEach)])
  }

  /** Which pieces are present and what each one is. */
  predicate PiecesShape(sc: Scope, id: nat, name: string, test: TestFunc,
                        ba: seq<Action>, be: seq<Action>, body: seq<Action>, ae: seq<Action>)
    requires id < |sc.suites| && !sc.aborted
  {
    var s := sc.suites[id];
    var r := Run(sc, id, name, test);
    var sub := test(r.suites[id].fixture);
    && r.log[|sc.log|..] == ba + be + body + ae
    && |ba| == (if !s.testRun && Provides(s.fixture, BeforeAll) then 1 else 0)
    && AllHook(ba, BeforeAll)
    && |be| == (if !Failed(ba) && Provides(s.fixture, BeforeEach) then 1 else 0)
    && AllHook(be, BeforeEach)
    && |body| == (if !Failed(ba) && !Failed(be) then 1 else 0)
    && (body == [] || body == [Ran(id, name, sub.events, sub.failed)])
    && |ae| == (if |body| == 1 && Provides(s.fixture, AfterEach) then 1 else 0)
    && AllHook(ae, AfterEach)
  }

  /** What the pieces did to the scope's flags and the suite's `testRun`. */
  predicate PiecesEffect(sc: Scope, id: nat, name: string, test: TestFunc,
                         ba: seq<Action>, be: seq<Action>, body: seq<Action>, ae: seq<Action>)
    requires id < |sc.suites| && !sc.aborted
  {
    var r := Run(sc, id, name, test);
    var sub := test(r.suites[id].fixture);
    && (r.aborted <==> Failed(ba) || Failed(be) || Failed(ae))
    && (r.suites[id].testRun <==> !Failed(ba))
    && (r.failed <==> sc.failed || r.aborted || (|body| == 1 && sub.failed))
  }

  /** The actions one `Run` appends, piece by piece: the BeforeAll call,
      the BeforeEach call, the body, the AfterEach call, each present or
      not. */
  lemma RunLog(sc: Scope, id: nat, name: string, test: TestFunc)
    returns (ba: seq<Action>, be: seq<Action>, body: seq<Action>, ae: seq<Action>)
    requires id < |sc.suites| && !sc.aborted
    ensures LogPieces(sc, id, name, test, ba, be, body, ae)
  {
    var s0 := RegisterAfterAll(sc, id);
    var s1 := BeforeAllPhase(s0, id);
    ba := s1.log[|sc.log|..];
    be, body, ae := [], [], [];
    if s1.aborted {
      RunLogBeforeAllFails(sc, id, name, test, ba);
    } else {
      var s2 := EachPhase(s1, id, BeforeEach);
      be := s2.log[|s1.log|..];
      if s2.aborted {
        RunLogBeforeEachFails(sc, id, name, test, ba, be);
      } else {
        var s3 := BodyPhase(s2, id, name, test);
        var s4 := EachPhase(s3, id, AfterEach);
        body := s3.log[|s2.log|..];
        ae := s4.log[|s3.log|..];
        RunLogFull(sc, id, name, test, ba, be, body, ae);
      }
    }
  }

  lemma RunLogBeforeAllFails(sc: Scope, id: nat, name: string, test: TestFunc, ba: seq<Action>)
    requires id < |sc.suites| && !sc.aborted
    requires var s1 := BeforeAllPhase(RegisterAfterAll(sc, id), id);
      s1.aborted && ba == s1.log[|sc.log|..]
    ensures LogPieces(sc, id, name, test, ba, [], [], [])
  {
    assert ba + [] + [] + [] == ba;
  }

  lemma RunLogBeforeEachFails(sc: Scope, id: nat, name: string, test: TestFunc, ba: seq<Action>, be: seq<Action>)
    requires id < |sc.suites| && !sc.aborted
    requires !BeforeAllPhase(RegisterAfterAll(sc, id), id).aborted
    requires var s1 := BeforeAllPhase(RegisterAfterAll(sc, id), id);
      var s2 := EachPhase(s1, id, BeforeEach);
      s2.aborted && ba == s1.log[|sc.log|..] && be == s2.log[|s1.log|..]
    ensures LogPieces(sc, id, name, test, ba, be, [], [])
  {
    var s := sc.suites[id];
    var s1 := BeforeAllPhase(RegisterAfterAll(sc, id), id);
    var r := Run(sc, id, name, test);
    ProvidesErased(s1.suites[id].fixture, s.fixture, BeforeEach);
    assert r.log[|sc.log|..] == ba + be + [] + [];
  }

  lemma RunLogFull(sc: Scope, id: nat, name: string, test: TestFunc,
                   ba: seq<Action>, be: seq<Action>, body: seq<Action>, ae: seq<Action>)
    requires id < |sc.suites| && !sc.aborted
    requires !BeforeAllPhase(RegisterAfterAll(sc, id), id).aborted
    requires !EachPhase(BeforeAllPhase(RegisterAfterAll(sc, id), id), id, BeforeEach).aborted
    requires var s1 := BeforeAllPhase(RegisterAfterAll(sc, id), id);
      var s2 := EachPhase(s1, id, BeforeEach);
      var s3 := BodyPhase(s2, id, name, test);
      var s4 := EachPhase(s3, id, AfterEach);
      && ba == s1.log[|sc.log|..] && be == s2.log[|s1.log|..]
      && body == s3.log[|s2.log|..] && ae == s4.log[|s3.log|..]
    ensures LogPieces(sc, id, name, test, ba, be, body, ae)
  {
    RunLogFullShape(sc, id, name, test, ba, be, body, ae);
    RunLogFullEffect(sc, id, name, test, ba, be, body, ae);
    RunLogFullCalls(sc, id, name, test, ba, be, body, ae);
  }

  lemma RunLogFullCalls(sc: Scope, id: nat, name: string, test: TestFunc,
                   ba: seq<Action>, be: seq<Action>, body: seq<Action>, ae: seq<Action>)
    requires id < |sc.suites| && !sc.aborted
    requires !BeforeAllPhase(RegisterAfterAll(sc, id), id).aborted
    requires !EachPhase(BeforeAllPhase(RegisterAfterAll(sc, id), id), id, BeforeEach).aborted
    requires var s1 := BeforeAllPhase(RegisterAfterAll(sc, id), id);
      var s2 := EachPhase(s1, id, BeforeEach);
      var s3 := BodyPhase(s2, id, name, test);
      var s4 := EachPhase(s3, id, AfterEach);
      && ba == s1.log[|sc.log|..] && be == s2.log[|s1.log|..]
      && body == s3.log[|s2.log|..] && ae == s4.log[|s3.log|..]
    ensures PiecesCalls(sc, id, name, test, ba, be, body, ae)
  {
    var s1 := BeforeAllPhase(RegisterAfterAll(sc, id), id);
    var s2 := EachPhase(s1, id, BeforeEach);
    var s3 := BodyPhase(s2, id, name, test);
    assert s1.suites[id].fixture == Prepared(sc.suites[id]);
    assert s3.suites[id] == s2.suites[id] == s1.suites[id];
  }

  lemma RunLogFullShape(sc: Scope, id: nat, name: string, test: TestFunc,
                   ba: seq<Action>, be: seq<Action>, body: seq<Action>, ae: seq<Action>)
    requires id < |sc.suites| && !sc.aborted
    requires !BeforeAllPhase(RegisterAfterAll(sc, id), id).aborted
    requires !EachPhase(BeforeAllPhase(RegisterAfterAll(sc, id), id), id, BeforeEach).aborted
    requires var s1 := BeforeAllPhase(RegisterAfterAll(sc, id), id);
      var s2 := EachPhase(s1, id, BeforeEach);
      var s3 := BodyPhase(s2, id, name, test);
      var s4 := EachPhase(s3, id, AfterEach);
      && ba == s1.log[|sc.log|..] && be == s2.log[|s1.log|..]
      && body == s3.log[|s2.log|..] && ae == s4.log[|s3.log|..]
    ensures PiecesShape(sc, id, name, test, ba, be, body, ae)
  {
    RunLogFullOrder(sc, id, name, test, ba, be, body, ae);
    RunLogFullCounts(sc, id, name, test, ba, be, body, ae);
  }

  lemma RunLogFullOrder(sc: Scope, id: nat, name: string, test: TestFunc,
                   ba: seq<Action>, be: seq<Action>, body: seq<Action>, ae: seq<Action>)
    requires id < |sc.suites| && !sc.aborted
    requires !BeforeAllPhase(RegisterAfterAll(sc, id), id).aborted
    requires !EachPhase(BeforeAllPhase(RegisterAfterAll(sc, id), id), id, BeforeEach).aborted
    requires var s1 := BeforeAllPhase(RegisterAfterAll(sc, id), id);
      var s2 := EachPhase(s1, id, BeforeEach);
      var s3 := BodyPhase(s2, id, name, test);
      var s4 := EachPhase(s3, id, AfterEach);
      && ba == s1.log[|sc.log|..] && be == s2.log[|s1.log|..]
      && body == s3.log[|s2.log|..] && ae == s4.log[|s3.log|..]
    ensures var r := Run(sc, id, name, test);
      var sub := test(r.suites[id].fixture);
      && r.log[|sc.log|..] == ba + be + body + ae
      && body == [Ran(id, name, sub.events, sub.failed)]
  {
    var s1 := BeforeAllPhase(RegisterAfterAll(sc, id), id);
    var s2 := EachPhase(s1, id, BeforeEach);
    var s3 := BodyPhase(s2, id, name, test);
    var s4 := EachPhase(s3, id, AfterEach);
    var r := Run(sc, id, name, test);
    assert r == s4;
    var sub := test(s2.suites[id].fixture);
    assert r.suites[id] == s2.suites[id];
    assert body == [Ran(id, name, sub.events, sub.failed)];
    assert s3.log == s2.log + body;
    assert s4.log == s3.log + ae;
    LogSuffix(sc.log, s1.log, s2.log, s3.log, s4.log, ba, be, body, ae);
  }

  lemma RunLogFullCounts(sc: Scope, id: nat, name: string, test: TestFunc,
                   ba: seq<Action>, be: seq<Action>, body: seq<Action>, ae: seq<Action>)
    requires id < |sc.suites| && !sc.aborted
    requires !BeforeAllPhase(RegisterAfterAll(sc, id), id).aborted
    requires !EachPhase(BeforeAllPhase(RegisterAfterAll(sc, id), id), id, BeforeEach).aborted
    requires var s1 := BeforeAllPhase(RegisterAfterAll(sc, id), id);
      var s2 := EachPhase(s1, id, BeforeEach);
      var s3 := BodyPhase(s2, id, name, test);
      var s4 := EachPhase(s3, id, AfterEach);
      && ba == s1.log[|sc.log|..] && be == s2.log[|s1.log|..]
      && body == s3.log[|s2.log|..] && ae == s4.log[|s3.log|..]
    ensures var s := sc.suites[id];
      && |ba| == (if !s.testRun && Provides(s.fixture, BeforeAll) then 1 else 0)
      && AllHook(ba, BeforeAll)
      && |be| == (if !Failed(ba) && Provides(s.fixture, BeforeEach) then 1 else 0)
      && AllHook(be, BeforeEach)
      && |body| == 1
      && |ae| == (if Provides(s.fixture, AfterEach) then 1 else 0)
      && AllHook(ae, AfterEach)
  {
    var s := sc.suites[id];
    var s1 := BeforeAllPhase(RegisterAfterAll(sc, id), id);
    var s2 := EachPhase(s1, id, BeforeEach);
    var s3 := BodyPhase(s2, id, name, test);
    ProvidesErased(s1.suites[id].fixture, s.fixture, BeforeEach);
    ProvidesErased(s1.suites[id].fixture, s.fixture, AfterEach);
    assert s3.suites[id] == s2.suites[id];
  }

  lemma RunLogFullEffect(sc: Scope, id: nat, name: string, test: TestFunc,
                   ba: seq<Action>, be: seq<Action>, body: seq<Action>, ae: seq<Action>)
    requires id < |sc.suites| && !sc.aborted
    requires !BeforeAllPhase(RegisterAfterAll(sc, id), id).aborted
    requires !EachPhase(BeforeAllPhase(RegisterAfterAll(sc, id), id), id, BeforeEach).aborted
    requires var s1 := BeforeAllPhase(RegisterAfterAll(sc, id), id);
      var s2 := EachPhase(s1, id, BeforeEach);
      var s3 := BodyPhase(s2, id, name, test);
      var s4 := EachPhase(s3, id, AfterEach);
      && ba == s1.log[|sc.log|..] && be == s2.log[|s1.log|..]
      && body == s3.log[|s2.log|..] && ae == s4.log[|s3.log|..]
    ensures PiecesEffect(sc, id, name, test, ba, be, body, ae)
  {
    var s := sc.suites[id];
    var s1 := BeforeAllPhase(RegisterAfterAll(sc, id), id);
    var s2 := EachPhase(s1, id, BeforeEach);
    var s3 := BodyPhase(s2, id, name, test);
    var s4 := EachPhase(s3, id, AfterEach);
    var r := Run(sc, id, name, test);
    assert r == s4;
    assert r.suites[id] == s2.suites[id];
    ProvidesErased(s1.suites[id].fixture, s.fixture, AfterEach);
  }

  /** Four successive extensions of a log, seen from the first. */
  lemma LogSuffix(l0: seq<Action>, l1: seq<Action>, l2: seq<Action>, l3: seq<Action>, l4: seq<Action>,
                  ba: seq<Action>, be: seq<Action>, body: seq<Action>, ae: seq<Action>)
    requires |l0| <= |l1| && l1[..|l0|] == l0 && ba == l1[|l0|..]
    requires |l1| <= |l2| && l2[..|l1|] == l1 && be == l2[|l1|..]
    requires l3 == l2 + body && l4 == l3 + ae
    ensures l4[|l0|..] == ba + be + body + ae
  {
    assert l2[|l0|..] == ba + be;
  }

  /** Within one `Run` (fixture.go:63-107) the actions come in lifecycle
      order, BeforeAll then BeforeEach then the body then AfterEach, each
      at most once; `Run` never calls AfterAll itself; and a hook error is
      the last thing `Run` does, ending the scope. */
  lemma RunPhases(sc: Scope, id: nat, name: string, test: TestFunc)
    requires id < |sc.suites| && !sc.aborted
    ensures var r := Run(sc, id, name, test);
      var a := r.log[|sc.log|..];
      && |a| > 0
      && InOrder(Kinds(a))
      && (forall i :: 0 <= i < |a| ==> Rank(a[i]) != 4)
      && (forall i :: 0 <= i < |a| - 1 ==> !Fails(a[i]))
      && (r.aborted <==> Fails(a[|a| - 1]))
  {
    var ba, be, body, ae := RunLog(sc, id, name, test);
    PiecesOrdered(ba, be, body, ae);
  }

  /** Pieces shaped as a `Run` appends them are in lifecycle order and only
      the last can fail. */
  lemma PiecesOrdered(ba: seq<Action>, be: seq<Action>, body: seq<Action>, ae: seq<Action>)
    requires |ba| <= 1 && AllHook(ba, BeforeAll)
    requires |be| <= 1 && AllHook(be, BeforeEach)
    requires |body| == (if !Failed(ba) && !Failed(be) then 1 else 0) && (forall i :: 0 <= i < |body| ==> body[i].Ran?)
    requires |ae| <= 1 && AllHook(ae, AfterEach) && (|ae| == 1 ==> |body| == 1)
    requires Failed(ba) ==> |be| == 0
    ensures var a := ba + be + body + ae;
      && |a| > 0
      && InOrder(Kinds(a))
      && (forall i :: 0 <= i < |a| ==> Rank(a[i]) != 4)
      && (forall i :: 0 <= i < |a| - 1 ==> !Fails(a[i]))
      && (Failed(ba) || Failed(be) || Failed(ae) <==> Fails(a[|a| - 1]))
  {
    var a := ba + be + body + ae;
    var k := Kinds(a);
    // the rank of every position, piece by piece
    forall i | 0 <= i < |a|
      ensures i < |ba| ==> k[i] == 0
      ensures |ba| <= i < |ba| + |be| ==> k[i] == 1
      ensures |ba| + |be| <= i < |ba| + |be| + |body| ==> k[i] == 2
      ensures |ba| + |be| + |body| <= i ==> k[i] == 3
    {
      if i < |ba| {
        assert a[i] == ba[i];
      } else if i < |ba| + |be| {
        assert a[i] == be[i - |ba|];
      } else if i < |ba| + |be| + |body| {
        assert a[i] == body[i - |ba| - |be|];
      } else {
        assert a[i] == ae[i - |ba| - |be| - |body|];
      }
    }
    if Failed(ba) {
      assert a == ba;
    } else if Failed(be) {
      assert a == ba + be;
    } else {
      assert |body| == 1;
      forall i | 0 <= i < |a| - 1 ensures !Fails(a[i]) {
        if i < |ba| {
          assert a[i] == ba[0];
        } else if i < |ba| + |be| {
          assert a[i] == be[0];
        }
      }
      if |ae| == 1 {
        assert a[|a| - 1] == ae[0];
      } else {
        assert a[|a| - 1] == body[0];
      }
    }
  }

  /** fixture.go:90-94: a BeforeEach error on any `Run` goes to `t.Fatal`.
      That `Run` ends with the failing call, after the BeforeAll call when
      this is the suite's first `Run`; neither the body nor AfterEach runs,
      and no later command of the scope runs either. */
  lemma BeforeEachFailureEndsScope(sc: Scope, id: nat, name: string, test: TestFunc, rest: seq<Command>)
    requires CleanupsOk(sc) && id < |sc.suites| && !sc.aborted
    requires ValidProgram(rest, |sc.suites|)
    requires var s := sc.suites[id];
      && !(!s.testRun && Provides(s.fixture, BeforeAll) && Visit(s.fixture, BeforeAll).outcome.Err?)
      && Provides(s.fixture, BeforeEach)
      && Visit(Prepared(s), BeforeEach).outcome.Err?
    ensures ValidProgram([RunTest(id, name, test)] + rest, |sc.suites|)
    ensures var s := sc.suites[id];
      var r := Exec(sc, [RunTest(id, name, test)] + rest);
      && r == Run(sc, id, name, test)
      && r.aborted && r.failed
      && r.log == sc.log
                  + (if !s.testRun && Provides(s.fixture, BeforeAll) then [Call(id, s.fixture, BeforeAll)] else [])
                  + [Call(id, Prepared(s), BeforeEach)]
  {
    var r := Run(sc, id, name, test);
    RunFrame(sc, id, name, test);
    var ba, be, body, ae := RunLog(sc, id, name, test);
    BeforeEachFailurePieces(sc, id, name, test, ba, be, body, ae);
    FatalRunEndsScope(sc, id, name, test, rest);
    SplitLog(r.log, sc.log, ba + be);
  }

  /** A log that extends `l` by `q`. */
  lemma SplitLog(full: seq<Action>, l: seq<Action>, q: seq<Action>)
    requires |full| >= |l| && full[..|l|] == l && full[|l|..] == q
    ensures full == l + q
  {
    assert full == full[..|l|] + full[|l|..];
  }

  /** A `Run` that ends in `t.Fatal` is the last command the scope runs:
      whatever follows it is skipped. */
  lemma FatalRunEndsScope(sc: Scope, id: nat, name: string, test: TestFunc, rest: seq<Command>)
    requires CleanupsOk(sc) && id < |sc.suites| && ValidProgram(rest, |sc.suites|)
    requires Run(sc, id, name, test).aborted
    ensures ValidProgram([RunTest(id, name, test)] + rest, |sc.suites|)
    ensures Exec(sc, [RunTest(id, name, test)] + rest) == Run(sc, id, name, test)
  {
    var cmds := [RunTest(id, name, test)] + rest;
    assert cmds[0] == RunTest(id, name, test) && cmds[1..] == rest;
    RunFrame(sc, id, name, test);
    if sc.aborted {
      assert Exec(sc, cmds) == sc;
    }
  }

  /** The pieces of a `Run` whose BeforeEach fails. */
  lemma BeforeEachFailurePieces(sc: Scope, id: nat, name: string, test: TestFunc,
                                ba: seq<Action>, be: seq<Action>, body: seq<Action>, ae: seq<Action>)
    requires id < |sc.suites| && !sc.aborted
    requires LogPieces(sc, id, name, test, ba, be, body, ae)
    requires var s := sc.suites[id];
      && !(!s.testRun && Provides(s.fixture, BeforeAll) && Visit(s.fixture, BeforeAll).outcome.Err?)
      && Provides(s.fixture, BeforeEach)
      && Visit(Prepared(s), BeforeEach).outcome.Err?
    ensures var s := sc.suites[id];
      var r := Run(sc, id, name, test);
      && r.aborted && r.failed
      && ba == (if !s.testRun && Provides(s.fixture, BeforeAll) then [Call(id, s.fixture, BeforeAll)] else [])
      && be == [Call(id, Prepared(s), BeforeEach)]
      && r.log[|sc.log|..] == ba + be
  {
    assert !Failed(ba);
    assert Failed(be);
    assert ba + be + body + ae == ba + be;
  }
}
