/** What the composite fixtures promise: `MultiFixture` visits its members
    first-to-last for before-hooks and last-to-first for after-hooks, skips
    members lacking the hook and stops at the first error; `TupleFixture`
    is exactly the composite of its two members once its BeforeAll has run. */
module Composite {
  import opened Hooks
  import opened Fixtures
  import opened Seqs

  /** Reference trace: every member of `ms`, in order, receives hook `h`
      and nothing stops early. */
  function EventsOf(ms: seq<Fixture>, h: Hook): seq<Event>
  {
    if |ms| == 0 then [] else Visit(ms[0], h).events + EventsOf(ms[1..], h)
  }

  /** Member `k` is the first member whose hook `h` fails. */
  predicate FailsFirstAt(ms: seq<Fixture>, h: Hook, k: int)
  {
    && 0 <= k < |ms|
    && Visit(ms[k], h).outcome.Err?
    && forall i :: 0 <= i < k ==> Visit(ms[i], h).outcome.Ok?
  }

  /** Members before `n` hold the state their hook call left them in; the
      members from `n` on were never called and are untouched. */
  predicate CalledUpTo(ms: seq<Fixture>, h: Hook, after: seq<Fixture>, n: int)
  {
    && |after| == |ms|
    && 0 <= n <= |ms|
    && (forall i :: 0 <= i < n ==> after[i] == Visit(ms[i], h).fixture)
    && (forall i :: n <= i < |ms| ==> after[i] == ms[i])
  }

  /** Reference stop point: the index of the first member whose hook `h`
      fails, or `|ms|` when none does. */
  function FirstFailure(ms: seq<Fixture>, h: Hook): (k: nat)
    ensures k <= |ms|
  {
    if |ms| == 0 then 0
    else if Visit(ms[0], h).outcome.Err? then 0
    else 1 + FirstFailure(ms[1..], h)
  }

  /** The first-failure index is the first failing member, and every
      member before it succeeds. */
  lemma {:induction false} FirstFailureIsFirst(ms: seq<Fixture>, h: Hook)
    ensures var k := FirstFailure(ms, h);
      && (forall i :: 0 <= i < k ==> Visit(ms[i], h).outcome.Ok?)
      && (k < |ms| ==> Visit(ms[k], h).outcome.Err?)
    decreases |ms|
  {
    if |ms| > 0 && Visit(ms[0], h).outcome.Ok? {
      var tail := ms[1..];
      FirstFailureIsFirst(tail, h);
      assert forall i :: 1 <= i < |ms| ==> ms[i] == tail[i - 1];
    }
  }

  /** The front-to-back fan-out writes what the members up to and
      including the first failing one write, in order, and returns that
      member's error (nil when no member fails). */
  predicate FanStops(ms: seq<Fixture>, h: Hook)
  {
    var r := FanForward(ms, h);
    var k := FirstFailure(ms, h);
    && (k == |ms| ==> r.outcome == Ok && r.events == EventsOf(ms, h))
    && (k < |ms| ==> r.outcome == Visit(ms[k], h).outcome && r.events == EventsOf(ms[..k + 1], h))
  }

  lemma {:induction false} FanForwardStops(ms: seq<Fixture>, h: Hook)
    ensures FanStops(ms, h)
    decreases |ms|
  {
    if |ms| > 0 {
      if Visit(ms[0], h).outcome.Err? {
        FanStopsHere(ms, h);
      } else {
        FanForwardStops(ms[1..], h);
        FanStopsLater(ms, h);
      }
    }
  }

  lemma FanStopsHere(ms: seq<Fixture>, h: Hook)
    requires |ms| > 0 && Visit(ms[0], h).outcome.Err?
    ensures FanStops(ms, h)
  {
    var s := Visit(ms[0], h);
    assert ms[..1][1..] == [];
    assert EventsOf(ms[..1], h) == s.events + EventsOf([], h);
  }

  lemma FanStopsLater(ms: seq<Fixture>, h: Hook)
    requires |ms| > 0 && Visit(ms[0], h).outcome.Ok? && FanStops(ms[1..], h)
    ensures FanStops(ms, h)
  {
    var tail := ms[1..];
    FanForwardPasses(ms, h);
    var k := FirstFailure(tail, h);
    if k < |tail| {
      EventsOfPrefix(ms, h, k);
      assert ms[k + 1] == tail[k];
    }
  }

  /** Past a first member whose hook succeeds, the fan-out goes on with
      the rest. */
  lemma FanForwardPasses(ms: seq<Fixture>, h: Hook)
    requires |ms| > 0 && Visit(ms[0], h).outcome.Ok?
    ensures FanForward(ms, h).outcome == FanForward(ms[1..], h).outcome
    ensures FanForward(ms, h).events == Visit(ms[0], h).events + FanForward(ms[1..], h).events
    ensures FirstFailure(ms, h) == FirstFailure(ms[1..], h) + 1
  {
  }

  lemma EventsOfPrefix(ms: seq<Fixture>, h: Hook, k: nat)
    requires k + 1 < |ms|
    ensures EventsOf(ms[..k + 2], h) == Visit(ms[0], h).events + EventsOf(ms[1..][..k + 1], h)
  {
    assert ms[..k + 2][1..] == ms[1..][..k + 1];
  }

  /** Members up to and including the first failing one are left in the
      state their hook call produced; no member after it is touched. */
  lemma {:induction false} FanForwardCalls(ms: seq<Fixture>, h: Hook)
    ensures var k := FirstFailure(ms, h);
      CalledUpTo(ms, h, FanForward(ms, h).members, if k == |ms| then k else k + 1)
    decreases |ms|
  {
    if |ms| > 0 {
      var s := Visit(ms[0], h);
      if s.outcome.Ok? {
        var tail := ms[1..];
        FanForwardCalls(tail, h);
        assert FanForward(ms, h).members == [s.fixture] + FanForward(tail, h).members;
        assert forall i :: 1 <= i < |ms| ==> ms[i] == tail[i - 1];
      }
    }
  }

  /** The fan-out succeeds exactly when every member's hook does. */
  lemma FanForwardOk(ms: seq<Fixture>, h: Hook)
    ensures FanForward(ms, h).outcome.Ok? <==> AllOk(ms, h)
  {
    FirstFailureIsFirst(ms, h);
    FanForwardStops(ms, h);
  }

  /** The back-to-front fan-out is the front-to-back one over the reversed
      member list. */
  lemma {:induction false} FanBackwardIsReversed(ms: seq<Fixture>, h: Hook)
    requires !h.IsBefore()
    ensures FanBackward(ms, h).outcome == FanForward(Reverse(ms), h).outcome
    ensures FanBackward(ms, h).events == FanForward(Reverse(ms), h).events
    decreases |ms|
  {
    if |ms| > 0 {
      var init := ms[..|ms| - 1];
      assert Reverse(ms)[1..] == Reverse(init);
      FanBackwardIsReversed(init, h);
    }
  }

  /** MultiFixture.BeforeAll and .BeforeEach: members 0..n-1, members
      lacking the hook skipped, the first error returned and nothing after
      it called. */
  lemma MultiBeforeOrder(ms: seq<Fixture>, h: Hook)
    requires h.IsBefore()
    ensures var r := Visit(Multi(ms), h);
      var k := FirstFailure(ms, h);
      && r.fixture.Multi?
      && CalledUpTo(ms, h, r.fixture.members, if k == |ms| then k else k + 1)
      && (r.outcome.Ok? <==> AllOk(ms, h))
      && (r.outcome.Ok? ==> r.events == EventsOf(ms, h))
      && (r.outcome.Err? ==>
            && FailsFirstAt(ms, h, k)
            && r.outcome == Visit(ms[k], h).outcome
            && r.events == EventsOf(ms[..k + 1], h))
  {
    MultiBeforeVisit(ms, h);
    FanForwardOk(ms, h);
    FanForwardStops(ms, h);
    FanForwardCalls(ms, h);
    FirstFailureIsFirst(ms, h);
  }

  /** A composite's before-hook is the front-to-back fan-out over its
      members. */
  lemma MultiBeforeVisit(ms: seq<Fixture>, h: Hook)
    requires h.IsBefore()
    ensures var r := Visit(Multi(ms), h);
      && r.fixture == Multi(FanForward(ms, h).members)
      && r.outcome == FanForward(ms, h).outcome
      && r.events == FanForward(ms, h).events
  {
  }

  /** MultiFixture.AfterAll and .AfterEach: members n-1..0, members lacking
      the hook skipped, the first error returned and nothing after it (in
      that order) called. The members keep their state. */
  lemma MultiAfterOrder(ms: seq<Fixture>, h: Hook)
    requires !h.IsBefore()
    ensures var r := Visit(Multi(ms), h);
      var rev := Reverse(ms);
      && r.fixture == Multi(ms)
      && (r.outcome.Ok? <==> AllOk(ms, h))
      && (r.outcome.Ok? ==> r.events == EventsOf(rev, h))
      && (r.outcome.Err? ==>
            var k := FirstFailure(rev, h);
            && FailsFirstAt(rev, h, k)
            && r.outcome == Visit(rev[k], h).outcome
            && r.events == EventsOf(rev[..k + 1], h))
  {
    var rev := Reverse(ms);
    MultiAfterVisit(ms, h);
    FanForwardOk(rev, h);
    FanForwardStops(rev, h);
    FirstFailureIsFirst(rev, h);
    ReverseAllOk(ms, h);
  }

  /** A composite's after-hook is the front-to-back fan-out over its
      reversed members. */
  lemma MultiAfterVisit(ms: seq<Fixture>, h: Hook)
    requires !h.IsBefore()
    ensures var r := Visit(Multi(ms), h);
      && r.fixture == Multi(ms)
      && r.outcome == FanForward(Reverse(ms), h).outcome
      && r.events == FanForward(Reverse(ms), h).events
  {
    FanBackwardIsReversed(ms, h);
  }

  /** Every member's hook `h` succeeds. */
  predicate AllOk(ms: seq<Fixture>, h: Hook)
  {
    forall i :: 0 <= i < |ms| ==> Visit(ms[i], h).outcome.Ok?
  }

  /** Every member succeeds exactly when every member of the reversed
      list does. */
  lemma ReverseAllOk(ms: seq<Fixture>, h: Hook)
    ensures AllOk(ms, h) <==> AllOk(Reverse(ms), h)
  {
    if AllOk(ms, h) {
      AllOkToReverse(ms, h);
    }
    if AllOk(Reverse(ms), h) {
      AllOkFromReverse(ms, h);
    }
  }

  lemma AllOkToReverse(ms: seq<Fixture>, h: Hook)
    requires AllOk(ms, h)
    ensures AllOk(Reverse(ms), h)
  {
    var rev := Reverse(ms);
    forall i | 0 <= i < |rev| ensures Visit(rev[i], h).outcome.Ok? {
      assert rev[i] == ms[|ms| - 1 - i];
    }
  }

  lemma AllOkFromReverse(ms: seq<Fixture>, h: Hook)
    requires AllOk(Reverse(ms), h)
    ensures AllOk(ms, h)
  {
    var rev := Reverse(ms);
    forall i | 0 <= i < |ms| ensures Visit(ms[i], h).outcome.Ok? {
      assert ms[i] == rev[|ms| - 1 - i];
    }
  }

  /** An empty MultiFixture returns nil from every hook and writes nothing. */
  lemma EmptyMultiIsNoop(h: Hook)
    ensures Visit(Multi([]), h) == Step(Ok, Multi([]), [])
  {
  }

  /** A recording fixture that implements every hook and never fails. */
  predicate Recorder(f: Fixture)
  {
    f.Leaf? && forall h: Hook :: h in f.hooks && f.hooks[h] == Ok
  }

  /** Two recording fixtures A, B combined: before-hooks write A then B,
      after-hooks write B then A. */
  lemma TwoRecordersOrder(a: Fixture, b: Fixture, h: Hook)
    requires Recorder(a) && Recorder(b)
    ensures var r := Visit(Multi([a, b]), h);
      && r.outcome == Ok
      && r.events == if h.IsBefore()
                     then [Invoked(a.name, h), Invoked(b.name, h)]
                     else [Invoked(b.name, h), Invoked(a.name, h)]
  {
    var ms := [a, b];
    assert ms[1..] == [b];
    assert [b][1..] == [];
    assert EventsOf([b], h) == [Invoked(b.name, h)] + EventsOf([], h);
    if h.IsBefore() {
      MultiBeforeOrder(ms, h);
    } else {
      MultiAfterOrder(ms, h);
      var rev := Reverse(ms);
      assert rev == [b, a];
      assert rev[1..] == [a];
      assert [a][1..] == [];
      assert EventsOf([a], h) == [Invoked(a.name, h)] + EventsOf([], h);
    }
  }

  /** TupleFixture.BeforeAll assembles `m = MultiFixture{One, Two}` (even
      when a member's BeforeAll then fails) and returns what that
      composite's BeforeAll returns. */
  lemma TupleBeforeAllBuilds(a: Fixture, b: Fixture, built: bool)
    ensures var r := Visit(Tuple(a, b, built), BeforeAll);
      var m := Visit(Multi([a, b]), BeforeAll);
      && r.fixture.Tuple?
      && r.fixture.built
      && r.outcome == m.outcome
      && r.events == m.events
      && m.fixture == Multi(Composite(r.fixture))
  {
    var r := FanForward([a, b], BeforeAll);
    assert r.members == [r.members[0], r.members[1]];
  }

  /** Every other TupleFixture hook delegates to the composite `m` as it
      stands: before the BeforeAll has run, that is the empty composite. */
  lemma TupleDelegates(a: Fixture, b: Fixture, built: bool, h: Hook)
    requires h != BeforeAll
    ensures var t := Tuple(a, b, built);
      var r := Visit(t, h);
      var m := Visit(Multi(Composite(t)), h);
      && r.fixture == t
      && r.outcome == m.outcome
      && r.events == m.events
  {
  }

  /** Before its BeforeAll has run, a tuple's other hooks do nothing. */
  lemma UnbuiltTupleIsNoop(a: Fixture, b: Fixture, h: Hook)
    requires h != BeforeAll
    ensures Visit(Tuple(a, b, false), h) == Step(Ok, Tuple(a, b, false), [])
  {
    TupleDelegates(a, b, false, h);
  }

  /** No hook replaces a tuple's members: `One` and `Two` stay the fixtures
      the tuple was made of (a recording member is even the very same
      value). */
  lemma TupleKeepsMembers(a: Fixture, b: Fixture, built: bool, h: Hook)
    ensures var r := Visit(Tuple(a, b, built), h).fixture;
      && r.Tuple?
      && Erase(r.one) == Erase(a)
      && Erase(r.two) == Erase(b)
      && (a.Leaf? ==> r.one == a)
      && (b.Leaf? ==> r.two == b)
  {
    var r := Visit(Tuple(a, b, built), h).fixture;
    assert Erase(r) == Erase(Tuple(a, b, built));
    ProvidesErased(r, Tuple(a, b, built), h);
  }
}
