/** Fixtures and the hook calls on them: a recording leaf fixture, the
    composite `MultiFixture` and the pair `TupleFixture` (fixture.go:117-197). */
module Fixtures {
  import opened Hooks

  /** A fixture value, described by which hooks it provides.
      - `Leaf` is any user value: `hooks` holds the outcome of each hook the
        value implements (a missing key is a hook it lacks) and `name` is
        what it prints when a hook is called.
      - `Multi` is a `MultiFixture`: it implements all four hooks.
      - `Tuple` is a `*TupleFixture`: it implements all four hooks and keeps
        its internal composite `m`, which is `[one, two]` once `built` (its
        BeforeAll assembles it) and the empty composite before that. */
  datatype Fixture =
    | Leaf(name: string, hooks: map<Hook, Outcome>)
    | Multi(members: seq<Fixture>)
    | Tuple(one: Fixture, two: Fixture, built: bool)

  /** The dynamic interface check `fix.(BeforeAll)` and its three siblings. */
  predicate Provides(f: Fixture, h: Hook)
  {
    match f
    case Leaf(_, hooks) => h in hooks
    case Multi(_) => true
    case Tuple(_, _, _) => true
  }

  /** The members a tuple's internal composite holds right now. */
  function Composite(f: Fixture): (r: seq<Fixture>)
    requires f.Tuple?
    ensures |r| == if f.built then 2 else 0
  {
    if f.built then [f.one, f.two] else []
  }

  /** A fixture with every hook state forgotten: what stays fixed for the
      fixture's whole life (its kind, its members, its labels and hooks). */
  function Erase(f: Fixture): Fixture
    decreases Size(f), 1
  {
    match f
    case Leaf(_, _) => f
    case Multi(ms) => Multi(EraseAll(ms))
    case Tuple(a, b, _) => Tuple(Erase(a), Erase(b), false)
  }

  function EraseAll(ms: seq<Fixture>): (r: seq<Fixture>)
    ensures |r| == |ms|
    decreases SizeAll(ms), 2
  {
    if |ms| == 0 then [] else [Erase(ms[0])] + EraseAll(ms[1..])
  }

  /** Two fixtures with the same erasure provide the same hooks. */
  lemma ProvidesErased(f: Fixture, g: Fixture, h: Hook)
    requires Erase(f) == Erase(g)
    ensures Provides(f, h) == Provides(g, h)
  {
  }

  function Size(f: Fixture): (r: nat)
    ensures r >= 1
  {
    match f
    case Leaf(_, _) => 1
    case Multi(ms) => 1 + SizeAll(ms)
    case Tuple(a, b, _) => 1 + Size(a) + Size(b)
  }

  function SizeAll(ms: seq<Fixture>): nat
  {
    if |ms| == 0 then 0 else Size(ms[0]) + SizeAll(ms[1..])
  }

  lemma {:induction false} SizeAllLast(ms: seq<Fixture>)
    requires |ms| > 0
    ensures SizeAll(ms) == SizeAll(ms[..|ms| - 1]) + Size(ms[|ms| - 1])
    decreases |ms|
  {
    if |ms| > 1 {
      assert ms[1..][..|ms[1..]| - 1] == ms[..|ms| - 1][1..];
      SizeAllLast(ms[1..]);
    }
  }

  /** Size and erasure of a two-member composite, member by member. */
  lemma PairLemmas(a: Fixture, b: Fixture)
    ensures SizeAll([a, b]) == Size(a) + Size(b)
    ensures EraseAll([a, b]) == [Erase(a), Erase(b)]
  {
    assert [a, b][1..] == [b];
    assert [b][1..] == [];
    assert SizeAll([b]) == Size(b) + SizeAll([]);
  }

  /** The result of one hook call: its error, the fixture's new state and
      what the call wrote to the buffer. */
  datatype Step = Step(outcome: Outcome, fixture: Fixture, events: seq<Event>)

  /** The result of fanning a hook out over composite members. */
  datatype Fan = Fan(outcome: Outcome, members: seq<Fixture>, events: seq<Event>)

  /** Calls hook `h` on `f` the way every call site in fixture.go does: if
      `f` does not implement `h` the call is skipped, otherwise it runs. Only
      BeforeAll changes a fixture's state (a tuple assembles its composite);
      no hook changes which fixtures it is made of. */
  function Visit(f: Fixture, h: Hook): (r: Step)
    ensures !Provides(f, h) ==> r == Step(Ok, f, [])
    ensures h != BeforeAll ==> r.fixture == f
    ensures Erase(r.fixture) == Erase(f)
    decreases Size(f), 0
  {
    if !Provides(f, h) then Step(Ok, f, [])
    else match f
      case Leaf(name, hooks) => Step(hooks[h], f, [Invoked(name, h)])
      case Multi(ms) =>
        if h.IsBefore() then
          var r := FanForward(ms, h);
          Step(r.outcome, Multi(r.members), r.events)
        else
          var r := FanBackward(ms, h);
          Step(r.outcome, f, r.events)
      case Tuple(a, b, built) =>
        if h == BeforeAll then
          // assemble `m` unconditionally, then delegate to it
          PairLemmas(a, b);
          var r := FanForward([a, b], h);
          PairLemmas(r.members[0], r.members[1]);
          assert r.members == [r.members[0], r.members[1]];
          Step(r.outcome, Tuple(r.members[0], r.members[1], true), r.events)
        else if h.IsBefore() then
          PairLemmas(a, b);
          var r := FanForward(Composite(f), h);
          Step(r.outcome, if built then Tuple(r.members[0], r.members[1], true) else f, r.events)
        else
          PairLemmas(a, b);
          var r := FanBackward(Composite(f), h);
          Step(r.outcome, f, r.events)
  }

  /** The loop `for i := range f` of the composite's before-hooks: members
      are visited first-to-last and the first error ends the loop. */
  function FanForward(ms: seq<Fixture>, h: Hook): (r: Fan)
    ensures |r.members| == |ms|
    ensures h != BeforeAll ==> r.members == ms
    ensures EraseAll(r.members) == EraseAll(ms)
    decreases SizeAll(ms), 1
  {
    if |ms| == 0 then Fan(Ok, ms, [])
    else
      var s := Visit(ms[0], h);
      if s.outcome.Err? then
        assert EraseAll([s.fixture] + ms[1..]) == [Erase(s.fixture)] + EraseAll(ms[1..]) by {
          assert ([s.fixture] + ms[1..])[1..] == ms[1..];
        }
        Fan(s.outcome, [s.fixture] + ms[1..], s.events)
      else
        var rest := FanForward(ms[1..], h);
        assert EraseAll([s.fixture] + rest.members) == [Erase(s.fixture)] + EraseAll(rest.members) by {
          assert ([s.fixture] + rest.members)[1..] == rest.members;
        }
        Fan(rest.outcome, [s.fixture] + rest.members, s.events + rest.events)
  }

  /** The loop `for i := len(f) - 1; i >= 0; i--` of the composite's
      after-hooks: members are visited last-to-first and the first error
      ends the loop. After-hooks change no state, so `members` is `ms`. */
  function FanBackward(ms: seq<Fixture>, h: Hook): (r: Fan)
    requires !h.IsBefore()
    ensures r.members == ms
    decreases SizeAll(ms), 1
  {
    if |ms| == 0 then Fan(Ok, ms, [])
    else
      SizeAllLast(ms);
      var s := Visit(ms[|ms| - 1], h);
      if s.outcome.Err? then Fan(s.outcome, ms, s.events)
      else
        var rest := FanBackward(ms[..|ms| - 1], h);
        Fan(rest.outcome, ms, s.events + rest.events)
  }

  /** `fixture.Tuple(a, b)`: the pair before its BeforeAll has run. */
  function NewTuple(a: Fixture, b: Fixture): (r: Fixture)
    ensures r.Tuple? && r.one == a && r.two == b
    ensures Composite(r) == []
  {
    Tuple(a, b, false)
  }
}
