# Fixture lifecycle, modelled in Dafny

This project models the lifecycle engine of the Go package `fixture`
(`fixture.go`). It covers four parts:

- **The suite engine.** `With` creates a suite bound to a fixture.
  `suiteBuilder.Run`, on each call:
  1. registers the fixture's AfterAll as a `t.Cleanup`, once, through a
     `sync.Once` latch;
  2. calls BeforeAll while `testRun` is unset;
  3. calls BeforeEach;
  4. runs the body as a named sub-test;
  5. calls AfterEach.

  A hook error goes to `t.Fatal`.
- **The composite fixture `MultiFixture`.** It fans before-hooks out to its
  members first-to-last and after-hooks last-to-first. It skips members
  that lack the hook and stops at the first error.
- **The pair fixture `TupleFixture`.** Its BeforeAll assembles the
  internal `MultiFixture{One, Two}`. Every hook, BeforeAll included,
  delegates to that composite.
- **The recording fixture and the two exact outputs** of `fixture_test.go`.

The parts of Go's `testing.T` the engine relies on are modelled explicitly
as a `Scope`, meaning the body of an enclosing `t.Run`:

- **Cleanups.** The scope keeps a last-in-first-out cleanup stack, which
  `Teardown` runs when the scope ends.
- **`t.Fatal`.** It marks the scope failed and ends its goroutine, so no
  later command of the scope runs. A `Run` on an ended scope changes
  nothing. A `t.Fatal` inside a cleanup still lets the remaining cleanups
  run.
- **Sub-tests.** A failing sub-test marks the scope failed and does not
  stop it.

The code inside a `t.Run` scope is a list of `Command`s: `NewSuite(f)` is
`With(t, f)`, and `RunTest(i, name, body)` is a chained `.Run(name, body)`
on the `i`-th suite. `Run` returns the same suite for chaining, so the
suite index stays valid.

What the engine does is recorded in a log of `Action`s:

- `Hooked(suite, hook, outcome, events)` is a hook call;
- `Ran(suite, name, events, failed)` is a sub-test.

`Trace(log)` is everything those actions wrote into the shared output
buffer. `Render` turns it into the buffer's string.

Fixtures are a datatype:

- `Leaf(name, hooks)` is a user value, modelled as a recording fixture like
  the tests' `fixtureMock`. `hooks` maps each hook the value implements to
  the outcome it returns. Every call of one of its hooks writes
  `name::Hook` to the buffer.
- `Multi(members)` is a `MultiFixture`.
- `Tuple(one, two, built)` is a `*TupleFixture`. `built` says whether its
  BeforeAll has assembled the internal composite.

`Visit(f, h)` is one hook call with the skip-if-absent rule used at every
call site. Errors are reduced to `Err(message)`.

Two consequences of the code are worth stating outright:

- **A hook failure ends the whole enclosing scope.** `Run` calls `Fatal`
  on the suite's own `t`, which is the enclosing scope, not a sub-test.
  The scope's goroutine ends there, and no later chained `Run` executes
  (`EngineProps.FatalRunEndsScope`, `EngineProps.BeforeEachFailureEndsScope`,
  `Scenarios.BeforeAllFailureTearsDown`).
- **AfterAll fans out to every member after a partial before phase.** When
  a composite's BeforeAll fails part-way, the later AfterAll calls every
  member that has the hook, not only the members whose BeforeAll ran. In a
  tuple whose first member's BeforeAll fails, the second member's AfterAll
  still runs (`Scenarios.TupleBeforeAllFailure`).

## Model

| member | source | states |
|---|---|---|
| Fixtures.Visit | fixture.go:82-104 | A hook the fixture does not implement is skipped: nil, no state change, nothing written. Only BeforeAll may change a fixture's state. No hook changes which members and hooks it has. |
| Fixtures.FanForward | fixture.go:155-164 | The first-to-last loop keeps the number of members and what each is made of. Only BeforeAll changes member state. What it returns and writes is given by `Composite.FanForwardStops`. |
| Fixtures.FanBackward | fixture.go:166-175 | The last-to-first loop leaves the members as they are. What it returns and writes is given by `Composite.FanBackwardIsReversed`. |
| Fixtures.NewTuple | fixture.go:126-128 | `Tuple(a, b)` holds `a` as `One` and `b` as `Two`, and its internal composite is still empty. |
| Engine.With | fixture.go:110-115 | Adds one new suite holding the fixture, with `testRun` unset and the AfterAll latch unfired. All existing suites, the cleanups, the log and the flags are unchanged. |
| Engine.CallHook | fixture.go:82-104 | One hook call on a suite's fixture. It appends exactly the call, carrying what the fixture's hook returned and wrote, and the suite's fixture becomes the state the hook left. An error goes to `t.Fatal`: the scope is aborted and failed exactly when the hook returned an error. |
| Engine.RegisterAfterAll | fixture.go:68-79 | Pushes the suite onto the cleanup stack exactly when its fixture has AfterAll and the latch has not fired. Afterwards the latch is fired if and only if the fixture has AfterAll. Nothing else changes, and nothing is called. |
| Engine.BeforeAllPhase | fixture.go:81-88 | Calls BeforeAll exactly when `testRun` is unset and the fixture has BeforeAll. The logged call carries what the fixture's BeforeAll returned and wrote, and the suite's fixture becomes the state BeforeAll left. The scope is aborted and failed exactly when that call returned an error. Otherwise `testRun` becomes set, even when the fixture has no BeforeAll. |
| Engine.EachPhase | fixture.go:90-94 | Calls the per-test hook exactly when the fixture has it. The logged call carries what the fixture's hook returned and wrote. The scope is aborted and failed exactly when it returned an error. The suite itself is left unchanged. |
| Engine.BodyPhase | fixture.go:96-98 | The body runs on the suite's current fixture and is logged as one sub-test. Its failure marks the scope failed and never aborts it. |
| Engine.Run | fixture.go:63-107 | A `Run` on a scope that `t.Fatal` has already ended changes nothing. The suite list keeps its length, so the suite stays addressable for chaining. |
| Engine.RunFrame | fixture.go:63-107 | One `Run` leaves other suites untouched and keeps the fixture's members. It pushes this suite's cleanup only on the first `Run` of a fixture with AfterAll. It only appends to the log, only actions about this suite, and always at least one. |
| Engine.Teardown | fixture.go:71-76 | At scope end, every registered cleanup calls its suite's AfterAll, last registered first. Only AfterAll calls are appended, one per cleanup, the suites are unchanged, and the stack ends empty. A failed scope stays failed. |
| Engine.TeardownResults | fixture.go:71-76 | Each cleanup action is the AfterAll call on its suite's fixture, with what that AfterAll returned and wrote. An AfterAll error goes to `t.Fatal`: after teardown the scope is failed exactly when it was already failed or one of those calls returned an error. |
| Engine.Exec | fixture.go:63-115 | The scope's code runs in order until it ends or `t.Fatal` ends it. Once ended, nothing more runs. Suites, actions and registered cleanups are only ever added, and a failure stays. |
| Engine.TestScope | fixture.go:68-79 | At the end of the enclosing `t.Run`, the log is what the scope's code did, followed by one AfterAll call per registered cleanup in reverse registration order. No cleanup is left, and a failed scope stays failed. |
| EngineProps.RunLog | fixture.go:63-107 | A `Run` appends the BeforeAll call (first `Run` only, if implemented), then BeforeEach (if implemented and BeforeAll did not fail), then the body (if neither failed), then AfterEach (if implemented and the body ran, whether or not it failed). BeforeAll is called on the suite's fixture. BeforeEach, the body and AfterEach get the state BeforeAll left, and each piece carries what that hook or body returned and wrote. The scope is aborted exactly when one of those hook calls failed. `testRun` is set exactly when BeforeAll did not fail. |
| EngineProps.RunPhases | fixture.go:81-104 | Within one `Run` the actions are in strict lifecycle order, each kind at most once. There is never an AfterAll. Only the last action can be a failed hook call, and the scope is aborted exactly when it is. |
| EngineProps.FatalRunEndsScope | fixture.go:83-103 | A `Run` that ends in `t.Fatal` is the last command the scope runs. Every command after it is skipped. |
| EngineProps.BeforeEachFailureEndsScope | fixture.go:90-94 | When BeforeEach fails on any `Run`, that `Run` ends with the failing call, after the BeforeAll call on a first `Run`. The body and AfterEach do not run, no later command runs, and the scope is aborted and failed. |
| ScopeProps.ExecInv | fixture.go:63-115 | Any sequence of `With` and `Run` commands preserves the per-suite invariant: the cleanup is registered exactly when the latch fired, which is exactly when the fixture has AfterAll and something ran for the suite. BeforeAll only ever comes first, and AfterAll never appears. |
| ScopeProps.CleanupRegisteredOnce | fixture.go:66-79 | After any scope's code, each suite is on the cleanup stack at most once. It is there exactly when its fixture has AfterAll and a `Run` on it began. |
| ScopeProps.BeforeAllAtMostOnce | fixture.go:81-88 | After the whole scope, including teardown, BeforeAll appears for each suite at most once, and only as that suite's first action. |
| ScopeProps.AfterAllOnceAndLast | fixture.go:68-79 | Teardown appends to each suite's actions exactly one AfterAll call when its fixture has AfterAll and a `Run` on it began, and nothing otherwise. The scope's code itself never calls AfterAll, so AfterAll comes once and after every body. |
| Composite.FirstFailureIsFirst | fixture.go:155-164 | The stop index is the first member whose hook fails. Every member before it succeeds. |
| Composite.FanForwardStops | fixture.go:155-164 | The first-to-last loop writes exactly what the members up to and including the first failing one write, in order. It returns that member's error, or nil when none fails. |
| Composite.FanForwardCalls | fixture.go:155-164 | Members up to the first failing one are left in the state their call produced. Members after it are untouched. |
| Composite.FanForwardOk | fixture.go:155-164 | The loop returns nil if and only if every member's hook succeeds. |
| Composite.FanBackwardIsReversed | fixture.go:166-175 | The last-to-first loop returns and writes exactly what the first-to-last loop does over the reversed member list. |
| Composite.MultiBeforeOrder | fixture.go:155-186 | `MultiFixture.BeforeAll` and `.BeforeEach` visit members 0..n-1 and skip members lacking the hook. They return the first error, after which no member is called. They return nil if and only if all members succeed. |
| Composite.MultiAfterOrder | fixture.go:166-197 | `MultiFixture.AfterAll` and `.AfterEach` visit members n-1..0 and skip members lacking the hook. They return the first error in that order, after which no member is called. They return nil if and only if all members succeed. |
| Composite.EmptyMultiIsNoop | fixture.go:153-197 | An empty `MultiFixture` returns nil from every hook and writes nothing. |
| Composite.TwoRecordersOrder | fixture.go:147-153 | For two recording members A and B, before-hooks write A then B and after-hooks write B then A. |
| Composite.TupleBeforeAllBuilds | fixture.go:130-133 | `TupleFixture.BeforeAll` assembles `m = MultiFixture{One, Two}`, even when a member then fails. It returns and writes exactly what that composite's BeforeAll does. |
| Composite.TupleDelegates | fixture.go:135-145 | The tuple's other hooks return and write exactly what the internal composite, as it stands, does. They leave the tuple as it is. |
| Composite.UnbuiltTupleIsNoop | fixture.go:126-145 | Before its BeforeAll has run, a tuple's other hooks return nil and write nothing. |
| Composite.TupleKeepsMembers | fixture.go:120-133 | No hook replaces `One` or `Two`. Recording members stay the very same values. |
| Scenarios.HooklessRunsBodies | fixture.go:63-107 | With a fixture that has no hooks, a suite's `Run`s only run the bodies, in order. A failing body does not stop later ones. Nothing is registered, and the output is what the bodies write. |
| Scenarios.BeforeAllFailureTearsDown | fixture.go:68-88 | When BeforeAll fails on the first `Run`, the log is that call followed by the AfterAll cleanup, on the state BeforeAll left. The cleanup was registered first. No BeforeEach, body, AfterEach or later command runs, and the scope is failed. |
| Scenarios.TupleBeforeAllFailure | fixture.go:130-137 | For a tuple whose first member's BeforeAll fails, the output is that call, then the second member's AfterAll, then the first member's AfterAll. The scope is failed. |
| Traces.SmoothLifecycle | fixture.go:63-107 | For any fixture with all four hooks, none failing, and any non-empty series of `Run`s, the log is BeforeAll once and then, per `Run`, BeforeEach, the body on the post-BeforeAll fixture, and AfterEach. It ends with AfterAll once. The output is exactly what those calls write, in that order. |
| Traces.MockRecords | fixture_test.go:11-34 | `fixtureMock` implements all four hooks and each returns nil. |
| Traces.MockTuple | fixture_test.go:58-64 | `Tuple(f1, f2)` of two mocks never fails. Its BeforeAll writes f1 then f2. Afterwards BeforeEach goes f1 then f2, and AfterEach and AfterAll go f2 then f1. |
| Traces.LifecycleTrace | fixture_test.go:36-56 | One mock with an empty label and two `Run`s writing `Test#1` and `Test#2` leave exactly `::BeforeAll::BeforeEachTest#1::AfterEach::BeforeEachTest#2::AfterEach::AfterAll` in the buffer. |
| Traces.TupleTrace | fixture_test.go:58-81 | `Tuple(f1, f2)` with two `Run`s makes exactly the 16 writes `f1::BeforeAll`, `f2::BeforeAll`, then per test f1 and f2 BeforeEach, the body's two writes, and f2 and f1 AfterEach, then `f2::AfterAll`, `f1::AfterAll`. The buffer is their concatenation. The bodies see `One` and `Two` as f1 and f2. |

## Left out

- `sync.Once`: modelled as a plain latch flag, because all calls are sequential.
- `t.Helper`: it has no effect on behaviour, so it is omitted.
- Go generics and the dynamic interface checks: both become "which hooks this datatype value provides".
- Error values: reduced to `Err(message)`. Their text reaches `t.Fatal` only as the fact of failing.
- Panics in hooks or bodies: not modelled.
- Stateful or silent hooks: a `Leaf`'s hooks have fixed outcomes, and each call writes `name::Hook`, as a recording fixture does. Only a tuple's BeforeAll changes fixture state. A user fixture whose hooks mutate it, depend on earlier calls, or write something else or nothing is not modelled.
- Bodies changing the fixture: a body is a function from the fixture to what it wrote and whether it failed. A Go body that mutates the fixture it receives is not modelled.
- Aliasing: one fixture value shared by reference between two suites, or by a suite and a tuple member, is not modelled, because fixtures are values. A shared output buffer, as in the tests, is the single log.
- Host behaviour beyond cleanups, `Fatal` and sub-test failure: not modelled. This covers nested sub-tests' own cleanups, parallel tests and timeouts.
- `httpserver.go`, `tempdir.go` and their tests, and `package_test.go`: not part of this model. They are thin wrappers over the network and the filesystem.
- Traces.TupleTrace: states the 16 writes and that the buffer is their concatenation, rather than one equality with the 193-character expected literal. It is the same string, split at the writes the test makes.
- Engine.Run: on a scope already ended by `t.Fatal` it changes nothing. In Go such a call cannot happen, because the goroutine has exited.
