/** The four lifecycle hooks a fixture may provide, the outcome of calling
    one, and the events a run leaves in the shared output buffer that the
    package's own tests compare as exact strings. */
module Hooks {

  /** The four single-method hook interfaces of fixture.go. */
  datatype Hook = BeforeAll | AfterAll | BeforeEach | AfterEach {

    /** Before-hooks fan out first-to-last, after-hooks last-to-first. */
    predicate IsBefore() {
      BeforeAll? || BeforeEach?
    }

    /** The method name, as a recording fixture prints it. */
    function Name(): (r: string)
      ensures |r| > 0
    {
      match this
      case BeforeAll => "BeforeAll"
      case AfterAll => "AfterAll"
      case BeforeEach => "BeforeEach"
      case AfterEach => "AfterEach"
    }
  }

  /** The `error` a hook returns: nil, or an error reduced to its message. */
  datatype Outcome = Ok | Err(message: string)

  /** One write into the output buffer: a recording fixture announcing that
      one of its hooks was called, or a test body writing some text. */
  datatype Event = Invoked(name: string, hook: Hook) | Wrote(text: string)

  /** What an event contributes to the buffer: `name::Hook` or the text. */
  function Text(e: Event): string
  {
    match e
    case Invoked(name, hook) => name + "::" + hook.Name()
    case Wrote(text) => text
  }

  /** The buffer contents after a trace of events. */
  function Render(trace: seq<Event>): string
  {
    if |trace| == 0 then "" else Text(trace[0]) + Render(trace[1..])
  }

  /** Rendering is a homomorphism from traces to strings. */
  lemma {:induction false} RenderAppend(a: seq<Event>, b: seq<Event>)
    ensures Render(a + b) == Render(a) + Render(b)
    decreases |a|
  {
    if |a| == 0 {
      assert a + b == b;
    } else {
      assert (a + b)[1..] == a[1..] + b;
      RenderAppend(a[1..], b);
    }
  }

  /** The separate writes a trace makes into the buffer, in order. */
  function Pieces(trace: seq<Event>): (r: seq<string>)
    ensures |r| == |trace|
    ensures forall i :: 0 <= i < |trace| ==> r[i] == Text(trace[i])
  {
    seq(|trace|, i requires 0 <= i < |trace| => Text(trace[i]))
  }

  lemma PiecesAppend(a: seq<Event>, b: seq<Event>)
    ensures Pieces(a + b) == Pieces(a) + Pieces(b)
  {
  }

  /** The buffer after a series of writes. */
  function Concat(ss: seq<string>): string
  {
    if |ss| == 0 then "" else ss[0] + Concat(ss[1..])
  }

  /** The buffer is the writes of the trace, one after the other. */
  lemma {:induction false} RenderPieces(trace: seq<Event>)
    ensures Render(trace) == Concat(Pieces(trace))
    decreases |trace|
  {
    if |trace| > 0 {
      RenderPieces(trace[1..]);
      assert Pieces(trace)[1..] == Pieces(trace[1..]);
    }
  }
}
