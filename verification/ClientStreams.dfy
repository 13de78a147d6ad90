/** One server stream read by a client (grpc_client_stream.hpp).

  The controlling thread starts and stops the stream; the reader thread delivers
  updates and, when the server ends the stream or it is cancelled, the final
  status. Both callbacks are set before the first start.
 */
module ClientStreams {

  /** The thread object: none or joined, running, or ended and still to be joined. */
  datatype Reader = NoReader | Reading | Ended

  datatype Callback =
    | Started                 // start_stream launched a reader
    | Updated(update: int)    // on_update
    | Finished(status: int)   // on_finish
    | Stopped                 // stop_stream returned after joining

  datatype Stream = Stream(
    context: bool,            // context_ is set; what streaming() reports
    reader: Reader,
    stopping: bool,           // the controlling thread waits in stop_stream
    trace: seq<Callback>,
    terminated: bool)         // a thread object was replaced without being joined

  const FRESH := Stream(false, NoReader, false, [], false)

  datatype Step = Start | Deliver(update: int) | End(status: int) | StopBegin | StopEnd

  function StartStream(s: Stream): Stream {
    if s.context then s else
    s.(context := true, reader := Reading, trace := s.trace + [Started],
       terminated := s.terminated || s.reader != NoReader)
  }

  function Next(s: Stream, e: Step): Stream {
    match e
    case Start => StartStream(s)
    case Deliver(update) => s.(trace := s.trace + [Updated(update)])
    case End(status) => s.(reader := Ended, trace := s.trace + [Finished(status)])
    case StopBegin => if s.context then s.(stopping := true) else s
    case StopEnd => s.(stopping := false, reader := NoReader, context := false, trace := s.trace + [Stopped])
  }

  /** The controlling thread is busy while it stops the stream; joining needs the reader to have ended. */
  predicate CanStep(s: Stream, e: Step) {
    match e
    case Start => !s.stopping
    case Deliver(_) => s.reader == Reading
    case End(_) => s.reader == Reading
    case StopBegin => !s.stopping
    case StopEnd => s.stopping && s.reader == Ended
  }

  function After(es: seq<Step>): Stream {
    if es == [] then FRESH else Next(After(es[..|es| - 1]), es[|es| - 1])
  }

  predicate Possible(es: seq<Step>) {
    es == [] || (Possible(es[..|es| - 1]) && CanStep(After(es[..|es| - 1]), es[|es| - 1]))
  }

  /** The rounds a trace must consist of: Started Updated* Finished Stopped. */
  datatype Phase = Between | Running | Over | Rejected

  function PhaseOf(trace: seq<Callback>): Phase {
    if trace == [] then Between else
    match (PhaseOf(trace[..|trace| - 1]), trace[|trace| - 1])
    case (Between, Started) => Running
    case (Running, Updated(_)) => Running
    case (Running, Finished(_)) => Over
    case (Over, Stopped) => Between
    case _ => Rejected
  }

  predicate InStep(s: Stream) {
    && !s.terminated
    && (s.stopping ==> s.context)
    && PhaseOf(s.trace) == (if !s.context then Between else if s.reader == Reading then Running else Over)
    && (s.context <==> s.reader != NoReader)
  }

  lemma StepKeepsRounds(s: Stream, e: Step)
    requires InStep(s) && CanStep(s, e)
    ensures InStep(Next(s, e))
  {
    var t := Next(s, e);
    if |t.trace| > |s.trace| { assert t.trace[..|t.trace| - 1] == s.trace; }
  }

  /** Theorem: in every interleaving of the two threads the callbacks come in whole
      rounds, at most one reader lives, no thread object is dropped unjoined, and a
      stop returns only after the final status was delivered. */
  lemma {:induction false} CallbacksComeInRounds(es: seq<Step>)
    requires Possible(es)
    ensures PhaseOf(After(es).trace) != Rejected && !After(es).terminated
    ensures !After(es).context <==> PhaseOf(After(es).trace) == Between
    ensures After(es).reader == Reading <==> PhaseOf(After(es).trace) == Running
    ensures InStep(After(es))
  {
    if es == [] {
    } else {
      CallbacksComeInRounds(es[..|es| - 1]);
      StepKeepsRounds(After(es[..|es| - 1]), es[|es| - 1]);
    }
  }

  function Count(trace: seq<Callback>, what: Callback -> bool): nat {
    if trace == [] then 0 else Count(trace[..|trace| - 1], what) + if what(trace[|trace| - 1]) then 1 else 0
  }

  /** Theorem: every launched reader delivers its final status exactly once before
      the stop that joins it returns. */
  lemma {:induction false} OneStatusPerRound(trace: seq<Callback>)
    requires PhaseOf(trace) != Rejected
    ensures var starts, ends, stops := Count(trace, c => c == Started), Count(trace, (c: Callback) => c.Finished?),
        Count(trace, c => c == Stopped);
      match PhaseOf(trace)
      case Between => starts == ends == stops
      case Running => starts == ends + 1 && ends == stops
      case Over => starts == ends == stops + 1
      case Rejected => false
  {
    if trace == [] {
    } else {
      OneStatusPerRound(trace[..|trace| - 1]);
    }
  }

  function Updates(rest: seq<int>): seq<Callback> {
    seq(|rest|, i requires 0 <= i < |rest| => Updated(rest[i]))
  }

  /** What the reader still delivers before it ends, if it is running. */
  function Drained(s: Stream, rest: seq<int>, status: int): Stream {
    if s.reader != Reading then s else
    s.(reader := Ended, trace := s.trace + Updates(rest) + [Finished(status)])
  }

  /** stop_stream as a whole. */
  function StopStream(s: Stream, rest: seq<int>, status: int): Stream {
    if !s.context then s else Next(Drained(s, rest, status).(stopping := true), StopEnd)
  }

  /** What a reader still reads while it is being joined, and the status it ends with. */
  datatype Ending = Ending(rest: seq<int>, status: int)

  /** A stream that the client starts or stops. */
  function Switched(s: Stream, on: bool, end: Ending): Stream {
    if on then StartStream(s) else StopStream(s, end.rest, end.status)
  }

  /* ------------------------------------------- what was said, and by which steps */

  /** The values a run hands to on_update and on_finish, from its steps. */
  function Said(es: seq<Step>): seq<Callback> {
    if es == [] then [] else
    match es[|es| - 1]
    case Deliver(update) => Said(es[..|es| - 1]) + [Updated(update)]
    case End(status) => Said(es[..|es| - 1]) + [Finished(status)]
    case _ => Said(es[..|es| - 1])
  }

  /** The calls of on_update and on_finish in a trace. */
  function Heard(trace: seq<Callback>): seq<Callback> {
    if trace == [] then [] else
    var last := trace[|trace| - 1];
    Heard(trace[..|trace| - 1]) + if last.Updated? || last.Finished? then [last] else []
  }

  lemma OneMoreHeard(trace: seq<Callback>, last: Callback)
    ensures Heard(trace + [last]) == Heard(trace) + if last.Updated? || last.Finished? then [last] else []
  {
    assert (trace + [last])[..|trace|] == trace;
  }

  /** Theorem: the callbacks receive what the reader read and the status it ended with,
      all of it, in order. */
  lemma {:induction false} HeardIsSaid(es: seq<Step>)
    requires Possible(es)
    ensures Heard(After(es).trace) == Said(es)
  {
    if es == [] {
    } else {
      var past, e := es[..|es| - 1], es[|es| - 1];
      HeardIsSaid(past);
      match e
      case Start => OneMoreHeard(After(past).trace, Started);
      case Deliver(update) => OneMoreHeard(After(past).trace, Updated(update));
      case End(status) => OneMoreHeard(After(past).trace, Finished(status));
      case StopBegin =>
      case StopEnd => OneMoreHeard(After(past).trace, Stopped);
    }
  }

  lemma OneMore(es: seq<Step>, e: Step)
    ensures After(es + [e]) == Next(After(es), e)
    ensures Possible(es + [e]) <==> Possible(es) && CanStep(After(es), e)
  {
    assert (es + [e])[..|es|] == es;
  }

  /** Theorem: a start that is possible leaves the stream streaming, with a reader launched
      for it unless there was one already. */
  lemma {:induction false} StartLaunches(es: seq<Step>)
    requires Possible(es + [Start])
    ensures var s, t := After(es), After(es + [Start]);
      && t.context && (s.context ==> t == s)
      && (!s.context ==> t.reader == Reading && t.trace == s.trace + [Started])
  {
    OneMore(es, Start);
  }

  /** Theorem: a stop marks the end of a round and leaves nothing running. */
  lemma {:induction false} StopEndsRound(es: seq<Step>)
    requires Possible(es + [StopEnd])
    ensures var s, t := After(es), After(es + [StopEnd]);
      !t.context && t.reader == NoReader && !t.stopping && t.trace == s.trace + [Stopped]
  {
    OneMore(es, StopEnd);
  }

  /* -------------------------------------------------------- stretches of steps */

  function Through(s: Stream, es: seq<Step>): Stream {
    if es == [] then s else Next(Through(s, es[..|es| - 1]), es[|es| - 1])
  }

  predicate CanThrough(s: Stream, es: seq<Step>) {
    forall i :: 0 <= i < |es| ==> CanStep(Through(s, es[..i]), es[i])
  }

  lemma OneMoreThrough(s: Stream, es: seq<Step>, e: Step)
    ensures Through(s, es + [e]) == Next(Through(s, es), e)
    ensures CanThrough(s, es + [e]) <==> CanThrough(s, es) && CanStep(Through(s, es), e)
  {
    var more := es + [e];
    assert more[..|es|] == es;
    assert forall i :: 0 <= i < |es| ==> more[..i] == es[..i] && more[i] == es[i];
    if CanThrough(s, more) { assert CanStep(Through(s, more[..|es|]), more[|es|]); }
    if CanThrough(s, es) && CanStep(Through(s, es), e) {
      forall i | 0 <= i < |more| ensures CanStep(Through(s, more[..i]), more[i]) {
        assert i == |es| || more[i] == es[i];
      }
    }
  }

  /** Theorem: a stretch from a state a run reached is the rest of a longer run. */
  lemma {:induction false} StretchExtendsRun(es: seq<Step>, more: seq<Step>)
    requires Possible(es)
    ensures After(es + more) == Through(After(es), more)
    ensures Possible(es + more) <==> CanThrough(After(es), more)
  {
    if more == [] {
      assert es + more == es;
    } else {
      var past, e := more[..|more| - 1], more[|more| - 1];
      assert more == past + [e];
      assert es + (past + [e]) == (es + past) + [e];
      StretchExtendsRun(es, past);
      OneMore(es + past, e);
      OneMoreThrough(After(es), past, e);
    }
  }

  function Deliveries(rest: seq<int>): seq<Step> {
    seq(|rest|, i requires 0 <= i < |rest| => Deliver(rest[i]))
  }

  /** What a running reader still does: deliver the rest, then the status. */
  function DrainSteps(s: Stream, rest: seq<int>, status: int): seq<Step> {
    if s.reader == Reading then Deliveries(rest) + [End(status)] else []
  }

  lemma {:induction false} DeliveriesAreStretch(s: Stream, rest: seq<int>)
    requires s.reader == Reading
    ensures CanThrough(s, Deliveries(rest))
    ensures Through(s, Deliveries(rest)) == s.(trace := s.trace + Updates(rest))
  {
    if rest == [] {
    } else {
      var past, update := rest[..|rest| - 1], rest[|rest| - 1];
      DeliveriesAreStretch(s, past);
      assert Deliveries(rest) == Deliveries(past) + [Deliver(update)];
      OneMoreThrough(s, Deliveries(past), Deliver(update));
      OneMoreUpdate(s.trace, past, update);
      assert rest == past + [update];
    }
  }

  lemma OneMoreUpdate(trace: seq<Callback>, past: seq<int>, update: int)
    ensures trace + Updates(past) + [Updated(update)] == trace + Updates(past + [update])
  {
  }

  /** Theorem: the reader's body is the stretch that delivers the rest and then ends. */
  lemma DrainIsStretch(s: Stream, rest: seq<int>, status: int)
    ensures CanThrough(s, DrainSteps(s, rest, status))
    ensures Drained(s, rest, status) == Through(s, DrainSteps(s, rest, status))
  {
    if s.reader == Reading {
      DeliveriesAreStretch(s, rest);
      OneMoreThrough(s, Deliveries(rest), End(status));
    }
  }

  /** Theorem: stop_stream is the beginning of a stop, that stretch, and the join. */
  lemma StopIsStretch(s: Stream, rest: seq<int>, status: int)
    requires InStep(s) && s.context && !s.stopping
    ensures var steps := [StopBegin] + DrainSteps(s, rest, status) + [StopEnd];
      CanThrough(s, steps) && StopStream(s, rest, status) == Through(s, steps)
  {
    var begun := [StopBegin];
    OneMoreThrough(s, [], StopBegin);
    assert [] + [StopBegin] == begun;
    StretchAfter(s, begun, DrainSteps(s, rest, status));
    var t := Through(s, begun);
    DrainIsStretch(t, rest, status);
    assert DrainSteps(t, rest, status) == DrainSteps(s, rest, status);
    OneMoreThrough(s, begun + DrainSteps(s, rest, status), StopEnd);
  }

  lemma {:induction false} StretchAfter(s: Stream, es: seq<Step>, more: seq<Step>)
    requires CanThrough(s, es)
    ensures Through(s, es + more) == Through(Through(s, es), more)
    ensures CanThrough(s, es + more) <==> CanThrough(Through(s, es), more)
  {
    if more == [] {
      assert es + more == es;
    } else {
      var n := |more| - 1;
      StretchAfter(s, es, more[..n]);
      OneMoreThrough(s, es + more[..n], more[n]);
      OneMoreThrough(Through(s, es), more[..n], more[n]);
      assert es + more == es + more[..n] + [more[n]] && more == more[..n] + [more[n]];
    }
  }

  /** The stream as an object. */
  class GrpcClientStream {
    var context: bool
    var reader: Reader
    var trace: seq<Callback>
    ghost var terminated: bool

    ghost function State(): Stream
      reads this
    {
      Stream(context, reader, false, trace, terminated)
    }

    constructor ()
      ensures State() == FRESH
    {
      context, reader, trace, terminated := false, NoReader, [], false;
    }

    predicate Streaming()
      reads this
    {
      context
    }

    method Start()
      modifies this
      ensures State() == StartStream(old(State()))
    {
      if Streaming() {
        return;
      }
      context := true;
      terminated := terminated || reader != NoReader;
      reader := Reading;
      trace := trace + [Started];
    }

    /** Cancels the stream and joins the reader, which first delivers what it has
        already read (`rest`) and then its final status. */
    method Stop(rest: seq<int>, status: int)
      requires InStep(State())
      modifies this
      ensures State() == StopStream(old(State()), rest, status)
      ensures InStep(State()) && !context
    {
      if !Streaming() {
        return;
      }
      RunReader(rest, status);
      ghost var ended := State();
      assert Next(ended.(stopping := true), StopEnd).trace == ended.trace + [Stopped];
      reader, context := NoReader, false;
      trace := trace + [Stopped];
      StepKeepsRounds(ended.(stopping := true), StopEnd);
    }

    /** The body of the reader thread, from wherever it is to its end. */
    method RunReader(rest: seq<int>, status: int)
      requires InStep(State()) && context
      modifies this
      ensures State() == Drained(old(State()), rest, status) && reader == Ended
      ensures InStep(State())
    {
      if reader == Reading {
        ghost var before := State();
        var i := 0;
        while i < |rest|
          invariant 0 <= i <= |rest| && reader == Reading && context && terminated == before.terminated
          invariant trace == before.trace + Updates(rest[..i])
          invariant InStep(State())
        {
          StepKeepsRounds(State(), Deliver(rest[i]));
          OneMoreUpdate(before.trace, rest[..i], rest[i]);
          assert rest[..i + 1] == rest[..i] + [rest[i]];
          trace := trace + [Updated(rest[i])];
          i := i + 1;
        }
        assert rest[..i] == rest;
        StepKeepsRounds(State(), End(status));
        trace := trace + [Finished(status)];
        reader := Ended;
      }
    }
  }
}
