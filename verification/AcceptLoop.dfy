/** The accept loop of the asynchronous server and the handlers it drives
    (grpc_async_server.hpp, non_stream_rpc_handler.hpp, stream_rpc_handler.hpp).

  Handlers are owned by a map and known to gRPC only by their addresses. A unary
  handler answers a call inside activate_next, a stream handler makes it an active
  connection; both then ask for the next call.
 */
module AcceptLoop {
  import opened Tags
  import Rpc = StreamRpc
  import opened Sequences

  /** A handler and its serial number. A unary one has a connection that waits to be
      filled by the next call, and the calls it was given and answered; a stream
      handler is what `StreamRpc` says. */
  datatype Handler =
    | Unary(id: nat, connection: bool, requests: seq<int>, responses: seq<int>)
    | Stream(id: nat, world: Rpc.World)

  /** What an activation meets: the request gRPC filled in, and the addresses the
      allocator picks for a stream's next connection and its done tag. */
  datatype Arrival = Arrival(request: int, conn: Address, doneTag: Address)

  datatype Server = Server(
    handlers: map<Address, Handler>,
    registering: set<Address>,      // in the map, activate_next still to be called
    accepts: multiset<Address>,     // accept requests gRPC holds
    made: nat,
    destroyed: seq<Handler>,
    threw: bool,                    // the map lookup of the run loop failed
    orphaned: bool)                 // a handler was destroyed with a request outstanding

  const IDLE := Server(map[], {}, multiset{}, 0, [], false, false)

  datatype Step =
    | Emplace(tag: Address, streaming: bool)
    | FirstActivation(tag: Address, arrival: Arrival)
    | Return(tag: Address, ok: bool, arrival: Arrival)
    | Within(tag: Address, event: Rpc.Event)  // a writer, or the synchronisation thread, of a stream handler

  function Made(id: nat, streaming: bool): Handler {
    if streaming then Stream(id, Rpc.START) else Unary(id, false, [], [])
  }

  /** activate_next: serve the call the waiting connection was filled with, if there
      is one, and prepare the next connection. */
  function ActivateNext(h: Handler, arrival: Arrival, serve: (nat, int) -> int): Handler {
    match h
    case Unary(id, connection, requests, responses) =>
      if connection
      then h.(requests := requests + [arrival.request], responses := responses + [serve(id, arrival.request)])
      else h.(connection := true)
    case Stream(_, world) => h.(world := Rpc.Activate(world, arrival.conn, arrival.doneTag))
  }

  /** The allocator does not hand out addresses a stream handler is using. */
  predicate CanActivate(h: Handler, arrival: Arrival) {
    h.Stream? ==> Rpc.Enabled(h.world, Rpc.Accept(arrival.conn, arrival.doneTag))
  }

  function Next(s: Server, e: Step, serve: (nat, int) -> int): Server {
    match e
    case Emplace(tag, streaming) =>
      s.(handlers := s.handlers[tag := Made(s.made, streaming)],
         registering := s.registering + {tag}, made := s.made + 1)
    case FirstActivation(tag, arrival) =>
      if tag !in s.handlers then s else
      s.(handlers := s.handlers[tag := ActivateNext(s.handlers[tag], arrival, serve)],
         registering := s.registering - {tag}, accepts := s.accepts + multiset{tag})
    case Return(tag, ok, arrival) =>
      var left := s.accepts - multiset{tag};
      if ok then
        if tag !in s.handlers then s.(accepts := left, threw := true)
        else s.(handlers := s.handlers[tag := ActivateNext(s.handlers[tag], arrival, serve)],
                accepts := left + multiset{tag})
      else if tag !in s.handlers then s.(accepts := left)
      else s.(handlers := s.handlers - {tag}, accepts := left,
              destroyed := s.destroyed + [s.handlers[tag]], orphaned := s.orphaned || tag in left)
    case Within(tag, event) =>
      if tag in s.handlers && s.handlers[tag].Stream?
      then s.(handlers := s.handlers[tag := s.handlers[tag].(world := Rpc.Apply(s.handlers[tag].world, event))]) else s
  }

  /** A new handler's address is not that of a living one. */
  predicate CanStep(s: Server, e: Step) {
    match e
    case Emplace(tag, _) => tag !in s.handlers
    case FirstActivation(tag, arrival) =>
      tag in s.registering && (tag in s.handlers ==> CanActivate(s.handlers[tag], arrival))
    case Return(tag, ok, arrival) =>
      tag in s.accepts && (ok && tag in s.handlers ==> CanActivate(s.handlers[tag], arrival))
    case Within(tag, event) =>
      && tag in s.handlers && s.handlers[tag].Stream? && !event.Accept?
      && Rpc.Enabled(s.handlers[tag].world, event)
  }

  function After(es: seq<Step>, serve: (nat, int) -> int): Server {
    if es == [] then IDLE else Next(After(es[..|es| - 1], serve), es[|es| - 1], serve)
  }

  predicate Possible(es: seq<Step>, serve: (nat, int) -> int) {
    es == [] || (Possible(es[..|es| - 1], serve) && CanStep(After(es[..|es| - 1], serve), es[|es| - 1]))
  }

  /** A connection waits for a call. */
  predicate Waits(h: Handler) {
    if h.Unary? then h.connection else h.world.c.next.Some?
  }

  /** A unary handler's responses are its callback mapped over its requests. */
  predicate Answered(h: Handler, serve: (nat, int) -> int) {
    h.Unary? ==> h.responses == seq(|h.requests|, i requires 0 <= i < |h.requests| => serve(h.id, h.requests[i]))
  }

  ghost predicate Balanced(s: Server, serve: (nat, int) -> int) {
    && !s.threw && !s.orphaned
    && s.registering <= s.handlers.Keys
    && (forall tag :: tag in s.handlers ==> s.accepts[tag] == (if tag in s.registering then 0 else 1))
    && (forall tag :: tag in s.handlers ==> Waits(s.handlers[tag]) == (tag !in s.registering))
    && (forall tag :: tag !in s.handlers ==> s.accepts[tag] == 0)
    && (forall tag :: tag in s.handlers ==> Answered(s.handlers[tag], serve))
    && (forall k :: 0 <= k < |s.destroyed| ==> Answered(s.destroyed[k], serve))
  }

  lemma ActivationAnswers(h: Handler, arrival: Arrival, serve: (nat, int) -> int)
    requires Answered(h, serve)
    ensures Answered(ActivateNext(h, arrival, serve), serve) && Waits(ActivateNext(h, arrival, serve))
  {
  }

  lemma SuccessKeepsBalance(s: Server, tag: Address, arrival: Arrival, serve: (nat, int) -> int)
    requires Balanced(s, serve) && tag in s.accepts
    ensures Balanced(Next(s, Return(tag, true, arrival), serve), serve)
  {
    assert s.accepts - multiset{tag} + multiset{tag} == s.accepts;
    ActivationAnswers(s.handlers[tag], arrival, serve);
  }

  lemma FailureKeepsBalance(s: Server, tag: Address, arrival: Arrival, serve: (nat, int) -> int)
    requires Balanced(s, serve) && tag in s.accepts
    ensures Balanced(Next(s, Return(tag, false, arrival), serve), serve)
  {
  }

  /** Writing, finishing and deleting do not touch the connection that waits. */
  lemma WithinKeepsBalance(s: Server, tag: Address, event: Rpc.Event, serve: (nat, int) -> int)
    requires Balanced(s, serve) && CanStep(s, Within(tag, event))
    ensures Balanced(Next(s, Within(tag, event), serve), serve)
  {
    assert Rpc.Apply(s.handlers[tag].world, event).c.next == s.handlers[tag].world.c.next;
  }

  lemma StepKeepsBalance(s: Server, e: Step, serve: (nat, int) -> int)
    requires Balanced(s, serve) && CanStep(s, e)
    ensures Balanced(Next(s, e, serve), serve)
  {
    match e
    case Emplace(_, _) =>
    case FirstActivation(tag, arrival) => ActivationAnswers(s.handlers[tag], arrival, serve);
    case Return(tag, true, arrival) => SuccessKeepsBalance(s, tag, arrival, serve);
    case Return(tag, false, arrival) => FailureKeepsBalance(s, tag, arrival, serve);
    case Within(tag, event) => WithinKeepsBalance(s, tag, event, serve);
  }

  /** Theorem: between steps every registered handler, unary or streaming, has exactly
      one accept request outstanding and nobody else has any; so the lookup never
      throws, a handler is destroyed only with none outstanding, and each unary
      handler's responses are its callback mapped over its requests. */
  lemma {:induction false} AlwaysBalanced(es: seq<Step>, serve: (nat, int) -> int)
    requires Possible(es, serve)
    ensures Balanced(After(es, serve), serve)
  {
    if es == [] {
    } else {
      AlwaysBalanced(es[..|es| - 1], serve);
      StepKeepsBalance(After(es[..|es| - 1], serve), es[|es| - 1], serve);
    }
  }

  /** How many calls a handler has taken: answered, or made a connection of. */
  function Taken(h: Handler): nat {
    if h.Unary? then |h.responses| else |h.world.connected|
  }

  /** How many successful returns a run has for the handler now living at `tag`. */
  function Served(es: seq<Step>, tag: Address): nat {
    if es == [] then 0 else
    match es[|es| - 1]
    case Emplace(t, _) => if t == tag then 0 else Served(es[..|es| - 1], tag)
    case Return(t, ok, _) => Served(es[..|es| - 1], tag) + if t == tag && ok then 1 else 0
    case _ => Served(es[..|es| - 1], tag)
  }

  /** A step makes its handler take a call if it returns an accepted one, and no other. */
  lemma StepTakes(s: Server, e: Step, serve: (nat, int) -> int, tag: Address)
    requires Balanced(s, serve) && CanStep(s, e) && tag in Next(s, e, serve).handlers
    ensures e.Emplace? && e.tag == tag ==> Taken(Next(s, e, serve).handlers[tag]) == 0
    ensures !(e.Emplace? && e.tag == tag) ==>
      && tag in s.handlers
      && var more := if e.Return? && e.tag == tag && e.ok then 1 else 0;
      Taken(Next(s, e, serve).handlers[tag]) == Taken(s.handlers[tag]) + more
  {
  }

  /** Theorem: every call that was accepted is served once, before the next is asked
      for: answered by a unary handler, connected by a stream handler. */
  lemma {:induction false} EveryCallIsServed(es: seq<Step>, serve: (nat, int) -> int, tag: Address)
    requires Possible(es, serve) && tag in After(es, serve).handlers
    ensures Taken(After(es, serve).handlers[tag]) == Served(es, tag)
  {
    if es == [] {
    } else {
      var past, e := es[..|es| - 1], es[|es| - 1];
      AlwaysBalanced(past, serve);
      StepTakes(After(past, serve), e, serve, tag);
      if !(e.Emplace? && e.tag == tag) { EveryCallIsServed(past, serve, tag); }
    }
  }

  /** The requests of the calls a run has for the handler now living at `tag`: what gRPC
      had filled in when it returned an accept, in order. */
  function Requested(es: seq<Step>, tag: Address): seq<int> {
    if es == [] then [] else
    match es[|es| - 1]
    case Emplace(t, _) => if t == tag then [] else Requested(es[..|es| - 1], tag)
    case Return(t, ok, arrival) =>
      Requested(es[..|es| - 1], tag) + if t == tag && ok then [arrival.request] else []
    case _ => Requested(es[..|es| - 1], tag)
  }

  lemma StepRequests(s: Server, e: Step, serve: (nat, int) -> int, tag: Address)
    requires Balanced(s, serve) && CanStep(s, e)
    requires tag in Next(s, e, serve).handlers && Next(s, e, serve).handlers[tag].Unary?
    ensures e.Emplace? && e.tag == tag ==> Next(s, e, serve).handlers[tag].requests == []
    ensures !(e.Emplace? && e.tag == tag) ==>
      && tag in s.handlers && s.handlers[tag].Unary?
      && var more := if e.Return? && e.tag == tag && e.ok then [e.arrival.request] else [];
      Next(s, e, serve).handlers[tag].requests == s.handlers[tag].requests + more
  {
  }

  /** Theorem: a unary handler answers the requests that were sent to it, each once and in
      order, with its own callback: nothing else is asked of the callback or answered. */
  lemma {:induction false} AnswersAreToRequests(es: seq<Step>, serve: (nat, int) -> int, tag: Address)
    requires Possible(es, serve) && tag in After(es, serve).handlers && After(es, serve).handlers[tag].Unary?
    ensures var h := After(es, serve).handlers[tag];
      && h.requests == Requested(es, tag) && |h.responses| == |Requested(es, tag)|
      && forall i :: 0 <= i < |h.responses| ==> h.responses[i] == serve(h.id, Requested(es, tag)[i])
  {
    AlwaysBalanced(es, serve);
    RequestsAreRequested(es, serve, tag);
  }

  lemma {:induction false} RequestsAreRequested(es: seq<Step>, serve: (nat, int) -> int, tag: Address)
    requires Possible(es, serve) && tag in After(es, serve).handlers && After(es, serve).handlers[tag].Unary?
    ensures After(es, serve).handlers[tag].requests == Requested(es, tag)
  {
    if es == [] {
    } else {
      var past, e := es[..|es| - 1], es[|es| - 1];
      AlwaysBalanced(past, serve);
      StepRequests(After(past, serve), e, serve, tag);
      if !(e.Emplace? && e.tag == tag) { RequestsAreRequested(past, serve, tag); }
    }
  }

  /** How many handlers a run registers. */
  function Registrations(es: seq<Step>): nat {
    if es == [] then 0 else Registrations(es[..|es| - 1]) + if es[|es| - 1].Emplace? then 1 else 0
  }

  /** Which registration the handler now living at `tag` comes from, counting from 0, and
      whether it was one of a stream. */
  function Origin(es: seq<Step>, tag: Address): Option<(nat, bool)> {
    if es == [] then None else
    match es[|es| - 1]
    case Emplace(t, streaming) =>
      if t == tag then Some((Registrations(es[..|es| - 1]), streaming)) else Origin(es[..|es| - 1], tag)
    case _ => Origin(es[..|es| - 1], tag)
  }

  /** Theorem: a living handler carries the number of its registration and is of the kind
      that was registered. */
  lemma {:induction false} HandlersAreAsRegistered(es: seq<Step>, serve: (nat, int) -> int, tag: Address)
    requires Possible(es, serve)
    ensures After(es, serve).made == Registrations(es)
    ensures tag in After(es, serve).handlers ==>
      Origin(es, tag) == Some((After(es, serve).handlers[tag].id, After(es, serve).handlers[tag].Stream?))
  {
    if es == [] {
    } else {
      var past, e := es[..|es| - 1], es[|es| - 1];
      AlwaysBalanced(past, serve);
      HandlersAreAsRegistered(past, serve, tag);
      StepKeepsKind(After(past, serve), e, serve, tag);
    }
  }

  lemma StepKeepsKind(s: Server, e: Step, serve: (nat, int) -> int, tag: Address)
    requires Balanced(s, serve) && CanStep(s, e)
    ensures Next(s, e, serve).made == s.made + if e.Emplace? then 1 else 0
    ensures var h := Next(s, e, serve).handlers;
      tag in h ==>
        if e.Emplace? && e.tag == tag then h[tag].id == s.made && h[tag].Stream? == e.streaming
        else tag in s.handlers && h[tag].id == s.handlers[tag].id && h[tag].Stream? == s.handlers[tag].Stream?
  {
  }

  /** Theorem: no two living handlers come from one registration, so none answers with
      another's callback. */
  lemma {:induction false} HandlersDiffer(es: seq<Step>, serve: (nat, int) -> int, tag: Address, other: Address)
    requires Possible(es, serve) && tag in After(es, serve).handlers && other in After(es, serve).handlers
    requires tag != other
    ensures After(es, serve).handlers[tag].id != After(es, serve).handlers[other].id
  {
    HandlersAreAsRegistered(es, serve, tag);
    HandlersAreAsRegistered(es, serve, other);
    OriginsDiffer(es, tag, other);
  }

  lemma {:induction false} OriginsDiffer(es: seq<Step>, tag: Address, other: Address)
    requires tag != other && Origin(es, tag).Some? && Origin(es, other).Some?
    ensures Origin(es, tag).value.0 != Origin(es, other).value.0
    ensures Origin(es, tag).value.0 < Registrations(es) && Origin(es, other).value.0 < Registrations(es)
  {
    OriginIsPast(es, tag);
    OriginIsPast(es, other);
    var past, e := es[..|es| - 1], es[|es| - 1];
    if e.Emplace? && e.tag == tag {
      OriginIsPast(past, other);
    } else if e.Emplace? && e.tag == other {
      OriginIsPast(past, tag);
    } else {
      OriginsDiffer(past, tag, other);
    }
  }

  lemma {:induction false} OriginIsPast(es: seq<Step>, tag: Address)
    requires Origin(es, tag).Some?
    ensures es != [] && Origin(es, tag).value.0 < Registrations(es)
  {
    var past, e := es[..|es| - 1], es[|es| - 1];
    if !(e.Emplace? && e.tag == tag) { OriginIsPast(past, tag); }
  }

  /** The event a step is for the stream handler at `tag`. */
  function Felt(e: Step, tag: Address): Option<Rpc.Event> {
    match e
    case Emplace(_, _) => None
    case FirstActivation(t, a) => if t == tag then Some(Rpc.Accept(a.conn, a.doneTag)) else None
    case Return(t, ok, a) => if t == tag && ok then Some(Rpc.Accept(a.conn, a.doneTag)) else None
    case Within(t, event) => if t == tag then Some(event) else None
  }

  /** What happened to the stream handler now living at `tag`. */
  function Inside(es: seq<Step>, tag: Address): seq<Rpc.Event> {
    if es == [] then [] else
    var e := es[|es| - 1];
    if e.Emplace? && e.tag == tag then []
    else Inside(es[..|es| - 1], tag) + match Felt(e, tag) case None => [] case Some(event) => [event]
  }

  lemma StepIsFelt(s: Server, e: Step, serve: (nat, int) -> int, tag: Address)
    requires Balanced(s, serve) && CanStep(s, e) && tag in Next(s, e, serve).handlers
        && Next(s, e, serve).handlers[tag].Stream?
    ensures e.Emplace? && e.tag == tag ==> Next(s, e, serve).handlers[tag].world == Rpc.START
    ensures !(e.Emplace? && e.tag == tag) ==>
      && tag in s.handlers && s.handlers[tag].Stream?
      && var before, after := s.handlers[tag].world, Next(s, e, serve).handlers[tag].world;
      match Felt(e, tag)
      case None => after == before
      case Some(event) => Rpc.Enabled(before, event) && after == Rpc.Apply(before, event)
  {
  }

  /** Theorem: what the accept loop and the other threads do to a stream handler is a
      run of the handler, so everything proved of such runs holds of it. */
  lemma {:induction false} StreamsRun(es: seq<Step>, serve: (nat, int) -> int, tag: Address)
    requires Possible(es, serve) && tag in After(es, serve).handlers && After(es, serve).handlers[tag].Stream?
    ensures Rpc.ValidRun(Inside(es, tag)) && Rpc.Run(Inside(es, tag)) == After(es, serve).handlers[tag].world
  {
    if es == [] {
    } else {
      var past, e := es[..|es| - 1], es[|es| - 1];
      AlwaysBalanced(past, serve);
      StepIsFelt(After(past, serve), e, serve, tag);
      if !(e.Emplace? && e.tag == tag) {
        StreamsRun(past, serve, tag);
        match Felt(e, tag)
        case None => assert Inside(es, tag) == Inside(past, tag);
        case Some(event) => Rpc.Extend(Inside(past, tag), event);
      }
    }
  }

  /** Theorem: so in every state of the server each stream handler is consistent, with
      no assumption on what gRPC returns. */
  lemma {:induction false} StreamsAreConsistent(es: seq<Step>, serve: (nat, int) -> int, tag: Address)
    requires Possible(es, serve) && tag in After(es, serve).handlers && After(es, serve).handlers[tag].Stream?
    ensures Rpc.Consistent(After(es, serve).handlers[tag].world)
  {
    StreamsRun(es, serve, tag);
    Rpc.AlwaysConsistent(Inside(es, tag));
  }

  /* -------------------------------------------------------- stretches of steps */

  function Through(s: Server, es: seq<Step>, serve: (nat, int) -> int): Server {
    if es == [] then s else Next(Through(s, es[..|es| - 1], serve), es[|es| - 1], serve)
  }

  predicate CanThrough(s: Server, es: seq<Step>, serve: (nat, int) -> int) {
    forall i :: 0 <= i < |es| ==> CanStep(Through(s, es[..i], serve), es[i])
  }

  lemma OneMoreThrough(s: Server, es: seq<Step>, i: nat, serve: (nat, int) -> int)
    requires i < |es|
    ensures Through(s, es[..i + 1], serve) == Next(Through(s, es[..i], serve), es[i], serve)
  {
    assert es[..i + 1][..i] == es[..i];
  }

  lemma Extend(es: seq<Step>, e: Step, serve: (nat, int) -> int)
    ensures After(es + [e], serve) == Next(After(es, serve), e, serve)
    ensures Possible(es + [e], serve) <==> Possible(es, serve) && CanStep(After(es, serve), e)
  {
    assert (es + [e])[..|es|] == es;
  }

  /** Theorem: a stretch from a state a run reached is the rest of a longer run. */
  lemma {:induction false} StretchExtendsRun(es: seq<Step>, more: seq<Step>, n: nat, serve: (nat, int) -> int)
    requires Possible(es, serve) && CanThrough(After(es, serve), more, serve) && n <= |more|
    ensures Possible(es + more[..n], serve)
    ensures After(es + more[..n], serve) == Through(After(es, serve), more[..n], serve)
  {
    if n == 0 {
      WholePrefix(es, more);
    } else {
      StretchExtendsRun(es, more, n - 1, serve);
      OneMoreThrough(After(es, serve), more, n - 1, serve);
      Extend(es + more[..n - 1], more[n - 1], serve);
      PrefixGrows(es, more, n);
    }
  }

  /** What a returned accept can rely on. */
  lemma LookupSucceeds(s: Server, tag: Address, ok: bool, arrival: Arrival, serve: (nat, int) -> int)
    requires Balanced(s, serve) && CanStep(s, Return(tag, ok, arrival))
    ensures tag in s.handlers && s.accepts[tag] == 1 && (ok ==> CanActivate(s.handlers[tag], arrival))
  {
  }
}
