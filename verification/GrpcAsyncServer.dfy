/** The server object of grpc_async_server.hpp, the map of handlers it drives and the
    unary handler object, proved against `AcceptLoop`. */
module GrpcAsyncServers {
  import opened Tags
  import opened AcceptLoop
  import Streams = StreamRpcHandlers

  /** The unary handler object, with its private completion queue. */
  class NonStreamRpcHandler {
    const id: nat
    const serve: (nat, int) -> int
    var connection: Option<int>       // the request the next call fills in
    var queue: seq<nat>               // responses being sent, by number
    var requests: seq<int>
    var responses: seq<int>

    ghost function State(): Handler
      reads this
    {
      Unary(id, connection.Some?, requests, responses)
    }

    constructor (id: nat, serve: (nat, int) -> int)
      ensures State() == Unary(id, false, [], []) && queue == [] && this.serve == serve
    {
      this.id, this.serve := id, serve;
      connection, queue, requests, responses := None, [], [], [];
    }

    /** gRPC fills the waiting connection before it returns the accept. */
    method Fill(request: int)
      modifies this`connection
      ensures connection == if old(connection).Some? then Some(request) else None
    {
      if connection.Some? {
        connection := Some(request);
      }
    }

    /** gRPC fills the connection, and the server calls activate_next. */
    method FillAndActivate(arrival: Arrival, sent: bool)
      requires queue == []
      modifies this
      ensures queue == [] && State() == ActivateNext(old(State()), arrival, serve)
    {
      Fill(arrival.request);
      var asserted := Activate(sent);
    }

    /** `sent` is the flag the private queue yields with the response's tag. The first
        assertion holds if and only if gRPC could send the response; the second, that
        the tag is the response's, and the third, that there is an event, always do. */
    method Activate(sent: bool) returns (asserted: bool)
      requires queue == []
      modifies this`connection, this`queue, this`requests, this`responses
      ensures State() == ActivateNext(old(State()),
          Arrival(if old(connection).Some? then old(connection).value else 0, 0, 0), serve)
      ensures queue == [] && (asserted <==> old(connection) == None || sent)
    {
      asserted := true;
      if connection.Some? {
        var response := serve(id, connection.value);
        requests := requests + [connection.value];
        queue := queue + [|responses|];
        responses := responses + [response];
        if queue != [] {
          var receivedTag := queue[0];
          queue := queue[1..];
          asserted := sent && receivedTag == |responses| - 1;
        } else {
          asserted := false;
        }
      }
      connection := Some(0);
    }

    /** The destructor's drain: `Next` after Shutdown yields what is still queued. */
    method Destroy() returns (drained: nat)
      modifies this`queue
      ensures drained == |old(queue)| && queue == []
    {
      drained := 0;
      while queue != []
        invariant drained + |queue| == |old(queue)|
        decreases |queue|
      {
        queue := queue[1..];
        drained := drained + 1;
      }
    }
  }

  /** A pointer to the handler interface, with either implementation behind it. */
  datatype RpcHandler =
    | NonStream(unary: NonStreamRpcHandler)
    | Streaming(id: nat, stream: Streams.StreamRpcHandler)
  {
    ghost function Parts(): set<object> {
      match this
      case NonStream(unary) => {unary}
      case Streaming(_, stream) => {stream, stream.tags}
    }

    ghost function State(): Handler
      reads Parts()
    {
      match this
      case NonStream(unary) => unary.State()
      case Streaming(id, stream) => Handler.Stream(id, stream.Now())
    }

    ghost predicate OwnedBy(t: Address, owner: map<object, Address>) {
      match this
      case NonStream(unary) => unary in owner && owner[unary] == t
      case Streaming(_, stream) =>
        stream in owner && owner[stream] == t && stream.tags in owner && owner[stream.tags] == t
    }

    /** Between calls a unary handler's private queue is empty. */
    ghost predicate Rests(serve: (nat, int) -> int)
      reads Parts()
    {
      match this
      case NonStream(unary) => unary.queue == [] && unary.serve == serve
      case Streaming(_, _) => true
    }
  }

  lemma PartsAreOwned(h: RpcHandler, t: Address, owner: map<object, Address>)
    requires h.OwnedBy(t, owner)
    ensures forall o :: o in h.Parts() ==> o in owner && owner[o] == t
  {
  }

  /** New parts change the owner of no others. */
  lemma OwnersStay(h: RpcHandler, t: Address, owner: map<object, Address>, more: map<object, Address>)
    requires h.OwnedBy(t, owner) && owner.Keys !! more.Keys
    ensures h.OwnedBy(t, owner + more)
  {
  }

  /** `rpc_handlers_`: the map that owns the handlers. */
  class RpcMap {
    var rpcHandlers: map<Address, RpcHandler>
    ghost var owner: map<object, Address>  // which handler an object is a part of
    const serve: (nat, int) -> int

    ghost predicate Valid()
      reads this, owner.Keys
    {
      && this !in owner
      && (forall t :: t in rpcHandlers ==> rpcHandlers[t].OwnedBy(t, owner))
      && (forall t :: t in rpcHandlers ==> rpcHandlers[t].Rests(serve))
    }

    ghost function Handlers(): map<Address, Handler>
      requires Valid()
      reads this, owner.Keys
    {
      map t | t in rpcHandlers :: rpcHandlers[t].State()
    }

    constructor (serve: (nat, int) -> int)
      ensures Valid() && Handlers() == map[] && owner == map[] && this.serve == serve
    {
      this.serve := serve;
      rpcHandlers, owner := map[], map[];
    }

    /** While only parts of the handler at `tag` change, the others stay as they were. */
    twostate lemma OthersStay(tag: Address)
      requires old(Valid()) && tag in old(rpcHandlers) && rpcHandlers == old(rpcHandlers)
      requires forall o :: o in old(owner) && o !in rpcHandlers[tag].Parts() ==> unchanged(o)
      ensures forall t :: t in rpcHandlers && t != tag ==> rpcHandlers[t].State() == old(rpcHandlers[t].State())
      ensures forall t :: t in rpcHandlers && t != tag ==> rpcHandlers[t].Rests(serve)
    {
      PartsAreOwned(rpcHandlers[tag], tag, old(owner));
      forall t | t in rpcHandlers
        ensures forall o :: o in rpcHandlers[t].Parts() ==> o in old(owner) && old(owner)[o] == t
      {
        PartsAreOwned(rpcHandlers[t], t, old(owner));
      }
    }

    method Emplace(tag: Address, id: nat, streaming: bool)
      requires Valid() && tag !in rpcHandlers
      modifies this
      ensures Valid() && Handlers() == old(Handlers())[tag := Made(id, streaming)]
      ensures fresh(owner.Keys - old(owner.Keys))
    {
      var handler := Make(id, streaming);
      Put(tag, handler);
    }

    method Put(tag: Address, handler: RpcHandler)
      requires Valid() && tag !in rpcHandlers && handler.Rests(serve)
      requires handler.Parts() !! owner.Keys && this !in handler.Parts()
      modifies this
      ensures Valid() && Handlers() == old(Handlers())[tag := old(handler.State())]
      ensures owner.Keys == old(owner.Keys) + handler.Parts()
    {
      Own(tag, handler);
      Link(tag, handler);
    }

    ghost method Own(tag: Address, handler: RpcHandler)
      requires Valid() && handler.Parts() !! owner.Keys && this !in handler.Parts()
      modifies this`owner
      ensures Valid() && Handlers() == old(Handlers()) && handler.OwnedBy(tag, owner)
      ensures owner.Keys == old(owner.Keys) + handler.Parts()
    {
      ghost var more := map o | o in handler.Parts() :: tag;
      forall t | t in rpcHandlers ensures rpcHandlers[t].OwnedBy(t, owner + more) {
        OwnersStay(rpcHandlers[t], t, owner, more);
      }
      owner := owner + more;
    }

    method Link(tag: Address, handler: RpcHandler)
      requires Valid() && tag !in rpcHandlers && handler.Rests(serve) && handler.OwnedBy(tag, owner)
      modifies this`rpcHandlers
      ensures Valid() && Handlers() == old(Handlers())[tag := handler.State()]
    {
      rpcHandlers := rpcHandlers[tag := handler];
    }

    method Make(id: nat, streaming: bool) returns (handler: RpcHandler)
      ensures handler.State() == Made(id, streaming) && handler.Rests(serve) && fresh(handler.Parts())
    {
      if streaming {
        var stream := new Streams.StreamRpcHandler();
        handler := Streaming(id, stream);
      } else {
        var unary := new NonStreamRpcHandler(id, serve);
        handler := NonStream(unary);
      }
    }

    /** activate_next of the handler at `tag`. */
    method ActivateAt(tag: Address, arrival: Arrival, sent: bool)
      requires Valid() && tag in rpcHandlers && CanActivate(Handlers()[tag], arrival)
      modifies owner.Keys
      ensures Valid() && Handlers() == old(Handlers())[tag := ActivateNext(old(Handlers())[tag], arrival, serve)]
    {
      ActivateOne(tag, arrival, sent);
      OthersStay(tag);
    }

    method ActivateOne(tag: Address, arrival: Arrival, sent: bool)
      requires Valid() && tag in rpcHandlers && CanActivate(rpcHandlers[tag].State(), arrival)
      modifies rpcHandlers[tag].Parts()
      ensures rpcHandlers[tag].Rests(serve)
          && rpcHandlers[tag].State() == ActivateNext(old(rpcHandlers[tag].State()), arrival, serve)
    {
      match rpcHandlers[tag]
      case NonStream(unary) => unary.FillAndActivate(arrival, sent);
      case Streaming(_, stream) => stream.ActivateNext(arrival.conn, arrival.doneTag);
    }

    /** The handler is destroyed. A unary one drains its private queue, which is empty,
        so the assertion inside that loop is never evaluated. */
    method Erase(tag: Address) returns (drained: nat)
      requires Valid() && tag in rpcHandlers
      modifies this`rpcHandlers, owner.Keys
      ensures Valid() && drained == 0 && Handlers() == old(Handlers()) - {tag}
    {
      drained := DestroyAt(tag);
      Unlink(tag);
    }

    method DestroyAt(tag: Address) returns (drained: nat)
      requires Valid() && tag in rpcHandlers
      modifies owner.Keys
      ensures Valid() && drained == 0 && Handlers() == old(Handlers())
    {
      drained := DestroyOne(tag);
      OthersStay(tag);
    }

    method DestroyOne(tag: Address) returns (drained: nat)
      requires Valid() && tag in rpcHandlers
      modifies rpcHandlers[tag].Parts()
      ensures drained == 0 && rpcHandlers[tag].Rests(serve) && rpcHandlers[tag].State() == old(rpcHandlers[tag].State())
    {
      drained := 0;
      match rpcHandlers[tag]
      case NonStream(unary) => drained := unary.Destroy();
      case Streaming(_, _) =>
    }

    method Unlink(tag: Address)
      requires Valid() && tag in rpcHandlers
      modifies this`rpcHandlers
      ensures Valid() && Handlers() == old(Handlers()) - {tag}
    {
      rpcHandlers := rpcHandlers - {tag};
    }
  }

  /** The server and its run loop. */
  class GrpcAsyncServer {
    const rpcHandlers: RpcMap
    var registering: set<Address>
    var accepts: multiset<Address>
    var made: nat
    ghost var destroyed: seq<Handler>

    ghost predicate Valid()
      reads rpcHandlers, rpcHandlers.owner.Keys
    {
      rpcHandlers.Valid() && this !in rpcHandlers.owner
    }

    ghost function State(): Server
      requires Valid()
      reads this, rpcHandlers, rpcHandlers.owner.Keys
    {
      Server(rpcHandlers.Handlers(), registering, accepts, made, destroyed, false, false)
    }

    constructor (serve: (nat, int) -> int)
      ensures Valid() && State() == IDLE && rpcHandlers.serve == serve && fresh(rpcHandlers)
          && rpcHandlers.owner == map[]
    {
      rpcHandlers := new RpcMap(serve);
      registering, accepts, made, destroyed := {}, multiset{}, 0, [];
    }

    /** First half of register_async and register_async_stream: the handler enters the map. */
    method Insert(tag: Address, streaming: bool)
      requires Valid() && tag !in rpcHandlers.rpcHandlers
      modifies this, rpcHandlers
      ensures Valid() && State() == Next(old(State()), Emplace(tag, streaming), rpcHandlers.serve)
      ensures fresh(rpcHandlers.owner.Keys - old(rpcHandlers.owner.Keys))
    {
      rpcHandlers.Emplace(tag, made, streaming);
      registering, made := registering + {tag}, made + 1;
    }

    /** Second half of a registration: the first activation. */
    method ActivateFirst(tag: Address, arrival: Arrival)
      requires Valid() && tag in rpcHandlers.rpcHandlers && CanActivate(rpcHandlers.Handlers()[tag], arrival)
      modifies this, rpcHandlers.owner.Keys
      ensures Valid() && State() == Next(old(State()), FirstActivation(tag, arrival), rpcHandlers.serve)
    {
      NoteActivation(tag);
      rpcHandlers.ActivateAt(tag, arrival, true);
    }

    method NoteActivation(tag: Address)
      requires Valid()
      modifies this`accepts, this`registering
      ensures Valid() && rpcHandlers.Handlers() == old(rpcHandlers.Handlers())
      ensures accepts == old(accepts) + multiset{tag} && registering == old(registering) - {tag}
    {
      accepts, registering := accepts + multiset{tag}, registering - {tag};
    }

    /** One round of the run loop: the lookup succeeds for every returned tag. */
    method OnEvent(tag: Address, ok: bool, arrival: Arrival, sent: bool)
      requires Valid() && tag in rpcHandlers.rpcHandlers && accepts[tag] == 1
      requires ok ==> CanActivate(rpcHandlers.Handlers()[tag], arrival)
      modifies this, rpcHandlers, rpcHandlers.owner.Keys
      ensures Valid() && State() == Next(old(State()), Return(tag, ok, arrival), rpcHandlers.serve)
      ensures rpcHandlers.owner == old(rpcHandlers.owner)
    {
      if ok {
        OnAccept(tag, arrival, sent);
      } else {
        OnFailure(tag, arrival);
      }
    }

    /** An accept is taken and the next one asked for, so as many are outstanding. */
    method OnAccept(tag: Address, arrival: Arrival, sent: bool)
      requires Valid() && tag in rpcHandlers.rpcHandlers && accepts[tag] == 1
      requires CanActivate(rpcHandlers.Handlers()[tag], arrival)
      modifies rpcHandlers.owner.Keys
      ensures Valid() && State() == Next(old(State()), Return(tag, true, arrival), rpcHandlers.serve)
    {
      assert accepts - multiset{tag} + multiset{tag} == accepts;
      rpcHandlers.ActivateAt(tag, arrival, sent);
    }

    method OnFailure(tag: Address, arrival: Arrival)
      requires Valid() && tag in rpcHandlers.rpcHandlers && accepts[tag] == 1
      modifies this`accepts, this`destroyed, rpcHandlers`rpcHandlers, rpcHandlers.owner.Keys
      ensures Valid() && State() == Next(old(State()), Return(tag, false, arrival), rpcHandlers.serve)
    {
      FailureMeans(State(), tag, arrival, rpcHandlers.serve);
      NoteFailure(tag);
      var drained := rpcHandlers.Erase(tag);
    }

    method NoteFailure(tag: Address)
      requires Valid() && tag in rpcHandlers.rpcHandlers
      modifies this`accepts, this`destroyed
      ensures Valid() && rpcHandlers.Handlers() == old(rpcHandlers.Handlers())
      ensures accepts == old(accepts) - multiset{tag}
          && destroyed == old(destroyed) + [old(rpcHandlers.Handlers())[tag]]
    {
      accepts, destroyed := accepts - multiset{tag}, destroyed + [rpcHandlers.Handlers()[tag]];
    }

    lemma FailureMeans(s: Server, tag: Address, arrival: Arrival, serve: (nat, int) -> int)
      requires tag in s.handlers && s.accepts[tag] == 1
      ensures Next(s, Return(tag, false, arrival), serve) ==
        s.(handlers := s.handlers - {tag}, accepts := s.accepts - multiset{tag},
            destroyed := s.destroyed + [s.handlers[tag]])
    {
    }

    /** A stretch of the run loop: `Next` yields `returned` in turn, `sent` what the
        private queues of unary handlers yield. */
    method Run(returned: seq<Step>, sent: nat -> bool)
      requires Valid() && Balanced(State(), rpcHandlers.serve) && CanThrough(State(), returned, rpcHandlers.serve)
      requires forall i :: 0 <= i < |returned| ==> returned[i].Return?
      modifies this, rpcHandlers, rpcHandlers.owner.Keys
      ensures Valid() && Balanced(State(), rpcHandlers.serve)
      ensures State() == Through(old(State()), returned, rpcHandlers.serve)
    {
      ghost var s := State();
      for i := 0 to |returned|
        invariant Valid() && rpcHandlers.owner == old(rpcHandlers.owner)
        invariant Balanced(State(), rpcHandlers.serve) && State() == Through(s, returned[..i], rpcHandlers.serve)
      {
        OneMoreThrough(s, returned, i, rpcHandlers.serve);
        assert CanStep(Through(s, returned[..i], rpcHandlers.serve), returned[i]);
        StepKeepsBalance(State(), returned[i], rpcHandlers.serve);
        LookupSucceeds(State(), returned[i].tag, returned[i].ok, returned[i].arrival, rpcHandlers.serve);
        OnEvent(returned[i].tag, returned[i].ok, returned[i].arrival, sent(i));
      }
      assert returned[..|returned|] == returned;
    }
  }
}
