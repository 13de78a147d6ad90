/** The server-side broadcast stream handler (stream_rpc_handler.hpp).

  Every critical section of the handler is one atomic step. gRPC is the
  environment: it returns each tag it was lent at most once, in any order, with
  any `ok` flag. The specification lives on the value type `World`; the class
  `StreamRpcHandler` in StreamRpcHandler.dfy is proved against it.
 */
module StreamRpc {
  import opened Tags

  datatype TagLabel = Writing | Done

  datatype Operation = Write(update: int) | Finish(status: int)

  /** A connection that waits for a client: its address and its serial number. */
  datatype Waiting = Waiting(key: Address, id: nat)

  /** The shared structures guarded by the handler's lock. The value stored under
      a key of `active` is the serial number of the connection object that lives
      at that address; serial numbers are never reused, addresses may be. */
  datatype Connections = Connections(
    next: Option<Waiting>,
    active: map<Address, nat>,
    processing: set<Address>,
    tags: map<Address, Tag<TagLabel>>)

  /** One executed `write` or `finish` body: what was sent, the client argument
      (`None` for the null client) and the active connections it saw. */
  datatype Call = Call(op: Operation, client: Option<Address>, active: map<Address, nat>)

  /** The handler's state, the tags gRPC holds, and what has happened so far. */
  datatype World = World(
    c: Connections,
    outstanding: set<Address>,       // tags lent to gRPC and not yet returned
    created: nat,                    // connection objects made so far
    connected: seq<nat>,             // serial numbers passed to the connection callback
    deleted: seq<Option<nat>>,       // serial numbers the deletion callback was given; None: it read a destroyed object
    doneHandled: set<nat>,           // connections whose done event was handled
    calls: seq<Call>,                // write and finish bodies, in lock order
    issued: map<nat, seq<Operation>>,// operations started on each connection's responder
    completed: map<nat, nat>)        // how many of them have come back

  datatype Event =
    | Accept(conn: Address, tag: Address)
    | Issue(op: Operation, client: Option<Address>, batch: map<Address, Address>)
    | Return(tag: Address, ok: bool)

  const START := World(Connections(None, map[], {}, map[]), {}, 0, [], [], {}, [], map[], map[])

  /* ---------------------------------------------------------------- steps */

  /** activate_next: the waiting connection becomes active, a new one is created. */
  function Activate(w: World, conn: Address, tag: Address): World {
    var c := w.c;
    var active := if c.next.Some? then c.active[c.next.value.key := c.next.value.id] else c.active;
    w.(c := Connections(Some(Waiting(conn, w.created)), active, c.processing, c.tags[tag := Tag(conn, Done)]),
       outstanding := w.outstanding + {tag},
       created := w.created + 1,
       connected := if c.next.Some? then w.connected + [c.next.value.id] else w.connected,
       issued := w.issued[w.created := []],
       completed := w.completed[w.created := 0])
  }

  /** The connections a call addresses. */
  function Targets(active: map<Address, nat>, client: Option<Address>): set<Address> {
    match client
    case None => active.Keys
    case Some(a) => if a in active then {a} else {}
  }

  predicate Hits(call: Call, id: nat) {
    exists a :: a in Targets(call.active, call.client) && call.active[a] == id
  }

  function BatchTags(batch: map<Address, Address>): map<Address, Tag<TagLabel>> {
    map t | t in batch :: Tag(batch[t], Writing)
  }

  /** The body of write / finish; `batch` maps each newly allocated tag to the
      connection it was made for. */
  function IssueAll(w: World, op: Operation, client: Option<Address>, batch: map<Address, Address>): World {
    var call := Call(op, client, w.c.active);
    w.(c := w.c.(processing := w.c.processing + Targets(w.c.active, client), tags := w.c.tags + BatchTags(batch)),
       outstanding := w.outstanding + batch.Keys,
       calls := w.calls + [call],
       issued := map id | id in w.issued :: if Hits(call, id) then w.issued[id] + [op] else w.issued[id])
  }

  /** The serial number of the object at an address, if one still lives there. */
  function Lookup(c: Connections, a: Address): Option<nat> {
    if a in c.active then Some(c.active[a])
    else if c.next.Some? && c.next.value.key == a then Some(c.next.value.id)
    else None
  }

  /** The deletion callback followed by the erasure from `active`. */
  function Remove(w: World, a: Address): World {
    w.(c := w.c.(active := w.c.active - {a}), deleted := w.deleted + [Lookup(w.c, a)])
  }

  /** One round of run_synchronization. */
  function Complete(w: World, t: Address, ok: bool): World {
    if t !in w.c.tags then w else
    var a := w.c.tags[t].data;
    var taken := w.(c := w.c.(tags := w.c.tags - {t}), outstanding := w.outstanding - {t});
    match w.c.tags[t].kind
    case Writing =>
      var back := taken.(c := taken.c.(processing := taken.c.processing - {a}),
                         completed := if a in w.c.active && w.c.active[a] in w.completed
                                      then w.completed[w.c.active[a] := w.completed[w.c.active[a]] + 1]
                                      else w.completed);
      if ok then back else Remove(back, a)
    case Done =>
      var named := Lookup(w.c, a);
      var seen := taken.(doneHandled := if named.Some? then w.doneHandled + {named.value} else w.doneHandled);
      if a in w.c.processing then seen else Remove(seen, a)
  }

  /** The returned tag was the last one being processed, so a writer must be woken. */
  predicate Drains(w: World, t: Address, ok: bool) {
    t in w.c.tags && w.c.tags[t].kind == Writing && Complete(w, t, ok).c.processing == {}
  }

  /** A stretch of returns handled one after the other. */
  function CompleteAll(w: World, returned: seq<(Address, bool)>): World {
    if returned == [] then w else
    Complete(CompleteAll(w, returned[..|returned| - 1]), returned[|returned| - 1].0, returned[|returned| - 1].1)
  }

  predicate Returnable(w: World, returned: seq<(Address, bool)>) {
    returned == [] ||
    (Returnable(w, returned[..|returned| - 1])
        && returned[|returned| - 1].0 in CompleteAll(w, returned[..|returned| - 1]).outstanding)
  }

  /** How many of them wake a writer. */
  function Wakeups(w: World, returned: seq<(Address, bool)>): nat {
    if returned == [] then 0 else
    Wakeups(w, returned[..|returned| - 1]) +
    (if Drains(CompleteAll(w, returned[..|returned| - 1]), returned[|returned| - 1].0, returned[|returned| - 1].1)
        then 1 else 0)
  }

  function Apply(w: World, e: Event): World {
    match e
    case Accept(conn, tag) => Activate(w, conn, tag)
    case Issue(op, client, batch) => IssueAll(w, op, client, batch)
    case Return(t, ok) => Complete(w, t, ok)
  }

  predicate Injective(m: map<Address, Address>) {
    forall t, u :: t in m && u in m && m[t] == m[u] ==> t == u
  }

  /** The allocator hands out unused addresses; a call's body runs only when
      nothing is being processed; gRPC returns only what it holds. */
  predicate Enabled(w: World, e: Event) {
    match e
    case Accept(conn, tag) =>
      conn !in w.c.active && tag !in w.c.tags && (w.c.next.Some? ==> w.c.next.value.key != conn)
    case Issue(op, client, batch) =>
      w.c.processing == {} && batch.Keys !! w.c.tags.Keys && Injective(batch)
          && batch.Values == Targets(w.c.active, client)
    case Return(t, ok) => t in w.outstanding
  }

  function Run(es: seq<Event>): World {
    if es == [] then START else Apply(Run(es[..|es| - 1]), es[|es| - 1])
  }

  predicate ValidRun(es: seq<Event>) {
    es == [] || (ValidRun(es[..|es| - 1]) && Enabled(Run(es[..|es| - 1]), es[|es| - 1]))
  }

  lemma Extend(es: seq<Event>, e: Event)
    ensures Run(es + [e]) == Apply(Run(es), e)
    ensures ValidRun(es + [e]) <==> ValidRun(es) && Enabled(Run(es), e)
  {
    assert (es + [e])[..|es|] == es;
  }

  /* ------------------------------------- what holds whatever gRPC returns */

  /** `tags` holds what gRPC holds, and `processing` is exactly the set of
      connections with a writing tag, one tag each. */
  ghost predicate OneInFlight(w: World) {
    && w.outstanding == w.c.tags.Keys
    && w.c.processing <= w.c.active.Keys
    && (forall t :: t in w.c.tags && w.c.tags[t].kind == Writing ==> w.c.tags[t].data in w.c.processing)
    && (forall a :: a in w.c.processing ==> Named(w.c.tags, Tag(a, Writing)))
    && (forall t, u :: t in w.c.tags && u in w.c.tags && w.c.tags[t] == w.c.tags[u] && w.c.tags[t].kind == Writing ==>
        t == u)
  }

  ghost predicate SerialNumbers(w: World) {
    && (forall a :: a in w.c.active ==> w.c.active[a] < w.created)
    && (forall a, b :: a in w.c.active && b in w.c.active && w.c.active[a] == w.c.active[b] ==> a == b)
    && (w.c.next.Some? ==>
          && w.c.next.value.key !in w.c.active
          && w.c.next.value.id < w.created
          && forall a :: a in w.c.active ==> w.c.active[a] != w.c.next.value.id)
    && (forall k, a :: 0 <= k < |w.calls| && a in w.calls[k].active ==> w.calls[k].active[a] < w.created)
  }

  predicate InFlight(c: Connections, id: nat) {
    exists a :: a in c.processing && a in c.active && c.active[a] == id
  }

  /** The operations of a call log that addressed one connection, in order. */
  function Addressed(calls: seq<Call>, id: nat): seq<Operation> {
    if calls == [] then [] else
    Addressed(calls[..|calls| - 1], id) + (if Hits(calls[|calls| - 1], id) then [calls[|calls| - 1].op] else [])
  }

  /** Connection `id` was sent exactly its share of the global log, in order, and
      all of it but the operation in flight has come back. */
  ghost predicate Settled(w: World, id: nat) {
    && id in w.issued && id in w.completed
    && w.issued[id] == Addressed(w.calls, id)
    && |w.issued[id]| == w.completed[id] + (if InFlight(w.c, id) then 1 else 0)
  }

  ghost predicate Ledger(w: World) {
    forall id: nat :: id < w.created ==> Settled(w, id)
  }

  ghost predicate Consistent(w: World) {
    OneInFlight(w) && SerialNumbers(w) && Ledger(w)
  }

  lemma {:induction false} NotAddressed(calls: seq<Call>, id: nat)
    requires forall k, a :: 0 <= k < |calls| && a in calls[k].active ==> calls[k].active[a] != id
    ensures Addressed(calls, id) == []
  {
    if calls == [] {
    } else {
      NotAddressed(calls[..|calls| - 1], id);
      assert !Hits(calls[|calls| - 1], id);
    }
  }

  lemma AcceptKeepsOneInFlight(w: World, conn: Address, tag: Address)
    requires OneInFlight(w) && Enabled(w, Accept(conn, tag))
    ensures OneInFlight(Activate(w, conn, tag))
  {
    var v := Activate(w, conn, tag);
    forall a | a in v.c.processing ensures Named(v.c.tags, Tag(a, Writing)) {
      var t :| t in w.c.tags && w.c.tags[t] == Tag(a, Writing);
      assert v.c.tags[t] == Tag(a, Writing);
    }
  }

  lemma AcceptKeepsLedger(w: World, conn: Address, tag: Address, id: nat)
    requires Consistent(w) && id <= w.created
    ensures Settled(Activate(w, conn, tag), id)
  {
    var v := Activate(w, conn, tag);
    if id == w.created {
      NotAddressed(w.calls, id);
    } else {
      assert Settled(w, id);
      if InFlight(w.c, id) {
        var a :| a in w.c.processing && a in w.c.active && w.c.active[a] == id;
        assert v.c.active[a] == id;
      }
    }
  }

  lemma AcceptConsistent(w: World, conn: Address, tag: Address)
    requires Consistent(w) && Enabled(w, Accept(conn, tag))
    ensures Consistent(Activate(w, conn, tag))
  {
    AcceptKeepsOneInFlight(w, conn, tag);
    forall id: nat | id <= w.created ensures Settled(Activate(w, conn, tag), id) {
      AcceptKeepsLedger(w, conn, tag, id);
    }
  }

  lemma IssueKeepsOneInFlight(w: World, op: Operation, client: Option<Address>, batch: map<Address, Address>)
    requires OneInFlight(w) && Enabled(w, Issue(op, client, batch))
    ensures OneInFlight(IssueAll(w, op, client, batch))
  {
    var v := IssueAll(w, op, client, batch);
    forall a | a in v.c.processing ensures Named(v.c.tags, Tag(a, Writing)) {
      assert a in batch.Values;
      var t :| t in batch && batch[t] == a;
      assert v.c.tags[t] == Tag(a, Writing);
    }
    forall t | t in v.c.tags && v.c.tags[t].kind == Writing ensures t in batch && batch[t] in v.c.processing {
      assert t in batch;
      assert batch[t] in batch.Values;
    }
  }

  lemma IssueKeepsLedger(w: World, op: Operation, client: Option<Address>, batch: map<Address, Address>, id: nat)
    requires Consistent(w) && w.c.processing == {} && id < w.created
    ensures Settled(IssueAll(w, op, client, batch), id)
  {
    var v := IssueAll(w, op, client, batch);
    var call := Call(op, client, w.c.active);
    assert v.calls[..|v.calls| - 1] == w.calls;
    assert Settled(w, id) && !InFlight(w.c, id);
    if Hits(call, id) {
      var a :| a in Targets(call.active, client) && call.active[a] == id;
      assert a in v.c.processing;
    }
  }

  lemma IssueConsistent(w: World, op: Operation, client: Option<Address>, batch: map<Address, Address>)
    requires Consistent(w) && Enabled(w, Issue(op, client, batch))
    ensures Consistent(IssueAll(w, op, client, batch))
  {
    IssueKeepsOneInFlight(w, op, client, batch);
    forall id: nat | id < w.created ensures Settled(IssueAll(w, op, client, batch), id) {
      IssueKeepsLedger(w, op, client, batch, id);
    }
  }

  lemma CompleteKeepsOneInFlight(w: World, t: Address, ok: bool)
    requires OneInFlight(w) && t in w.outstanding
    ensures OneInFlight(Complete(w, t, ok))
  {
    var v := Complete(w, t, ok);
    assert v.c.tags == w.c.tags - {t};
    forall b | b in v.c.processing ensures Named(v.c.tags, Tag(b, Writing)) {
      var u :| u in w.c.tags && w.c.tags[u] == Tag(b, Writing);
      assert u != t;
      assert v.c.tags[u] == Tag(b, Writing);
    }
    forall u | u in v.c.tags && v.c.tags[u].kind == Writing ensures v.c.tags[u].data in v.c.processing {
      assert u in w.c.tags && w.c.tags[u] == v.c.tags[u];
      if w.c.tags[t] == w.c.tags[u] { assert false; }
    }
  }

  lemma CompleteKeepsLedger(w: World, t: Address, ok: bool, id: nat)
    requires Consistent(w) && t in w.outstanding && id < w.created
    ensures Settled(Complete(w, t, ok), id)
  {
    var v := Complete(w, t, ok);
    var a := w.c.tags[t].data;
    assert Settled(w, id);
    if InFlight(w.c, id) {
      var b :| b in w.c.processing && b in w.c.active && w.c.active[b] == id;
      if b != a || w.c.tags[t].kind == Done { assert b in v.c.processing && b in v.c.active && v.c.active[b] == id; }
    }
    if InFlight(v.c, id) {
      var b :| b in v.c.processing && b in v.c.active && v.c.active[b] == id;
      assert b in w.c.processing && w.c.active[b] == id;
    }
  }

  lemma CompleteConsistent(w: World, t: Address, ok: bool)
    requires Consistent(w) && t in w.outstanding
    ensures Consistent(Complete(w, t, ok))
  {
    CompleteKeepsOneInFlight(w, t, ok);
    forall id: nat | id < w.created ensures Settled(Complete(w, t, ok), id) {
      CompleteKeepsLedger(w, t, ok, id);
    }
  }

  lemma StepConsistent(w: World, e: Event)
    requires Consistent(w) && Enabled(w, e)
    ensures Consistent(Apply(w, e))
  {
    match e
    case Accept(conn, tag) => AcceptConsistent(w, conn, tag);
    case Issue(op, client, batch) => IssueConsistent(w, op, client, batch);
    case Return(t, ok) => CompleteConsistent(w, t, ok);
  }

  /** Theorem, with no assumption on what gRPC returns: the tag table is exactly
      what gRPC holds, a stream never has two operations in flight, and each
      connection is sent its share of the global log in order. */
  lemma {:induction false} AlwaysConsistent(es: seq<Event>)
    requires ValidRun(es)
    ensures Consistent(Run(es))
  {
    if es == [] {
    } else {
      AlwaysConsistent(es[..|es| - 1]);
      StepConsistent(Run(es[..|es| - 1]), es[|es| - 1]);
    }
  }

  /** What one critical section needs to know of the state it finds. */
  ghost predicate Tracked(w: World) {
    && w.outstanding == w.c.tags.Keys
    && w.c.processing <= w.c.active.Keys
    && (forall a :: a in w.c.active ==> w.c.active[a] in w.issued && w.c.active[a] in w.completed)
    && (forall a, b :: a in w.c.active && b in w.c.active && w.c.active[a] == w.c.active[b] ==> a == b)
    && (forall t :: t in w.c.tags && w.c.tags[t].kind == Writing ==> w.c.tags[t].data in w.c.processing)
  }

  lemma ConsistentIsTracked(w: World)
    requires Consistent(w)
    ensures Tracked(w)
  {
    forall a | a in w.c.active ensures Settled(w, w.c.active[a]) {
    }
  }

  /** Theorem, with no assumption on what gRPC returns: when the body of a write or
      finish runs, every operation of every earlier batch has come back. */
  lemma BatchesDoNotOverlap(es: seq<Event>, e: Event)
    requires ValidRun(es) && Enabled(Run(es), e) && e.Issue?
    ensures forall t :: t in Run(es).outstanding ==> t in Run(es).c.tags && Run(es).c.tags[t].kind == Done
    ensures forall id: nat :: id < Run(es).created ==>
      id in Run(es).issued && id in Run(es).completed && |Run(es).issued[id]| == Run(es).completed[id]
  {
    AlwaysConsistent(es);
    var w := Run(es);
    assert w.c.processing == {};
    forall id: nat | id < w.created
      ensures id in w.issued && id in w.completed && |w.issued[id]| == w.completed[id]
    {
      assert Settled(w, id) && !InFlight(w.c, id);
    }
  }

  /* -------------------------------------------- what each step does, in a run */

  /** The client argument of a call means the connection with serial number `id`. */
  predicate Meant(active: map<Address, nat>, client: Option<Address>, id: nat) {
    match client
    case None => id in active.Values
    case Some(key) => key in active && active[key] == id
  }

  /** Theorem: a write or finish starts its operation on the connection it is meant for,
      or on all active ones if it is meant for nobody in particular, and on no other. */
  lemma {:induction false} IssueReaches(es: seq<Event>, op: Operation, client: Option<Address>,
                                        batch: map<Address, Address>, id: nat)
    requires ValidRun(es + [Issue(op, client, batch)]) && id < Run(es).created
    ensures var w, u := Run(es), Run(es + [Issue(op, client, batch)]);
      && id in w.issued && id in u.issued
      && u.issued[id] == if Meant(w.c.active, client, id) then w.issued[id] + [op] else w.issued[id]
  {
    Extend(es, Issue(op, client, batch));
    AlwaysConsistent(es);
    var w := Run(es);
    assert Settled(w, id);
    var call := Call(op, client, w.c.active);
    if Meant(w.c.active, client, id) {
      var a :| a in w.c.active && w.c.active[a] == id && (client == None || client == Some(a));
      assert a in Targets(call.active, call.client);
    }
  }

  /** Theorem: it marks these connections as being processed, makes one new writing tag
      for each of them, and leaves everything else as it was. */
  lemma {:induction false} IssueMarks(es: seq<Event>, op: Operation, client: Option<Address>,
                                      batch: map<Address, Address>)
    requires ValidRun(es + [Issue(op, client, batch)])
    ensures var w, u := Run(es), Run(es + [Issue(op, client, batch)]);
      && w.c.processing == {} && u.c.active == w.c.active && u.c.next == w.c.next
      && (forall a :: a in u.c.processing <==> a in w.c.active && (client == None || client == Some(a)))
      && (forall a :: a in u.c.processing ==> exists t :: t in batch && batch[t] == a)
      && (forall t :: t in batch ==> t !in w.c.tags && batch[t] in u.c.processing)
      && (forall t, v :: t in batch && v in batch && batch[t] == batch[v] ==> t == v)
      && (forall t :: t in u.c.tags <==> t in w.c.tags || t in batch)
      && (forall t :: t in u.c.tags ==> u.c.tags[t] == if t in batch then Tag(batch[t], Writing) else w.c.tags[t])
      && u.outstanding == w.outstanding + batch.Keys
      && u.created == w.created && u.connected == w.connected && u.deleted == w.deleted
      && u.doneHandled == w.doneHandled && u.completed == w.completed
  {
    Extend(es, Issue(op, client, batch));
    var w, u := Run(es), Run(es + [Issue(op, client, batch)]);
    forall a | a in u.c.processing ensures exists t :: t in batch && batch[t] == a {
      assert a in batch.Values;
    }
    forall t | t in batch ensures batch[t] in u.c.processing {
      assert batch[t] in batch.Values;
    }
  }

  /** Theorem: an accept makes the waiting connection, if there is one, an active one,
      tells the connection callback, and leaves a new one waiting with its done tag. */
  lemma {:induction false} AcceptConnects(es: seq<Event>, conn: Address, tag: Address)
    requires ValidRun(es + [Accept(conn, tag)])
    ensures var w, u := Run(es), Run(es + [Accept(conn, tag)]);
      && u.c.next == Some(Waiting(conn, w.created)) && u.created == w.created + 1
      && (w.c.next == None ==> u.c.active == w.c.active && u.connected == w.connected)
      && (w.c.next.Some? ==>
            && u.connected == w.connected + [w.c.next.value.id]
            && u.c.active == w.c.active[w.c.next.value.key := w.c.next.value.id])
      && tag !in w.c.tags && u.c.tags == w.c.tags[tag := Tag(conn, Done)] && u.outstanding == w.outstanding + {tag}
      && u.issued == w.issued[w.created := []] && u.c.processing == w.c.processing
      && u.deleted == w.deleted && u.doneHandled == w.doneHandled
  {
    Extend(es, Accept(conn, tag));
  }

  /** What a returned tag leaves alone, in any case. */
  predicate ReturnKeepsRest(w: World, u: World, t: Address) {
    && u.c.tags == w.c.tags - {t} && u.outstanding == w.outstanding - {t} && u.c.next == w.c.next
    && u.created == w.created && u.connected == w.connected && u.issued == w.issued && u.calls == w.calls
  }

  /** The operation that tag `t` was made for has come back. */
  predicate OperationBack(w: World, u: World, t: Address, ok: bool)
    requires t in w.c.tags
  {
    var a := w.c.tags[t].data;
    && ReturnKeepsRest(w, u, t) && u.doneHandled == w.doneHandled
    && a in w.c.active && a in w.c.processing && u.c.processing == w.c.processing - {a}
    && w.c.active[a] in w.completed
    && u.completed == w.completed[w.c.active[a] := w.completed[w.c.active[a]] + 1]
    && u.c.active == (if ok then w.c.active else w.c.active - {a})
    && u.deleted == (if ok then w.deleted else w.deleted + [Some(w.c.active[a])])
  }

  /** Theorem: a returned operation is counted as completed and its connection is no
      longer processed; if it failed, the connection is deleted, and only then. */
  lemma {:induction false} OperationReturns(es: seq<Event>, t: Address, ok: bool)
    requires ValidRun(es + [Return(t, ok)]) && t in Run(es).c.tags && Run(es).c.tags[t].kind == Writing
    ensures OperationBack(Run(es), Run(es + [Return(t, ok)]), t, ok)
  {
    Extend(es, Return(t, ok));
    AlwaysConsistent(es);
    ConsistentIsTracked(Run(es));
    TrackedReturns(Run(es), t, ok);
  }

  lemma TrackedReturns(w: World, t: Address, ok: bool)
    requires Tracked(w) && t in w.c.tags && w.c.tags[t].kind == Writing
    ensures OperationBack(w, Complete(w, t, ok), t, ok)
  {
  }

  /** Theorem: a done event is noted for its connection, which is deleted at once unless
      an operation on it is still being processed. */
  lemma {:induction false} DoneReturns(es: seq<Event>, t: Address, ok: bool)
    requires ValidRun(es + [Return(t, ok)]) && t in Run(es).c.tags && Run(es).c.tags[t].kind == Done
    ensures var w, u := Run(es), Run(es + [Return(t, ok)]);
      var a := w.c.tags[t].data;
      && ReturnKeepsRest(w, u, t) && u.c.processing == w.c.processing && u.completed == w.completed
      && (a in w.c.active ==> u.doneHandled == w.doneHandled + {w.c.active[a]})
      && (a in w.c.processing ==> u.c.active == w.c.active && u.deleted == w.deleted)
      && (a !in w.c.processing ==> u.c.active == w.c.active - {a} && |u.deleted| == |w.deleted| + 1)
      && (a !in w.c.processing && a in w.c.active ==> u.deleted == w.deleted + [Some(w.c.active[a])])
  {
    Extend(es, Return(t, ok));
  }

  /** Theorem: a returned tag wakes a writer if and only if it is that of the only
      operation still being processed. */
  lemma {:induction false} DrainsIffLast(es: seq<Event>, t: Address, ok: bool)
    requires ValidRun(es + [Return(t, ok)])
    ensures var c := Run(es).c;
      t in c.tags && (Drains(Run(es), t, ok) <==> c.tags[t].kind == Writing && c.processing == {c.tags[t].data})
  {
    Extend(es, Return(t, ok));
    AlwaysConsistent(es);
    var c := Run(es).c;
    if c.tags[t].kind == Writing {
      OperationReturns(es, t, ok);
      assert c.processing == (c.processing - {c.tags[t].data}) + {c.tags[t].data};
    }
  }

  function ReturnEvents(returned: seq<(Address, bool)>): seq<Event> {
    seq(|returned|, i requires 0 <= i < |returned| => Return(returned[i].0, returned[i].1))
  }

  /** Theorem: a stretch of returns is a stretch of the run. */
  lemma {:induction false} ReturnsAreRun(es: seq<Event>, returned: seq<(Address, bool)>)
    requires ValidRun(es)
    ensures Returnable(Run(es), returned) <==> ValidRun(es + ReturnEvents(returned))
    ensures CompleteAll(Run(es), returned) == Run(es + ReturnEvents(returned))
  {
    if returned == [] {
      assert es + ReturnEvents(returned) == es;
    } else {
      var n := |returned| - 1;
      var past, last := returned[..n], returned[n];
      ReturnsAreRun(es, past);
      OneReturnMore(Run(es), past, last);
      assert returned == past + [last];
      OneEventMore(es, past, last);
      Extend(es + ReturnEvents(past), Return(last.0, last.1));
    }
  }

  lemma OneEventMore(es: seq<Event>, past: seq<(Address, bool)>, last: (Address, bool))
    ensures es + ReturnEvents(past + [last]) == es + ReturnEvents(past) + [Return(last.0, last.1)]
  {
  }

  lemma OneReturnMore(w: World, past: seq<(Address, bool)>, last: (Address, bool))
    ensures CompleteAll(w, past + [last]) == Complete(CompleteAll(w, past), last.0, last.1)
    ensures Returnable(w, past + [last]) <==> Returnable(w, past) && last.0 in CompleteAll(w, past).outstanding
  {
    assert (past + [last])[..|past|] == past;
  }

  /* ------------------------------------------------------------ an example */

  /** One connection is active and the next waits; then also a write is in flight. */
  const LIVE := Connections(Some(Waiting(2, 1)), map[1 := 0], {}, map[10 := Tag(1, Done), 11 := Tag(2, Done)])
  const BUSY := Connections(Some(Waiting(2, 1)), map[1 := 0], {1},
      map[10 := Tag(1, Done), 11 := Tag(2, Done), 12 := Tag(1, Writing)])

  lemma OneTag(batch: map<Address, Address>)
    requires batch == map[12 := 1]
    ensures batch.Values == {1} && batch.Keys == {12} && Injective(batch)
    ensures LIVE.tags + BatchTags(batch) == BUSY.tags
  {
    assert batch[12] == 1;
    assert BatchTags(batch) == map[12 := Tag(1, Writing)];
  }

  lemma BroadcastToOne(w: World, op: Operation, batch: map<Address, Address>)
    requires w.c == LIVE && w.outstanding == {10, 11} && batch == map[12 := 1]
    ensures Enabled(w, Issue(op, None, batch))
    ensures IssueAll(w, op, None, batch).c == BUSY
    ensures IssueAll(w, op, None, batch).outstanding == {10, 11, 12}
        && IssueAll(w, op, None, batch).deleted == w.deleted
  {
    OneTag(batch);
    assert Targets(w.c.active, None) == {1};
  }
}
