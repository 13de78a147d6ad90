/** The handler object itself: the fields of `Connections` and the methods that
    change them under the lock, proved against the steps of `StreamRpc`. */
module StreamRpcHandlers {
  import opened Tags
  import opened Monitors
  import opened StreamRpc
  import Wakeup = StreamWakeup

  class StreamRpcHandler {
    var next: Option<Waiting>
    var active: map<Address, nat>
    var processing: set<Address>
    const tags: TagTable<TagLabel>

    // What the handler has told others: tags lent to gRPC and callbacks made.
    var lent: set<Address>
    var created: nat
    var connected: seq<nat>
    var deleted: seq<Option<nat>>

    ghost var doneHandled: set<nat>
    ghost var calls: seq<Call>
    ghost var issued: map<nat, seq<Operation>>
    ghost var completed: map<nat, nat>

    ghost function Now(): World
      reads this, tags
    {
      World(Connections(next, active, processing, tags.tags), lent, created, connected, deleted,
            doneHandled, calls, issued, completed)
    }

    constructor ()
      ensures Now() == START && fresh(tags)
    {
      next, active, processing, lent, created, connected, deleted := None, map[], {}, {}, 0, [], [];
      doneHandled, calls, issued, completed := {}, [], map[], map[];
      tags := new TagTable();
    }

    method ActivateNext(conn: Address, tag: Address)
      requires Enabled(Now(), Accept(conn, tag))
      modifies this, tags
      ensures Now() == Activate(old(Now()), conn, tag)
    {
      if next.Some? {
        Connect();
      }
      Prepare(conn, tag);
    }

    /** The waiting connection becomes an active one. */
    method Connect()
      requires next.Some?
      modifies this`connected, this`active, this`next
      ensures connected == old(connected) + [old(next).value.id]
      ensures active == old(active)[old(next).value.key := old(next).value.id]
    {
      connected := connected + [next.value.id];
      active := active[next.value.key := next.value.id];
      next := None;
    }

    /** A new connection waits for a client. */
    method Prepare(conn: Address, tag: Address)
      requires tag !in tags.tags
      modifies this`next, this`lent, this`issued, this`completed, this`created, tags
      ensures next == Some(Waiting(conn, old(created))) && created == old(created) + 1
      ensures tags.tags == old(tags.tags)[tag := Tag(conn, Done)] && lent == old(lent) + {tag}
      ensures issued == old(issued)[old(created) := []] && completed == old(completed)[old(created) := 0]
    {
      next := Some(Waiting(conn, created));
      var lentTag := tags.MakeTag(conn, Done, tag);
      lent := lent + {lentTag};
      issued, completed := issued[created := []], completed[created := 0];
      created := created + 1;
    }

    /** Start one operation on the connection at `key`. */
    method StartOne(op: Operation, key: Address, tag: Address)
      requires key in active && tag !in tags.tags && active[key] in issued
      modifies this`processing, this`lent, this`issued, tags
      ensures tags.tags == old(tags.tags)[tag := Tag(key, Writing)]
      ensures processing == old(processing) + {key} && lent == old(lent) + {tag}
      ensures issued == old(issued)[active[key] := old(issued)[active[key]] + [op]]
    {
      var lentTag := tags.MakeTag(key, Writing, tag);
      lent := lent + {lentTag};
      processing := processing + {key};
      issued := issued[active[key] := issued[active[key]] + [op]];
    }

    /** The body shared by write and finish, run once nothing is being processed.
        `notify` asks the caller to wake the next writer. */
    method WriteOrFinish(op: Operation, client: Option<Address>, batch: map<Address, Address>) returns (notify: bool)
      requires Tracked(Now()) && Enabled(Now(), Issue(op, client, batch))
      modifies this, tags
      ensures Now() == IssueAll(old(Now()), op, client, batch)
      ensures notify <==> old(active) == map[]
    {
      notify := active == map[];
      ghost var before := Now();
      StartTargets(op, client, batch);
      calls := calls + [Call(op, client, active)];
      IssuedAsSpecified(before, Now(), op, client, batch);
    }

    /** What the batch asks for was done for the connections in `to`. */
    twostate predicate Started(op: Operation, to: set<Address>, batch: map<Address, Address>)
      reads this, tags
    {
      && tags.tags == old(tags.tags) + BatchTags(batch)
      && processing == old(processing) + to && lent == old(lent) + batch.Keys
      && OpAdded(active, to, old(issued), issued, op)
    }

    method StartTargets(op: Operation, client: Option<Address>, batch: map<Address, Address>)
      requires Tracked(Now()) && Enabled(Now(), Issue(op, client, batch))
      modifies this`processing, this`lent, this`issued, tags
      ensures Started(op, Targets(active, client), batch)
    {
      match client
      case None => StartEverybody(op, batch);
      case Some(key) =>
        if key in active {
          StartTarget(op, key, batch);
        } else {
          EmptyBatch(batch);
        }
    }

    lemma EmptyBatch(batch: map<Address, Address>)
      requires batch.Values == {}
      ensures batch.Keys == {} && BatchTags(batch) == map[]
    {
      assert forall t :: t in batch ==> batch[t] in batch.Values;
    }

    method StartEverybody(op: Operation, batch: map<Address, Address>)
      requires Tracked(Now()) && Enabled(Now(), Issue(op, None, batch))
      modifies this`processing, this`lent, this`issued, tags
      ensures Started(op, active.Keys, batch)
    {
      StartAll(op, batch);
      MadeAll(batch);
      assert active.Keys - {} == active.Keys;
    }

    /** Adding tags, keys and operations for the addressed connections is what `IssueAll` says. */
    lemma IssuedAsSpecified(w: World, v: World, op: Operation, client: Option<Address>, batch: map<Address, Address>)
      requires Tracked(w) && OpAdded(w.c.active, Targets(w.c.active, client), w.issued, v.issued, op)
      requires v.c.processing == w.c.processing + Targets(w.c.active, client) && v.c.tags == w.c.tags + BatchTags(batch)
      requires v.outstanding == w.outstanding + batch.Keys && v.calls == w.calls + [Call(op, client, w.c.active)]
      requires v == w.(c := w.c.(processing := v.c.processing, tags := v.c.tags), outstanding := v.outstanding,
          calls := v.calls, issued := v.issued)
      ensures v == IssueAll(w, op, client, batch)
    {
      assert v.issued == IssueAll(w, op, client, batch).issued;
    }

    /** `op` was appended for the connections in `to` and for nobody else. */
    ghost predicate OpAdded(active: map<Address, nat>, to: set<Address>, from: map<nat, seq<Operation>>,
        after: map<nat, seq<Operation>>, op: Operation)
    {
      && to <= active.Keys && (forall a :: a in to ==> active[a] in from)
      && after.Keys == from.Keys
      && (forall a :: a in to ==> after[active[a]] == from[active[a]] + [op])
      && (forall id :: id in after && (forall a :: a in to ==> active[a] != id) ==> after[id] == from[id])
    }

    method StartTarget(op: Operation, key: Address, batch: map<Address, Address>)
      requires key in active && active[key] in issued && batch.Keys !! tags.tags.Keys
      requires Injective(batch) && batch.Values == {key}
      modifies this`processing, this`lent, this`issued, tags
      ensures Started(op, {key}, batch)
    {
      assert key in batch.Values && forall u :: u in batch ==> batch[u] in batch.Values;
      var t :| t in batch && batch[t] == key;
      assert batch == map[t := key];
      StartOne(op, key, t);
    }

    /** The tags made so far, when the connections in `todo` are still to come. */
    ghost function Made(batch: map<Address, Address>, todo: set<Address>): map<Address, Tag<TagLabel>> {
      map t | t in batch && batch[t] !in todo :: Tag(batch[t], Writing)
    }

    lemma MadeNone(batch: map<Address, Address>)
      ensures Made(batch, batch.Values) == map[]
    {
    }

    lemma MadeAll(batch: map<Address, Address>)
      ensures Made(batch, {}) == BatchTags(batch) && Made(batch, {}).Keys == batch.Keys
    {
    }

    lemma MadeOneMore(table: map<Address, Tag<TagLabel>>, batch: map<Address, Address>, todo: set<Address>, t: Address)
      requires Injective(batch) && t in batch && batch[t] in todo && batch.Keys !! table.Keys
      ensures t !in table + Made(batch, todo)
      ensures table + Made(batch, todo - {batch[t]}) == (table + Made(batch, todo))[t := Tag(batch[t], Writing)]
      ensures Made(batch, todo - {batch[t]}).Keys == Made(batch, todo).Keys + {t}
    {
      assert Made(batch, todo - {batch[t]}) == Made(batch, todo)[t := Tag(batch[t], Writing)];
    }

    lemma OpAddedOneMore(active: map<Address, nat>, to: set<Address>, key: Address,
                         from: map<nat, seq<Operation>>, now: map<nat, seq<Operation>>, op: Operation)
      requires key in active && key !in to && forall a :: a in active ==> active[a] in from
      requires forall a, b :: a in active && b in active && active[a] == active[b] ==> a == b
      requires OpAdded(active, to, from, now, op)
      ensures OpAdded(active, to + {key}, from, now[active[key] := now[active[key]] + [op]], op)
    {
    }

    /** One unused tag for every active connection. */
    ghost predicate ForEverybody(w: World, batch: map<Address, Address>) {
      && Injective(batch) && batch.Values == w.c.active.Keys && batch.Keys !! w.c.tags.Keys
      && (forall a :: a in w.c.active ==> w.c.active[a] in w.issued)
      && (forall a, b :: a in w.c.active && b in w.c.active && w.c.active[a] == w.c.active[b] ==> a == b)
    }

    /** How far the loop of `StartAll` has come since state `w`. */
    ghost predicate Midway(w: World, op: Operation, batch: map<Address, Address>, todo: set<Address>)
      reads this, tags
    {
      && ForEverybody(w, batch) && active == w.c.active && todo <= active.Keys && processing == active.Keys - todo
      && tags.tags == w.c.tags + Made(batch, todo)
      && lent == w.outstanding + Made(batch, todo).Keys
      && OpAdded(active, active.Keys - todo, w.issued, issued, op)
    }

    method StartNext(ghost w: World, op: Operation, key: Address, t: Address, batch: map<Address, Address>,
        ghost todo: set<Address>)
      requires Midway(w, op, batch, todo)
      requires key in todo && t in batch && batch[t] == key
      modifies this`processing, this`lent, this`issued, tags
      ensures Midway(w, op, batch, todo - {key})
    {
      MadeOneMore(w.c.tags, batch, todo, t);
      OpAddedOneMore(active, active.Keys - todo, key, w.issued, issued, op);
      StartOne(op, key, t);
      assert active.Keys - todo + {key} == active.Keys - (todo - {key});
    }

    /** One iteration: a tag of the batch is made for `key`. */
    method StartOneOf(ghost w: World, op: Operation, key: Address, batch: map<Address, Address>,
        ghost todo: set<Address>)
      requires Midway(w, op, batch, todo) && key in todo
      modifies this`processing, this`lent, this`issued, tags
      ensures Midway(w, op, batch, todo - {key})
    {
      assert key in batch.Values;
      var t :| t in batch && batch[t] == key;
      StartNext(w, op, key, t, batch, todo);
    }

    /** The loop over all active connections; the order is unspecified. */
    method StartAll(op: Operation, batch: map<Address, Address>)
      requires ForEverybody(Now(), batch) && processing == {}
      modifies this`processing, this`lent, this`issued, tags
      ensures Midway(old(Now()), op, batch, {})
    {
      ghost var w := Now();
      var todo := active.Keys;
      MadeNone(batch);
      assert active.Keys - todo == {};
      while todo != {}
        invariant Midway(w, op, batch, todo)
        decreases |todo|
      {
        var key :| key in todo;
        StartOneOf(w, op, key, batch, todo);
        todo := todo - {key};
      }
    }

    /** One round of the synchronisation thread; the result asks it to wake a writer. */
    method Handle(tag: Address, ok: bool) returns (allStreamsProcessed: bool)
      requires Tracked(Now()) && tag in lent
      modifies this, tags
      ensures Now() == Complete(old(Now()), tag, ok)
      ensures allStreamsProcessed <==> Drains(old(Now()), tag, ok)
    {
      allStreamsProcessed := false;
      var found := tags.GetTag(tag);
      lent := lent - {tag};
      match found.value.kind
      case Writing => allStreamsProcessed := HandleWriting(found.value.data, ok);
      case Done => HandleDone(found.value.data);
    }

    method HandleWriting(key: Address, ok: bool) returns (allStreamsProcessed: bool)
      requires key in active && active[key] in completed
      modifies this`completed, this`processing, this`deleted, this`active
      ensures completed == old(completed)[old(active)[key] := old(completed)[old(active)[key]] + 1]
      ensures processing == old(processing) - {key} && (allStreamsProcessed <==> processing == {})
      ensures active == (if ok then old(active) else old(active) - {key})
      ensures deleted == (if ok then old(deleted) else old(deleted) + [Some(old(active)[key])])
    {
      completed := completed[active[key] := completed[active[key]] + 1];
      processing := processing - {key};
      if !ok {
        Delete(key);
      }
      allStreamsProcessed := processing == {};
    }

    method HandleDone(key: Address)
      modifies this`doneHandled, this`deleted, this`active
      ensures var named := old(Lookup(Now().c, key));
        && doneHandled == (if named.Some? then old(doneHandled) + {named.value} else old(doneHandled))
        && active == (if key in processing then old(active) else old(active) - {key})
        && deleted == (if key in processing then old(deleted) else old(deleted) + [named])
    {
      if Lookup(Now().c, key).Some? {
        doneHandled := doneHandled + {Lookup(Now().c, key).value};
      }
      if key !in processing {
        Delete(key);
      }
    }

    /** A stretch of the synchronisation thread's loop; `Next` yields `returned` in
        turn. `notified` counts the calls of `notify_one`. */
    method RunSynchronization(returned: seq<(Address, bool)>) returns (notified: nat)
      requires Consistent(Now()) && Returnable(Now(), returned)
      modifies this, tags
      ensures Now() == CompleteAll(old(Now()), returned)
      ensures notified == Wakeups(old(Now()), returned)
      ensures Consistent(Now())
    {
      ghost var w := Now();
      notified := 0;
      var i := 0;
      while i < |returned|
        invariant 0 <= i <= |returned|
        invariant Now() == CompleteAll(w, returned[..i])
        invariant notified == Wakeups(w, returned[..i])
      {
        OneMoreReturn(w, returned, i);
        ReturnedIsTracked(w, returned, i);
        var allStreamsProcessed := Handle(returned[i].0, returned[i].1);
        if allStreamsProcessed {
          notified := notified + 1;
        }
        i := i + 1;
      }
      assert returned[..i] == returned;
      CompleteAllConsistent(w, returned);
    }

    lemma OneMoreReturn(w: World, returned: seq<(Address, bool)>, i: nat)
      requires i < |returned|
      ensures var before := CompleteAll(w, returned[..i]);
        && CompleteAll(w, returned[..i + 1]) == Complete(before, returned[i].0, returned[i].1)
        && Wakeups(w, returned[..i + 1]) == Wakeups(w, returned[..i])
            + (if Drains(before, returned[i].0, returned[i].1) then 1 else 0)
        && (Returnable(w, returned[..i + 1]) ==> Returnable(w, returned[..i]) && returned[i].0 in before.outstanding)
    {
      assert returned[..i + 1][..i] == returned[..i];
    }

    lemma ReturnedIsTracked(w: World, returned: seq<(Address, bool)>, i: nat)
      requires Consistent(w) && Returnable(w, returned) && i < |returned|
      ensures Tracked(CompleteAll(w, returned[..i])) && returned[i].0 in CompleteAll(w, returned[..i]).outstanding
    {
      ReturnablePrefix(w, returned, i + 1);
      OneMoreReturn(w, returned, i);
      CompleteAllConsistent(w, returned[..i]);
      ConsistentIsTracked(CompleteAll(w, returned[..i]));
    }

    lemma {:induction false} CompleteAllConsistent(w: World, returned: seq<(Address, bool)>)
      requires Consistent(w) && Returnable(w, returned)
      ensures Consistent(CompleteAll(w, returned))
    {
      if returned == [] {
      } else {
        var last := returned[|returned| - 1];
        CompleteAllConsistent(w, returned[..|returned| - 1]);
        CompleteConsistent(CompleteAll(w, returned[..|returned| - 1]), last.0, last.1);
      }
    }

    lemma {:induction false} ReturnablePrefix(w: World, returned: seq<(Address, bool)>, n: nat)
      requires Returnable(w, returned) && n <= |returned|
      ensures Returnable(w, returned[..n])
    {
      if n == |returned| {
        assert returned[..n] == returned;
      } else {
        ReturnablePrefix(w, returned[..|returned| - 1], n);
        assert returned[..|returned| - 1][..n] == returned[..n];
      }
    }

    /** The deletion callback, which reads the object at `key`, and the erasure. */
    method Delete(key: Address)
      modifies this`deleted, this`active
      ensures deleted == old(deleted) + [Lookup(old(Now()).c, key)] && active == old(active) - {key}
    {
      var gone := if key in active then Some(active[key])
                    else if next.Some? && next.value.key == key then Some(next.value.id) else None;
      deleted := deleted + [gone];
      active := active - {key};
    }
  }

  /** `connections_`: the handler's data behind a mutex and a condition variable,
      with the threads waiting there. */
  class AtomicConnections {
    const handler: StreamRpcHandler
    const condition: Condition

    ghost function State(): Monitor<World>
      reads condition, handler, handler.tags
    {
      Monitor(handler.Now(), condition.awake, condition.asleep, condition.notifications)
    }

    constructor ()
      ensures State() == Wakeup.SILENT && fresh(handler) && fresh(handler.tags) && fresh(condition)
    {
      handler := new StreamRpcHandler();
      condition := new Condition();
    }

    /** A thread inside write or finish gets the lock: it issues its operation, and
        wakes the next if nobody is active, or sleeps while a batch is processed. */
    method WaitToIssue(thread: Thread, op: Operation, client: Option<Address>, batch: map<Address, Address>)
        returns (ran: bool)
      requires Tracked(handler.Now()) && Wakeup.CanStep(State(), Wakeup.TryCall(thread, op, client, batch))
      modifies condition, handler, handler.tags
      ensures State() == Wakeup.Next(old(State()), Wakeup.TryCall(thread, op, client, batch))
      ensures ran <==> old(handler.processing) == {}
    {
      ran := handler.processing == {};
      if ran {
        condition.Proceed(thread);
        var notify := handler.WriteOrFinish(op, client, batch);
        condition.Post(notify);
      } else {
        condition.Sleep(thread);
      }
    }

    /** One round of the synchronisation thread under the lock, then its notification. */
    method UseToHandle(tag: Address, ok: bool)
      requires Tracked(handler.Now()) && tag in handler.lent
      modifies condition`notifications, handler, handler.tags
      ensures State() == Wakeup.Next(old(State()), Wakeup.Sync(tag, ok))
    {
      var allStreamsProcessed := handler.Handle(tag, ok);
      condition.Post(allStreamsProcessed);
    }

    method UseToActivate(conn: Address, tag: Address)
      requires Enabled(handler.Now(), Accept(conn, tag))
      modifies handler, handler.tags
      ensures State() == Wakeup.Next(old(State()), Wakeup.Activation(conn, tag))
    {
      handler.ActivateNext(conn, tag);
    }
  }
}
