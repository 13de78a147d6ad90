/** The new-architecture server (async_server.hpp, unary_rpc_handler.hpp, tagger.cpp).

  Everything happens on the run thread except the finishing of an rpc, which any
  thread may do. A thread other than the run thread takes the server's mutex to
  finish; the run thread holds it already, since it calls user code under the lock.
  User callbacks and threads finish each accepted rpc at most once.
 */
module AsyncServerRuns {
  import opened Tags

  datatype TagLabel = ServerNewRpc | ServerWriting | ServerDone

  const RUN: Thread := 0

  /** An rpc object: queued for a call, handed to the user, or finished by the user. */
  datatype Phase = Queued | Accepted | Finishing

  datatype Rpc = Rpc(registration: nat, phase: Phase)

  /** The tasks of the initialization queue; the null task ends the initialization. */
  datatype Task = BuildServer | PublishPointers | RegisterRpc | EnterLoop

  datatype RunAt =
    | Initializing
    | Polling
    | Received(tag: Address, ok: bool)  // popped, the mutex still to be locked
    | InCallback                        // user code runs on the run thread
    | Leaving                           // about to unlock

  /** A thread inside finish: waiting for the mutex, holding it, or past its work. */
  datatype FinishAt = Wants(rpc: Address) | Holds(rpc: Address) | Worked

  /** Registration and start, up to the run loop. */
  datatype Start = Start(
    tasks: seq<Task>,                // the initialization queue
    running: bool,
    started: bool,                   // start has queued the null task
    starting: nat,                   // calls of start that have yet to set the flag
    admitted: nat,                   // calls of register_async past the test, still to queue
    asked: nat,                      // registrations queued
    late: nat,                       // those queued behind the null task
    rejected: nat)                   // registrations refused

  datatype Locks = Locks(
    mutex: Option<Thread>,
    finishing: map<Thread, FinishAt>,// the threads inside finish
    unlockedTouch: bool,             // a writer was touched without the mutex
    relocked: bool)                  // a thread locked a mutex it held

  datatype Ledger = Ledger(
    registrations: nat,              // register tasks carried out
    failed: set<nat>,                // registrations whose accept failed
    accepted: multiset<nat>,
    completed: multiset<nat>)

  datatype Server = Server(
    start: Start,
    locks: Locks,
    ledger: Ledger,
    data: map<Address, Rpc>,         // rpc objects owned by `data_`
    tags: map<Address, Tag<TagLabel>>,
    queue: set<Address>,             // tags gRPC holds
    run: RunAt,
    called: set<Address>)            // accepted rpcs on which finish was called

  const NEW := Server(Start([BuildServer, PublishPointers], false, false, 0, 0, 0, 0, 0),
      Locks(None, map[], false, false),
                      Ledger(0, {}, multiset{}, multiset{}), map[], map[], {}, Initializing, {})

  datatype Step =
    | TestFlag                                 // register_async finds the flag set, and throws, or not
    | QueueRegistration                        // and then queues its task, with no lock across the two
    | StartServer                              // start queues the null task
    | MarkRunning                              // and then sets the flag
    | RunTask(rpc: Address, tag: Address)
    | Take(tag: Address, ok: bool)
    | Handle(clone: Address, cloneTag: Address)
    | FinishInline(rpc: Address, tag: Address)
    | CallbackReturns
    | Unlock
    | CallFinish(thread: Thread, rpc: Address)
    | Lock(thread: Thread)
    | Touch(thread: Thread, tag: Address)
    | Release(thread: Thread)

  /** queue_rpc: own the rpc and hand its tag to gRPC. */
  function QueueRpc(s: Server, registration: nat, rpc: Address, tag: Address): Server {
    s.(data := s.data[rpc := Rpc(registration, Queued)], tags := s.tags[tag := Tag(rpc, ServerNewRpc)],
        queue := s.queue + {tag})
  }

  /** Make the done tag and pass it to the writer, on thread `t`. */
  function TouchWriter(s: Server, t: Thread, rpc: Address, tag: Address): Server {
    s.(data := if rpc in s.data then s.data[rpc := s.data[rpc].(phase := Finishing)] else s.data,
       tags := s.tags[tag := Tag(rpc, ServerDone)], queue := s.queue + {tag},
       locks := s.locks.(unlockedTouch := s.locks.unlockedTouch || s.locks.mutex != Some(t)))
  }

  function LockMutex(l: Locks, t: Thread): Locks {
    l.(mutex := Some(t), relocked := l.relocked || l.mutex == Some(t))
  }

  /** data_.erase; an rpc the user had finished counts as completed. */
  function EraseRpc(s: Server, rpc: Address): Server {
    if rpc !in s.data then s else
    var r := s.data[rpc];
    s.(data := s.data - {rpc}, called := s.called - {rpc},
       ledger := if r.phase == Queued then s.ledger.(failed := s.ledger.failed + {r.registration})
                 else s.ledger.(completed := s.ledger.completed + multiset{r.registration}))
  }

  /** One round of the run loop, under the mutex. */
  function HandleTag(s: Server, tag: Address, ok: bool, clone: Address, cloneTag: Address): Server {
    if tag !in s.tags then s.(run := Leaving) else
    var content := s.tags[tag];
    if ok && content.kind == ServerNewRpc && content.data in s.data then
      GiveToUser(s.(tags := s.tags - {tag}), content.data, clone, cloneTag)
    else if !ok || content.kind == ServerDone then EraseRpc(s.(tags := s.tags - {tag}, run := Leaving), content.data)
    else s.(tags := s.tags - {tag}, run := Leaving)
  }

  /** queue_rpc(rpc->clone()), then the user's callback. */
  function GiveToUser(s: Server, rpc: Address, clone: Address, cloneTag: Address): Server
    requires rpc in s.data
  {
    var r := s.data[rpc].registration;
    var given := s.(data := s.data[rpc := Rpc(r, Accepted)], run := InCallback,
                    ledger := s.ledger.(accepted := s.ledger.accepted + multiset{r}));
    QueueRpc(given, r, clone, cloneTag)
  }

  /** The test in register_async; the exception is the counted refusal. */
  function Test(t: Start): Start {
    if t.running then t.(rejected := t.rejected + 1) else t.(admitted := t.admitted + 1)
  }

  /** A call that passed the test queues its task, whatever happened since. */
  function Queue(t: Start): Start {
    t.(tasks := t.tasks + [RegisterRpc], admitted := if t.admitted > 0 then t.admitted - 1 else 0,
       asked := t.asked + 1, late := t.late + if t.started then 1 else 0)
  }

  /** One round of the initialization loop. */
  function CarryOut(s: Server, rpc: Address, tag: Address): Server {
    if s.start.tasks == [] then s else
    var t := s.(start := s.start.(tasks := s.start.tasks[1..]),
                locks := s.locks.(relocked := s.locks.relocked || s.locks.mutex == Some(RUN)));
    match s.start.tasks[0]
    case BuildServer => t
    case PublishPointers => t
    case RegisterRpc =>
      var r := s.ledger.registrations;
      QueueRpc(t.(ledger := s.ledger.(registrations := r + 1)), r, rpc, tag)
    case EnterLoop => t.(run := Polling)
  }

  function Next(s: Server, e: Step): Server {
    match e
    case TestFlag => s.(start := Test(s.start))
    case QueueRegistration => s.(start := Queue(s.start))
    case StartServer =>
      s.(start := s.start.(tasks := s.start.tasks + [EnterLoop], started := true, starting := s.start.starting + 1))
    case MarkRunning =>
      s.(start := s.start.(running := true, starting := if s.start.starting > 0 then s.start.starting - 1 else 0))
    case RunTask(rpc, tag) => CarryOut(s, rpc, tag)
    case Take(tag, ok) => s.(queue := s.queue - {tag}, run := Received(tag, ok))
    case Handle(clone, cloneTag) =>
      if s.run.Received?
      then HandleTag(s.(locks := LockMutex(s.locks, RUN)), s.run.tag, s.run.ok, clone, cloneTag)
      else s
    case FinishInline(rpc, tag) => TouchWriter(s.(called := s.called + {rpc}), RUN, rpc, tag)
    case CallbackReturns => s.(run := Leaving)
    case Unlock => s.(run := Polling, locks := s.locks.(mutex := None))
    case CallFinish(thread, rpc) =>
      s.(called := s.called + {rpc}, locks := s.locks.(finishing := s.locks.finishing[thread := Wants(rpc)]))
    case Lock(thread) =>
      if thread !in s.locks.finishing || !s.locks.finishing[thread].Wants? then s else
      var holds := s.locks.finishing[thread := Holds(s.locks.finishing[thread].rpc)];
      s.(locks := LockMutex(s.locks, thread).(finishing := holds))
    case Touch(thread, tag) =>
      if thread !in s.locks.finishing || !s.locks.finishing[thread].Holds? then s else
      var worked := s.locks.(finishing := s.locks.finishing[thread := Worked]);
      TouchWriter(s.(locks := worked), thread, s.locks.finishing[thread].rpc, tag)
    case Release(thread) => s.(locks := s.locks.(mutex := None, finishing := s.locks.finishing - {thread}))
  }

  predicate Fresh(s: Server, rpc: Address, tag: Address) { rpc !in s.data && tag !in s.tags }

  /** An rpc the user was given and has not finished yet. */
  predicate Unfinished(s: Server, rpc: Address) {
    rpc in s.data && s.data[rpc].phase == Accepted && rpc !in s.called
  }

  /** A lock waits until the mutex is free, unless the thread itself holds it: that
      would be the error `relocked` records. */
  predicate CanLock(s: Server, t: Thread) { s.locks.mutex == None || s.locks.mutex == Some(t) }

  predicate CanStep(s: Server, e: Step) {
    match e
    case TestFlag => true
    case QueueRegistration => s.start.admitted > 0
    case StartServer => true
    case MarkRunning => s.start.starting > 0
    case RunTask(rpc, tag) => s.run == Initializing && s.start.tasks != [] && CanLock(s, RUN) && Fresh(s, rpc, tag)
    case Take(tag, _) => s.run == Polling && tag in s.queue
    case Handle(clone, cloneTag) => s.run.Received? && CanLock(s, RUN) && Fresh(s, clone, cloneTag)
    case FinishInline(rpc, tag) => s.run == InCallback && Unfinished(s, rpc) && tag !in s.tags
    case CallbackReturns => s.run == InCallback
    case Unlock => s.run == Leaving
    case CallFinish(thread, rpc) => thread != RUN && thread !in s.locks.finishing && Unfinished(s, rpc)
    case Lock(thread) => thread in s.locks.finishing && s.locks.finishing[thread].Wants? && CanLock(s, thread)
    case Touch(thread, tag) => thread in s.locks.finishing && s.locks.finishing[thread].Holds? && tag !in s.tags
    case Release(thread) => thread in s.locks.finishing && s.locks.finishing[thread].Worked?
  }

  function After(es: seq<Step>): Server {
    if es == [] then NEW else Next(After(es[..|es| - 1]), es[|es| - 1])
  }

  predicate Possible(es: seq<Step>) {
    es == [] || (Possible(es[..|es| - 1]) && CanStep(After(es[..|es| - 1]), es[|es| - 1]))
  }

  /* --------------------------------- what each kind of step does to the fields */

  /** The fields the books below speak of, other than those of the rpcs. */
  predicate SameCounts(s: Server, u: Server) {
    u.ledger == s.ledger
  }

  /** A registration is carried out. */
  predicate Registers(s: Server, u: Server, rpc: Address, tag: Address) {
    && u.tags == s.tags[tag := Tag(rpc, ServerNewRpc)] && u.queue == s.queue + {tag} && u.run == s.run == Initializing
    && u.data == s.data[rpc := Rpc(s.ledger.registrations, Queued)] && u.called == s.called
        && u.locks.finishing == s.locks.finishing
    && u.ledger == s.ledger.(registrations := s.ledger.registrations + 1)
  }

  /** The run thread handles an accepted call: the rpc goes to the user, a clone is queued. */
  predicate Accepts(s: Server, u: Server, clone: Address, cloneTag: Address) {
    && s.run.Received? && s.run.tag in s.tags && s.tags[s.run.tag].data in s.data
        && s.tags[s.run.tag].kind == ServerNewRpc
    && var a := s.tags[s.run.tag].data;
    var r := s.data[a].registration;
    && u.tags == (s.tags - {s.run.tag})[cloneTag := Tag(clone, ServerNewRpc)]
    && u.data == s.data[a := Rpc(r, Accepted)][clone := Rpc(r, Queued)]
    && u.queue == s.queue + {cloneTag} && u.run == InCallback
    && u.called == s.called && u.locks.finishing == s.locks.finishing
    && u.ledger == s.ledger.(accepted := s.ledger.accepted + multiset{r})
  }

  /** The run thread handles any other tag: its rpc is erased. */
  predicate Erases(s: Server, u: Server) {
    && s.run.Received? && s.run.tag in s.tags && s.tags[s.run.tag].data in s.data
    && var a := s.tags[s.run.tag].data;
    var r := s.data[a].registration;
    && u.tags == s.tags - {s.run.tag} && u.data == s.data - {a} && u.queue == s.queue && u.run == Leaving
    && u.called == s.called - {a} && u.locks.finishing == s.locks.finishing
    && u.ledger.registrations == s.ledger.registrations && u.ledger.accepted == s.ledger.accepted
    && u.ledger.failed == (if s.data[a].phase == Queued then s.ledger.failed + {r} else s.ledger.failed)
    && u.ledger.completed == (if s.data[a].phase == Queued then s.ledger.completed
        else s.ledger.completed + multiset{r})
  }

  /** A finish makes its tag and passes it to the writer. */
  predicate Finishes(s: Server, u: Server, rpc: Address, tag: Address) {
    && rpc in s.data && u.tags == s.tags[tag := Tag(rpc, ServerDone)] && u.queue == s.queue + {tag} && u.run == s.run
    && u.data == s.data[rpc := s.data[rpc].(phase := Finishing)] && u.called == s.called + {rpc}
    && SameCounts(s, u)
  }

  /** Neither tags nor rpcs change hands. */
  predicate LeavesRpcs(s: Server, u: Server) {
    u.tags == s.tags && u.data == s.data && SameCounts(s, u)
  }

  lemma TaskShape(s: Server, rpc: Address, tag: Address)
    requires CanStep(s, RunTask(rpc, tag))
    ensures if s.start.tasks[0] == RegisterRpc then Registers(s, Next(s, RunTask(rpc, tag)), rpc, tag)
      else LeavesRpcs(s, Next(s, RunTask(rpc, tag)))
    ensures var u := Next(s, RunTask(rpc, tag));
      && u.called == s.called && u.locks.finishing == s.locks.finishing
          && (s.start.tasks[0] != RegisterRpc ==> u.queue == s.queue)
      && u.start == s.start.(tasks := s.start.tasks[1..])
      && u.run == (if s.start.tasks[0] == EnterLoop then Polling else Initializing)
      && u.ledger.registrations == s.ledger.registrations + (if s.start.tasks[0] == RegisterRpc then 1 else 0)
  {
  }

  lemma HandleShape(s: Server, clone: Address, cloneTag: Address)
    requires CanStep(s, Handle(clone, cloneTag)) && s.run.tag in s.tags && Serving(s.tags[s.run.tag], s.data)
    ensures var u := Next(s, Handle(clone, cloneTag));
      if s.run.ok && s.tags[s.run.tag].kind == ServerNewRpc then Accepts(s, u, clone, cloneTag) else Erases(s, u)
  {
  }

  lemma FinishShape(s: Server, e: Step)
    requires CanStep(s, e) && CallBooks(s) && (e.FinishInline? || e.Touch?)
    ensures Finishes(s, Next(s, e), if e.FinishInline? then e.rpc else s.locks.finishing[e.thread].rpc, e.tag)
    ensures Next(s, e).locks.finishing ==
      if e.FinishInline? then s.locks.finishing else s.locks.finishing[e.thread := Worked]
  {
  }

  /* --------------------------------------------------------------- the mutex */

  /** Who holds the mutex can be read off where the threads are. */
  predicate MutexBooks(s: Server) {
    && !s.locks.unlockedTouch && !s.locks.relocked
    && (s.locks.mutex == Some(RUN) <==> s.run == InCallback || s.run == Leaving)
    && RUN !in s.locks.finishing
    && (forall t :: t in s.locks.finishing ==> (s.locks.mutex == Some(t) <==> !s.locks.finishing[t].Wants?))
    && (s.locks.mutex.Some? && s.locks.mutex.value != RUN ==> s.locks.mutex.value in s.locks.finishing)
  }

  lemma FinisherKeepsMutex(s: Server, e: Step)
    requires MutexBooks(s) && CanStep(s, e) && (e.CallFinish? || e.Lock? || e.Touch? || e.Release?)
    ensures MutexBooks(Next(s, e))
  {
  }

  lemma TaskKeepsMutex(s: Server, e: Step)
    requires MutexBooks(s) && CanStep(s, e) && e.RunTask?
    ensures MutexBooks(Next(s, e))
  {
  }

  /** What a run-loop round leaves alone. */
  predicate SameThreads(s: Server, u: Server) {
    u.locks == s.locks && u.start == s.start && u.ledger.registrations == s.ledger.registrations
  }

  lemma EraseLeavesThreads(s: Server, rpc: Address)
    ensures SameThreads(s, EraseRpc(s, rpc)) && EraseRpc(s, rpc).run == s.run
  {
  }

  lemma GiveLeavesThreads(s: Server, rpc: Address, clone: Address, cloneTag: Address)
    requires rpc in s.data
    ensures SameThreads(s, GiveToUser(s, rpc, clone, cloneTag)) && GiveToUser(s, rpc, clone, cloneTag).run == InCallback
  {
  }

  /** A handler keeps the lock while it runs, and changes neither flag. */
  lemma HandleTagLocks(s: Server, tag: Address, ok: bool, clone: Address, cloneTag: Address)
    ensures SameThreads(s, HandleTag(s, tag, ok, clone, cloneTag))
    ensures HandleTag(s, tag, ok, clone, cloneTag).run == InCallback
        || HandleTag(s, tag, ok, clone, cloneTag).run == Leaving
  {
    if tag in s.tags {
      var a, t := s.tags[tag].data, s.(tags := s.tags - {tag});
      EraseLeavesThreads(t.(run := Leaving), a);
      if a in s.data { GiveLeavesThreads(t, a, clone, cloneTag); }
    }
  }

  lemma StepKeepsMutex(s: Server, e: Step)
    requires MutexBooks(s) && CanStep(s, e)
    ensures MutexBooks(Next(s, e))
  {
    if e.CallFinish? || e.Lock? || e.Touch? || e.Release? {
      FinisherKeepsMutex(s, e);
    } else if e.RunTask? {
      TaskKeepsMutex(s, e);
    } else if e.Handle? {
      HandleTagLocks(s.(locks := LockMutex(s.locks, RUN)), s.run.tag, s.run.ok, e.clone, e.cloneTag);
    }
  }

  /** Theorem, lock discipline: in no interleaving is a writer touched without the
      mutex or does a thread lock the mutex while it holds it. */
  lemma {:induction false} LockDiscipline(es: seq<Step>)
    requires Possible(es)
    ensures !After(es).locks.unlockedTouch && !After(es).locks.relocked
  {
    AlwaysKept(es);
  }

  /* ------------------------------------------------------- tags and ownership */

  /** What gRPC holds, with the tag the run thread has popped. */
  function InTransit(s: Server): set<Address> {
    s.queue + if s.run.Received? then {s.run.tag} else {}
  }

  type TagMap = map<Address, Tag<TagLabel>>
  type RpcMap = map<Address, Rpc>

  predicate Serving(tag: Tag<TagLabel>, data: RpcMap) {
    && tag.data in data
    && match tag.kind
       case ServerNewRpc => data[tag.data].phase == Queued
       case ServerDone => data[tag.data].phase == Finishing
       case ServerWriting => false
  }

  ghost predicate HasTag(tags: TagMap, a: Address) {
    exists t :: t in tags && tags[t].data == a
  }

  /** Every tag names an owned rpc in the right phase, and an rpc has one tag unless
      it is the user's turn, and then none. */
  ghost predicate Matched(tags: TagMap, data: RpcMap) {
    && (forall t :: t in tags ==> Serving(tags[t], data))
    && (forall t, u :: t in tags && u in tags && tags[t].data == tags[u].data ==> t == u)
    && (forall a :: a in data && data[a].phase != Accepted ==> HasTag(tags, a))
  }

  lemma AddTag(tags: TagMap, data: RpcMap, t: Address, tag: Tag<TagLabel>, data': RpcMap)
    requires Matched(tags, data) && t !in tags && !HasTag(tags, tag.data) && Serving(tag, data')
    requires data'.Keys == data.Keys + {tag.data} && forall a :: a in data && a != tag.data ==> data'[a] == data[a]
    ensures Matched(tags[t := tag], data')
  {
    var more := tags[t := tag];
    assert more[t] == tag;
    forall u | u in tags ensures more[u] == tags[u] && tags[u].data != tag.data { }
    forall a | a in data' && data'[a].phase != Accepted ensures HasTag(more, a) {
      if a != tag.data {
        var u :| u in tags && tags[u].data == a;
        assert more[u].data == a;
      }
    }
  }

  lemma DropTag(tags: TagMap, data: RpcMap, t: Address, data': RpcMap)
    requires Matched(tags, data) && t in tags
    requires forall a :: a in data && a != tags[t].data ==> a in data' && data'[a] == data[a]
    requires forall a :: a in data' ==> a in data && (a == tags[t].data ==> data'[a].phase == Accepted)
    ensures Matched(tags - {t}, data') && !HasTag(tags - {t}, tags[t].data)
  {
    var less := tags - {t};
    forall a | a in data' && data'[a].phase != Accepted ensures HasTag(less, a) {
      var u :| u in tags && tags[u].data == a;
      assert less[u].data == a;
    }
  }

  /** The tag table is what is in transit, and it matches the rpcs owned. */
  ghost predicate TagBooks(s: Server) {
    && s.tags.Keys == InTransit(s)
    && (s.run.Received? ==> s.run.tag !in s.queue)
    && Matched(s.tags, s.data)
  }

  predicate AtWork(s: Server, t: Thread) {
    t in s.locks.finishing && !s.locks.finishing[t].Worked?
  }

  /** Finish was called on the rpcs a thread is finishing or has finished, and on no other. */
  ghost predicate CallBooks(s: Server) {
    && (forall a :: a in s.called ==> a in s.data && s.data[a].phase != Queued)
    && (forall a :: a in s.data && s.data[a].phase == Finishing ==> a in s.called)
    && (forall t :: AtWork(s, t) ==>
        s.locks.finishing[t].rpc in s.called && s.data[s.locks.finishing[t].rpc].phase == Accepted)
    && (forall t, u :: AtWork(s, t) && AtWork(s, u) && s.locks.finishing[t].rpc == s.locks.finishing[u].rpc ==> t == u)
  }

  lemma RegisterKeepsTags(s: Server, u: Server, rpc: Address, tag: Address)
    requires TagBooks(s) && Fresh(s, rpc, tag) && Registers(s, u, rpc, tag)
    ensures TagBooks(u)
  {
    AddTag(s.tags, s.data, tag, Tag(rpc, ServerNewRpc), u.data);
  }

  lemma AcceptKeepsTags(s: Server, u: Server, clone: Address, cloneTag: Address)
    requires TagBooks(s) && Fresh(s, clone, cloneTag) && Accepts(s, u, clone, cloneTag)
    ensures TagBooks(u)
  {
    var a := s.tags[s.run.tag].data;
    var accepted := s.data[a := Rpc(s.data[a].registration, Accepted)];
    DropTag(s.tags, s.data, s.run.tag, accepted);
    assert !HasTag(s.tags - {s.run.tag}, clone);
    AddTag(s.tags - {s.run.tag}, accepted, cloneTag, Tag(clone, ServerNewRpc), u.data);
    assert s.tags.Keys - {s.run.tag} == s.queue;
  }

  lemma EraseKeepsTags(s: Server, u: Server)
    requires TagBooks(s) && Erases(s, u)
    ensures TagBooks(u)
  {
    DropTag(s.tags, s.data, s.run.tag, u.data);
    assert s.tags.Keys - {s.run.tag} == s.queue;
  }

  lemma FinishKeepsTags(s: Server, u: Server, rpc: Address, tag: Address)
    requires TagBooks(s) && Finishes(s, u, rpc, tag) && s.data[rpc].phase == Accepted && tag !in s.tags
    ensures TagBooks(u)
  {
    assert !HasTag(s.tags, rpc);
    AddTag(s.tags, s.data, tag, Tag(rpc, ServerDone), u.data);
  }

  lemma StepKeepsTags(s: Server, e: Step)
    requires TagBooks(s) && CallBooks(s) && CanStep(s, e)
    ensures TagBooks(Next(s, e))
  {
    var u := Next(s, e);
    if e.RunTask? {
      TaskShape(s, e.rpc, e.tag);
      if s.start.tasks[0] == RegisterRpc { RegisterKeepsTags(s, u, e.rpc, e.tag); }
    } else if e.Handle? {
      HandleShape(s, e.clone, e.cloneTag);
      if s.run.ok && s.tags[s.run.tag].kind == ServerNewRpc {
        AcceptKeepsTags(s, u, e.clone, e.cloneTag);
      } else {
        EraseKeepsTags(s, u);
      }
    } else if e.FinishInline? || e.Touch? {
      FinishShape(s, e);
      FinishKeepsTags(s, u, if e.FinishInline? then e.rpc else s.locks.finishing[e.thread].rpc, e.tag);
    }
  }

  lemma HandleKeepsCalls(s: Server, u: Server, clone: Address, cloneTag: Address)
    requires TagBooks(s) && CallBooks(s) && Fresh(s, clone, cloneTag)
        && (Accepts(s, u, clone, cloneTag) || Erases(s, u))
    ensures CallBooks(u)
  {
    assert Serving(s.tags[s.run.tag], s.data);
  }

  lemma RegisterKeepsCalls(s: Server, u: Server, rpc: Address, tag: Address)
    requires CallBooks(s) && Fresh(s, rpc, tag) && Registers(s, u, rpc, tag)
    ensures CallBooks(u)
  {
  }

  lemma InlineKeepsCalls(s: Server, u: Server, rpc: Address, tag: Address)
    requires CallBooks(s) && Unfinished(s, rpc) && Finishes(s, u, rpc, tag) && u.locks.finishing == s.locks.finishing
    ensures CallBooks(u)
  {
  }

  lemma TouchKeepsCalls(s: Server, u: Server, t: Thread, tag: Address)
    requires CallBooks(s) && t in s.locks.finishing && s.locks.finishing[t].Holds?
    requires Finishes(s, u, s.locks.finishing[t].rpc, tag) && u.locks.finishing == s.locks.finishing[t := Worked]
    ensures CallBooks(u)
  {
  }

  lemma ThreadKeepsCalls(s: Server, e: Step)
    requires CallBooks(s) && CanStep(s, e) && (e.CallFinish? || e.Lock? || e.Release?)
    ensures CallBooks(Next(s, e))
  {
  }

  lemma StepKeepsCalls(s: Server, e: Step)
    requires TagBooks(s) && CallBooks(s) && CanStep(s, e)
    ensures CallBooks(Next(s, e))
  {
    var u := Next(s, e);
    if e.RunTask? {
      TaskShape(s, e.rpc, e.tag);
      if s.start.tasks[0] == RegisterRpc { RegisterKeepsCalls(s, u, e.rpc, e.tag); }
    } else if e.Handle? {
      HandleShape(s, e.clone, e.cloneTag);
      HandleKeepsCalls(s, u, e.clone, e.cloneTag);
    } else if e.FinishInline? {
      FinishShape(s, e);
      InlineKeepsCalls(s, u, e.rpc, e.tag);
    } else if e.Touch? {
      FinishShape(s, e);
      TouchKeepsCalls(s, u, e.thread, e.tag);
    } else if e.CallFinish? || e.Lock? || e.Release? {
      ThreadKeepsCalls(s, e);
    }
  }

  /** Theorem, ownership: in every reachable state the tags in transit are exactly the
      keys of the tag table, so `get_tag` never throws, and each names an rpc that
      `data_` owns; no tag outlives its rpc and no rpc is erased while one is out. */
  lemma {:induction false} TagsAreOwned(es: seq<Step>)
    requires Possible(es)
    ensures TagBooks(After(es)) && CallBooks(After(es))
  {
    AlwaysKept(es);
  }

  /* -------------------------------------------------- accepts and completions */

  function QueuedOf(data: RpcMap, r: nat): set<Address> {
    set a | a in data && data[a] == Rpc(r, Queued)
  }

  function InFlight(data: RpcMap, r: nat): set<Address> {
    set a | a in data && data[a].registration == r && data[a].phase != Queued
  }

  /** A registration carried out has one queued accept until an accept of its fails;
      what it accepted is completed or in flight. */
  ghost predicate Account(s: Server, r: nat) {
    && |QueuedOf(s.data, r)| == (if r < s.ledger.registrations && r !in s.ledger.failed then 1 else 0)
    && s.ledger.accepted[r] == s.ledger.completed[r] + |InFlight(s.data, r)|
    && (r in s.ledger.failed ==> r < s.ledger.registrations)
  }

  lemma AcceptKeepsAccount(s: Server, u: Server, clone: Address, cloneTag: Address, r: nat)
    requires clone !in s.data && Accepts(s, u, clone, cloneTag) && Account(s, r)
    requires s.data[s.tags[s.run.tag].data].phase == Queued
    ensures Account(u, r)
  {
    var a := s.tags[s.run.tag].data;
    var k := s.data[a].registration;
    DataGiven(s.data, a, r);
    DataWith(s.data[a := Rpc(k, Accepted)], clone, k, r);
    if k == r { OneQueuedGone(QueuedOf(s.data, r), a); }
  }

  lemma DataWith(data: RpcMap, a: Address, k: nat, r: nat)
    requires a !in data
    ensures QueuedOf(data[a := Rpc(k, Queued)], r) == if k == r then QueuedOf(data, r) + {a} else QueuedOf(data, r)
    ensures InFlight(data[a := Rpc(k, Queued)], r) == InFlight(data, r)
    ensures a !in QueuedOf(data, r)
  {
  }

  lemma DataGiven(data: RpcMap, a: Address, r: nat)
    requires a in data && data[a].phase == Queued
    ensures var k := data[a].registration;
      && QueuedOf(data[a := Rpc(k, Accepted)], r) == QueuedOf(data, r) - {a}
      && InFlight(data[a := Rpc(k, Accepted)], r) == (if k == r then InFlight(data, r) + {a} else InFlight(data, r))
      && a !in InFlight(data, r) && (a in QueuedOf(data, r) <==> k == r)
  {
  }

  lemma DataWithout(data: RpcMap, a: Address, r: nat)
    ensures QueuedOf(data - {a}, r) == QueuedOf(data, r) - {a}
    ensures InFlight(data - {a}, r) == InFlight(data, r) - {a}
    ensures a in QueuedOf(data, r) <==> a in data && data[a].registration == r && data[a].phase == Queued
    ensures a in InFlight(data, r) <==> a in data && data[a].registration == r && data[a].phase != Queued
  {
  }

  lemma EraseKeepsAccount(s: Server, u: Server, r: nat)
    requires Erases(s, u) && Account(s, r)
    ensures Account(u, r)
  {
    var a := s.tags[s.run.tag].data;
    DataWithout(s.data, a, r);
    if a in QueuedOf(s.data, r) { OneQueuedGone(QueuedOf(s.data, r), a); }
  }

  lemma OneQueuedGone(q: set<Address>, a: Address)
    requires a in q && |q| <= 1
    ensures |q| == 1 && q - {a} == {}
  {
    assert |q - {a}| == |q| - 1;
  }

  lemma RegisterKeepsAccount(s: Server, u: Server, rpc: Address, tag: Address, r: nat)
    requires Fresh(s, rpc, tag) && Registers(s, u, rpc, tag) && Account(s, r)
    ensures Account(u, r)
  {
    DataWith(s.data, rpc, s.ledger.registrations, r);
  }

  lemma FinishKeepsAccount(s: Server, u: Server, rpc: Address, tag: Address, r: nat)
    requires Finishes(s, u, rpc, tag) && s.data[rpc].phase == Accepted && Account(s, r)
    ensures Account(u, r)
  {
    assert QueuedOf(u.data, r) == QueuedOf(s.data, r) && InFlight(u.data, r) == InFlight(s.data, r);
  }

  lemma StepKeepsAccount(s: Server, e: Step, r: nat)
    requires TagBooks(s) && CallBooks(s) && CanStep(s, e) && Account(s, r)
    ensures Account(Next(s, e), r)
  {
    var u := Next(s, e);
    if e.RunTask? {
      TaskShape(s, e.rpc, e.tag);
      if s.start.tasks[0] == RegisterRpc { RegisterKeepsAccount(s, u, e.rpc, e.tag, r); }
    } else if e.Handle? {
      HandleShape(s, e.clone, e.cloneTag);
      if s.run.ok && s.tags[s.run.tag].kind == ServerNewRpc {
        AcceptKeepsAccount(s, u, e.clone, e.cloneTag, r);
      } else {
        EraseKeepsAccount(s, u, r);
      }
    } else if e.FinishInline? || e.Touch? {
      FinishShape(s, e);
      FinishKeepsAccount(s, u, if e.FinishInline? then e.rpc else s.locks.finishing[e.thread].rpc, e.tag, r);
    } else {
      OthersLeaveRpcs(s, e);
    }
  }

  lemma OthersLeaveRpcs(s: Server, e: Step)
    requires !e.RunTask? && !e.Handle? && !e.FinishInline? && !e.Touch?
    ensures Next(s, e).data == s.data && Next(s, e).ledger == s.ledger
  {
  }

  /** Theorem, accounting: each registered rpc has exactly one queued accept until an
      accept fails, and every call it accepted is completed or in flight. */
  lemma {:induction false} AcceptsAreAccountedFor(es: seq<Step>, r: nat)
    requires Possible(es)
    ensures Account(After(es), r)
  {
    AlwaysKept(es);
  }

  /* ----------------------------------------------------------- initialization */

  function Registrations(tasks: seq<Task>): nat {
    if tasks == [] then 0 else (if tasks[0] == RegisterRpc then 1 else 0) + Registrations(tasks[1..])
  }

  lemma {:induction false} OneMoreTask(tasks: seq<Task>, task: Task)
    ensures Registrations(tasks + [task]) == Registrations(tasks) + if task == RegisterRpc then 1 else 0
  {
    if tasks == [] {
      assert (tasks + [task])[1..] == [];
    } else {
      OneMoreTask(tasks[1..], task);
      assert (tasks + [task])[1..] == tasks[1..] + [task];
    }
  }

  /** The registrations queued behind the null task. */
  function Behind(tasks: seq<Task>): nat {
    if tasks == [] then 0 else if tasks[0] == EnterLoop then Registrations(tasks[1..]) else Behind(tasks[1..])
  }

  lemma {:induction false} OneMoreBehind(tasks: seq<Task>, task: Task)
    ensures Behind(tasks + [task]) == Behind(tasks) + if EnterLoop in tasks && task == RegisterRpc then 1 else 0
  {
    if tasks == [] {
      assert (tasks + [task])[1..] == [];
    } else {
      OneMoreBehind(tasks[1..], task);
      OneMoreTask(tasks[1..], task);
      assert (tasks + [task])[1..] == tasks[1..] + [task];
    }
  }

  lemma {:induction false} NobodyBehind(tasks: seq<Task>)
    requires EnterLoop !in tasks
    ensures Behind(tasks) == 0
  {
    if tasks == [] {
    } else {
      NobodyBehind(tasks[1..]);
    }
  }

  /** The late registrations are those behind the null task, and they stay there. */
  predicate TaskBooks(s: Server) {
    && s.start.asked == s.ledger.registrations + Registrations(s.start.tasks)
    && s.start.late == (if s.run == Initializing then Behind(s.start.tasks) else Registrations(s.start.tasks))
    && (s.run == Initializing ==> (s.start.started <==> EnterLoop in s.start.tasks))
    && (s.run != Initializing || s.start.running || s.start.starting > 0 ==> s.start.started)
  }

  lemma TaskKeepsTasks(s: Server, u: Server)
    requires TaskBooks(s) && s.run == Initializing && s.start.tasks != []
        && u.start == s.start.(tasks := s.start.tasks[1..])
    requires u.run == (if s.start.tasks[0] == EnterLoop then Polling else Initializing)
    requires u.ledger.registrations == s.ledger.registrations + (if s.start.tasks[0] == RegisterRpc then 1 else 0)
    ensures TaskBooks(u)
  {
    assert s.start.tasks == [s.start.tasks[0]] + u.start.tasks;
  }

  lemma PushKeepsTasks(s: Server, e: Step)
    requires TaskBooks(s) && (e.QueueRegistration? || e.StartServer?)
    ensures TaskBooks(Next(s, e))
  {
    var task := if e.QueueRegistration? then RegisterRpc else EnterLoop;
    OneMoreTask(s.start.tasks, task);
    OneMoreBehind(s.start.tasks, task);
    if EnterLoop !in s.start.tasks { NobodyBehind(s.start.tasks); }
  }

  lemma StepKeepsTasks(s: Server, e: Step)
    requires TaskBooks(s) && CanStep(s, e)
    ensures TaskBooks(Next(s, e))
  {
    if e.RunTask? {
      TaskShape(s, e.rpc, e.tag);
      TaskKeepsTasks(s, Next(s, e));
    } else if e.QueueRegistration? || e.StartServer? {
      PushKeepsTasks(s, e);
    } else if e.Handle? {
      HandleTagLocks(s.(locks := LockMutex(s.locks, RUN)), s.run.tag, s.run.ok, e.clone, e.cloneTag);
    }
  }

  /** No registration is queued behind the null task. */
  predicate NoneBehind(es: seq<Step>) {
    forall i, j :: 0 <= i < j < |es| && es[i] == StartServer ==> es[j] != QueueRegistration
  }

  lemma {:induction false} LateIsBehind(es: seq<Step>)
    requires Possible(es)
    ensures After(es).start.started <==> StartServer in es
    ensures After(es).start.late == 0 <==> NoneBehind(es)
  {
    if es == [] {
    } else {
      var past, e := es[..|es| - 1], es[|es| - 1];
      LateIsBehind(past);
      StepCountsLate(After(past), e);
      assert es == past + [e];
      if NoneBehind(past) && !NoneBehind(es) {
        var i, j :| 0 <= i < j < |es| && es[i] == StartServer && es[j] == QueueRegistration;
        assert j == |past| && past[i] == StartServer;
      }
      if NoneBehind(es) {
        forall i, j | 0 <= i < j < |past| && past[i] == StartServer ensures past[j] != QueueRegistration {
          assert es[i] == StartServer && es[j] == past[j];
        }
      }
    }
  }

  lemma StepCountsLate(s: Server, e: Step)
    requires CanStep(s, e)
    ensures Next(s, e).start.started <==> s.start.started || e == StartServer
    ensures Next(s, e).start.late == s.start.late + if e == QueueRegistration && s.start.started then 1 else 0
  {
    if e.Handle? {
      HandleTagLocks(s.(locks := LockMutex(s.locks, RUN)), s.run.tag, s.run.ok, e.clone, e.cloneTag);
    }
  }

  /** Theorem: once the run loop has started, every registration that was taken has
      been carried out, if and only if none was queued behind the null task; those
      that were are never carried out. */
  lemma {:induction false} RegisteredBeforeServing(es: seq<Step>)
    requires Possible(es) && After(es).run != Initializing
    ensures After(es).ledger.registrations == After(es).start.asked - After(es).start.late
    ensures After(es).ledger.registrations == After(es).start.asked <==> NoneBehind(es)
  {
    AlwaysKept(es);
    LateIsBehind(es);
  }

  /** It can happen while start runs: a registration that is made between its two
      lines is taken and lost. */
  lemma RegisteredTooLate() returns (es: seq<Step>)
    ensures Possible(es) && After(es).run != Initializing
    ensures After(es).start.asked == 1 && After(es).ledger.registrations == 0
  {
    es := [];
    es := Do(es, StartServer);
    es := Do(es, TestFlag);
    es := Do(es, QueueRegistration);
    es := Do(es, MarkRunning);
    assert After(es).start.tasks == [BuildServer, PublishPointers, EnterLoop, RegisterRpc];
    es := EnterLoopNow(es);
  }

  /** It can happen after start: a call that passed the test before start was called,
      and queues its task when start has returned, is taken and lost as well. */
  lemma RegisteredAfterStart() returns (before: seq<Step>, es: seq<Step>)
    ensures Possible(before + [QueueRegistration]) && before + [QueueRegistration] <= es
    ensures After(before).start.running && After(before).start.starting == 0
    ensures Possible(es) && After(es).run != Initializing
    ensures After(es).start.asked == 1 && After(es).ledger.registrations == 0
  {
    before := [];
    before := Do(before, TestFlag);
    before := Do(before, StartServer);
    before := Do(before, MarkRunning);
    es := Do(before, QueueRegistration);
    assert After(es).start.tasks == [BuildServer, PublishPointers, EnterLoop, RegisterRpc];
    es := EnterLoopNow(es);
  }

  /** A state before the run loop in which nothing is registered yet. */
  predicate Unregistered(s: Server) {
    s.run == Initializing && s.locks.mutex == None && s.data == map[] && s.tags == map[]
  }

  lemma PlainTask(s: Server)
    requires Unregistered(s) && s.start.tasks != [] && s.start.tasks[0] != RegisterRpc
    ensures var u := Next(s, RunTask(1, 1));
      && CanStep(s, RunTask(1, 1)) && u.start == s.start.(tasks := s.start.tasks[1..]) && u.ledger == s.ledger
      && if s.start.tasks[0] == EnterLoop then u.run == Polling else Unregistered(u)
  {
  }

  lemma EnterLoopNow(before: seq<Step>) returns (es: seq<Step>)
    requires Possible(before) && After(before).start.tasks == [BuildServer, PublishPointers, EnterLoop, RegisterRpc]
    requires Unregistered(After(before))
    ensures Possible(es) && After(es).run == Polling && After(es).start.asked == After(before).start.asked
    ensures After(es).ledger == After(before).ledger && before <= es
  {
    PlainTask(After(before));
    es := Do(before, RunTask(1, 1));
    PlainTask(After(es));
    es := Do(es, RunTask(1, 1));
    PlainTask(After(es));
    es := Do(es, RunTask(1, 1));
  }

  lemma {:induction false} RunningAfterStart(es: seq<Step>)
    requires Possible(es) && After(es).start.started && After(es).start.starting == 0
    ensures After(es).start.running
  {
    if es == [] {
    } else {
      var past := es[..|es| - 1];
      if After(past).start.started && After(past).start.starting == 0 { RunningAfterStart(past); }
      StepStaysRunning(After(past), es[|es| - 1]);
    }
  }

  lemma StepStaysRunning(s: Server, e: Step)
    requires CanStep(s, e)
    ensures s.start.running ==> Next(s, e).start.running
    ensures Next(s, e).start.started && Next(s, e).start.starting == 0 ==>
      Next(s, e).start.running || (s.start.started && s.start.starting == 0)
  {
    if e.Handle? {
      HandleTagLocks(s.(locks := LockMutex(s.locks, RUN)), s.run.tag, s.run.ok, e.clone, e.cloneTag);
    }
  }

  /** How many calls of register_async make their test in a stretch of steps. */
  function Tests(es: seq<Step>): nat {
    if es == [] then 0 else Tests(es[..|es| - 1]) + if es[|es| - 1] == TestFlag then 1 else 0
  }

  lemma StepRefuses(s: Server, e: Step)
    requires CanStep(s, e) && s.start.running
    ensures var t, u := s.start, Next(s, e).start;
      && u.asked + u.admitted == t.asked + t.admitted
      && u.rejected == t.rejected + (if e == TestFlag then 1 else 0)
  {
    if e.Handle? {
      HandleTagLocks(s.(locks := LockMutex(s.locks, RUN)), s.run.tag, s.run.ok, e.clone, e.cloneTag);
    }
  }

  /** Theorem: once start has returned, every call of register_async that is yet to make
      its test is refused, and only the calls already past it can still be taken. */
  lemma {:induction false} RefusedAfterStart(es: seq<Step>, rest: seq<Step>)
    requires Possible(es) && Possible(es + rest) && After(es).start.started && After(es).start.starting == 0
    ensures var t, u := After(es).start, After(es + rest).start;
      u.running && u.asked + u.admitted == t.asked + t.admitted && u.rejected == t.rejected + Tests(rest)
  {
    if rest == [] {
      assert es + rest == es;
      RunningAfterStart(es);
    } else {
      var n := |rest| - 1;
      assert (es + rest)[..|es + rest| - 1] == es + rest[..n];
      RefusedAfterStart(es, rest[..n]);
      StepStaysRunning(After(es + rest[..n]), rest[n]);
      StepRefuses(After(es + rest[..n]), rest[n]);
    }
  }

  lemma StepSetsFlag(s: Server, e: Step)
    requires CanStep(s, e)
    ensures Next(s, e).start.running <==> s.start.running || e == MarkRunning
  {
    if e.Handle? {
      HandleTagLocks(s.(locks := LockMutex(s.locks, RUN)), s.run.tag, s.run.ok, e.clone, e.cloneTag);
    }
  }

  lemma {:induction false} FlagIsSet(es: seq<Step>)
    requires Possible(es)
    ensures After(es).start.running <==> MarkRunning in es
  {
    if es == [] {
    } else {
      FlagIsSet(es[..|es| - 1]);
      StepSetsFlag(After(es[..|es| - 1]), es[|es| - 1]);
    }
  }

  /** Theorem: a call of register_async is refused if and only if some call of start has
      set the flag before it makes its test; otherwise it goes on to queue its task. */
  lemma {:induction false} TestRefusesIff(es: seq<Step>)
    requires Possible(es + [TestFlag])
    ensures var t, u := After(es).start, After(es + [TestFlag]).start;
      && u.tasks == t.tasks && u.asked == t.asked
      && u.rejected == t.rejected + (if MarkRunning in es then 1 else 0)
      && u.admitted == t.admitted + (if MarkRunning in es then 0 else 1)
  {
    Extend(es, TestFlag);
    FlagIsSet(es);
  }

  lemma Do(es: seq<Step>, e: Step) returns (more: seq<Step>)
    requires Possible(es) && CanStep(After(es), e)
    ensures more == es + [e] && Possible(more) && After(more) == Next(After(es), e)
  {
    more := es + [e];
    assert more[..|es|] == es;
  }

  /* -------------------------------------------------- all the books together */

  /** Before the run loop no rpc is the user's, so no thread is inside finish. */
  predicate InitBooks(s: Server) {
    s.run == Initializing ==> s.locks.finishing == map[] && forall a :: a in s.data ==> s.data[a].phase == Queued
  }

  ghost predicate Kept(s: Server) {
    && MutexBooks(s) && TagBooks(s) && CallBooks(s) && InitBooks(s) && TaskBooks(s)
    && forall r :: Account(s, r)
  }

  lemma StepKeepsInit(s: Server, e: Step)
    requires InitBooks(s) && CanStep(s, e)
    ensures InitBooks(Next(s, e))
  {
    if e.Handle? { HandleTagLocks(s.(locks := LockMutex(s.locks, RUN)), s.run.tag, s.run.ok, e.clone, e.cloneTag); }
  }

  lemma KeptStep(s: Server, e: Step)
    requires Kept(s) && CanStep(s, e)
    ensures Kept(Next(s, e))
  {
    StepKeepsMutex(s, e);
    StepKeepsTags(s, e);
    StepKeepsCalls(s, e);
    StepKeepsInit(s, e);
    StepKeepsTasks(s, e);
    forall r ensures Account(Next(s, e), r) { StepKeepsAccount(s, e, r); }
  }

  lemma {:induction false} AlwaysKept(es: seq<Step>)
    requires Possible(es)
    ensures Kept(After(es))
  {
    if es == [] {
      forall r ensures Account(NEW, r) { assert QueuedOf(NEW.data, r) == {} && InFlight(NEW.data, r) == {}; }
    } else {
      AlwaysKept(es[..|es| - 1]);
      KeptStep(After(es[..|es| - 1]), es[|es| - 1]);
    }
  }

  /* -------------------------------------------- what each step does, in a run */

  /** Theorem: a registration that is carried out puts one queued rpc under its own number
      into `data_`, with one new tag that gRPC holds. */
  lemma {:induction false} TaskRegisters(es: seq<Step>, rpc: Address, tag: Address)
    requires Possible(es + [RunTask(rpc, tag)]) && After(es).start.tasks[0] == RegisterRpc
    ensures var s, u := After(es), After(es + [RunTask(rpc, tag)]);
      && rpc !in s.data && u.data == s.data[rpc := Rpc(s.ledger.registrations, Queued)]
      && tag !in s.tags && u.tags == s.tags[tag := Tag(rpc, ServerNewRpc)] && u.queue == s.queue + {tag}
      && u.ledger.registrations == s.ledger.registrations + 1 && u.start.tasks == s.start.tasks[1..]
      && u.run == Initializing
  {
    Extend(es, RunTask(rpc, tag));
  }

  /** Theorem: a tag the run thread takes is one gRPC held, is no longer with gRPC, and is
      the one it handles next, with the flag it came with. */
  lemma {:induction false} TakenIsHandled(es: seq<Step>, tag: Address, ok: bool)
    requires Possible(es + [Take(tag, ok)])
    ensures var s, u := After(es), After(es + [Take(tag, ok)]);
      && tag in s.queue && tag in s.tags && u.queue == s.queue - {tag} && u.run == Received(tag, ok)
      && u.data == s.data && u.tags == s.tags && u.ledger == s.ledger && u.locks == s.locks && u.called == s.called
  {
    Extend(es, Take(tag, ok));
    AlwaysKept(es);
  }

  /** Theorem: a call that gRPC accepted goes to the user, whose callback runs under the
      mutex, after a clone with a new tag was queued for the same registration. */
  lemma {:induction false} CallGoesToUser(es: seq<Step>, clone: Address, cloneTag: Address)
    requires Possible(es + [Handle(clone, cloneTag)]) && After(es).run.ok && After(es).run.tag in After(es).tags
    requires After(es).tags[After(es).run.tag].kind == ServerNewRpc
    ensures var s, u := After(es), After(es + [Handle(clone, cloneTag)]);
      var rpc := s.tags[s.run.tag].data;
      && rpc in s.data && s.data[rpc].phase == Queued && clone !in s.data && cloneTag !in s.tags
      && var r := s.data[rpc].registration;
      && u.data == s.data[rpc := Rpc(r, Accepted)][clone := Rpc(r, Queued)]
      && u.tags == (s.tags - {s.run.tag})[cloneTag := Tag(clone, ServerNewRpc)] && u.queue == s.queue + {cloneTag}
      && u.run == InCallback && u.locks.mutex == Some(RUN)
      && u.ledger == s.ledger.(accepted := s.ledger.accepted + multiset{r})
  {
    Extend(es, Handle(clone, cloneTag));
    AlwaysKept(es);
    assert Serving(After(es).tags[After(es).run.tag], After(es).data);
    HandleShape(After(es), clone, cloneTag);
  }

  /** Theorem: any other returned tag erases its rpc and is forgotten. A queued rpc's
      registration has failed then; another's call is complete. */
  lemma {:induction false} OtherTagErases(es: seq<Step>, clone: Address, cloneTag: Address)
    requires Possible(es + [Handle(clone, cloneTag)]) && After(es).run.tag in After(es).tags
    requires !After(es).run.ok || After(es).tags[After(es).run.tag].kind != ServerNewRpc
    ensures var s, u := After(es), After(es + [Handle(clone, cloneTag)]);
      var rpc := s.tags[s.run.tag].data;
      && rpc in s.data && u.data == s.data - {rpc} && u.tags == s.tags - {s.run.tag} && u.queue == s.queue
      && u.run == Leaving && u.locks.mutex == Some(RUN) && rpc !in u.called
      && var r := s.data[rpc].registration;
      && u.ledger.accepted == s.ledger.accepted
      && u.ledger.failed == (if s.data[rpc].phase == Queued then s.ledger.failed + {r} else s.ledger.failed)
      && u.ledger.completed ==
        (if s.data[rpc].phase == Queued then s.ledger.completed else s.ledger.completed + multiset{r})
  {
    Extend(es, Handle(clone, cloneTag));
    AlwaysKept(es);
    assert Serving(After(es).tags[After(es).run.tag], After(es).data);
    HandleShape(After(es), clone, cloneTag);
  }

  /** Theorem: finishing, on the run thread or another, makes one new tag for the rpc and
      passes it to gRPC, with the mutex held by the thread that does so. */
  lemma {:induction false} FinishingMakesTag(es: seq<Step>, e: Step)
    requires Possible(es + [e]) && (e.FinishInline? || e.Touch?)
    requires e.Touch? ==> e.thread in After(es).locks.finishing && After(es).locks.finishing[e.thread].Holds?
    ensures var s, u := After(es), After(es + [e]);
      var rpc := if e.FinishInline? then e.rpc else s.locks.finishing[e.thread].rpc;
      && e.tag !in s.tags && u.tags == s.tags[e.tag := Tag(rpc, ServerDone)] && u.queue == s.queue + {e.tag}
      && rpc in s.data && s.data[rpc].phase == Accepted
      && u.data == s.data[rpc := s.data[rpc].(phase := Finishing)] && rpc in u.called
      && s.locks.mutex == Some(if e.FinishInline? then RUN else e.thread) && u.locks.mutex == s.locks.mutex
  {
    Extend(es, e);
    AlwaysKept(es);
    FinishShape(After(es), e);
  }

  lemma Extend(es: seq<Step>, e: Step)
    ensures After(es + [e]) == Next(After(es), e)
    ensures Possible(es + [e]) <==> Possible(es) && CanStep(After(es), e)
  {
    assert (es + [e])[..|es|] == es;
  }
}
