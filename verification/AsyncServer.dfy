/** The server object of the new architecture, proved against `AsyncServerRuns` and `AsyncServerLoops`. */
module AsyncServers {
  import opened Tags
  import opened AsyncServerRuns
  import opened AsyncServerLoops

  class AsyncServer {
    var initializationQueue: seq<Task>
    var running: bool
    var data: map<Address, Rpc>
    const tagger: TagTable<TagLabel>
    var serverQueue: set<Address>
    var shutdownMutex: Option<Thread>
    var run: RunAt
    var finishing: map<Thread, FinishAt>
    var registrations: nat

    ghost var calls: AsyncServerRuns.Start  // of register_async and start, but for queue and flag
    ghost var called: set<Address>
    ghost var failed: set<nat>
    ghost var accepted: multiset<nat>
    ghost var completed: multiset<nat>
    ghost var unlockedTouch: bool
    ghost var relocked: bool

    ghost function State(): Server
      reads this, tagger
    {
      Server(calls.(tasks := initializationQueue, running := running),
             Locks(shutdownMutex, finishing, unlockedTouch, relocked),
             Ledger(registrations, failed, accepted, completed),
             data, tagger.tags, serverQueue, run, called)
    }

    constructor ()
      ensures State() == NEW && fresh(tagger)
    {
      initializationQueue, running := [BuildServer, PublishPointers], false;
      data, serverQueue, run := map[], {}, Initializing;
      calls := NEW.start;
      shutdownMutex, finishing, unlockedTouch, relocked := None, map[], false, false;
      registrations, failed, accepted, completed, called := 0, {}, multiset{}, multiset{}, {};
      tagger := new TagTable();
    }

    /* -------------------------------------------------- registering and starting */

    /** The first line of register_async, which throws std::runtime_error unless `passed`. */
    method TestRunning() returns (passed: bool)
      modifies this`calls
      ensures State() == Next(old(State()), TestFlag) && (passed <==> !running)
    {
      passed := !running;
      calls := Test(calls.(running := running));
    }

    /** Its second line, in a call that passed the test. */
    method QueueTask()
      requires calls.admitted > 0
      modifies this`initializationQueue, this`calls
      ensures State() == Next(old(State()), QueueRegistration)
    {
      initializationQueue := initializationQueue + [RegisterRpc];
      calls := Queue(calls);
    }

    /** The two lines of start. */
    method QueueNullTask()
      modifies this`initializationQueue, this`calls
      ensures State() == Next(old(State()), StartServer)
    {
      initializationQueue := initializationQueue + [EnterLoop];
      calls := calls.(started := true, starting := calls.starting + 1);
    }

    method SetRunning()
      requires calls.starting > 0
      modifies this`running, this`calls
      ensures State() == Next(old(State()), MarkRunning)
    {
      running := true;
      calls := calls.(starting := calls.starting - 1);
    }

    method ActAroundStart(e: Step)
      requires MutexBooks(State()) && InitBooks(State()) && CanStep(State(), e) && AroundStart(e)
      modifies this, tagger
      ensures State() == Next(old(State()), e)
    {
      match e
      case TestFlag => var passed := TestRunning();
      case QueueRegistration => QueueTask();
      case StartServer => QueueNullTask();
      case MarkRunning => SetRunning();
      case RunTask(rpc, tag) => RunInitTask(rpc, tag);
    }

    /** register_async, with whatever others do between its two lines. That none of them
        uses up this call's admission is the last requirement. */
    method RegisterAsync(between: seq<Step>) returns (taken: bool)
      requires Kept(State()) && CanThrough(Next(State(), TestFlag), between)
      requires forall i :: 0 <= i < |between| ==> AroundStart(between[i])
      requires !running ==> Through(Next(State(), TestFlag), between).start.admitted > 0
      modifies this, tagger
      ensures Kept(State()) && (taken <==> !old(running))
      ensures State() == if taken then Next(Through(Next(old(State()), TestFlag), between), QueueRegistration)
        else Next(old(State()), TestFlag)
    {
      KeptStep(State(), TestFlag);
      taken := TestRunning();
      if taken {
        Initialize(between);
        KeptStep(State(), QueueRegistration);
        QueueTask();
      }
    }

    /** start, with whatever others do between its two lines. */
    method Start(between: seq<Step>)
      requires Kept(State()) && CanThrough(Next(State(), StartServer), between)
      requires forall i :: 0 <= i < |between| ==> AroundStart(between[i])
      requires Through(Next(State(), StartServer), between).start.starting > 0
      modifies this, tagger
      ensures Kept(State())
      ensures State() == Next(Through(Next(old(State()), StartServer), between), MarkRunning)
    {
      KeptStep(State(), StartServer);
      QueueNullTask();
      Initialize(between);
      KeptStep(State(), MarkRunning);
      SetRunning();
    }

    /* ------------------------------------------------- the initialization loop */

    /** queue_rpc and queue_handler: own the rpc, make its tag, pass it to gRPC. */
    method EnqueueRpc(registration: nat, rpc: Address, tag: Address)
      requires tag !in tagger.tags
      modifies this`data, this`serverQueue, tagger
      ensures State() == QueueRpc(old(State()), registration, rpc, tag)
    {
      data := data[rpc := Rpc(registration, Queued)];
      var key := tagger.MakeTag(rpc, ServerNewRpc, tag);
      serverQueue := serverQueue + {key};
    }

    method RegisterNow(rpc: Address, tag: Address)
      requires tag !in tagger.tags
      modifies this`data, this`serverQueue, this`registrations, tagger
      ensures var s := old(State());
        State() == QueueRpc(s.(ledger := s.ledger.(registrations := s.ledger.registrations + 1)),
                            s.ledger.registrations, rpc, tag)
    {
      registrations := registrations + 1;
      EnqueueRpc(registrations - 1, rpc, tag);
    }

    /** One round; the mutex is free, since nobody can be finishing an rpc yet. */
    method RunInitTask(rpc: Address, tag: Address)
      requires MutexBooks(State()) && InitBooks(State()) && CanStep(State(), RunTask(rpc, tag))
      modifies this`initializationQueue, this`run, this`data, this`serverQueue, this`registrations, tagger
      ensures State() == Next(old(State()), RunTask(rpc, tag))
    {
      var task := initializationQueue[0];
      initializationQueue := initializationQueue[1..];
      match task
      case RegisterRpc => RegisterNow(rpc, tag);
      case EnterLoop => run := Polling;
      case _ =>
    }

    /** A stretch of the initialization loop, which carries out the queued tasks in turn,
        while other threads register and start. */
    method Initialize(steps: seq<Step>)
      requires Kept(State()) && CanThrough(State(), steps) && forall i :: 0 <= i < |steps| ==> AroundStart(steps[i])
      modifies this, tagger
      ensures Kept(State()) && State() == Through(old(State()), steps)
    {
      ghost var s := State();
      for i := 0 to |steps|
        invariant State() == Through(s, steps[..i])
      {
        ThroughKeeps(s, steps, i);
        OneMoreThrough(s, steps, i);
        ActAroundStart(steps[i]);
      }
      assert steps[..|steps|] == steps;
      ThroughKeeps(s, steps, |steps|);
    }

    /* ------------------------------------------------------------ the run loop */

    /** Lock, when the mutex is held: the holder goes on until it has released it. */
    method AwaitMutex(doneTag: Address)
      requires MutexBooks(State()) && CallBooks(State()) && doneTag !in tagger.tags
      modifies this`shutdownMutex, this`run, this`finishing, this`data, this`serverQueue, this`unlockedTouch, tagger
      ensures State() == WaitedFor(old(State()), doneTag)
    {
      match shutdownMutex
      case None =>
      case Some(thread) =>
        if thread == RUN {
          run := Polling;
        } else {
          GoOn(thread, doneTag);
        }
        shutdownMutex := None;
    }

    /** The rest of finish on the thread that holds the mutex, except for the unlock. */
    method GoOn(thread: Thread, doneTag: Address)
      requires CallBooks(State()) && thread in finishing && !finishing[thread].Wants? && doneTag !in tagger.tags
      modifies this`finishing, this`data, this`serverQueue, this`unlockedTouch, tagger
      ensures State().(locks := State().locks.(mutex := None)) ==
        Next(if old(finishing)[thread].Holds? then Next(old(State()), Touch(thread, doneTag)) else old(State()),
             Release(thread))
    {
      if finishing[thread].Holds? {
        TouchRpc(thread, finishing[thread].rpc, doneTag);
      }
      finishing := finishing - {thread};
    }

    /** The two lines that finish and finish_with_error share. */
    method TouchRpc(thread: Thread, rpc: Address, tag: Address)
      requires rpc in data && tag !in tagger.tags
      modifies this`data, this`serverQueue, this`unlockedTouch, tagger
      ensures State() == TouchWriter(old(State()), thread, rpc, tag)
    {
      var key := tagger.MakeTag(rpc, ServerDone, tag);
      data := data[rpc := data[rpc].(phase := Finishing)];
      serverQueue := serverQueue + {key};
      unlockedTouch := unlockedTouch || shutdownMutex != Some(thread);
    }

    method Erase(rpc: Address)
      requires rpc in data
      modifies this`data, this`called, this`failed, this`completed
      ensures State() == EraseRpc(old(State()), rpc)
    {
      var gone := data[rpc];
      data, called := data - {rpc}, called - {rpc};
      if gone.phase == Queued {
        failed := failed + {gone.registration};
      } else {
        completed := completed + multiset{gone.registration};
      }
    }

    /** invoke_user_callback starts: the rpc is the user's, and its clone is queued. */
    method Accept(rpc: Address, clone: Address, cloneTag: Address)
      requires rpc in data && cloneTag !in tagger.tags
      modifies this`data, this`accepted, this`run, this`serverQueue, tagger
      ensures State() == GiveToUser(old(State()), rpc, clone, cloneTag)
    {
      var registration := data[rpc].registration;
      data, accepted, run := data[rpc := Rpc(registration, Accepted)], accepted + multiset{registration}, InCallback;
      EnqueueRpc(registration, clone, cloneTag);
    }

    /** The body of a round, with the mutex free. The client labels, at which run
        throws std::runtime_error, do not occur. */
    method HandleReceived(clone: Address, cloneTag: Address)
      requires run.Received? && run.tag in tagger.tags && tagger.tags[run.tag].data in data
          && tagger.tags[run.tag].kind != ServerWriting
      requires shutdownMutex == None && cloneTag !in tagger.tags
      modifies this`shutdownMutex, this`run, this`data, this`serverQueue, this`called, this`failed, this`accepted,
          this`completed, tagger
      ensures State() == Next(old(State()), Handle(clone, cloneTag))
    {
      HandledAsSpecified(State(), clone, cloneTag);
      var completedSuccessfully := run.ok;
      var tag := LockAndGetTag();
      if completedSuccessfully && tag.kind == ServerNewRpc {
        Accept(tag.data, clone, cloneTag);
      } else {
        run := Leaving;
        Erase(tag.data);
      }
    }

    method LockAndGetTag() returns (tag: Tag<TagLabel>)
      requires run.Received? && run.tag in tagger.tags
      modifies this`shutdownMutex, tagger
      ensures shutdownMutex == Some(RUN) && tagger.tags == old(tagger.tags) - {run.tag}
          && tag == old(tagger.tags)[run.tag]
    {
      shutdownMutex := Some(RUN);
      var found := tagger.GetTag(run.tag);
      tag := found.value;
    }

    lemma HandledAsSpecified(s: Server, clone: Address, cloneTag: Address)
      requires s.run.Received? && s.run.tag in s.tags && s.tags[s.run.tag].data in s.data
          && s.tags[s.run.tag].kind != ServerWriting
      requires s.locks.mutex == None
      ensures var content := s.tags[s.run.tag];
        var t := s.(tags := s.tags - {s.run.tag}, locks := s.locks.(mutex := Some(RUN)));
        Next(s, Handle(clone, cloneTag)) == if s.run.ok && content.kind == ServerNewRpc
          then GiveToUser(t, content.data, clone, cloneTag) else EraseRpc(t.(run := Leaving), content.data)
    {
    }

    /** What the user's callback finishes, on the run thread, which holds the mutex already. */
    method FinishInCallback(done: seq<Step>)
      requires CanCallBack(State(), done)
      modifies this`data, this`serverQueue, this`unlockedTouch, this`called, tagger
      ensures State() == Through(old(State()), done)
    {
      ghost var s := State();
      for i := 0 to |done|
        invariant State() == Through(s, done[..i])
      {
        assert CanStep(Through(s, done[..i]), done[i]);
        OneMoreThrough(s, done, i);
        FinishInside(done[i].rpc, done[i].tag);
      }
      assert done[..|done|] == done;
    }

    /** finish on the run thread. */
    method FinishInside(rpc: Address, tag: Address)
      requires rpc in data && tag !in tagger.tags
      modifies this`data, this`serverQueue, this`unlockedTouch, this`called, tagger
      ensures State() == Next(old(State()), FinishInline(rpc, tag))
    {
      called := called + {rpc};
      TouchRpc(RUN, rpc, tag);
    }

    /** One round of the run loop, waiting for the mutex included. */
    method RunOnce(r: Round)
      requires Kept(State()) && CanRound(State(), r)
      modifies this, tagger
      ensures State() == AfterRound(old(State()), r)
    {
      HandledKeeps(State(), r);
      TakeAndLock(r);
      HandleReceived(r.clone, r.cloneTag);
      Leave(r.done);
    }

    /** The user's callback, if it is its turn, and the unlock. */
    method Leave(done: seq<Step>)
      requires run == InCallback ==> CanCallBack(State(), done)
      modifies this`run, this`shutdownMutex, this`data, this`serverQueue, this`unlockedTouch, this`called, tagger
      ensures State() == Left(old(State()), done)
    {
      if run == InCallback {
        CallBack(done);
      }
      UnlockMutex();
    }

    method CallBack(done: seq<Step>)
      requires CanCallBack(State(), done)
      modifies this`run, this`data, this`serverQueue, this`unlockedTouch, this`called, tagger
      ensures State() == Next(Through(old(State()), done), CallbackReturns)
    {
      FinishInCallback(done);
      run := Leaving;
    }

    method UnlockMutex()
      modifies this`run, this`shutdownMutex
      ensures State() == Next(old(State()), Unlock)
    {
      run, shutdownMutex := Polling, None;
    }

    method TakeAndLock(r: Round)
      requires Kept(State()) && CanRound(State(), r)
      modifies this`shutdownMutex, this`run, this`finishing, this`data, this`serverQueue, this`unlockedTouch, tagger
      ensures State() == WaitedFor(Next(old(State()), Take(r.tag, r.ok)), r.doneTag)
    {
      KeptStep(State(), Take(r.tag, r.ok));
      serverQueue, run := serverQueue - {r.tag}, Received(r.tag, r.ok);
      AwaitMutex(r.doneTag);
    }

    /** A stretch of the run loop. All it needs, and keeps, is that the books are in order. */
    method Run(rounds: seq<Round>)
      requires Kept(State()) && CanRounds(State(), rounds)
      modifies this, tagger
      ensures Kept(State()) && State() == AfterRounds(old(State()), rounds)
    {
      ghost var s := State();
      for i := 0 to |rounds|
        invariant State() == AfterRounds(s, rounds[..i])
      {
        RoundsPrefix(s, rounds, i);
        RoundsKeep(s, rounds[..i]);
        OneMoreRound(s, rounds, i);
        RunOnce(rounds[i]);
      }
      assert rounds[..|rounds|] == rounds;
      RoundsKeep(s, rounds);
    }

    /** finish on a thread other than the run thread: it waits for the mutex. */
    method Finish(thread: Thread, rpc: Address, tag: Address, doneTag: Address)
      requires Kept(State()) && CanStep(State(), CallFinish(thread, rpc))
      requires tag !in tagger.tags && doneTag !in tagger.tags && tag != doneTag
      modifies this, tagger
      ensures Kept(State()) && State() == Finished(old(State()), thread, rpc, tag, doneTag)
      ensures tag in tagger.tags && tagger.tags[tag] == Tag(rpc, ServerDone) && tag in serverQueue
      ensures rpc in data && data[rpc].phase == Finishing && rpc in called
      ensures thread !in finishing && shutdownMutex == None
    {
      FinishKeeps(State(), thread, rpc, tag, doneTag);
      FinishFinishes(State(), thread, rpc, tag, doneTag);
      called, finishing := called + {rpc}, finishing[thread := Wants(rpc)];
      AwaitMutex(doneTag);
      FinishLocked(thread, rpc, tag);
    }

    method FinishLocked(thread: Thread, rpc: Address, tag: Address)
      requires shutdownMutex == None && thread in finishing && finishing[thread] == Wants(rpc) && rpc in data
          && tag !in tagger.tags
      modifies this`shutdownMutex, this`finishing, this`data, this`serverQueue, this`unlockedTouch, tagger
      ensures State() == Next(Next(Next(old(State()), Lock(thread)), Touch(thread, tag)), Release(thread))
    {
      FinishLockedMeans(State(), thread, rpc, tag);
      shutdownMutex := Some(thread);
      TouchRpc(thread, rpc, tag);
      shutdownMutex, finishing := None, finishing - {thread};
    }

    lemma FinishLockedMeans(s: Server, thread: Thread, rpc: Address, tag: Address)
      requires s.locks.mutex == None && thread in s.locks.finishing && s.locks.finishing[thread] == Wants(rpc)
      ensures Next(Next(Next(s, Lock(thread)), Touch(thread, tag)), Release(thread)) ==
        TouchWriter(s, thread, rpc, tag).(locks := s.locks.(finishing := s.locks.finishing - {thread}))
    {
      var holds := Next(s, Lock(thread));
      assert holds.locks == s.locks.(mutex := Some(thread), finishing := s.locks.finishing[thread := Holds(rpc)]);
      assert Next(holds, Touch(thread, tag)).locks
          == s.locks.(mutex := Some(thread), finishing := s.locks.finishing[thread := Worked]);
      assert s.locks.finishing[thread := Worked] - {thread} == s.locks.finishing - {thread};
    }
  }
}
