/** The new-architecture server's methods as stretches of its steps: waiting for the mutex,
    finishing an rpc, rounds of the two loops. */
module AsyncServerLoops {
  import opened Tags
  import opened Sequences
  import opened AsyncServerRuns

  /** Whoever holds the mutex goes on and releases it; a finisher may need a tag. */
  function WaitedFor(s: Server, doneTag: Address): Server {
    match s.locks.mutex
    case None => s
    case Some(t) =>
      if t == RUN then Next(if s.run == InCallback then Next(s, CallbackReturns) else s, Unlock)
      else if t in s.locks.finishing && s.locks.finishing[t].Holds? then Next(Next(s, Touch(t, doneTag)), Release(t))
      else Next(s, Release(t))
  }

  /** The steps of `WaitedFor` are possible, and leave the books in order. */
  lemma WaitingKeeps(s: Server, doneTag: Address)
    requires Kept(s) && doneTag !in s.tags
    ensures Kept(WaitedFor(s, doneTag)) && WaitedFor(s, doneTag).locks.mutex == None
    ensures s.locks.mutex != Some(RUN) ==> WaitedFor(s, doneTag).run == s.run
    ensures WaitedFor(s, doneTag).data.Keys == s.data.Keys && WaitedFor(s, doneTag).tags.Keys <= s.tags.Keys + {doneTag}
    ensures WaitedFor(s, doneTag).start == s.start
  {
    match s.locks.mutex
    case None =>
    case Some(t) => if t == RUN { RunThreadLetsGo(s, doneTag); } else { FinisherLetsGo(s, t, doneTag); }
  }

  lemma RunThreadLetsGo(s: Server, doneTag: Address)
    requires Kept(s) && s.locks.mutex == Some(RUN)
    ensures Kept(WaitedFor(s, doneTag)) && WaitedFor(s, doneTag).locks.mutex == None
    ensures WaitedFor(s, doneTag).data == s.data && WaitedFor(s, doneTag).tags == s.tags
        && WaitedFor(s, doneTag).start == s.start
  {
    if s.run == InCallback { KeptStep(s, CallbackReturns); }
    KeptStep(if s.run == InCallback then Next(s, CallbackReturns) else s, Unlock);
  }

  lemma FinisherLetsGo(s: Server, t: Thread, doneTag: Address)
    requires Kept(s) && s.locks.mutex == Some(t) && t != RUN && doneTag !in s.tags
    ensures Kept(WaitedFor(s, doneTag)) && WaitedFor(s, doneTag).locks.mutex == None
        && WaitedFor(s, doneTag).run == s.run
    ensures WaitedFor(s, doneTag).data.Keys == s.data.Keys && WaitedFor(s, doneTag).tags.Keys <= s.tags.Keys + {doneTag}
    ensures WaitedFor(s, doneTag).start == s.start
  {
    if s.locks.finishing[t].Holds? {
      TouchChanges(s, t, doneTag);
      KeptStep(s, Touch(t, doneTag));
      ReleaseKeeps(Next(s, Touch(t, doneTag)), t);
    } else {
      ReleaseKeeps(s, t);
    }
  }

  lemma TouchChanges(s: Server, t: Thread, doneTag: Address)
    requires CallBooks(s) && CanStep(s, Touch(t, doneTag))
    ensures var u := Next(s, Touch(t, doneTag));
      && u.data.Keys == s.data.Keys && u.tags.Keys == s.tags.Keys + {doneTag} && u.run == s.run && u.start == s.start
      && u.locks.mutex == s.locks.mutex && u.locks.finishing == s.locks.finishing[t := Worked]
  {
  }

  lemma ReleaseKeeps(s: Server, t: Thread)
    requires Kept(s) && CanStep(s, Release(t))
    ensures var u := Next(s, Release(t));
      Kept(u) && u.locks.mutex == None && u.data == s.data && u.tags == s.tags && u.run == s.run && u.start == s.start
  {
    KeptStep(s, Release(t));
  }

  /** How many steps its holder takes before the mutex is free. */
  function HolderRank(s: Server): nat {
    match s.locks.mutex
    case None => 0
    case Some(t) =>
      if t == RUN then (if s.run == InCallback then 2 else 1)
      else if t in s.locks.finishing && s.locks.finishing[t].Holds? then 2 else 1
  }

  predicate ByHolder(s: Server, e: Step) {
    match e
    case CallbackReturns => s.locks.mutex == Some(RUN)
    case Unlock => s.locks.mutex == Some(RUN)
    case Touch(t, _) => s.locks.mutex == Some(t)
    case Release(t) => s.locks.mutex == Some(t)
    case _ => false
  }

  lemma UnusedAddress(tags: set<Address>) returns (tag: Address)
    ensures tag !in tags && forall t :: t in tags ==> t < tag
    decreases tags
  {
    if tags == {} {
      tag := 0;
    } else {
      var t :| t in tags;
      var rest := UnusedAddress(tags - {t});
      assert tags == (tags - {t}) + {t};
      tag := if t < rest then rest else t + 1;
      assert forall u :: u in tags ==> u in tags - {t} || u == t;
    }
  }

  lemma HolderGoesOn(s: Server)
    requires MutexBooks(s) && s.locks.mutex.Some?
    ensures exists r :: ByHolder(s, r) && CanStep(s, r)
  {
    var t := s.locks.mutex.value;
    var tag := UnusedAddress(s.tags.Keys);
    var r := if t == RUN then (if s.run == InCallback then CallbackReturns else Unlock)
             else if s.locks.finishing[t].Holds? then Touch(t, tag) else Release(t);
    assert ByHolder(s, r) && CanStep(s, r);
  }

  lemma HolderStep(s: Server, e: Step)
    requires MutexBooks(s) && s.locks.mutex.Some? && CanStep(s, e)
    ensures ByHolder(s, e) ==> HolderRank(Next(s, e)) == HolderRank(s) - 1
    ensures ByHolder(s, e) && HolderRank(s) > 1 ==> Next(s, e).locks.mutex == s.locks.mutex
    ensures !ByHolder(s, e) ==> HolderRank(Next(s, e)) == HolderRank(s) && Next(s, e).locks.mutex == s.locks.mutex
  {
  }

  /** Theorem: while the mutex is held, its holder, the run thread or a finisher, has a
      step it can take; each such step lowers the rank, which is at most two; nothing
      else changes the rank or the holder; and at rank zero the mutex is free. */
  lemma {:induction false} MutexBecomesFree(es: seq<Step>, e: Step)
    requires Possible(es)
    ensures HolderRank(After(es)) <= 2 && (HolderRank(After(es)) == 0 <==> After(es).locks.mutex == None)
    ensures After(es).locks.mutex.Some? ==> exists r :: ByHolder(After(es), r) && CanStep(After(es), r)
    ensures After(es).locks.mutex.Some? && CanStep(After(es), e) ==>
      if ByHolder(After(es), e) then HolderRank(After(es + [e])) == HolderRank(After(es)) - 1
      else HolderRank(After(es + [e])) == HolderRank(After(es)) && After(es + [e]).locks.mutex == After(es).locks.mutex
  {
    AlwaysKept(es);
    assert (es + [e])[..|es|] == es;
    if After(es).locks.mutex.Some? {
      HolderGoesOn(After(es));
      if CanStep(After(es), e) { HolderStep(After(es), e); }
    }
  }

  /* ------------------------------------------------------- stretches of loops */

  function Through(s: Server, es: seq<Step>): Server {
    if es == [] then s else Next(Through(s, es[..|es| - 1]), es[|es| - 1])
  }

  predicate CanThrough(s: Server, es: seq<Step>) {
    forall i :: 0 <= i < |es| ==> CanStep(Through(s, es[..i]), es[i])
  }

  lemma OneMoreThrough(s: Server, es: seq<Step>, i: nat)
    requires i < |es|
    ensures Through(s, es[..i + 1]) == Next(Through(s, es[..i]), es[i])
  {
    assert es[..i + 1][..i] == es[..i];
  }

  lemma {:induction false} ThroughKeeps(s: Server, es: seq<Step>, n: nat)
    requires Kept(s) && CanThrough(s, es) && n <= |es|
    ensures Kept(Through(s, es[..n]))
  {
    if n == 0 {
    } else {
      ThroughKeeps(s, es, n - 1);
      OneMoreThrough(s, es, n - 1);
      KeptStep(Through(s, es[..n - 1]), es[n - 1]);
    }
  }

  /** A round of the initialization loop, or a step of a thread that registers or starts. */
  predicate AroundStart(e: Step) {
    e.TestFlag? || e.QueueRegistration? || e.StartServer? || e.MarkRunning? || e.RunTask?
  }

  /** One round of the run loop: what gRPC returns, the tag the thread holding the
      mutex may make, the clone and its tag, and what the callback finishes. */
  datatype Round =
    Round(tag: Address, ok: bool, doneTag: Address, clone: Address, cloneTag: Address, done: seq<Step>)

  /** Up to the lock and through the round's body. */
  function Handled(s: Server, r: Round): Server {
    Next(WaitedFor(Next(s, Take(r.tag, r.ok)), r.doneTag), Handle(r.clone, r.cloneTag))
  }

  /** From there on: the callback, if it is its turn, and the unlock. */
  function Left(h: Server, done: seq<Step>): Server {
    Next(if h.run == InCallback then Next(Through(h, done), CallbackReturns) else h, Unlock)
  }

  function AfterRound(s: Server, r: Round): Server {
    Left(Handled(s, r), r.done)
  }

  /** The callback only finishes rpcs, those that it was given and that are not finished. */
  predicate CanCallBack(s: Server, done: seq<Step>) {
    CanThrough(s, done) && forall i :: 0 <= i < |done| ==> done[i].FinishInline?
  }

  /** gRPC returns a tag it holds, and new addresses are unused. */
  predicate CanRound(s: Server, r: Round) {
    match r
    case Round(tag, ok, doneTag, clone, cloneTag, done) =>
      && CanStep(s, Take(tag, ok)) && doneTag !in s.tags && Fresh(s, clone, cloneTag) && cloneTag != doneTag
      && (Handled(s, r).run == InCallback ==> CanCallBack(Handled(s, r), done))
  }

  function AfterRounds(s: Server, rounds: seq<Round>): Server {
    if rounds == [] then s else AfterRound(AfterRounds(s, rounds[..|rounds| - 1]), rounds[|rounds| - 1])
  }

  predicate CanRounds(s: Server, rounds: seq<Round>) {
    forall i :: 0 <= i < |rounds| ==> CanRound(AfterRounds(s, rounds[..i]), rounds[i])
  }

  lemma {:induction false} StillInCallback(s: Server, done: seq<Step>, n: nat)
    requires s.run == InCallback && n <= |done| && forall i :: 0 <= i < |done| ==> done[i].FinishInline?
    ensures Through(s, done[..n]).run == InCallback
  {
    if n == 0 {
    } else {
      StillInCallback(s, done, n - 1);
      OneMoreThrough(s, done, n - 1);
    }
  }

  /** The thread gets the lock and handles a tag that names an rpc it owns. */
  lemma HandledKeeps(s: Server, r: Round)
    requires Kept(s) && CanRound(s, r)
    ensures var w := WaitedFor(Next(s, Take(r.tag, r.ok)), r.doneTag);
      && Kept(w) && w.run == Received(r.tag, r.ok) && w.locks.mutex == None && Fresh(w, r.clone, r.cloneTag)
      && r.tag in w.tags && w.tags[r.tag].data in w.data && w.tags[r.tag].kind != ServerWriting
    ensures Kept(Handled(s, r))
    ensures Handled(s, r).run == InCallback || Handled(s, r).run == Leaving
  {
    var t := Next(s, Take(r.tag, r.ok));
    KeptStep(s, Take(r.tag, r.ok));
    WaitingKeeps(t, r.doneTag);
    var w := WaitedFor(t, r.doneTag);
    KeptStep(w, Handle(r.clone, r.cloneTag));
    ReceivedIsOwned(w);
    HandleTagLocks(w.(locks := LockMutex(w.locks, RUN)), w.run.tag, w.run.ok, r.clone, r.cloneTag);
  }

  lemma ReceivedIsOwned(s: Server)
    requires TagBooks(s) && s.run.Received?
    ensures s.run.tag in s.tags && s.tags[s.run.tag].data in s.data && s.tags[s.run.tag].kind != ServerWriting
  {
    assert Serving(s.tags[s.run.tag], s.data);
  }

  lemma LeftKeeps(h: Server, done: seq<Step>)
    requires Kept(h) && (h.run == InCallback || h.run == Leaving) && (h.run == InCallback ==> CanCallBack(h, done))
    ensures Kept(Left(h, done)) && Left(h, done).run == Polling
  {
    if h.run == InCallback {
      assert done[..|done|] == done;
      ThroughKeeps(h, done, |done|);
      StillInCallback(h, done, |done|);
      KeptStep(Through(h, done), CallbackReturns);
      KeptStep(Next(Through(h, done), CallbackReturns), Unlock);
    } else {
      KeptStep(h, Unlock);
    }
  }

  lemma RoundKeeps(s: Server, r: Round)
    requires Kept(s) && CanRound(s, r)
    ensures Kept(AfterRound(s, r))
  {
    HandledKeeps(s, r);
    LeftKeeps(Handled(s, r), r.done);
  }

  lemma OneMoreRound(s: Server, rounds: seq<Round>, i: nat)
    requires i < |rounds|
    ensures AfterRounds(s, rounds[..i + 1]) == AfterRound(AfterRounds(s, rounds[..i]), rounds[i])
  {
    assert rounds[..i + 1][..i] == rounds[..i];
  }

  lemma RoundsPrefix(s: Server, rounds: seq<Round>, n: nat)
    requires CanRounds(s, rounds) && n <= |rounds|
    ensures CanRounds(s, rounds[..n])
  {
    forall i | 0 <= i < n ensures CanRound(AfterRounds(s, rounds[..n][..i]), rounds[..n][i]) {
      assert rounds[..n][..i] == rounds[..i];
    }
  }

  /** Theorem: any number of rounds keeps all the books. */
  lemma {:induction false} RoundsKeep(s: Server, rounds: seq<Round>)
    requires Kept(s) && CanRounds(s, rounds)
    ensures Kept(AfterRounds(s, rounds))
  {
    if rounds == [] {
    } else {
      var n := |rounds| - 1;
      RoundsPrefix(s, rounds, n);
      RoundsKeep(s, rounds[..n]);
      RoundKeeps(AfterRounds(s, rounds[..n]), rounds[n]);
    }
  }

  /** The state after finish has run on a thread other than the run thread. */
  function Finished(s: Server, t: Thread, rpc: Address, tag: Address, doneTag: Address): Server {
    Next(Next(Next(WaitedFor(Next(s, CallFinish(t, rpc)), doneTag), Lock(t)), Touch(t, tag)), Release(t))
  }

  lemma FinishKeeps(s: Server, t: Thread, rpc: Address, tag: Address, doneTag: Address)
    requires Kept(s) && CanStep(s, CallFinish(t, rpc)) && tag !in s.tags && doneTag !in s.tags && tag != doneTag
    ensures Kept(Next(s, CallFinish(t, rpc))) && Kept(Finished(s, t, rpc, tag, doneTag))
    ensures var w := WaitedFor(Next(s, CallFinish(t, rpc)), doneTag);
      && w.locks.mutex == None && rpc in w.data && tag !in w.tags && t in w.locks.finishing
          && w.locks.finishing[t] == Wants(rpc)
  {
    var c := Next(s, CallFinish(t, rpc));
    KeptStep(s, CallFinish(t, rpc));
    WaitingKeeps(c, doneTag);
    var w := WaitedFor(c, doneTag);
    StillWants(c, t, doneTag);
    KeptStep(w, Lock(t));
    KeptStep(Next(w, Lock(t)), Touch(t, tag));
    KeptStep(Next(Next(w, Lock(t)), Touch(t, tag)), Release(t));
  }

  lemma StillWants(s: Server, t: Thread, doneTag: Address)
    requires MutexBooks(s) && t in s.locks.finishing && s.locks.finishing[t].Wants?
    ensures t in WaitedFor(s, doneTag).locks.finishing
        && WaitedFor(s, doneTag).locks.finishing[t] == s.locks.finishing[t]
  {
  }

  /* ------------------------------------------ the methods' stretches are runs */

  /** Theorem: a stretch from a state a run reached is the rest of a longer run. */
  lemma {:induction false} StretchExtendsRun(es: seq<Step>, more: seq<Step>, n: nat)
    requires Possible(es) && CanThrough(After(es), more) && n <= |more|
    ensures Possible(es + more[..n]) && After(es + more[..n]) == Through(After(es), more[..n])
  {
    if n == 0 {
      WholePrefix(es, more);
    } else {
      StretchExtendsRun(es, more, n - 1);
      OneMoreThrough(After(es), more, n - 1);
      Extend(es + more[..n - 1], more[n - 1]);
      PrefixGrows(es, more, n);
    }
  }

  lemma ThroughOneMore(s: Server, es: seq<Step>, e: Step)
    requires CanThrough(s, es) && CanStep(Through(s, es), e)
    ensures CanThrough(s, es + [e]) && Through(s, es + [e]) == Next(Through(s, es), e)
  {
    var more := es + [e];
    forall i | 0 <= i < |more| ensures CanStep(Through(s, more[..i]), more[i]) {
      if i < |es| { assert more[..i] == es[..i] && more[i] == es[i]; } else { assert more[..i] == es; }
    }
    assert more[..|es|] == es;
  }

  lemma {:induction false} ThroughThen(s: Server, es: seq<Step>, more: seq<Step>)
    ensures Through(s, es + more) == Through(Through(s, es), more)
  {
    if more == [] {
      assert es + more == es;
    } else {
      var n := |more| - 1;
      ThroughThen(s, es, more[..n]);
      PrefixOfBoth(es, more, |es| + n);
    }
  }

  /** Two stretches, the second from where the first ends, make one. */
  lemma OneStretch(s: Server, es: seq<Step>, more: seq<Step>)
    requires CanThrough(s, es) && CanThrough(Through(s, es), more)
    ensures CanThrough(s, es + more) && Through(s, es + more) == Through(Through(s, es), more)
  {
    forall i | 0 <= i < |es + more| ensures CanStep(Through(s, (es + more)[..i]), (es + more)[i]) {
      PrefixOfBoth(es, more, i);
      if i >= |es| { ThroughThen(s, es, more[..i - |es|]); }
    }
    ThroughThen(s, es, more);
  }

  /** What the holder of the mutex still does before it releases it. */
  function WaitSteps(s: Server, doneTag: Address): seq<Step> {
    match s.locks.mutex
    case None => []
    case Some(t) =>
      if t == RUN then (if s.run == InCallback then [CallbackReturns] else []) + [Unlock]
      else (if t in s.locks.finishing && s.locks.finishing[t].Holds? then [Touch(t, doneTag)] else []) + [Release(t)]
  }

  /** Theorem: waiting for the mutex is a stretch of possible steps of its holder. */
  lemma WaitIsStretch(s: Server, doneTag: Address)
    requires MutexBooks(s) && doneTag !in s.tags
    ensures CanThrough(s, WaitSteps(s, doneTag)) && WaitedFor(s, doneTag) == Through(s, WaitSteps(s, doneTag))
  {
    match s.locks.mutex
    case None =>
    case Some(t) => if t == RUN { RunThreadsStretch(s); } else { FinishersStretch(s, t, doneTag); }
  }

  lemma RunThreadsStretch(s: Server)
    requires s.run == InCallback || s.run == Leaving
    ensures var steps := (if s.run == InCallback then [CallbackReturns] else []) + [Unlock];
      && CanThrough(s, steps)
      && Through(s, steps) == Next(if s.run == InCallback then Next(s, CallbackReturns) else s, Unlock)
  {
    FirstThenLast(s, if s.run == InCallback then [CallbackReturns] else [], Unlock);
  }

  lemma FinishersStretch(s: Server, t: Thread, doneTag: Address)
    requires t in s.locks.finishing && !s.locks.finishing[t].Wants? && doneTag !in s.tags
    ensures var holds := s.locks.finishing[t].Holds?;
      var steps := (if holds then [Touch(t, doneTag)] else []) + [Release(t)];
      CanThrough(s, steps) && Through(s, steps) == Next(if holds then Next(s, Touch(t, doneTag)) else s, Release(t))
  {
    FirstThenLast(s, if s.locks.finishing[t].Holds? then [Touch(t, doneTag)] else [], Release(t));
  }

  lemma FirstThenLast(s: Server, first: seq<Step>, last: Step)
    requires |first| <= 1 && (|first| == 1 ==> CanStep(s, first[0]))
    requires CanStep(if first == [] then s else Next(s, first[0]), last)
    ensures CanThrough(s, first + [last])
    ensures Through(s, first + [last]) == Next(if first == [] then s else Next(s, first[0]), last)
  {
    FirstIsStretch(s, first);
    ThroughOneMore(s, first, last);
  }

  lemma FirstIsStretch(s: Server, first: seq<Step>)
    requires |first| <= 1 && (|first| == 1 ==> CanStep(s, first[0]))
    ensures CanThrough(s, first) && Through(s, first) == if first == [] then s else Next(s, first[0])
  {
    if |first| == 1 {
      ThroughOneMore(s, [], first[0]);
      assert [] + [first[0]] == first;
    }
  }

  function FinishSteps(s: Server, t: Thread, rpc: Address, tag: Address, doneTag: Address): seq<Step> {
    [CallFinish(t, rpc)] + WaitSteps(Next(s, CallFinish(t, rpc)), doneTag)
    + ([Lock(t)] + [Touch(t, tag)] + [Release(t)])
  }

  lemma LockedStretch(w: Server, t: Thread, rpc: Address, tag: Address)
    requires w.locks.mutex == None && t in w.locks.finishing && w.locks.finishing[t] == Wants(rpc) && tag !in w.tags
    ensures var steps := [Lock(t)] + [Touch(t, tag)] + [Release(t)];
      CanThrough(w, steps) && Through(w, steps) == Next(Next(Next(w, Lock(t)), Touch(t, tag)), Release(t))
  {
    FirstIsStretch(w, [Lock(t)]);
    ThroughOneMore(w, [Lock(t)], Touch(t, tag));
    ThroughOneMore(w, [Lock(t)] + [Touch(t, tag)], Release(t));
  }

  /** Theorem: finish on another thread calls, waits, locks, makes its tag and passes it to
      the writer, and unlocks, each step possible where it is taken. */
  lemma FinishIsStretch(s: Server, t: Thread, rpc: Address, tag: Address, doneTag: Address)
    requires Kept(s) && CanStep(s, CallFinish(t, rpc)) && tag !in s.tags && doneTag !in s.tags && tag != doneTag
    ensures CanThrough(s, FinishSteps(s, t, rpc, tag, doneTag))
    ensures Finished(s, t, rpc, tag, doneTag) == Through(s, FinishSteps(s, t, rpc, tag, doneTag))
  {
    var call := [CallFinish(t, rpc)];
    var c := Next(s, CallFinish(t, rpc));
    var wait := WaitSteps(c, doneTag);
    FirstIsStretch(s, call);
    KeptStep(s, CallFinish(t, rpc));
    WaitIsStretch(c, doneTag);
    OneStretch(s, call, wait);
    FinishKeeps(s, t, rpc, tag, doneTag);
    LockedStretch(Through(s, call + wait), t, rpc, tag);
    OneStretch(s, call + wait, [Lock(t)] + [Touch(t, tag)] + [Release(t)]);
  }

  /** Theorem: when finish returns, its tag names the rpc and is with gRPC, the rpc is being
      finished, the thread is outside and the mutex is free. */
  lemma FinishFinishes(s: Server, t: Thread, rpc: Address, tag: Address, doneTag: Address)
    requires Kept(s) && CanStep(s, CallFinish(t, rpc)) && tag !in s.tags && doneTag !in s.tags && tag != doneTag
    ensures var u := Finished(s, t, rpc, tag, doneTag);
      && tag in u.tags && u.tags[tag] == Tag(rpc, ServerDone) && tag in u.queue
      && rpc in u.data && u.data[rpc].phase == Finishing && rpc in u.called
      && t !in u.locks.finishing && u.locks.mutex == None
  {
    FinishKeeps(s, t, rpc, tag, doneTag);
    var w := WaitedFor(Next(s, CallFinish(t, rpc)), doneTag);
    LockedTouch(w, t, rpc, tag);
    WaitingKeepsCalled(Next(s, CallFinish(t, rpc)), doneTag);
  }

  lemma LockedTouch(w: Server, t: Thread, rpc: Address, tag: Address)
    requires w.locks.mutex == None && rpc in w.data && t in w.locks.finishing && w.locks.finishing[t] == Wants(rpc)
    ensures var u := Next(Next(Next(w, Lock(t)), Touch(t, tag)), Release(t));
      && u.tags == w.tags[tag := Tag(rpc, ServerDone)] && u.queue == w.queue + {tag} && u.called == w.called
      && u.data == w.data[rpc := w.data[rpc].(phase := Finishing)]
      && u.locks.finishing == w.locks.finishing - {t} && u.locks.mutex == None && u.run == w.run
  {
  }

  lemma WaitingKeepsCalled(s: Server, doneTag: Address)
    ensures WaitedFor(s, doneTag).called == s.called
  {
  }

  /** The callback and the unlock. */
  function LeftSteps(h: Server, done: seq<Step>): seq<Step> {
    if h.run == InCallback then done + [CallbackReturns] + [Unlock] else [Unlock]
  }

  lemma LeftIsStretch(h: Server, done: seq<Step>)
    requires (h.run == InCallback && CanCallBack(h, done)) || h.run == Leaving
    ensures CanThrough(h, LeftSteps(h, done)) && Left(h, done) == Through(h, LeftSteps(h, done))
  {
    if h.run == InCallback {
      WholePrefix(done, done);
      StillInCallback(h, done, |done|);
      ThroughOneMore(h, done, CallbackReturns);
      ThroughOneMore(h, done + [CallbackReturns], Unlock);
    } else {
      FirstIsStretch(h, [Unlock]);
    }
  }

  function RoundSteps(s: Server, r: Round): seq<Step> {
    [Take(r.tag, r.ok)] + WaitSteps(Next(s, Take(r.tag, r.ok)), r.doneTag) + [Handle(r.clone, r.cloneTag)]
    + LeftSteps(Handled(s, r), r.done)
  }

  /** Theorem: a round takes the tag, waits, handles it, lets the callback finish what it
      finishes and return, and unlocks, each step possible where it is taken. */
  lemma RoundIsStretch(s: Server, r: Round)
    requires Kept(s) && CanRound(s, r)
    ensures CanThrough(s, RoundSteps(s, r)) && AfterRound(s, r) == Through(s, RoundSteps(s, r))
  {
    var before := HandledIsStretch(s, r);
    LeftIsStretch(Handled(s, r), r.done);
    OneStretch(s, before, LeftSteps(Handled(s, r), r.done));
  }

  lemma HandledIsStretch(s: Server, r: Round) returns (before: seq<Step>)
    requires Kept(s) && CanRound(s, r)
    ensures before ==
      [Take(r.tag, r.ok)] + WaitSteps(Next(s, Take(r.tag, r.ok)), r.doneTag) + [Handle(r.clone, r.cloneTag)]
    ensures CanThrough(s, before) && Handled(s, r) == Through(s, before)
    ensures Handled(s, r).run == InCallback || Handled(s, r).run == Leaving
  {
    var take := [Take(r.tag, r.ok)];
    var t := Next(s, Take(r.tag, r.ok));
    var wait := WaitSteps(t, r.doneTag);
    FirstIsStretch(s, take);
    KeptStep(s, Take(r.tag, r.ok));
    WaitIsStretch(t, r.doneTag);
    OneStretch(s, take, wait);
    HandledKeeps(s, r);
    ThroughOneMore(s, take + wait, Handle(r.clone, r.cloneTag));
    before := take + wait + [Handle(r.clone, r.cloneTag)];
  }

  function AllSteps(s: Server, rounds: seq<Round>): seq<Step> {
    if rounds == [] then [] else
    AllSteps(s, rounds[..|rounds| - 1]) + RoundSteps(AfterRounds(s, rounds[..|rounds| - 1]), rounds[|rounds| - 1])
  }

  /** Theorem: so rounds of the run loop are a stretch of steps, and what is proved of every
      run is true of the server whenever the loop has made any number of them. */
  lemma {:induction false} RoundsAreStretch(s: Server, rounds: seq<Round>)
    requires Kept(s) && CanRounds(s, rounds)
    ensures CanThrough(s, AllSteps(s, rounds)) && AfterRounds(s, rounds) == Through(s, AllSteps(s, rounds))
  {
    if rounds == [] {
    } else {
      var n := |rounds| - 1;
      RoundsPrefix(s, rounds, n);
      RoundsAreStretch(s, rounds[..n]);
      RoundsKeep(s, rounds[..n]);
      RoundIsStretch(AfterRounds(s, rounds[..n]), rounds[n]);
      OneStretch(s, AllSteps(s, rounds[..n]), RoundSteps(AfterRounds(s, rounds[..n]), rounds[n]));
    }
  }
}
