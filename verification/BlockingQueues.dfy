/** The thread-safe queue (blocking_queue.hpp, both versions).

  `Buffer` is what the mutex guards, with the history of what went in and out;
  threads, sleeping and notifications are those of `Monitors`.
 */
module BlockingQueues {
  import opened Tags
  import opened Monitors

  datatype Buffer<T> = Buffer(
    items: seq<T>,
    pushed: seq<T>,     // everything ever pushed
    consumed: seq<T>,   // everything that left, popped or discarded
    popped: seq<T>)     // what pop_front returned, to whichever consumer

  function Empty<T>(): Buffer<T> { Buffer([], [], [], []) }

  function PushBack<T>(b: Buffer<T>, value: T): Buffer<T> {
    b.(items := b.items + [value], pushed := b.pushed + [value])
  }

  function PopFront<T>(b: Buffer<T>): Buffer<T> {
    if b.items == [] then b else
    b.(items := b.items[1..], consumed := b.consumed + [b.items[0]], popped := b.popped + [b.items[0]])
  }

  /** Discard from the front until `keep` items are left. */
  function Discard<T>(b: Buffer<T>, keep: nat): Buffer<T> {
    var n := if |b.items| > keep then |b.items| - keep else 0;
    b.(items := b.items[n..], consumed := b.consumed + b.items[..n])
  }

  datatype Step<T> =
    | Push(value: T)
    | ClearAllAndPush(value: T)
    | Enter(thread: Thread)          // a consumer calls pop_front
    | TryPop(thread: Thread)         // it gets the lock
    | KeepMostRecent                 // pop_all_but_most_recent
    | Clear
    | NotifyOne(woken: Option<Thread>)
    | Spurious(thread: Thread)

  predicate HasItems<T>(b: Buffer<T>) { |b.items| > 0 }

  function Next<T>(m: Monitor<Buffer<T>>, s: Step<T>): Monitor<Buffer<T>> {
    match s
    case Push(value) => Use(m, (b: Buffer<T>) => PushBack(b, value), true)
    case ClearAllAndPush(value) => Use(m, (b: Buffer<T>) => PushBack(Discard(b, 0), value), true)
    case Enter(thread) => Arrive(m, thread)
    case TryPop(thread) => Attempt(m, thread, HasItems, PopFront, false)
    case KeepMostRecent => Use(m, (b: Buffer<T>) => Discard(b, 1), false)
    case Clear => Use(m, (b: Buffer<T>) => Discard(b, 0), false)
    case NotifyOne(woken) => Notify(m, woken)
    case Spurious(thread) => m.(awake := m.awake + {thread}, asleep := m.asleep - {thread})
  }

  /** pop_all_but_most_recent reads the front, so it needs an item. */
  predicate CanStep<T>(m: Monitor<Buffer<T>>, s: Step<T>) {
    match s
    case Enter(thread) => thread !in m.awake && thread !in m.asleep
    case TryPop(thread) => thread in m.awake
    case KeepMostRecent => HasItems(m.data)
    case NotifyOne(woken) => CanNotify(m, woken)
    case Spurious(thread) => thread in m.asleep
    case _ => true
  }

  function After<T>(ss: seq<Step<T>>): Monitor<Buffer<T>> {
    if ss == [] then Monitor(Empty(), {}, {}, 0) else Next(After(ss[..|ss| - 1]), ss[|ss| - 1])
  }

  predicate Possible<T>(ss: seq<Step<T>>) {
    ss == [] || (Possible(ss[..|ss| - 1]) && CanStep(After(ss[..|ss| - 1]), ss[|ss| - 1]))
  }

  predicate InOrder<T(==)>(b: Buffer<T>) {
    b.pushed == b.consumed + b.items
  }

  lemma PushKeepsOrder<T>(b: Buffer<T>, value: T)
    requires InOrder(b)
    ensures InOrder(PushBack(b, value))
  {
  }

  lemma PopKeepsOrder<T>(b: Buffer<T>)
    requires InOrder(b)
    ensures InOrder(PopFront(b))
  {
    if b.items != [] { assert b.items == [b.items[0]] + b.items[1..]; }
  }

  lemma DiscardKeepsOrder<T>(b: Buffer<T>, keep: nat)
    requires InOrder(b)
    ensures InOrder(Discard(b, keep))
  {
    var n := if |b.items| > keep then |b.items| - keep else 0;
    assert b.items == b.items[..n] + b.items[n..];
  }

  /** Theorem, first in first out: with any producers, consumers and interleaving,
      what was pushed is what left, in order, followed by what is still queued. */
  lemma {:induction false} PushedIsConsumedThenQueued<T>(ss: seq<Step<T>>)
    ensures After(ss).data.pushed == After(ss).data.consumed + After(ss).data.items
  {
    if ss == [] {
    } else {
      var b := After(ss[..|ss| - 1]).data;
      PushedIsConsumedThenQueued(ss[..|ss| - 1]);
      match ss[|ss| - 1]
      case Push(value) => PushKeepsOrder(b, value);
      case ClearAllAndPush(value) => DiscardKeepsOrder(b, 0); PushKeepsOrder(Discard(b, 0), value);
      case TryPop(thread) => PopKeepsOrder(b);
      case KeepMostRecent => DiscardKeepsOrder(b, 1);
      case Clear => DiscardKeepsOrder(b, 0);
      case _ =>
    }
  }

  predicate NoDiscards<T>(ss: seq<Step<T>>) {
    forall k :: 0 <= k < |ss| ==> !ss[k].ClearAllAndPush? && !ss[k].KeepMostRecent? && !ss[k].Clear?
  }

  /** Theorem: without the discarding operations the consumers receive, between
      them, exactly a prefix of what was pushed, in order: nothing lost or repeated. */
  lemma {:induction false} ConsumersReceiveAPrefix<T>(ss: seq<Step<T>>)
    requires NoDiscards(ss)
    ensures After(ss).data.pushed == After(ss).data.popped + After(ss).data.items
  {
    PushedIsConsumedThenQueued(ss);
    PoppedIsConsumed(ss);
  }

  lemma {:induction false} PoppedIsConsumed<T>(ss: seq<Step<T>>)
    requires NoDiscards(ss)
    ensures After(ss).data.popped == After(ss).data.consumed
  {
    if ss == [] {
    } else {
      PoppedIsConsumed(ss[..|ss| - 1]);
    }
  }

  /** Theorem: pop_all_but_most_recent yields the latest item that was pushed, and
      leaves it in the queue. */
  lemma {:induction false} MostRecentIsLastPushed<T>(ss: seq<Step<T>>)
    requires Possible(ss) && HasItems(After(ss).data)
    ensures var b := After(ss + [KeepMostRecent]).data;
      |b.pushed| > 0 && b.items == [b.pushed[|b.pushed| - 1]] && b.pushed == After(ss).data.pushed
  {
    PushedIsConsumedThenQueued(ss);
    OneMore(ss, KeepMostRecent);
    LastOfOrdered(After(ss).data);
  }

  lemma OneMore<T>(ss: seq<Step<T>>, s: Step<T>)
    ensures After(ss + [s]) == Next(After(ss), s)
  {
    assert (ss + [s])[..|ss|] == ss;
  }

  lemma LastOfOrdered<T>(b: Buffer<T>)
    requires InOrder(b) && HasItems(b)
    ensures |b.pushed| > 0 && Discard(b, 1).items == [b.pushed[|b.pushed| - 1]] && Discard(b, 1).pushed == b.pushed
  {
  }

  /* -------------------------------------------- what each step does, in a run */

  /** The arguments of the pushing calls of a run, in order. */
  function Arguments<T>(ss: seq<Step<T>>): seq<T> {
    if ss == [] then [] else
    match ss[|ss| - 1]
    case Push(value) => Arguments(ss[..|ss| - 1]) + [value]
    case ClearAllAndPush(value) => Arguments(ss[..|ss| - 1]) + [value]
    case _ => Arguments(ss[..|ss| - 1])
  }

  /** Theorem: what was pushed are the arguments of the pushing calls. */
  lemma {:induction false} PushedAreArguments<T>(ss: seq<Step<T>>)
    ensures After(ss).data.pushed == Arguments(ss)
  {
    if ss == [] {
    } else {
      PushedAreArguments(ss[..|ss| - 1]);
    }
  }

  /** Theorem: clearing leaves nothing, and what was discarded is returned to nobody. */
  lemma {:induction false} ClearingLeavesNothing<T>(ss: seq<Step<T>>)
    ensures After(ss + [Clear]).data.items == [] && After(ss + [Clear]).data.popped == After(ss).data.popped
  {
    OneMore(ss, Clear);
  }

  /** Theorem: clearing with a push leaves only the new item. */
  lemma {:induction false} OnlyTheNewItem<T>(ss: seq<Step<T>>, value: T)
    ensures After(ss + [ClearAllAndPush(value)]).data.items == [value]
    ensures After(ss + [ClearAllAndPush(value)]).data.popped == After(ss).data.popped
  {
    OneMore(ss, ClearAllAndPush(value));
    ClearAndPushMeans(After(ss), value);
  }

  lemma ClearAndPushMeans<T>(m: Monitor<Buffer<T>>, value: T)
    ensures Next(m, ClearAllAndPush(value)) ==
      m.(data := PushBack(Discard(m.data, 0), value), notifications := m.notifications + 1)
  {
  }

  /** Theorem: a consumer that gets the lock receives the oldest item if there is one,
      and otherwise nothing. */
  lemma {:induction false} ConsumerTakesOldest<T>(ss: seq<Step<T>>, thread: Thread)
    ensures After(ss).data.items == [] ==> After(ss + [TryPop(thread)]).data == After(ss).data
    ensures After(ss).data.items != [] ==>
      var b, d := After(ss).data, After(ss + [TryPop(thread)]).data;
      d.popped == b.popped + [b.items[0]] && b.items == [b.items[0]] + d.items
  {
    OneMore(ss, TryPop(thread));
  }

  /** A critical section other than a consumer's attempt moves no thread. */
  lemma UseMovesNobody<T>(m: Monitor<Buffer<T>>, s: Step<T>)
    requires s.Push? || s.ClearAllAndPush? || s.KeepMostRecent? || s.Clear?
    ensures Next(m, s).awake == m.awake && Next(m, s).asleep == m.asleep
  {
    match s
    case Push(_) =>
    case ClearAllAndPush(value) => ClearAndPushMeans(m, value);
    case KeepMostRecent =>
    case Clear =>
  }

  /** Theorem: a consumer waits inside pop_front from the moment it calls to the one at
      which it finds an item. It sleeps after an attempt on an empty queue, until it is
      notified or wakes up spuriously. */
  lemma {:induction false} ConsumersComeAndGo<T>(ss: seq<Step<T>>, s: Step<T>, thread: Thread)
    requires Possible(ss) && CanStep(After(ss), s)
    ensures var m, n := After(ss), After(ss + [s]);
      && !(thread in n.awake && thread in n.asleep)
      && (thread in n.awake || thread in n.asleep <==>
            || s == Enter(thread)
            || ((thread in m.awake || thread in m.asleep)
                && !(s.TryPop? && s.thread == thread && m.data.items != [])))
      && (thread in n.asleep <==>
            || (s.TryPop? && s.thread == thread && m.data.items == [])
            || (thread in m.asleep && s != Spurious(thread) && s != NotifyOne(Some(thread))))
  {
    OneMore(ss, s);
    AlwaysCovered(ss);
    WaitersMove(After(ss), s, thread);
  }

  lemma WaitersMove<T>(m: Monitor<Buffer<T>>, s: Step<T>, thread: Thread)
    requires m.awake !! m.asleep && CanStep(m, s)
    ensures var n := Next(m, s);
      && !(thread in n.awake && thread in n.asleep)
      && (thread in n.awake || thread in n.asleep <==>
            || s == Enter(thread)
            || ((thread in m.awake || thread in m.asleep)
                && !(s.TryPop? && s.thread == thread && m.data.items != [])))
      && (thread in n.asleep <==>
            || (s.TryPop? && s.thread == thread && m.data.items == [])
            || (thread in m.asleep && s != Spurious(thread) && s != NotifyOne(Some(thread))))
  {
    if s.Push? || s.ClearAllAndPush? || s.KeepMostRecent? || s.Clear? { UseMovesNobody(m, s); }
  }

  /** Theorem: every push owes one notification, nothing else does, and each is used once. */
  lemma {:induction false} PushesNotify<T>(ss: seq<Step<T>>, s: Step<T>)
    requires Possible(ss) && CanStep(After(ss), s)
    ensures After(ss + [s]).notifications ==
      if s.NotifyOne? then After(ss).notifications - 1
      else After(ss).notifications + if s.Push? || s.ClearAllAndPush? then 1 else 0
  {
    OneMore(ss, s);
  }

  /* ------------------------------------------------------------- the sleepers */

  predicate Covered<T>(m: Monitor<Buffer<T>>) {
    && m.awake !! m.asleep
    && (m.asleep != {} ==> |m.data.items| <= |m.awake| + m.notifications)
  }

  lemma StepKeepsCovered<T>(m: Monitor<Buffer<T>>, s: Step<T>)
    requires Covered(m) && CanStep(m, s)
    ensures Covered(Next(m, s))
  {
    match s
    case TryPop(thread) => TryPopKeepsCovered(m, thread);
    case Enter(thread) => Joined(m.awake, thread);
    case NotifyOne(woken) => NotifyKeepsCovered(m, woken);
    case Spurious(thread) => Joined(m.awake, thread);
    case Push(value) => UseKeepsCovered(m, Next(m, s));
    case ClearAllAndPush(value) => DiscardShrinks(m.data, 0); UseKeepsCovered(m, Next(m, s));
    case KeepMostRecent => DiscardShrinks(m.data, 1); UseKeepsCovered(m, Next(m, s));
    case Clear => DiscardShrinks(m.data, 0); UseKeepsCovered(m, Next(m, s));
  }

  lemma Joined(threads: set<Thread>, thread: Thread)
    requires thread !in threads
    ensures |threads + {thread}| == |threads| + 1
  {
  }

  lemma UseKeepsCovered<T>(m: Monitor<Buffer<T>>, u: Monitor<Buffer<T>>)
    requires Covered(m) && u.awake == m.awake && u.asleep == m.asleep
    requires |u.data.items| + m.notifications <= |m.data.items| + u.notifications
    ensures Covered(u)
  {
  }

  lemma DiscardShrinks<T>(b: Buffer<T>, keep: nat)
    ensures |Discard(b, keep).items| <= |b.items|
  {
  }

  lemma NotifyKeepsCovered<T>(m: Monitor<Buffer<T>>, woken: Option<Thread>)
    requires Covered(m) && CanNotify(m, woken)
    ensures Covered(Notify(m, woken))
  {
    if woken.Some? { Joined(m.awake, woken.value); }
  }

  lemma TryPopKeepsCovered<T>(m: Monitor<Buffer<T>>, thread: Thread)
    requires Covered(m) && thread in m.awake
    ensures Covered(Attempt(m, thread, HasItems, PopFront, false))
  {
    assert |m.awake - {thread}| == |m.awake| - 1;
  }

  lemma {:induction false} AlwaysCovered<T>(ss: seq<Step<T>>)
    requires Possible(ss)
    ensures Covered(After(ss))
  {
    if ss == [] {
    } else {
      AlwaysCovered(ss[..|ss| - 1]);
      StepKeepsCovered(After(ss[..|ss| - 1]), ss[|ss| - 1]);
    }
  }

  /** Theorem: while a consumer sleeps, every queued item is matched by an awake
      consumer or a notification on its way. */
  lemma {:induction false} SleepersAreCovered<T>(ss: seq<Step<T>>)
    requires Possible(ss) && After(ss).asleep != {}
    ensures |After(ss).data.items| <= |After(ss).awake| + After(ss).notifications
  {
    AlwaysCovered(ss);
  }

  /** Theorem: once nobody is awake and no notification is pending, a consumer
      sleeps only if the queue is empty. */
  lemma {:induction false} NobodySleepsOnItems<T>(ss: seq<Step<T>>)
    requires Possible(ss) && After(ss).awake == {} && After(ss).notifications == 0 && After(ss).asleep != {}
    ensures After(ss).data.items == []
  {
    AlwaysCovered(ss);
  }

  /** The queue as an object, with the threads at its mutex and condition variable.
      Each method is one critical section. */
  class BlockingQueue<T> {
    var queue: seq<T>
    const condition: Condition
    ghost var pushed: seq<T>
    ghost var consumed: seq<T>
    ghost var popped: seq<T>

    ghost function State(): Monitor<Buffer<T>>
      reads this, condition
    {
      Monitor(Buffer(queue, pushed, consumed, popped), condition.awake, condition.asleep, condition.notifications)
    }

    constructor ()
      ensures State() == Monitor(Empty(), {}, {}, 0) && fresh(condition)
    {
      queue, pushed, consumed, popped := [], [], [], [];
      condition := new Condition();
    }

    method Push(value: T)
      modifies this, condition
      ensures State() == Next(old(State()), Step.Push(value))
    {
      Append(value);
    }

    method Append(value: T)
      modifies this`queue, this`pushed, condition`notifications
      ensures queue == old(queue) + [value] && pushed == old(pushed) + [value]
      ensures condition.notifications == old(condition.notifications) + 1
    {
      queue, pushed := queue + [value], pushed + [value];
      condition.Post(true);
    }

    /** A thread inside pop_front gets the lock: it takes the oldest item, or sleeps. */
    method Pop(thread: Thread) returns (rc: Option<T>)
      requires thread in condition.awake
      modifies this, condition
      ensures State() == Next(old(State()), TryPop(thread))
      ensures rc == if old(queue) == [] then None else Some(old(queue)[0])
    {
      if queue == [] {
        condition.Sleep(thread);
        rc := None;
      } else {
        condition.Proceed(thread);
        rc := Some(queue[0]);
        queue, consumed, popped := queue[1..], consumed + [queue[0]], popped + [queue[0]];
      }
    }

    /** Reading the front of an empty queue is undefined, so there must be an item. */
    method PopAllButMostRecent() returns (rc: T)
      requires queue != []
      modifies this
      ensures State() == Next(old(State()), KeepMostRecent)
      ensures rc == old(queue)[|old(queue)| - 1]
    {
      DropUntil(1);
      rc := queue[0];
    }

    method ClearAll()
      modifies this
      ensures State() == Next(old(State()), Clear)
    {
      DropUntil(0);
    }

    method ClearAllAndPushBack(value: T)
      modifies this, condition
      ensures State() == Next(old(State()), ClearAllAndPush(value))
    {
      ClearAndPushMeans(State(), value);
      DropUntil(0);
      Append(value);
    }

    /** The loop `while (queue_.size() > keep) queue_.pop();`. */
    method DropUntil(keep: nat)
      modifies this`queue, this`consumed
      ensures State().data == Discard(old(State()).data, keep)
    {
      ghost var n := 0;
      while |queue| > keep
        invariant 0 <= n <= |old(queue)| && n <= if |old(queue)| > keep then |old(queue)| - keep else 0
        invariant queue == old(queue)[n..] && consumed == old(consumed) + old(queue)[..n]
      {
        consumed := consumed + [queue[0]];
        queue := queue[1..];
        n := n + 1;
      }
    }
  }
}
