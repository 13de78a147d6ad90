/** The monitor behind the shared structures (atomic_data.hpp): a mutex, a
    condition variable and the data they guard.

  A critical section is one step. A thread that calls `wait_to_use_safely` is
  awake until it gets the lock; it then either runs its body or falls asleep. A
  thread that has left the lock and still owes a `notify_one` is a pending
  notification. Spurious wake-ups are allowed.
 */
module Monitors {
  import opened Tags

  datatype Monitor<T> = Monitor(data: T, awake: set<Thread>, asleep: set<Thread>, notifications: nat)

  /** use_safely, followed by a notification if `post`. */
  function Use<T>(m: Monitor<T>, func: T -> T, post: bool): Monitor<T> {
    m.(data := func(m.data), notifications := m.notifications + if post then 1 else 0)
  }

  /** A thread enters wait_to_use_safely. */
  function Arrive<T>(m: Monitor<T>, thread: Thread): Monitor<T> {
    m.(awake := m.awake + {thread})
  }

  /** The awake thread gets the lock: it runs `func` if `pred` holds, and sleeps otherwise. */
  function Attempt<T>(m: Monitor<T>, thread: Thread, pred: T -> bool, func: T -> T, post: bool): Monitor<T> {
    if pred(m.data) then Use(m, func, post).(awake := m.awake - {thread})
    else m.(awake := m.awake - {thread}, asleep := m.asleep + {thread})
  }

  /** A pending notify_one takes effect; `woken` is a sleeper, if there is one. */
  function Notify<T>(m: Monitor<T>, woken: Option<Thread>): Monitor<T> {
    var n := if m.notifications > 0 then m.notifications - 1 else 0;
    match woken
    case None => m.(notifications := n)
    case Some(thread) => m.(notifications := n, awake := m.awake + {thread}, asleep := m.asleep - {thread})
  }

  predicate CanNotify<T>(m: Monitor<T>, woken: Option<Thread>) {
    m.notifications > 0 && match woken case None => m.asleep == {} case Some(thread) => thread in m.asleep
  }

  /** A thread sleeps although it could run and nobody is about to find out. */
  predicate Lost<T>(m: Monitor<T>, pred: T -> bool) {
    m.asleep != {} && pred(m.data) && m.notifications == 0 && m.awake == {}
  }

  /** Theorem: the body of a waiting thread never loses a wake-up, whatever threads
      there are, if and only if it notifies whenever it leaves the condition true. */
  lemma BodyIsSafeIff<T(!new)>(d: T, thread: Thread, pred: T -> bool, func: T -> T, post: bool)
    requires pred(d)
    ensures (forall m: Monitor<T> :: m.data == d && thread in m.awake && !Lost(m, pred) ==>
        !Lost(Attempt(m, thread, pred, func, post), pred))
      <==> (pred(func(d)) ==> post)
  {
    if pred(func(d)) && !post {
      var m := Monitor(d, {thread}, {thread + 1}, 0);
      assert !Lost(m, pred);
      assert Attempt(m, thread, pred, func, post).awake == {};
      assert Lost(Attempt(m, thread, pred, func, post), pred);
    }
  }

  /** Theorem: a plain critical section never loses a wake-up if and only if it
      notifies whenever it makes the condition true. */
  lemma UseIsSafeIff<T(!new)>(d: T, pred: T -> bool, func: T -> T, post: bool)
    ensures (forall m: Monitor<T> :: m.data == d && !Lost(m, pred) ==> !Lost(Use(m, func, post), pred))
      <==> (!pred(d) && pred(func(d)) ==> post)
  {
    if !pred(d) && pred(func(d)) && !post {
      var m := Monitor(d, {}, {0}, 0);
      assert !Lost(m, pred);
      assert Lost(Use(m, func, post), pred);
    }
  }

  /** A mutex's condition variable, with the threads that wait there and those that are
      about to try for the lock. */
  class Condition {
    var awake: set<Thread>
    var asleep: set<Thread>
    var notifications: nat

    constructor ()
      ensures awake == {} && asleep == {} && notifications == 0
    {
      awake, asleep, notifications := {}, {}, 0;
    }

    /** The thread that got the lock goes on. */
    method Proceed(thread: Thread)
      modifies this`awake
      ensures awake == old(awake) - {thread}
    {
      awake := awake - {thread};
    }

    /** The thread that got the lock releases it and waits. */
    method Sleep(thread: Thread)
      modifies this`awake, this`asleep
      ensures awake == old(awake) - {thread} && asleep == old(asleep) + {thread}
    {
      awake, asleep := awake - {thread}, asleep + {thread};
    }

    /** A thread that left the lock owes a call of notify_one, if `due`. */
    method Post(due: bool)
      modifies this`notifications
      ensures notifications == old(notifications) + if due then 1 else 0
    {
      if due {
        notifications := notifications + 1;
      }
    }

    /** One such call takes effect and wakes a sleeper, if there is one. */
    method NotifyOne() returns (woken: Option<Thread>)
      requires notifications > 0
      modifies this
      ensures notifications == old(notifications) - 1
      ensures match woken
        case None => old(asleep) == {} && awake == old(awake) && asleep == {}
        case Some(thread) =>
          thread in old(asleep) && awake == old(awake) + {thread} && asleep == old(asleep) - {thread}
    {
      notifications := notifications - 1;
      if asleep == {} {
        woken := None;
      } else {
        var thread :| thread in asleep;
        asleep, awake := asleep - {thread}, awake + {thread};
        woken := Some(thread);
      }
    }
  }

  /** The monitor as an object. Acquiring and releasing the lock bracket each method. */
  class AtomicData<T> {
    var data: T
    const condition: Condition

    ghost function State(): Monitor<T>
      reads this, condition
    {
      Monitor(data, condition.awake, condition.asleep, condition.notifications)
    }

    constructor (data: T)
      ensures State() == Monitor(data, {}, {}, 0) && fresh(condition)
    {
      this.data := data;
      condition := new Condition();
    }

    method UseSafely(func: T -> T)
      modifies this
      ensures State() == Use(old(State()), func, false)
      ensures data == func(old(data)) && unchanged(condition)
    {
      data := func(data);
    }

    /** One attempt of a thread inside wait_to_use_safely; `ran` tells whether its body ran. */
    method WaitToUseSafely(thread: Thread, pred: T -> bool, func: T -> T) returns (ran: bool)
      requires thread in condition.awake
      modifies this, condition
      ensures State() == Attempt(old(State()), thread, pred, func, false)
      ensures ran <==> pred(old(data))
      ensures data == if ran then func(old(data)) else old(data)
      ensures condition.awake == old(condition.awake) - {thread}
      ensures condition.asleep == if ran then old(condition.asleep) else old(condition.asleep) + {thread}
    {
      ran := pred(data);
      if ran {
        condition.Proceed(thread);
        data := func(data);
      } else {
        condition.Sleep(thread);
      }
    }

    method NotifyOne() returns (woken: Option<Thread>)
      requires condition.notifications > 0
      modifies condition
      ensures CanNotify(old(State()), woken) && State() == Notify(old(State()), woken)
    {
      woken := condition.NotifyOne();
    }
  }
}
