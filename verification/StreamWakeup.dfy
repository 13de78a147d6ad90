/** Writers that block until the previous batch is processed, and who wakes them
    (stream_rpc_handler.hpp, 185-212, 290, 307-310). */
module StreamWakeup {
  import opened Tags
  import opened Monitors
  import opened StreamRpc

  datatype Step =
    | Enter(thread: Thread)
    | TryCall(thread: Thread, op: Operation, client: Option<Address>, batch: map<Address, Address>)
    | NotifyOne(woken: Option<Thread>)
    | Spurious(thread: Thread)
    | Sync(tag: Address, ok: bool)
    | Activation(conn: Address, tag: Address)

  /** The writers' condition: all previous updates have been processed. */
  predicate Idle(w: World) {
    w.c.processing == {}
  }

  function Next(m: Monitor<World>, s: Step): Monitor<World> {
    match s
    case Enter(thread) => Arrive(m, thread)
    case TryCall(thread, op, client, batch) =>
      Attempt(m, thread, Idle, (w: World) => IssueAll(w, op, client, batch), m.data.c.active == map[])
    case NotifyOne(woken) => Notify(m, woken)
    case Spurious(thread) => m.(awake := m.awake + {thread}, asleep := m.asleep - {thread})
    case Sync(tag, ok) => Use(m, (w: World) => Complete(w, tag, ok), Drains(m.data, tag, ok))
    case Activation(conn, tag) => Use(m, (w: World) => Activate(w, conn, tag), false)
  }

  predicate CanStep(m: Monitor<World>, s: Step) {
    match s
    case Enter(thread) => thread !in m.awake && thread !in m.asleep
    case TryCall(thread, op, client, batch) =>
      thread in m.awake && (Idle(m.data) ==> Enabled(m.data, Issue(op, client, batch)))
    case NotifyOne(woken) => CanNotify(m, woken)
    case Spurious(thread) => thread in m.asleep
    case Sync(tag, ok) => Enabled(m.data, Return(tag, ok))
    case Activation(conn, tag) => Enabled(m.data, Accept(conn, tag))
  }

  const SILENT := Monitor(START, {}, {}, 0)

  function After(ss: seq<Step>): Monitor<World> {
    if ss == [] then SILENT else Next(After(ss[..|ss| - 1]), ss[|ss| - 1])
  }

  predicate Possible(ss: seq<Step>) {
    ss == [] || (Possible(ss[..|ss| - 1]) && CanStep(After(ss[..|ss| - 1]), ss[|ss| - 1]))
  }

  /** What a step does to the handler's world: one event, or none. */
  function Effect(m: Monitor<World>, s: Step): seq<Event> {
    match s
    case TryCall(thread, op, client, batch) => if Idle(m.data) then [Issue(op, client, batch)] else []
    case Sync(tag, ok) => [Return(tag, ok)]
    case Activation(conn, tag) => [Accept(conn, tag)]
    case _ => []
  }

  function Events(ss: seq<Step>): seq<Event> {
    if ss == [] then [] else Events(ss[..|ss| - 1]) + Effect(After(ss[..|ss| - 1]), ss[|ss| - 1])
  }

  /** Theorem: with the threads, their sleeping and waking forgotten, a run of the
      monitor is a run of the handler; so all that holds of the latter holds here. */
  lemma {:induction false} ThreadsRefine(ss: seq<Step>)
    requires Possible(ss)
    ensures ValidRun(Events(ss)) && Run(Events(ss)) == After(ss).data
  {
    if ss == [] {
    } else {
      var past, s := ss[..|ss| - 1], ss[|ss| - 1];
      ThreadsRefine(past);
      StepRefines(After(past), s);
      var effect := Effect(After(past), s);
      if effect == [] {
        assert Events(ss) == Events(past);
      } else {
        Extend(Events(past), effect[0]);
      }
    }
  }

  /** A step of the monitor is one event of the handler, or leaves its world alone. */
  lemma StepRefines(m: Monitor<World>, s: Step)
    requires CanStep(m, s)
    ensures Effect(m, s) == [] ==> Next(m, s).data == m.data
    ensures Effect(m, s) != [] ==>
      var e := Effect(m, s)[0];
      Effect(m, s) == [e] && Enabled(m.data, e) && Apply(m.data, e) == Next(m, s).data
  {
  }

  /* -------------------------------------------- what each step does, in a run */

  predicate Apart(m: Monitor<World>) { m.awake !! m.asleep }

  lemma {:induction false} AlwaysApart(ss: seq<Step>)
    requires Possible(ss)
    ensures Apart(After(ss))
  {
    if ss == [] {
    } else {
      AlwaysApart(ss[..|ss| - 1]);
      StepKeepsApart(After(ss[..|ss| - 1]), ss[|ss| - 1]);
    }
  }

  lemma StepKeepsApart(m: Monitor<World>, s: Step)
    requires Apart(m) && CanStep(m, s)
    ensures Apart(Next(m, s))
  {
  }

  /** Theorem: a thread waits inside write or finish from the moment it calls to the one
      at which its body runs. It sleeps after an attempt that found a batch in progress,
      until it is notified or wakes up spuriously. */
  lemma {:induction false} WritersComeAndGo(ss: seq<Step>, s: Step, thread: Thread)
    requires Possible(ss + [s])
    ensures var m, n := After(ss), After(ss + [s]);
      && !(thread in n.awake && thread in n.asleep)
      && (thread in n.awake || thread in n.asleep <==>
            || s == Enter(thread)
            || ((thread in m.awake || thread in m.asleep)
                && !(s.TryCall? && s.thread == thread && m.data.c.processing == {})))
      && (thread in n.asleep <==>
            || (s.TryCall? && s.thread == thread && m.data.c.processing != {})
            || (thread in m.asleep && s != Spurious(thread) && s != NotifyOne(Some(thread))))
  {
    OneMore(ss, s);
    AlwaysApart(ss);
    StepKeepsApart(After(ss), s);
  }

  /** The step owes a notification: the last operation came back, or a body ran while
      nobody was active. */
  predicate Owes(w: World, s: Step) {
    match s
    case Sync(tag, _) => tag in w.c.tags && w.c.tags[tag].kind == Writing && w.c.processing == {w.c.tags[tag].data}
    case TryCall(_, _, _, _) => w.c.processing == {} && w.c.active == map[]
    case _ => false
  }

  /** Theorem: notifications are owed by these steps and no others, and each is used once. */
  lemma {:induction false} NotificationsAreCounted(ss: seq<Step>, s: Step)
    requires Possible(ss + [s])
    ensures After(ss + [s]).notifications ==
      if s.NotifyOne? then After(ss).notifications - 1
      else After(ss).notifications + if Owes(After(ss).data, s) then 1 else 0
  {
    OneMore(ss, s);
    if s.Sync? {
      ThreadsRefine(ss);
      Extend(Events(ss), Return(s.tag, s.ok));
      DrainsIffLast(Events(ss), s.tag, s.ok);
    }
  }

  function Syncs(returned: seq<(Address, bool)>): seq<Step> {
    seq(|returned|, i requires 0 <= i < |returned| => Sync(returned[i].0, returned[i].1))
  }

  /** Theorem: a stretch of returns wakes as many writers as it owes notifications. */
  lemma {:induction false} WakeupsAreNotifications(ss: seq<Step>, returned: seq<(Address, bool)>)
    ensures After(ss + Syncs(returned)).data == CompleteAll(After(ss).data, returned)
    ensures After(ss + Syncs(returned)).notifications == After(ss).notifications + Wakeups(After(ss).data, returned)
  {
    if returned == [] {
      assert ss + Syncs(returned) == ss;
    } else {
      var n := |returned| - 1;
      var past, last := returned[..n], returned[n];
      WakeupsAreNotifications(ss, past);
      assert ss + Syncs(returned) == ss + Syncs(past) + [Sync(last.0, last.1)];
      OneMore(ss + Syncs(past), Sync(last.0, last.1));
      SyncDoes(After(ss + Syncs(past)), last.0, last.1);
    }
  }

  lemma SyncDoes(m: Monitor<World>, tag: Address, ok: bool)
    ensures var n := Next(m, Sync(tag, ok));
      && n.data == Complete(m.data, tag, ok)
      && n.notifications == m.notifications + if Drains(m.data, tag, ok) then 1 else 0
  {
  }

  /** The call reaches somebody, or there is nobody to reach. */
  predicate Reaches(active: map<Address, nat>, client: Option<Address>) {
    client.Some? && client.value !in active ==> active == map[]
  }

  /** Theorem: a write or finish body can never lose a wake-up, whatever the other
      threads do, if and only if it is a broadcast, or its client is active, or
      nobody is. */
  lemma CallIsSafeIff(w: World, thread: Thread, op: Operation, client: Option<Address>, batch: map<Address, Address>)
    requires Idle(w)
    ensures (forall m: Monitor<World> :: m.data == w && thread in m.awake && !Lost(m, Idle) ==>
               !Lost(Next(m, TryCall(thread, op, client, batch)), Idle))
      <==> Reaches(w.c.active, client)
  {
    var func := (v: World) => IssueAll(v, op, client, batch);
    BodyIsSafeIff(w, thread, Idle, func, w.c.active == map[]);
    assert Idle(func(w)) <==> Targets(w.c.active, client) == {};
    assert w.c.active.Keys == {} <==> w.c.active == map[];
    forall m: Monitor<World> | m.data == w
      ensures Next(m, TryCall(thread, op, client, batch)) == Attempt(m, thread, Idle, func, w.c.active == map[])
    {
    }
  }

  /** Every body that ran so far reached somebody or had nobody to reach. */
  predicate AllReach(ss: seq<Step>) {
    ss == [] ||
    (AllReach(ss[..|ss| - 1]) &&
     (ss[|ss| - 1].TryCall? && Idle(After(ss[..|ss| - 1]).data) ==>
         Reaches(After(ss[..|ss| - 1]).data.c.active, ss[|ss| - 1].client)))
  }

  /** Theorem: in no interleaving of any number of writers with the accept and
      synchronisation threads is a wake-up lost. gRPC may return anything. */
  lemma {:induction false} NoLostWakeup(ss: seq<Step>)
    requires Possible(ss) && AllReach(ss)
    ensures !Lost(After(ss), Idle)
  {
    if ss == [] {
    } else {
      var past, s := ss[..|ss| - 1], ss[|ss| - 1];
      NoLostWakeup(past);
      var m := After(past);
      match s
      case TryCall(thread, op, client, batch) =>
        if Idle(m.data) { CallIsSafeIff(m.data, thread, op, client, batch); }
      case Sync(tag, ok) => ThreadsRefine(past); AlwaysConsistent(Events(past));
      case _ =>
    }
  }

  /** Theorem: when no operation is in flight, nobody owes a notification and no
      writer is awake, no writer is asleep either. */
  lemma QuiescentMeansNobodyBlocked(ss: seq<Step>)
    requires Possible(ss) && AllReach(ss)
    requires After(ss).notifications == 0 && After(ss).awake == {}
    requires forall t :: t in After(ss).data.outstanding && t in After(ss).data.c.tags ==>
        After(ss).data.c.tags[t].kind == Done
    ensures After(ss).asleep == {}
  {
    NoLostWakeup(ss);
    ThreadsRefine(ss);
    AlwaysConsistent(Events(ss));
    var w := After(ss).data;
    forall a: Address ensures a !in w.c.processing {
      assert !Named(w.c.tags, Tag(a, Writing));
    }
  }

  lemma OneMore(ss: seq<Step>, s: Step)
    ensures After(ss + [s]) == Next(After(ss), s)
    ensures Possible(ss + [s]) <==> Possible(ss) && CanStep(After(ss), s)
  {
    assert (ss + [s])[..|ss|] == ss;
  }

  /** One connection is active and three writers come; the first broadcasts. */
  lemma OneWrote() returns (ss: seq<Step>)
    ensures Possible(ss) && After(ss).awake == {2, 3} && After(ss).asleep == {} && After(ss).notifications == 0
    ensures After(ss).data.outstanding == {10, 11, 12} && After(ss).data.c == BUSY
  {
    ss := OneActive();
    OneMore(ss, Enter(1)); ss := ss + [Enter(1)];
    OneMore(ss, Enter(2)); ss := ss + [Enter(2)];
    OneMore(ss, Enter(3)); ss := ss + [Enter(3)];
    var batch: map<Address, Address> := map[12 := 1];
    BroadcastToOne(After(ss).data, Write(7), batch);
    OneMore(ss, TryCall(1, Write(7), None, batch));
    ss := ss + [TryCall(1, Write(7), None, batch)];
  }

  /** The other two fall asleep behind it. */
  lemma TwoAsleep() returns (ss: seq<Step>)
    ensures Possible(ss) && After(ss).awake == {} && After(ss).asleep == {2, 3} && After(ss).notifications == 0
    ensures After(ss).data.outstanding == {10, 11, 12} && After(ss).data.c == BUSY
  {
    ss := OneWrote();
    OneMore(ss, TryCall(2, Write(8), Some(5), map[])); ss := ss + [TryCall(2, Write(8), Some(5), map[])];
    OneMore(ss, TryCall(3, Write(9), None, map[])); ss := ss + [TryCall(3, Write(9), None, map[])];
  }

  lemma OneActive() returns (ss: seq<Step>)
    ensures Possible(ss) && After(ss).awake == {} && After(ss).asleep == {} && After(ss).notifications == 0
    ensures After(ss).data.outstanding == {10, 11} && After(ss).data.c == LIVE
  {
    ss := [Activation(1, 10)];
    assert ss == [] + [Activation(1, 10)];
    OneMore([], Activation(1, 10));
    OneMore(ss, Activation(2, 11));
    ss := ss + [Activation(2, 11)];
  }

  /** The condition of `NoLostWakeup` is needed: a run whose last step, a write to a
      client that has left while another is active, swallows the notification meant
      for the next writer. */
  lemma AbsentClientLosesWakeup() returns (ss: seq<Step>, s: Step)
    ensures Possible(ss + [s]) && s.TryCall? && s.client.Some? && s.client.value !in After(ss).data.c.active
    ensures After(ss).data.c.active != map[]
    ensures !Lost(After(ss), Idle) && Lost(After(ss + [s]), Idle)
  {
    ss := TwoAsleep();
    OneMore(ss, Sync(12, true)); ss := ss + [Sync(12, true)];
    OneMore(ss, NotifyOne(Some(2))); ss := ss + [NotifyOne(Some(2))];
    var batch: map<Address, Address> := map[];
    assert batch.Values == Targets(map[1 := 0], Some(5));
    s := TryCall(2, Write(8), Some(5), batch);
    OneMore(ss, s);
    assert 2 in After(ss).awake && 3 in After(ss).asleep;
    assert After(ss).data.c == LIVE.(tags := After(ss).data.c.tags);
  }

  lemma StepStaysLost(m: Monitor<World>, s: Step)
    requires Consistent(m.data) && Lost(m, Idle) && CanStep(m, s) && !s.Enter? && !s.Spurious?
    ensures Lost(Next(m, s), Idle) && Next(m, s).asleep == m.asleep
  {
  }

  /** Theorem: a lost wake-up is not made good by gRPC or by new connections. Until
      another thread calls write or finish, or a spurious wake-up comes, every
      sleeping writer sleeps on. */
  lemma {:induction false} LostUntilNextCall(ss: seq<Step>, rest: seq<Step>)
    requires Possible(ss + rest) && Lost(After(ss), Idle)
    requires forall k :: 0 <= k < |rest| ==> !rest[k].Enter? && !rest[k].Spurious?
    ensures Lost(After(ss + rest), Idle) && After(ss + rest).asleep == After(ss).asleep
  {
    if rest == [] {
      assert ss + rest == ss;
    } else {
      var n := |rest| - 1;
      var past := ss + rest[..n];
      assert (ss + rest)[..|ss + rest| - 1] == past;
      LostUntilNextCall(ss, rest[..n]);
      ThreadsRefine(past);
      AlwaysConsistent(Events(past));
      StepStaysLost(After(past), rest[n]);
    }
  }
}
