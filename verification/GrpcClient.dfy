/** The client object and the stream objects it owns, proved against `Clients`. */
module GrpcClients {
  import opened Tags
  import opened Clients
  import Streams = ClientStreams

  /** `data.streams`: the registered streams under their addresses. */
  class StreamMap {
    var streams: map<nat, Streams.GrpcClientStream>
    ghost var flags: map<nat, bool>  // what each stream's streaming() reports

    ghost predicate Valid()
      reads this, streams.Values
    {
      && flags.Keys == streams.Keys
      && (forall k :: k in streams ==> Streams.InStep(streams[k].State()) && streams[k].context == flags[k])
      && (forall j, k :: j in streams && k in streams && j != k ==> streams[j] != streams[k])
    }

    ghost function States(): map<nat, Streams.Stream>
      reads this`streams, streams.Values
    {
      map k | k in streams :: streams[k].State()
    }

    constructor ()
      ensures Valid() && streams == map[] && flags == map[]
    {
      streams, flags := map[], map[];
    }

    /** How far a loop over the streams has come from the states in `was`: those in
        `todo` are still to be started or stopped. `ends(k)` is how stream k ends. */
    ghost predicate Midway(was: map<nat, Streams.Stream>, todo: set<nat>, on: bool, ends: nat -> Streams.Ending)
      reads this`streams, streams.Values
    {
      && todo <= streams.Keys == was.Keys
      && (forall k :: k in streams ==> Streams.InStep(streams[k].State()))
      && (forall k :: k in todo ==> streams[k].State() == was[k])
      && (forall k :: k in streams && k !in todo ==> streams[k].State() == Streams.Switched(was[k], on, ends(k)))
      && (forall j, k :: j in streams && k in streams && j != k ==> streams[j] != streams[k])
    }

    /** The loop that stops every registered stream, or starts it; a running one is then
        left alone. */
    method SwitchEach(on: bool, ends: nat -> Streams.Ending)
      requires Valid()
      modifies streams.Values
      ensures Midway(old(States()), {}, on, ends)
    {
      ghost var was := States();
      var todo := streams.Keys;
      AtTheStart(on, ends);
      while todo != {}
        invariant Midway(was, todo, on, ends)
        decreases |todo|
      {
        var k :| k in todo;
        SwitchOne(k, was, todo, on, ends);
        todo := todo - {k};
      }
    }

    lemma AtTheStart(on: bool, ends: nat -> Streams.Ending)
      requires Valid()
      ensures Midway(States(), streams.Keys, on, ends)
    {
    }

    method SwitchOne(k: nat, ghost was: map<nat, Streams.Stream>, ghost todo: set<nat>, on: bool,
                     ends: nat -> Streams.Ending)
      requires Midway(was, todo, on, ends) && k in todo
      modifies streams[k]
      ensures Midway(was, todo - {k}, on, ends)
    {
      if on {
        Streams.StepKeepsRounds(streams[k].State(), Streams.Start);
        streams[k].Start();
      } else {
        streams[k].Stop(ends(k).rest, ends(k).status);
      }
    }

    lemma SwitchedContext(s: Streams.Stream, on: bool, end: Streams.Ending)
      ensures Streams.Switched(s, on, end).context == on
    {
    }

    method SwitchAll(on: bool, ends: nat -> Streams.Ending)
      requires Valid()
      modifies this`flags, streams.Values
      ensures Valid() && flags == AllStreams(old(flags), on)
      ensures Midway(old(States()), {}, on, ends)
    {
      ghost var was := States();
      SwitchEach(on, ends);
      NoteFlags(on, was, ends);
    }

    /** What streaming() reports now that the loop is over. */
    ghost method NoteFlags(on: bool, was: map<nat, Streams.Stream>, ends: nat -> Streams.Ending)
      requires Midway(was, {}, on, ends) && flags.Keys == streams.Keys
      modifies this`flags
      ensures Valid() && flags == AllStreams(old(flags), on)
    {
      forall k | k in streams ensures streams[k].context == on { SwitchedContext(was[k], on, ends(k)); }
      SameKeys(flags, on);
      flags := AllStreams(flags, on);
    }

    lemma SameKeys(m: map<nat, bool>, on: bool)
      ensures AllStreams(m, on).Keys == m.Keys
    {
    }

    /** A new stream, started at once if `on`. */
    method Add(key: nat, on: bool) returns (stream: Streams.GrpcClientStream)
      requires Valid() && key !in streams
      modifies this
      ensures fresh(stream) && streams == old(streams)[key := stream] && flags == old(flags)[key := on]
      ensures Valid() && stream.State() == if on then Streams.StartStream(Streams.FRESH) else Streams.FRESH
    {
      stream := NewStream(on);
      streams, flags := streams[key := stream], flags[key := on];
    }

    method NewStream(on: bool) returns (stream: Streams.GrpcClientStream)
      ensures fresh(stream) && Streams.InStep(stream.State()) && stream.context == on
      ensures stream.State() == if on then Streams.StartStream(Streams.FRESH) else Streams.FRESH
    {
      stream := new Streams.GrpcClientStream();
      if on {
        Streams.StepKeepsRounds(stream.State(), Streams.Start);
        stream.Start();
      }
    }
  }

  class GrpcClient {
    var connectionState: Connectivity
    var channel: bool
    const streams: StreamMap
    var usingInProcessServer: bool
    var queue: Queue
    var armed: nat
    var runThread: RunThread
    var control: Control
    var reports: seq<Report>
    ghost var armedTooLate: bool
    ghost var lagging: bool

    ghost predicate Valid()
      reads streams, streams.streams.Values
    {
      streams.Valid()
    }

    ghost function State(): Client
      reads this, streams`flags
    {
      Client(connectionState, channel, streams.flags, usingInProcessServer,
             queue, armed, runThread, control, reports, armedTooLate, lagging)
    }

    constructor ()
      ensures Valid() && State() == NEW && fresh(streams) && streams.streams == map[]
    {
      connectionState, channel, usingInProcessServer, queue := Idle, false, false, NoQueue;
      armed, runThread, control, reports, armedTooLate, lagging := 0, NoThread, Free, [], false, false;
      streams := new StreamMap();
    }

    /** First critical section of kill_streams_and_channel. */
    method DropChannel(goal: Goal, ends: nat -> Streams.Ending)
      requires Valid() && control == Free
      modifies this`channel, this`control, streams`flags, streams.streams.Values
      ensures Valid() && State() == Next(old(State()), Disconnect(goal))
    {
      streams.SwitchAll(false, ends);
      LetGo(goal);
    }

    method LetGo(goal: Goal)
      requires Valid()
      modifies this`channel, this`control
      ensures Valid() && State() == old(State()).(channel := false, control := Closing(goal))
    {
      channel, control := false, Closing(goal);
    }

    method ShutdownQueue()
      requires control.Closing?
      modifies this`queue, this`control
      ensures State() == Next(old(State()), CloseQueue)
    {
      if queue != NoQueue {
        queue := Closed;
      }
      control := Joining(control.goal);
    }

    method NotifyOnStateChange()
      modifies this`armed, this`armedTooLate
      ensures armed == old(armed) + 1 && armedTooLate == (old(armedTooLate) || queue != Open)
    {
      armed := armed + 1;
      armedTooLate := armedTooLate || queue != Open;
    }

    /** change_server(address), from the new queue to the end of the critical section. */
    method ConnectToAddress(found: Connectivity)
      requires control == Opening
      modifies this`usingInProcessServer, this`queue, this`channel, this`control, this`connectionState
      modifies this`lagging, this`armed, this`armedTooLate
      ensures State() == Next(old(State()), Connect(found))
    {
      OpenChannel(found);
      NotifyOnStateChange();
    }

    method OpenChannel(found: Connectivity)
      modifies this`usingInProcessServer, this`queue, this`channel, this`control, this`connectionState, this`lagging
      ensures State() == Opened(old(State()), found)
    {
      usingInProcessServer, queue, channel := false, Open, true;
      control := Announcing(if ToClientState(found) != ToClientState(connectionState) then Some(ToClientState(found))
          else None);
      connectionState := found;
      lagging := found == Ready && streams.flags != map[];
    }

    /** change_server(channel), after the previous session was killed. */
    method AttachInProcess()
      requires control == Attaching
      modifies this`usingInProcessServer, this`channel, this`reports, this`connectionState, this`control, this`lagging
      ensures State() == Next(old(State()), Attach)
    {
      usingInProcessServer, channel := true, true;
      if ToClientState(connectionState) != Connected {
        reports := reports + [Silent(Connected)];
      }
      connectionState := Ready;
      control, lagging := Free, false;
    }

    method RegisterStream(key: nat) returns (stream: Streams.GrpcClientStream)
      requires Valid() && key !in streams.streams
      modifies streams
      ensures fresh(stream) && streams.streams == old(streams.streams)[key := stream]
      ensures Valid() && State() == Next(old(State()), Register(key))
    {
      stream := streams.Add(key, channel && connectionState == Ready);
    }

    /** The critical section of the run loop, for an event it holds. */
    method HandleChange(now: Connectivity, ends: nat -> Streams.Ending)
      requires Valid() && runThread.Holding?
      modifies this`connectionState, this`armed, this`armedTooLate, this`runThread, this`lagging,
          streams`flags, streams.streams.Values
      ensures Valid() && State() == Next(old(State()), Handle(now))
    {
      if channel {
        FollowChannel(now, ends);
      } else {
        NoteShutdown();
      }
    }

    /** The channel is held: look at it if the event was a success, and rearm. */
    method FollowChannel(now: Connectivity, ends: nat -> Streams.Ending)
      requires Valid() && channel && runThread.Holding?
      modifies this`connectionState, this`armed, this`armedTooLate, this`runThread, this`lagging,
          streams`flags, streams.streams.Values
      ensures Valid() && State() == HandleEvent(old(State()), old(runThread).ok, now)
    {
      var change := None;
      if runThread.ok {
        change := Observe(now, ends);
      }
      Rearm(change);
    }

    /** The channel is gone: move to the shutdown state if that was not done yet. */
    method NoteShutdown()
      requires Valid() && !channel && runThread.Holding?
      modifies this`connectionState, this`runThread
      ensures Valid() && State() == HandleEvent(old(State()), old(runThread).ok, Idle)
    {
      var change := None;
      if ToClientState(connectionState) != NotConnected {
        connectionState := Shutdown;
        change := Some(NotConnected);
      }
      runThread := Reporting(change);
    }

    /** Ask for the next notification and leave the critical section. */
    method Rearm(change: Option<ClientState>)
      requires Valid()
      modifies this`armed, this`armedTooLate, this`runThread
      ensures Valid() && State() == Arm(old(State())).(thread := Reporting(change))
    {
      NotifyOnStateChange();
      runThread := Reporting(change);
    }

    /** Its innermost part: look at the channel, and start or stop the streams. */
    method Observe(now: Connectivity, ends: nat -> Streams.Ending) returns (change: Option<ClientState>)
      requires Valid()
      modifies this`connectionState, this`lagging, streams`flags, streams.streams.Values
      ensures Valid() && change == ChangeTo(old(State()), now)
      ensures State() == if change == None then old(State()).(state := now)
        else old(State()).(state := now, streams := AllStreams(old(streams.flags), now == Ready), lagging := false)
    {
      change := None;
      if ToClientState(now) != ToClientState(connectionState) {
        change := Some(ToClientState(now));
        CatchUp(now == Ready, ends);
      }
      Note(now);
    }

    method Note(now: Connectivity)
      requires Valid()
      modifies this`connectionState
      ensures Valid() && State() == old(State()).(state := now)
    {
      connectionState := now;
    }

    /** All streams follow the channel again. */
    method CatchUp(on: bool, ends: nat -> Streams.Ending)
      requires Valid()
      modifies this`lagging, streams`flags, streams.streams.Values
      ensures Valid() && State() == old(State()).(streams := AllStreams(old(streams.flags), on), lagging := false)
    {
      streams.SwitchAll(on, ends);
      NoLag();
    }

    ghost method NoLag()
      requires Valid()
      modifies this`lagging
      ensures Valid() && State() == old(State()).(lagging := false)
    {
      lagging := false;
    }

    /** The rest of the run loop: take an event or leave, and make the callback. */
    method Poll(ok: bool)
      requires runThread == Polling && (armed > 0 || queue == Closed)
      modifies this`armed, this`runThread
      ensures State() == Next(old(State()), if old(armed) > 0 then Take(ok) else LeaveLoop)
    {
      if armed > 0 {
        armed, runThread := armed - 1, Holding(ok);
      } else {
        runThread := Exited;
      }
    }

    method CallBack()
      requires runThread.Reporting?
      modifies this`reports, this`runThread
      ensures State() == Next(old(State()), Deliver)
    {
      if runThread.change.Some? {
        reports := reports + [Told(runThread.change.value)];
      }
      runThread := Polling;
    }

    /** What holds in every state the client can reach: where the threads are, and that
        the user was told the truth. */
    ghost predicate InOrder()
      reads this, streams`flags
    {
      Protocol(State()) && Truthful(State())
    }

    lemma StepKeepsOrder(c: Client, s: Step)
      requires Protocol(c) && Truthful(c) && CanStep(c, s)
      ensures Protocol(Next(c, s)) && Truthful(Next(c, s))
    {
      StepKeepsProtocol(c, s);
      StepKeepsTruth(c, s);
    }

    /** What was registered stays registered, and what is new did not exist before. */
    twostate predicate OnlyMore()
      reads streams
    {
      && (forall k :: k in old(streams.streams) ==>
        k in streams.streams && streams.streams[k] == old(streams.streams)[k])
      && fresh(streams.streams.Values - old(streams.streams.Values))
    }

    /** Any number of other threads call register_stream while the client is being killed. */
    method OthersRegister()
      requires Valid() && InOrder() && !channel && NoneStreams()
      modifies streams
      ensures Valid() && InOrder() && NoneStreams() && OnlyMore()
    {
      var calls: int := *;
      while calls > 0
        invariant Valid() && InOrder() && NoneStreams() && OnlyMore()
        decreases calls
      {
        OneRegisters();
        calls := calls - 1;
      }
    }

    method OneRegisters()
      requires Valid() && InOrder() && !channel && NoneStreams()
      modifies streams
      ensures Valid() && InOrder() && NoneStreams() && OnlyMore()
    {
      var key: nat :| true;
      if key !in streams.streams {
        StepKeepsOrder(State(), Register(key));
        var stream := RegisterStream(key);
      }
    }

    ghost predicate NoneStreams()
      reads streams`flags
    {
      forall k :: k in streams.flags ==> !streams.flags[k]
    }

    /** kill_streams_and_channel from call to return. Other threads register streams
        whenever the lock is free, and gRPC answers as it likes. */
    method KillStreamsAndChannel(ends: nat -> Streams.Ending)
      requires Valid() && InOrder() && control == Free
      modifies this, streams, streams.streams.Values
      ensures Valid() && InOrder() && NoneStreams() && OnlyMore()
      ensures control == Free && !channel && runThread == NoThread && armed == 0
      ensures ToClientState(connectionState) == NotConnected <==> !usingInProcessServer
      ensures LastReported(reports) == ToClientState(connectionState)
    {
      BeginKill(ends);
      EndKill(ends);
    }

    method EndKill(ends: nat -> Streams.Ending)
      requires Valid() && InOrder() && control == Joining(JustKill) && NoneStreams()
      modifies this, streams, streams.streams.Values
      ensures Valid() && InOrder() && NoneStreams() && OnlyMore()
      ensures control == Free && !channel && runThread == NoThread && armed == 0
      ensures ToClientState(connectionState) == NotConnected <==> !usingInProcessServer
    {
      Drain(ends);
      JoinThread();
    }

    method BeginKill(ends: nat -> Streams.Ending)
      requires Valid() && InOrder() && control == Free
      modifies this`channel, this`queue, this`control, streams, streams.streams.Values
      ensures Valid() && InOrder() && control == Joining(JustKill)
      ensures NoneStreams() && OnlyMore()
    {
      BeginDrop(ends);
      BeginShutdown();
    }

    method BeginDrop(ends: nat -> Streams.Ending)
      requires Valid() && InOrder() && control == Free
      modifies this`channel, this`control, streams`flags, streams.streams.Values
      ensures Valid() && InOrder() && control == Closing(JustKill) && !channel && NoneStreams()
    {
      StepKeepsOrder(State(), Disconnect(JustKill));
      DropChannel(JustKill, ends);
    }

    method BeginShutdown()
      requires Valid() && InOrder() && control == Closing(JustKill) && NoneStreams()
      modifies this`queue, this`control, streams
      ensures Valid() && InOrder() && control == Joining(JustKill) && NoneStreams() && OnlyMore()
    {
      OthersRegister();
      StepKeepsOrder(State(), CloseQueue);
      ShutdownQueue();
    }

    /** The join itself, once the run thread has left its loop. */
    method JoinThread()
      requires Valid() && InOrder() && control == Joining(JustKill) && Rank(State()) == 0
      modifies this`runThread, this`control
      ensures Valid() && InOrder() && State() == Next(old(State()), Join)
      ensures control == Free && !channel && runThread == NoThread && armed == 0
      ensures ToClientState(connectionState) == NotConnected <==> !usingInProcessServer
    {
      StepKeepsOrder(State(), Join);
      runThread, control := NoThread, Free;
    }

    /** Waiting for the run thread: its loop goes on until `Next` returns false. */
    method Drain(ends: nat -> Streams.Ending)
      requires Valid() && InOrder() && control.Joining? && NoneStreams()
      modifies this, streams, streams.streams.Values
      ensures Valid() && InOrder() && Rank(State()) == 0 && NoneStreams() && OnlyMore()
      ensures control == old(control)
    {
      while runThread != NoThread && runThread != Exited
        invariant Valid() && InOrder() && NoneStreams() && OnlyMore()
        invariant control == old(control)
        decreases Rank(State())
      {
        Round(ends);
      }
    }

    /** The run thread takes a step, and others register streams. */
    method Round(ends: nat -> Streams.Ending)
      requires Valid() && InOrder() && control.Joining? && Alive(runThread) && NoneStreams()
      modifies this, streams, streams.streams.Values
      ensures Valid() && InOrder() && Rank(State()) < Rank(old(State())) && NoneStreams() && OnlyMore()
      ensures control == old(control)
    {
      RunThreadStep(ends);
      OthersRegister();
    }

    /** One step of the run thread while the controlling thread joins it. */
    method RunThreadStep(ends: nat -> Streams.Ending)
      requires Valid() && InOrder() && control.Joining? && Alive(runThread) && NoneStreams()
      modifies this`connectionState, this`channel, this`queue, this`armed, this`armedTooLate, this`runThread
      modifies this`control, this`reports, this`lagging, streams`flags, streams.streams.Values
      ensures Valid() && InOrder() && Rank(State()) < Rank(old(State())) && NoneStreams()
      ensures control == old(control)
    {
      ghost var before := State();
      ghost var step := RunThreadActs(ends);
      StepKeepsOrder(before, step);
      DrainStep(before, step);
      DrainLeavesStreams(before, step);
    }

    lemma DrainLeavesStreams(c: Client, s: Step)
      requires Protocol(c) && c.control.Joining? && ByRunThread(s) && CanStep(c, s)
      ensures Next(c, s).streams == c.streams
    {
    }

    /** Whatever the run thread does next, with any answer from gRPC. */
    method RunThreadActs(ends: nat -> Streams.Ending) returns (ghost step: Step)
      requires Valid() && Alive(runThread) && (runThread == Polling ==> armed > 0 || queue == Closed)
      modifies this`connectionState, this`armed, this`armedTooLate, this`runThread
      modifies this`reports, this`lagging, streams`flags, streams.streams.Values
      ensures Valid() && ByRunThread(step) && CanStep(old(State()), step) && State() == Next(old(State()), step)
    {
      if runThread.Holding? {
        var now: Connectivity := *;
        step := Handle(now);
        HandleChange(now, ends);
      } else if runThread.Reporting? {
        step := Deliver;
        CallBack();
      } else {
        var ok: bool := *;
        step := if armed > 0 then Take(ok) else LeaveLoop;
        Poll(ok);
      }
    }
  }
}
