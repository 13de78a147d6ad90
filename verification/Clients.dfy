/** The client's connection state machine (grpc_client.hpp).

  One controlling thread calls change_server and kill_streams_and_channel, one run
  thread polls the completion queue, and any thread may register streams. Every
  critical section is one step; so is everything between two of them. Streams are
  reduced to what `streaming()` reports; ClientStreams.dfy says what happens inside.
 */
module Clients {
  import opened Tags

  datatype Connectivity = Idle | Connecting | Ready | TransientFailure | Shutdown

  datatype ClientState = NotConnected | AttemptingToConnect | Connected

  function ToClientState(c: Connectivity): ClientState {
    match c
    case Shutdown => NotConnected
    case Idle => NotConnected
    case Connecting => AttemptingToConnect
    case TransientFailure => AttemptingToConnect
    case Ready => Connected
  }

  /** The mapping, read backwards. */
  lemma StatesAreMapped(c: Connectivity)
    ensures ToClientState(c) == Connected <==> c == Ready
    ensures ToClientState(c) == NotConnected <==> c == Idle || c == Shutdown
  {
  }

  datatype Queue = NoQueue | Open | Closed

  /** The run thread: none (or joined), in `Next`, holding an event it has taken,
      past its critical section with a callback to make or not, or returned. */
  datatype RunThread = NoThread | Polling | Holding(ok: bool) | Reporting(change: Option<ClientState>) | Exited

  /** Why the controlling thread is disconnecting. */
  datatype Goal = JustKill | ToAddress | ToInProcess

  datatype Control =
    | Free
    | Closing(goal: Goal)      // streams stopped, channel dropped; Shutdown comes next
    | Joining(goal: Goal)      // waits for the run thread
    | Opening                  // about to create the new channel
    | Attaching                // about to adopt the in-process channel
    | Announcing(news: Option<ClientState>)
    | Launching

  /** A change of the client's state: a callback, or the silent one at line 241. */
  datatype Report = Told(state: ClientState) | Silent(state: ClientState)

  datatype Client = Client(
    state: Connectivity,
    channel: bool,
    streams: map<nat, bool>,   // registered streams, and whether each is streaming
    inProcess: bool,
    queue: Queue,
    armed: nat,                // notifications asked for and not yet taken from the queue
    thread: RunThread,
    control: Control,
    reports: seq<Report>,
    armedTooLate: bool,        // a notification was asked for on a queue that was not open
    lagging: bool)             // the channel was ready at once while streams were registered

  const NEW := Client(Idle, false, map[], false, NoQueue, 0, NoThread, Free, [], false, false)

  datatype Step =
    | Disconnect(goal: Goal)
    | CloseQueue
    | Join
    | Connect(found: Connectivity)
    | Announce
    | Launch
    | Attach
    | Register(stream: nat)
    | Take(ok: bool)
    | Handle(now: Connectivity)
    | Deliver
    | LeaveLoop

  function AllStreams(streams: map<nat, bool>, on: bool): map<nat, bool> {
    map k | k in streams :: on
  }

  /** NotifyOnStateChange. */
  function Arm(c: Client): Client {
    c.(armed := c.armed + 1, armedTooLate := c.armedTooLate || c.queue != Open)
  }

  function ChangeTo(c: Client, now: Connectivity): Option<ClientState> {
    if ToClientState(now) != ToClientState(c.state) then Some(ToClientState(now)) else None
  }

  /** The critical section of change_server(address). */
  function ConnectTo(c: Client, found: Connectivity): Client {
    Arm(Opened(c, found))
  }

  function Opened(c: Client, found: Connectivity): Client {
    c.(inProcess := false, queue := Open, channel := true, state := found,
       control := Announcing(ChangeTo(c, found)), lagging := found == Ready && c.streams != map[])
  }

  /** The critical section of change_server(channel). */
  function AttachTo(c: Client): Client {
    c.(inProcess := true, channel := true, state := Ready, control := Free, lagging := false,
       reports := if ToClientState(c.state) != Connected then c.reports + [Silent(Connected)] else c.reports)
  }

  /** The critical section of the run loop. */
  function HandleEvent(c: Client, ok: bool, now: Connectivity): Client {
    if c.channel then
      if !ok then Arm(c.(thread := Reporting(None)))
      else if ChangeTo(c, now) == None then Arm(c.(state := now, thread := Reporting(None)))
      else Arm(c.(state := now, thread := Reporting(ChangeTo(c, now)),
                  streams := AllStreams(c.streams, now == Ready), lagging := false))
    else if ToClientState(c.state) != NotConnected then c.(state := Shutdown, thread := Reporting(Some(NotConnected)))
    else c.(thread := Reporting(None))
  }

  function Tell(reports: seq<Report>, change: Option<ClientState>): seq<Report> {
    if change.Some? then reports + [Told(change.value)] else reports
  }

  /** Where the controlling thread goes on after the join. */
  function Afterwards(goal: Goal): Control {
    match goal case JustKill => Free case ToAddress => Opening case ToInProcess => Attaching
  }

  function Next(c: Client, s: Step): Client {
    match s
    case Disconnect(goal) => c.(streams := AllStreams(c.streams, false), channel := false, control := Closing(goal))
    case CloseQueue =>
      if c.control.Closing?
      then c.(queue := if c.queue == NoQueue then NoQueue else Closed, control := Joining(c.control.goal))
      else c
    case Join =>
      if c.control.Joining? then c.(thread := NoThread, control := Afterwards(c.control.goal)) else c
    case Connect(found) => ConnectTo(c, found)
    case Announce =>
      if c.control.Announcing? then c.(reports := Tell(c.reports, c.control.news), control := Launching) else c
    case Launch => c.(thread := Polling, control := Free)
    case Attach => AttachTo(c)
    case Register(stream) => c.(streams := c.streams[stream := c.channel && c.state == Ready])
    case Take(ok) => if c.armed > 0 then c.(armed := c.armed - 1, thread := Holding(ok)) else c
    case Handle(now) => if c.thread.Holding? then HandleEvent(c, c.thread.ok, now) else c
    case Deliver =>
      if c.thread.Reporting? then c.(reports := Tell(c.reports, c.thread.change), thread := Polling) else c
    case LeaveLoop => c.(thread := Exited)
  }

  predicate CanStep(c: Client, s: Step) {
    match s
    case Disconnect(_) => c.control == Free
    case CloseQueue => c.control.Closing?
    case Join => c.control.Joining? && (c.thread == NoThread || c.thread == Exited)
    case Connect(_) => c.control == Opening
    case Announce => c.control.Announcing?
    case Launch => c.control == Launching
    case Attach => c.control == Attaching
    case Register(stream) => stream !in c.streams
    case Take(_) => c.thread == Polling && c.armed > 0
    case Handle(_) => c.thread.Holding?
    case Deliver => c.thread.Reporting?
    case LeaveLoop => c.thread == Polling && c.armed == 0 && c.queue == Closed
  }

  function After(ss: seq<Step>): Client {
    if ss == [] then NEW else Next(After(ss[..|ss| - 1]), ss[|ss| - 1])
  }

  predicate Possible(ss: seq<Step>) {
    ss == [] || (Possible(ss[..|ss| - 1]) && CanStep(After(ss[..|ss| - 1]), ss[|ss| - 1]))
  }

  /* ------------------------------------------------------------ the protocol */

  predicate Alive(t: RunThread) { t.Polling? || t.Holding? || t.Reporting? }

  /** Notifications outstanding: armed, or taken and not yet handled. */
  function Outstanding(c: Client): nat { c.armed + if c.thread.Holding? then 1 else 0 }

  /** Where the two threads can be, and what is outstanding there. */
  predicate Protocol(c: Client) {
    && !c.armedTooLate
    && (c.channel && !c.inProcess ==>
          && Outstanding(c) == 1 && c.queue == Open
          && (Alive(c.thread) || c.control.Announcing? || c.control == Launching))
    && (c.inProcess ==> c.thread == NoThread && c.armed == 0 && c.state == Ready)
    && (!c.channel ==> Outstanding(c) <= 1 && (c.control.Free? ==> c.thread == NoThread))
    && (!c.channel && !c.inProcess && Outstanding(c) == 0 ==> ToClientState(c.state) == NotConnected)
    && (c.control.Closing? || c.control.Joining? || c.control == Opening || c.control == Attaching ==> !c.channel)
    && (c.control == Opening || c.control == Attaching || c.control.Announcing? || c.control == Launching ==>
        c.thread == NoThread)
    && (c.control.Announcing? || c.control == Launching ==> c.channel && !c.inProcess)
    && (c.thread == NoThread && !c.control.Announcing? && c.control != Launching ==> c.armed == 0)
    && (c.thread == Exited ==> c.armed == 0 && c.control.Joining?)
    && (Alive(c.thread) ==> c.queue != NoQueue && (c.queue == Closed <==> c.control.Joining?))
  }

  lemma StepKeepsProtocol(c: Client, s: Step)
    requires Protocol(c) && CanStep(c, s)
    ensures Protocol(Next(c, s))
  {
  }

  lemma {:induction false} AlwaysProtocol(ss: seq<Step>)
    requires Possible(ss)
    ensures Protocol(After(ss))
  {
    if ss == [] {
    } else {
      AlwaysProtocol(ss[..|ss| - 1]);
      StepKeepsProtocol(After(ss[..|ss| - 1]), ss[|ss| - 1]);
    }
  }

  /** Theorem: in an address session exactly one notification is outstanding while
      the channel lives, and none is ever asked for once the queue is shut down. */
  lemma {:induction false} OneNotification(ss: seq<Step>)
    requires Possible(ss)
    ensures !After(ss).armedTooLate
    ensures After(ss).channel && !After(ss).inProcess ==> Outstanding(After(ss)) == 1
  {
    AlwaysProtocol(ss);
  }

  /** How many steps of the run thread are left once the channel is gone. */
  function Rank(c: Client): nat {
    3 * c.armed + match c.thread case Holding(_) => 3 case Reporting(_) => 2 case Polling => 1 case _ => 0
  }

  predicate ByRunThread(s: Step) { s.Take? || s.Handle? || s.Deliver? || s.LeaveLoop? }

  lemma DrainGoesOn(c: Client)
    requires Protocol(c) && c.control.Joining? && Rank(c) > 0
    ensures Rank(c) <= 5 && exists r :: ByRunThread(r) && CanStep(c, r)
  {
    var r := match c.thread
      case Holding(_) => Handle(Idle)
      case Reporting(_) => Deliver
      case _ => if c.armed > 0 then Take(true) else LeaveLoop;
    assert ByRunThread(r) && CanStep(c, r);
  }

  lemma DrainStep(c: Client, s: Step)
    requires Protocol(c) && c.control.Joining? && CanStep(c, s) && s != Join
    ensures Next(c, s).control == c.control
    ensures if ByRunThread(s) then Rank(Next(c, s)) < Rank(c) else Rank(Next(c, s)) == Rank(c)
  {
  }

  /** Theorem, draining: while the controlling thread waits to join, the run thread
      can always go on, each of its steps lowers the rank, at most five are left,
      nothing else raises it, and at rank zero the join succeeds. */
  lemma DrainEnds(ss: seq<Step>, s: Step)
    requires Possible(ss) && After(ss).control.Joining?
    ensures Rank(After(ss)) <= 5 && (Rank(After(ss)) == 0 <==> CanStep(After(ss), Join))
    ensures Rank(After(ss)) > 0 ==> exists r :: ByRunThread(r) && CanStep(After(ss), r)
    ensures CanStep(After(ss), s) && s != Join ==>
      && After(ss + [s]).control == After(ss).control
      && if ByRunThread(s) then Rank(After(ss + [s])) < Rank(After(ss)) else Rank(After(ss + [s])) == Rank(After(ss))
  {
    AlwaysProtocol(ss);
    assert (ss + [s])[..|ss|] == ss;
    if Rank(After(ss)) > 0 { DrainGoesOn(After(ss)); }
    if CanStep(After(ss), s) && s != Join { DrainStep(After(ss), s); }
  }

  /** Theorem: when kill_streams_and_channel returns, no stream runs, the channel is
      gone and nothing is pending; the client then reports that it is not connected
      if and only if its last session was not an in-process one. */
  lemma {:induction false} KillReturns(ss: seq<Step>)
    requires Possible(ss + [Join]) && After(ss).control == Joining(JustKill)
    ensures var c := After(ss + [Join]);
      && c.control == Free && !c.channel && c.thread == NoThread && c.armed == 0
      && (forall k :: k in c.streams ==> !c.streams[k])
      && (ToClientState(c.state) == NotConnected <==> !c.inProcess)
  {
    assert (ss + [Join])[..|ss|] == ss;
    AlwaysProtocol(ss);
    AlwaysProtocol(ss + [Join]);
    StreamsNeedConnection(ss + [Join]);
  }

  lemma OneMore(ss: seq<Step>, s: Step)
    ensures After(ss + [s]) == Next(After(ss), s)
    ensures Possible(ss + [s]) <==> Possible(ss) && CanStep(After(ss), s)
  {
    assert (ss + [s])[..|ss|] == ss;
  }

  /** A step is added to a run. */
  lemma Do(ss: seq<Step>, s: Step) returns (more: seq<Step>)
    requires Possible(ss) && CanStep(After(ss), s)
    ensures more == ss + [s] && Possible(more) && After(more) == Next(After(ss), s)
  {
    OneMore(ss, s);
    more := ss + [s];
  }

  /** The failing side of `KillReturns`: an in-process session is killed, and the
      client, without a channel, goes on reporting that it is connected. */
  lemma KilledInProcessStaysConnected() returns (ss: seq<Step>)
    ensures Possible(ss + [Join]) && After(ss).control == Joining(JustKill)
    ensures !After(ss + [Join]).channel && ToClientState(After(ss + [Join]).state) == Connected
  {
    ss := [];
    ss := Do(ss, Disconnect(ToInProcess));
    ss := Do(ss, CloseQueue);
    ss := Do(ss, Join);
    ss := Do(ss, Attach);
    ss := Do(ss, Disconnect(JustKill));
    ss := Do(ss, CloseQueue);
    OneMore(ss, Join);
  }

  /* -------------------------------------------- what each step does, in a run */

  /** Theorem, the run loop while the channel is held: after a successful event the state
      is the one the channel reports; if that means another state to the user, a callback
      with it is due and every registered stream runs exactly if the channel is READY;
      otherwise no callback is due and the streams are left alone. */
  lemma {:induction false} EventIsFollowed(ss: seq<Step>, now: Connectivity)
    requires Possible(ss + [Handle(now)]) && After(ss).channel && After(ss).thread == Holding(true)
    ensures var c, d := After(ss), After(ss + [Handle(now)]);
      var differs := ToClientState(now) != ToClientState(c.state);
      && d.state == now && d.channel && d.armed == c.armed + 1
      && d.streams.Keys == c.streams.Keys
      && d.thread == Reporting(if differs then Some(ToClientState(now)) else None)
      && (differs ==> forall k :: k in d.streams ==> d.streams[k] == (now == Ready))
      && (!differs ==> d.streams == c.streams)
      && d.reports == c.reports && d.control == c.control && d.queue == c.queue && d.inProcess == c.inProcess
  {
    OneMore(ss, Handle(now));
  }

  /** Theorem: after a failed event everything is as before, but the next notification is
      asked for and no callback is due. */
  lemma {:induction false} FailureIsIgnored(ss: seq<Step>, now: Connectivity)
    requires Possible(ss + [Handle(now)]) && After(ss).channel && After(ss).thread == Holding(false)
    ensures var c, d := After(ss), After(ss + [Handle(now)]);
      d == c.(armed := c.armed + 1, thread := Reporting(None))
  {
    OneMore(ss, Handle(now));
    AlwaysProtocol(ss);
    AlwaysProtocol(ss + [Handle(now)]);
  }

  /** Theorem: once the channel is gone, an event moves the state to the shutdown one and a
      callback is due, unless the user has been told before; no notification is asked for. */
  lemma {:induction false} EventAfterDrop(ss: seq<Step>, now: Connectivity)
    requires Possible(ss + [Handle(now)]) && !After(ss).channel
    ensures var c, d := After(ss), After(ss + [Handle(now)]);
      && d.armed == c.armed && d.streams == c.streams && !d.channel && d.reports == c.reports
      && (ToClientState(c.state) == NotConnected ==> d.state == c.state && d.thread == Reporting(None))
      && (ToClientState(c.state) != NotConnected ==>
            d.state == Shutdown && d.thread == Reporting(Some(NotConnected)))
  {
    OneMore(ss, Handle(now));
  }

  /** Theorem: a due callback is made, with the state that was found, and no other is. */
  lemma {:induction false} CallbacksAreMade(ss: seq<Step>, s: Step)
    requires Possible(ss + [s])
    ensures var c, d := After(ss), After(ss + [s]);
      d.reports ==
        match s
        case Deliver => if c.thread.change.Some? then c.reports + [Told(c.thread.change.value)] else c.reports
        case Announce => if c.control.news.Some? then c.reports + [Told(c.control.news.value)] else c.reports
        case Attach => if c.state != Ready then c.reports + [Silent(Connected)] else c.reports
        case _ => c.reports
  {
    OneMore(ss, s);
  }

  /** One step of a call of change_server or kill_streams_and_channel. */
  predicate Proceeds(c: Client, s: Step, d: Client) {
    match c.control
    case Free => s.Disconnect? && d.control == Closing(s.goal)
    case Closing(goal) =>
      && s == CloseQueue && d.control == Joining(goal) && d.queue != Open
      && d.thread == c.thread && d.armed == c.armed
    case Joining(goal) =>
      && s == Join && d.thread == NoThread
      && (goal == JustKill ==> d.control == Free)
      && (goal == ToAddress ==> d.control == Opening)
      && (goal == ToInProcess ==> d.control == Attaching)
    case Opening => s.Connect? && d.control.Announcing?
    case Attaching => s == Attach && d.control == Free
    case Announcing(_) => s == Announce && d.control == Launching && d.armed == c.armed
    case Launching => s == Launch && d.control == Free && d.thread == Polling && d.armed == c.armed
  }

  lemma StepProceeds(c: Client, s: Step)
    requires CanStep(c, s)
    ensures if ByRunThread(s) || s.Register? then Next(c, s).control == c.control else Proceeds(c, s, Next(c, s))
  {
  }

  /** Theorem, change_server and kill_streams_and_channel step by step: the streams are
      stopped, the queue is shut down, the run thread is joined and is gone, and the
      call goes on as it was begun: it returns, adopts a channel, or opens one, tells the
      user and launches a new run thread. Nobody else moves it on. */
  lemma {:induction false} CallsProceed(ss: seq<Step>, s: Step)
    requires Possible(ss + [s])
    ensures var c, d := After(ss), After(ss + [s]);
      if ByRunThread(s) || s.Register? then d.control == c.control else Proceeds(c, s, d)
  {
    OneMore(ss, s);
    StepProceeds(After(ss), s);
  }

  /** Theorem: a polling run thread takes one notification with the flag it came with, or
      leaves its loop for good once the queue is shut down and none is left. */
  lemma {:induction false} LoopTakesOrLeaves(ss: seq<Step>, s: Step)
    requires Possible(ss + [s]) && (s.Take? || s.LeaveLoop?)
    ensures var c, d := After(ss), After(ss + [s]);
      && c.thread == Polling && d.state == c.state && d.channel == c.channel && d.streams == c.streams
      && d.queue == c.queue
      && (s.Take? ==> c.armed == d.armed + 1 && d.thread == Holding(s.ok))
      && (s.LeaveLoop? ==> c.armed == d.armed == 0 && c.queue == Closed && d.thread == Exited)
  {
    OneMore(ss, s);
  }

  /** Theorem: a new address session holds its channel in the state it reports, waits for
      one notification, and has a callback due if that means another state to the user. */
  lemma {:induction false} ConnectLooks(ss: seq<Step>, found: Connectivity)
    requires Possible(ss + [Connect(found)])
    ensures var c, d := After(ss), After(ss + [Connect(found)]);
      && d.channel && !d.inProcess && d.queue == Open && d.state == found && d.armed == 1
      && d.control.Announcing? && d.streams == c.streams && d.thread == NoThread
      && (d.control.news == None <==> ToClientState(found) == ToClientState(c.state))
      && (d.control.news.Some? ==> d.control.news.value == ToClientState(found))
  {
    OneMore(ss, Connect(found));
    AlwaysProtocol(ss);
    AlwaysProtocol(ss + [Connect(found)]);
  }

  /** Theorem: an in-process session holds its channel and is READY; no stream is started. */
  lemma {:induction false} AttachAdopts(ss: seq<Step>)
    requires Possible(ss + [Attach])
    ensures var c, d := After(ss), After(ss + [Attach]);
      d.channel && d.inProcess && d.state == Ready && d.control == Free && d.streams == c.streams && d.armed == c.armed
  {
    OneMore(ss, Attach);
  }

  /** Theorem: a stream registered while the channel is held and READY is started, in an
      address session or an in-process one, and otherwise not; no other stream changes. */
  lemma {:induction false} RegisteredStreamStarts(ss: seq<Step>, stream: nat)
    requires Possible(ss + [Register(stream)])
    ensures var c, d := After(ss), After(ss + [Register(stream)]);
      && stream !in c.streams && stream in d.streams && d == c.(streams := d.streams)
      && (d.streams[stream] <==> c.channel && c.state == Ready)
      && (c.inProcess && c.channel ==> d.streams[stream])
      && (forall k :: k in d.streams <==> k in c.streams || k == stream)
      && (forall k :: k in c.streams ==> d.streams[k] == c.streams[k])
  {
    OneMore(ss, Register(stream));
    AlwaysProtocol(ss);
  }

  /** Theorem: the first step of a kill stops every stream and drops the channel; the state
      stays what it was. */
  lemma {:induction false} DisconnectStops(ss: seq<Step>, goal: Goal)
    requires Possible(ss + [Disconnect(goal)])
    ensures var c, d := After(ss), After(ss + [Disconnect(goal)]);
      && !d.channel && d.streams.Keys == c.streams.Keys && (forall k :: k in d.streams ==> !d.streams[k])
      && d.state == c.state && d.control == Closing(goal) && d.queue == c.queue && d.armed == c.armed
  {
    OneMore(ss, Disconnect(goal));
  }

  /* ------------------------------------------------------------- the streams */

  /** Theorem: in every reachable state a stream is streaming only while the channel
      is held and ready. */
  lemma {:induction false} StreamsNeedConnection(ss: seq<Step>)
    requires Possible(ss)
    ensures NeedsConnection(After(ss))
  {
    if ss == [] {
    } else {
      var past := ss[..|ss| - 1];
      StreamsNeedConnection(past);
      AlwaysProtocol(past);
      StepKeepsNeed(After(past), ss[|ss| - 1]);
    }
  }

  predicate NeedsConnection(c: Client) {
    forall k :: k in c.streams && c.streams[k] ==> c.channel && c.state == Ready
  }

  lemma StepKeepsNeed(c: Client, s: Step)
    requires Protocol(c) && NeedsConnection(c) && CanStep(c, s)
    ensures NeedsConnection(Next(c, s))
  {
  }

  /** Every registered stream is streaming exactly when the connection is ready. */
  predicate StreamsFollow(c: Client) {
    forall k :: k in c.streams ==> c.streams[k] == (c.state == Ready)
  }

  predicate Follows(c: Client) {
    c.channel && !c.inProcess ==>
      && (StreamsFollow(c) <==> !c.lagging)
      && (c.lagging ==> c.state == Ready)
  }

  lemma StepKeepsFollowing(c: Client, s: Step)
    requires Protocol(c) && Follows(c) && CanStep(c, s)
    requires forall k :: k in c.streams && c.streams[k] ==> c.channel && c.state == Ready
    ensures Follows(Next(c, s))
  {
    var d := Next(c, s);
    if s.Register? && c.lagging && c.channel && !c.inProcess {
      var k :| k in c.streams && !c.streams[k];
      assert k in d.streams && !d.streams[k];
    }
    if s.Connect? && d.lagging {
      var k :| k in c.streams;
      assert k in d.streams && !d.streams[k];
    }
  }

  lemma {:induction false} AlwaysFollows(ss: seq<Step>)
    requires Possible(ss)
    ensures Follows(After(ss))
  {
    if ss == [] {
    } else {
      var past := ss[..|ss| - 1];
      AlwaysFollows(past);
      AlwaysProtocol(past);
      StreamsNeedConnection(past);
      StepKeepsFollowing(After(past), ss[|ss| - 1]);
    }
  }

  /** Theorem: in an address session every registered stream, whenever it was
      registered, is streaming exactly when the connection is ready, if and only if
      the channel was not ready from the start with streams waiting for it (or has
      changed state since). */
  lemma {:induction false} StreamsFollowUnlessLagging(ss: seq<Step>)
    requires Possible(ss) && After(ss).channel && !After(ss).inProcess
    ensures StreamsFollow(After(ss)) <==> !After(ss).lagging
  {
    AlwaysFollows(ss);
  }

  /** Whether streams lag is settled when the channel is made, by what can be seen then. */
  lemma {:induction false} LaggingIsDecidedAtConnect(ss: seq<Step>, found: Connectivity)
    requires Possible(ss + [Connect(found)])
    ensures StreamsFollow(After(ss + [Connect(found)])) <==> found != Ready || After(ss).streams == map[]
  {
    assert (ss + [Connect(found)])[..|ss|] == ss;
    AlwaysFollows(ss + [Connect(found)]);
    AlwaysProtocol(ss + [Connect(found)]);
  }

  /** The failing side: a stream is registered, then a channel is made that is READY
      at once, and the stream stays stopped. */
  lemma ReadyAtOnceLeavesStreamStopped() returns (ss: seq<Step>, stream: nat)
    ensures Possible(ss + [Connect(Ready)])
    ensures var c := After(ss + [Connect(Ready)]);
      c.channel && c.state == Ready && stream in c.streams && !c.streams[stream] && !StreamsFollow(c)
  {
    stream := 7;
    ss := [];
    ss := Do(ss, Register(stream));
    ss := Do(ss, Disconnect(ToAddress));
    ss := Do(ss, CloseQueue);
    ss := Do(ss, Join);
    OneMore(ss, Connect(Ready));
    assert stream in After(ss).streams;
  }

  /** Only making a channel can leave streams behind. */
  lemma StepLeavesNobody(c: Client, s: Step)
    requires !c.lagging && !s.Connect?
    ensures !Next(c, s).lagging
  {
  }

  lemma {:induction false} NobodyFallsBehind(ss: seq<Step>, rest: seq<Step>)
    requires !After(ss).lagging && forall k :: 0 <= k < |rest| ==> !rest[k].Connect?
    ensures !After(ss + rest).lagging
  {
    if rest == [] {
      assert ss + rest == ss;
    } else {
      var n := |rest| - 1;
      NobodyFallsBehind(ss, rest[..n]);
      StepLeavesNobody(After(ss + rest[..n]), rest[n]);
      assert (ss + rest)[..|ss + rest| - 1] == ss + rest[..n];
    }
  }

  /** Theorem: if the new channel did not start READY, or no stream was registered
      yet, then for as long as that session holds its channel every stream, whenever
      it was registered, is streaming exactly when the connection is ready. */
  lemma {:induction false} SessionStreamsFollow(ss: seq<Step>, found: Connectivity, rest: seq<Step>)
    requires Possible(ss + [Connect(found)]) && Possible(ss + [Connect(found)] + rest)
    requires found != Ready || After(ss).streams == map[]
    requires forall k :: 0 <= k < |rest| ==> !rest[k].Connect?
    ensures var c := After(ss + [Connect(found)] + rest); c.channel && !c.inProcess ==> StreamsFollow(c)
  {
    assert (ss + [Connect(found)])[..|ss|] == ss;
    NobodyFallsBehind(ss + [Connect(found)], rest);
    AlwaysFollows(ss + [Connect(found)] + rest);
  }

  /* ----------------------------------------------------------- the callbacks */

  function LastReported(reports: seq<Report>): ClientState {
    if reports == [] then NotConnected else reports[|reports| - 1].state
  }

  /** The change a thread has computed and not yet reported. */
  function Pending(c: Client): Option<ClientState> {
    if c.thread.Reporting? then c.thread.change
    else if c.control.Announcing? then c.control.news
    else None
  }

  predicate NeverTwice(reports: seq<Report>) {
    forall i :: 0 <= i < |reports| ==> reports[i].state != LastReported(reports[..i])
  }

  predicate Truthful(c: Client) {
    && NeverTwice(c.reports)
    && (match Pending(c)
        case None => LastReported(c.reports) == ToClientState(c.state)
        case Some(news) => news == ToClientState(c.state) && news != LastReported(c.reports))
  }

  lemma TellKeepsNeverTwice(reports: seq<Report>, r: Report)
    requires NeverTwice(reports) && r.state != LastReported(reports)
    ensures NeverTwice(reports + [r]) && LastReported(reports + [r]) == r.state
  {
    var more := reports + [r];
    forall i | 0 <= i < |more| ensures more[i].state != LastReported(more[..i]) {
      assert more[..i] == reports[..i];
      if i == |reports| { assert reports[..i] == reports; }
    }
  }

  /** A step that looks at the channel computes the change it will report. */
  lemma LookKeepsTruth(c: Client, s: Step)
    requires Protocol(c) && Truthful(c) && CanStep(c, s) && (s.Connect? || s.Handle?)
    ensures Truthful(Next(c, s))
  {
  }

  /** Any other step that reports nothing leaves the story as it is. */
  lemma QuietStepKeepsTruth(c: Client, s: Step)
    requires Protocol(c) && CanStep(c, s)
    requires !s.Announce? && !s.Deliver? && !s.Attach? && !s.Connect? && !s.Handle?
    ensures Next(c, s).reports == c.reports && Next(c, s).state == c.state && Pending(Next(c, s)) == Pending(c)
  {
  }

  lemma DeliverKeepsTruth(c: Client)
    requires Truthful(c) && c.thread.Reporting? && !c.control.Announcing?
    ensures Truthful(Next(c, Deliver))
  {
    if c.thread.change.Some? { TellKeepsNeverTwice(c.reports, Told(c.thread.change.value)); }
  }

  lemma AnnounceKeepsTruth(c: Client)
    requires Truthful(c) && c.control.Announcing? && !c.thread.Reporting?
    ensures Truthful(Next(c, Announce))
  {
    if c.control.news.Some? { TellKeepsNeverTwice(c.reports, Told(c.control.news.value)); }
  }

  lemma AttachKeepsTruth(c: Client)
    requires Truthful(c) && c.control == Attaching && c.thread == NoThread
    ensures Truthful(Next(c, Attach))
  {
    AttachReports(c);
    if ToClientState(c.state) != Connected { TellKeepsNeverTwice(c.reports, Silent(Connected)); }
    Settled(Next(c, Attach));
  }

  lemma AttachReports(c: Client)
    requires c.control == Attaching && c.thread == NoThread
    ensures var d := Next(c, Attach);
      && d.state == Ready && Pending(c) == None && Pending(d) == None
      && d.reports == if ToClientState(c.state) != Connected then c.reports + [Silent(Connected)] else c.reports
  {
  }

  lemma Settled(c: Client)
    requires NeverTwice(c.reports) && Pending(c) == None && LastReported(c.reports) == ToClientState(c.state)
    ensures Truthful(c)
  {
  }

  lemma StepKeepsTruth(c: Client, s: Step)
    requires Protocol(c) && Truthful(c) && CanStep(c, s)
    ensures Truthful(Next(c, s))
  {
    match s
    case Announce => AnnounceKeepsTruth(c);
    case Deliver => DeliverKeepsTruth(c);
    case Attach => AttachKeepsTruth(c);
    case Connect(_) => LookKeepsTruth(c, s);
    case Handle(_) => LookKeepsTruth(c, s);
    case _ => QuietStepKeepsTruth(c, s);
  }

  lemma {:induction false} AlwaysTruthful(ss: seq<Step>)
    requires Possible(ss)
    ensures Truthful(After(ss))
  {
    if ss == [] {
    } else {
      var past := ss[..|ss| - 1];
      AlwaysTruthful(past);
      AlwaysProtocol(past);
      StepKeepsTruth(After(past), ss[|ss| - 1]);
    }
  }

  /** Theorem: over any sequence of sessions no state is reported twice in a row. */
  lemma {:induction false} NoStateReportedTwice(ss: seq<Step>, i: nat)
    requires Possible(ss) && i + 1 < |After(ss).reports|
    ensures After(ss).reports[i].state != After(ss).reports[i + 1].state
  {
    AlwaysTruthful(ss);
    var reports := After(ss).reports;
    assert reports[i + 1].state != LastReported(reports[..i + 1]);
  }

  /** Theorem: whenever no callback is due, the last report is the client's state. */
  lemma {:induction false} ReportsAreTruthful(ss: seq<Step>)
    requires Possible(ss) && Pending(After(ss)) == None
    ensures LastReported(After(ss).reports) == ToClientState(After(ss).state)
  {
    AlwaysTruthful(ss);
  }

  /** Theorem: callbacks are totally ordered, since no two threads ever have one to make. */
  lemma {:induction false} OneReporter(ss: seq<Step>)
    requires Possible(ss)
    ensures !(After(ss).thread.Reporting? && After(ss).control.Announcing?)
  {
    AlwaysProtocol(ss);
  }
}
