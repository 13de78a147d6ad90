/** The two threads of `HandOff` over the queues as they are: with a lock, a condition
    variable and notifications that may be delayed, instead of a pop that just waits
    (blocking_queue_tests.cpp, 69-104, over blocking_queue.hpp, 59-84). */
module HandOffWakeups {
  import opened Tags
  import opened Monitors
  import Queues = BlockingQueues
  import opened HandOff

  const MAIN: Thread := 1
  const OTHER: Thread := 2

  type Queue = Monitor<Queues.Buffer<int>>

  datatype Threads = Threads(
    n: nat,
    even: int,
    odd: int,
    main: MainAt,
    other: OtherAt,
    evens: Queue,
    odds: Queue,
    shared: seq<int>)

  datatype Step =
    | MainPush
    | MainEnter        // calls pop_front on the odd numbers
    | MainTry          // gets that queue's lock
    | MainWrite
    | OtherEnter       // calls pop_front on the even numbers
    | OtherTry
    | OtherAdd
    | OtherReply
    | NotifyEvens(woken: Option<Thread>)
    | NotifyOdds(woken: Option<Thread>)
    | SpuriousEvens
    | SpuriousOdds

  function Begin(n: nat): Threads {
    Threads(n, 0, 1, Pushing, Awaiting, Monitor(Queues.Empty(), {}, {}, 0), Monitor(Queues.Empty(), {}, {}, 0), [])
  }

  function Act(t: Threads, e: Step): Threads {
    match e
    case MainPush => t.(evens := Queues.Next(t.evens, Queues.Push(t.even)), main := Waiting)
    case MainEnter => t.(odds := Queues.Next(t.odds, Queues.Enter(MAIN)))
    case MainTry =>
      t.(odds := Queues.Next(t.odds, Queues.TryPop(MAIN)),
         main := if Queues.HasItems(t.odds.data) then Writing(t.odds.data.items[0]) else t.main)
    case MainWrite => if t.main.Writing?
        then t.(shared := t.shared + [t.main.value], even := t.even + 2, main := Pushing) else t
    case OtherEnter => t.(evens := Queues.Next(t.evens, Queues.Enter(OTHER)))
    case OtherTry =>
      t.(evens := Queues.Next(t.evens, Queues.TryPop(OTHER)),
         other := if Queues.HasItems(t.evens.data) then Adding(t.evens.data.items[0]) else t.other)
    case OtherAdd => if t.other.Adding? then t.(shared := t.shared + [t.other.item], other := Replying) else t
    case OtherReply => t.(odds := Queues.Next(t.odds, Queues.Push(t.odd)), odd := t.odd + 2, other := Awaiting)
    case NotifyEvens(woken) => t.(evens := Queues.Next(t.evens, Queues.NotifyOne(woken)))
    case NotifyOdds(woken) => t.(odds := Queues.Next(t.odds, Queues.NotifyOne(woken)))
    case SpuriousEvens => t.(evens := Queues.Next(t.evens, Queues.Spurious(OTHER)))
    case SpuriousOdds => t.(odds := Queues.Next(t.odds, Queues.Spurious(MAIN)))
  }

  predicate Inside(q: Queue, thread: Thread) { thread in q.awake || thread in q.asleep }

  predicate CanStep(t: Threads, e: Step) {
    match e
    case MainPush => t.main == Pushing && t.even < 2 * t.n
    case MainEnter => t.main == Waiting && !Inside(t.odds, MAIN)
    case MainTry => t.main == Waiting && MAIN in t.odds.awake
    case MainWrite => t.main.Writing?
    case OtherEnter => t.other == Awaiting && t.odd < 2 * t.n && !Inside(t.evens, OTHER)
    case OtherTry => t.other == Awaiting && OTHER in t.evens.awake
    case OtherAdd => t.other.Adding?
    case OtherReply => t.other == Replying
    case NotifyEvens(woken) => CanNotify(t.evens, woken)
    case NotifyOdds(woken) => CanNotify(t.odds, woken)
    case SpuriousEvens => OTHER in t.evens.asleep
    case SpuriousOdds => MAIN in t.odds.asleep
  }

  function Reached(n: nat, es: seq<Step>): Threads {
    if es == [] then Begin(n) else Act(Reached(n, es[..|es| - 1]), es[|es| - 1])
  }

  predicate CanReach(n: nat, es: seq<Step>) {
    es == [] || (CanReach(n, es[..|es| - 1]) && CanStep(Reached(n, es[..|es| - 1]), es[|es| - 1]))
  }

  /* ------------------------------------------- forgetting who sleeps and wakes */

  /** The same state for threads whose pop just waits. */
  function Plain(t: Threads): State {
    State(t.n, t.even, t.odd, t.main, t.other, t.evens.data.items, t.odds.data.items, t.shared)
  }

  /** The move of `HandOff` that a step makes, if any. */
  function Moved(t: Threads, e: Step): seq<bool> {
    match e
    case MainPush => [true]
    case MainTry => if Queues.HasItems(t.odds.data) then [true] else []
    case MainWrite => [true]
    case OtherTry => if Queues.HasItems(t.evens.data) then [false] else []
    case OtherAdd => [false]
    case OtherReply => [false]
    case _ => []
  }

  function Moves(n: nat, es: seq<Step>): seq<bool> {
    if es == [] then [] else Moves(n, es[..|es| - 1]) + Moved(Reached(n, es[..|es| - 1]), es[|es| - 1])
  }

  /** Who is inside which pop, and that nobody sleeps on an item that nobody will announce. */
  ghost predicate Attended(t: Threads) {
    && t.evens.awake <= {OTHER} && t.evens.asleep <= {OTHER} && Queues.Covered(t.evens)
    && t.odds.awake <= {MAIN} && t.odds.asleep <= {MAIN} && Queues.Covered(t.odds)
    && (Inside(t.evens, OTHER) ==> t.other == Awaiting && t.odd < 2 * t.n)
    && (Inside(t.odds, MAIN) ==> t.main == Waiting)
    && (t.other != Awaiting ==> t.odd < 2 * t.n)
    && (t.main != Pushing ==> t.even < 2 * t.n)
  }

  lemma StepMoves(t: Threads, e: Step)
    requires Attended(t) && CanStep(t, e)
    ensures Moved(t, e) == [] ==> Plain(Act(t, e)) == Plain(t)
    ensures Moved(t, e) == [true] ==> MainCanMove(Plain(t)) && Plain(Act(t, e)) == MainMove(Plain(t))
    ensures Moved(t, e) == [false] ==> OtherCanMove(Plain(t)) && Plain(Act(t, e)) == OtherMove(Plain(t))
  {
  }

  /** What a step does to the two queues, each of which is a queue of `BlockingQueues`. */
  lemma StepKeepsQueues(t: Threads, e: Step)
    requires Attended(t) && CanStep(t, e)
    ensures Queues.Covered(Act(t, e).evens) && Queues.Covered(Act(t, e).odds)
  {
    match e
    case MainPush => Queues.StepKeepsCovered(t.evens, Queues.Push(t.even));
    case MainEnter => Queues.StepKeepsCovered(t.odds, Queues.Enter(MAIN));
    case MainTry => Queues.StepKeepsCovered(t.odds, Queues.TryPop(MAIN));
    case OtherEnter => Queues.StepKeepsCovered(t.evens, Queues.Enter(OTHER));
    case OtherTry => Queues.StepKeepsCovered(t.evens, Queues.TryPop(OTHER));
    case OtherReply => Queues.StepKeepsCovered(t.odds, Queues.Push(t.odd));
    case NotifyEvens(woken) => Queues.StepKeepsCovered(t.evens, Queues.NotifyOne(woken));
    case NotifyOdds(woken) => Queues.StepKeepsCovered(t.odds, Queues.NotifyOne(woken));
    case SpuriousEvens => Queues.StepKeepsCovered(t.evens, Queues.Spurious(OTHER));
    case SpuriousOdds => Queues.StepKeepsCovered(t.odds, Queues.Spurious(MAIN));
    case _ =>
  }

  lemma StepKeepsAttended(t: Threads, e: Step)
    requires Attended(t) && CanStep(t, e)
    ensures Attended(Act(t, e))
  {
    StepKeepsQueues(t, e);
  }

  /** Theorem: with sleeping, waking and notifying forgotten, every interleaving is one
      of `HandOff`, so its order and mutual exclusion hold here too. */
  lemma {:induction false} WakeupsRefine(n: nat, es: seq<Step>)
    requires CanReach(n, es)
    ensures Attended(Reached(n, es))
    ensures Possible(n, Moves(n, es)) && After(n, Moves(n, es)) == Plain(Reached(n, es))
  {
    if es == [] {
    } else {
      var past, e := es[..|es| - 1], es[|es| - 1];
      var t := Reached(n, past);
      WakeupsRefine(n, past);
      StepKeepsAttended(t, e);
      StepMoves(t, e);
      if Moved(t, e) == [] {
        assert Moves(n, es) == Moves(n, past);
      } else {
        OneMoreMove(n, Moves(n, past), Moved(t, e)[0]);
        assert Moved(t, e) == [Moved(t, e)[0]];
      }
    }
  }

  lemma OneMoreMove(n: nat, schedule: seq<bool>, main: bool)
    ensures After(n, schedule + [main]) == if main then MainMove(After(n, schedule)) else OtherMove(After(n, schedule))
    ensures Possible(n, schedule + [main]) <==>
      Possible(n, schedule) && if main then MainCanMove(After(n, schedule)) else OtherCanMove(After(n, schedule))
  {
    assert (schedule + [main])[..|schedule|] == schedule;
  }

  /* --------------------------------------------------------- no wake-up is missed */

  predicate IsSpurious(e: Step) { e.SpuriousEvens? || e.SpuriousOdds? }

  /** A thread whose pop can succeed can take a step, or is about to be woken. */
  lemma SomebodyCan(t: Threads)
    requires Attended(t) && (MainCanMove(Plain(t)) || OtherCanMove(Plain(t)))
    ensures exists e :: !IsSpurious(e) && CanStep(t, e)
  {
    var e := if MainCanMove(Plain(t)) then MainsStep(t) else OthersStep(t);
    if MainCanMove(Plain(t)) {
      MainsStepIsPossible(t);
    } else {
      OthersStepIsPossible(t);
    }
    assert !IsSpurious(e) && CanStep(t, e);
  }

  function MainsStep(t: Threads): Step {
    match t.main
    case Pushing => MainPush
    case Writing(_) => MainWrite
    case Waiting =>
      if MAIN in t.odds.awake then MainTry else if MAIN in t.odds.asleep then NotifyOdds(Some(MAIN)) else MainEnter
  }

  function OthersStep(t: Threads): Step {
    match t.other
    case Adding(_) => OtherAdd
    case Replying => OtherReply
    case Awaiting =>
      if OTHER in t.evens.awake then OtherTry else if OTHER in t.evens.asleep then NotifyEvens(Some(OTHER))
          else OtherEnter
  }

  lemma MainsStepIsPossible(t: Threads)
    requires Attended(t) && MainCanMove(Plain(t))
    ensures CanStep(t, MainsStep(t)) && !IsSpurious(MainsStep(t))
  {
    if MAIN !in t.odds.awake { assert t.odds.awake == {}; }
  }

  lemma OthersStepIsPossible(t: Threads)
    requires Attended(t) && OtherCanMove(Plain(t))
    ensures CanStep(t, OthersStep(t)) && !IsSpurious(OthersStep(t))
  {
    if OTHER !in t.evens.awake { assert t.evens.awake == {}; }
  }

  /** Theorem, no deadlock: in every interleaving, as long as the threads are not done
      something other than a spurious wake-up can happen; so if nothing can, they are
      done, nobody sleeps, the numbers are in order and both queues are empty. */
  lemma {:induction false} NobodyIsStuck(n: nat, es: seq<Step>)
    requires CanReach(n, es)
    ensures var t := Reached(n, es);
      (forall e :: CanStep(t, e) ==> IsSpurious(e)) ==>
        && MainDone(Plain(t)) && OtherDone(Plain(t)) && t.evens.asleep == {} && t.odds.asleep == {}
        && t.shared == Counting(2 * n) && t.evens.data.items == [] && t.odds.data.items == []
  {
    WakeupsRefine(n, es);
    var t, schedule := Reached(n, es), Moves(n, es);
    ExactlyOneMoves(n, schedule);
    EndsOrdered(n, schedule);
    if MainCanMove(Plain(t)) || OtherCanMove(Plain(t)) {
      SomebodyCan(t);
    } else {
      SameRounds(n, es);
    }
  }

  lemma {:induction false} SameRounds(n: nat, es: seq<Step>)
    requires CanReach(n, es)
    ensures Reached(n, es).n == n
  {
    if es == [] {
    } else {
      SameRounds(n, es[..|es| - 1]);
    }
  }

  /* ------------------------------------------------------------------ it ends */

  /** How far a consumer is from sleeping: outside, awake, asleep. */
  function Restless(q: Queue, thread: Thread): nat {
    if thread in q.awake then 1 else if thread in q.asleep then 0 else 2
  }

  function Slack(t: Threads): nat {
    2 * t.evens.notifications + 2 * t.odds.notifications
    + (if t.main == Waiting then Restless(t.odds, MAIN) else 0)
    + (if t.other == Awaiting && t.odd < 2 * t.n then Restless(t.evens, OTHER) else 0)
  }

  /** Bounds the steps that are left. */
  ghost function Effort(t: Threads): int {
    10 * Remaining(Plain(t)) + Slack(t)
  }

  lemma MainTakesSlack(t: Threads, e: Step)
    requires Attended(t) && CanStep(t, e) && (e.MainPush? || e.MainEnter? || e.MainTry? || e.MainWrite?)
    ensures if Moved(t, e) == [] then Slack(Act(t, e)) < Slack(t) else Slack(Act(t, e)) <= Slack(t) + 4
  {
  }

  lemma OtherTakesSlack(t: Threads, e: Step)
    requires Attended(t) && CanStep(t, e) && (e.OtherEnter? || e.OtherTry? || e.OtherAdd? || e.OtherReply?)
    ensures if Moved(t, e) == [] then Slack(Act(t, e)) < Slack(t) else Slack(Act(t, e)) <= Slack(t) + 4
  {
  }

  lemma WakingTakesSlack(t: Threads, e: Step)
    requires Attended(t) && CanStep(t, e) && (e.NotifyEvens? || e.NotifyOdds? || IsSpurious(e))
    ensures if IsSpurious(e) then Slack(Act(t, e)) == Slack(t) + 1 else Slack(Act(t, e)) < Slack(t)
  {
  }

  lemma MoveIsStep(s: State, k: nat, main: bool)
    requires InRound(s, k) && if main then MainCanMove(s) else OtherCanMove(s)
    ensures Remaining(if main then MainMove(s) else OtherMove(s)) == Remaining(s) - 1
  {
    MoveKeepsRound(s, k, main);
  }

  lemma StepTakesEffort(t: Threads, e: Step, k: nat)
    requires Attended(t) && CanStep(t, e) && InRound(Plain(t), k)
    ensures if IsSpurious(e) then Effort(Act(t, e)) == Effort(t) + 1 else Effort(Act(t, e)) < Effort(t)
  {
    StepMoves(t, e);
    if Moved(t, e) != [] { MoveIsStep(Plain(t), k, Moved(t, e)[0]); }
    if e.NotifyEvens? || e.NotifyOdds? || IsSpurious(e) {
      WakingTakesSlack(t, e);
    } else if e.MainPush? || e.MainEnter? || e.MainTry? || e.MainWrite? {
      MainTakesSlack(t, e);
    } else {
      OtherTakesSlack(t, e);
    }
  }

  function Count(es: seq<Step>, spurious: bool): nat {
    if es == [] then 0 else Count(es[..|es| - 1], spurious) + if IsSpurious(es[|es| - 1]) == spurious then 1 else 0
  }

  /** Theorem, termination: besides its spurious wake-ups an interleaving has at most
      60n + 2 steps and one more for each of them. */
  lemma {:induction false} RunsAreBounded(n: nat, es: seq<Step>)
    requires CanReach(n, es)
    ensures Effort(Reached(n, es)) >= 0
    ensures Count(es, false) + Effort(Reached(n, es)) <= 60 * n + 2 + Count(es, true)
  {
    if es == [] {
    } else {
      var past, e := es[..|es| - 1], es[|es| - 1];
      RunsAreBounded(n, past);
      WakeupsRefine(n, past);
      AlwaysInRound(n, Moves(n, past));
      var k: nat :| InRound(Plain(Reached(n, past)), k);
      StepTakesEffort(Reached(n, past), e, k);
    }
    WakeupsRefine(n, es);
    AlwaysInRound(n, Moves(n, es));
    var k: nat :| InRound(Plain(Reached(n, es)), k);
    RoundsEnd(Plain(Reached(n, es)), k);
  }
}
