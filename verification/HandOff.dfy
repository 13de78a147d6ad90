/** Two threads that take turns through two blocking queues, as the test
    "interleaved_data" sets them up (blocking_queue_tests.cpp, 69-104), for any
    number of rounds instead of five. */
module HandOff {

  /** Where the main thread is: about to push, waiting for an odd number, or
      writing the one it got. */
  datatype MainAt = Pushing | Waiting | Writing(value: int)

  /** Where the other thread is: waiting for an even number, writing the one it
      got, or about to push. */
  datatype OtherAt = Awaiting | Adding(item: int) | Replying

  datatype State = State(
    n: nat,               // rounds
    even: int,            // main's loop variable, 0, 2, ...
    odd: int,             // the other's loop variable, 1, 3, ...
    main: MainAt,
    other: OtherAt,
    evenQueue: seq<int>,
    oddQueue: seq<int>,
    shared: seq<int>)

  function Init(n: nat): State { State(n, 0, 1, Pushing, Awaiting, [], [], []) }

  predicate MainDone(s: State) { s.even >= 2 * s.n }

  predicate OtherDone(s: State) { s.odd >= 2 * s.n }

  /** pop_front blocks on an empty queue. */
  predicate MainCanMove(s: State) { !MainDone(s) && (s.main == Waiting ==> s.oddQueue != []) }

  predicate OtherCanMove(s: State) { !OtherDone(s) && (s.other == Awaiting ==> s.evenQueue != []) }

  function MainMove(s: State): State {
    if !MainCanMove(s) then s else
    match s.main
    case Pushing => s.(evenQueue := s.evenQueue + [s.even], main := Waiting)
    case Waiting => s.(oddQueue := s.oddQueue[1..], main := Writing(s.oddQueue[0]))
    case Writing(value) => s.(shared := s.shared + [value], even := s.even + 2, main := Pushing)
  }

  function OtherMove(s: State): State {
    if !OtherCanMove(s) then s else
    match s.other
    case Awaiting => s.(evenQueue := s.evenQueue[1..], other := Adding(s.evenQueue[0]))
    case Adding(item) => s.(shared := s.shared + [item], other := Replying)
    case Replying => s.(oddQueue := s.oddQueue + [s.odd], odd := s.odd + 2, other := Awaiting)
  }

  /** A schedule says which thread moves next: `true` for the main thread. */
  predicate Possible(n: nat, schedule: seq<bool>) {
    schedule == [] ||
    (Possible(n, schedule[..|schedule| - 1]) &&
     var s := After(n, schedule[..|schedule| - 1]);
     if schedule[|schedule| - 1] then MainCanMove(s) else OtherCanMove(s))
  }

  function After(n: nat, schedule: seq<bool>): State {
    if schedule == [] then Init(n) else
    var s := After(n, schedule[..|schedule| - 1]);
    if schedule[|schedule| - 1] then MainMove(s) else OtherMove(s)
  }

  function Counting(k: nat): seq<int> { seq(k, i => i) }

  /** Round `k`, before the other thread has replied. */
  ghost predicate BeforeReply(s: State, k: nat) {
    && s.even == 2 * k && s.odd == 2 * k + 1 && s.oddQueue == []
    && match (s.main, s.other)
       case (Pushing, Awaiting) => s.evenQueue == [] && s.shared == Counting(2 * k)
       case (Waiting, Awaiting) => k < s.n && s.evenQueue == [2 * k] && s.shared == Counting(2 * k)
       case (Waiting, Adding(item)) => k < s.n && item == 2 * k && s.evenQueue == [] && s.shared == Counting(2 * k)
       case (Waiting, Replying) => k < s.n && s.evenQueue == [] && s.shared == Counting(2 * k + 1)
       case _ => false
  }

  /** Round `k`, after the reply. */
  ghost predicate AfterReply(s: State, k: nat) {
    && k < s.n && s.even == 2 * k && s.odd == 2 * k + 3
    && s.other == Awaiting && s.evenQueue == [] && s.shared == Counting(2 * k + 1)
    && match s.main
       case Waiting => s.oddQueue == [2 * k + 1]
       case Writing(value) => value == 2 * k + 1 && s.oddQueue == []
       case _ => false
  }

  ghost predicate InRound(s: State, k: nat) {
    k <= s.n && (BeforeReply(s, k) || AfterReply(s, k))
  }

  /** Steps still to come. */
  ghost function Remaining(s: State): int {
    3 * (s.n - s.even / 2) + 3 * (s.n - (s.odd - 1) / 2)
    - (match s.main case Pushing => 0 case Waiting => 1 case Writing(_) => 2)
    - (match s.other case Awaiting => 0 case Adding(_) => 1 case Replying => 2)
  }

  lemma CountingGrows(k: nat)
    ensures Counting(k) + [k] == Counting(k + 1)
  {
  }

  lemma MoveKeepsRound(s: State, k: nat, main: bool)
    requires InRound(s, k) && if main then MainCanMove(s) else OtherCanMove(s)
    ensures var t := if main then MainMove(s) else OtherMove(s);
      (InRound(t, k) || InRound(t, k + 1)) && Remaining(t) == Remaining(s) - 1 && t.n == s.n
  {
    CountingGrows(2 * k);
    CountingGrows(2 * k + 1);
  }

  lemma {:induction false} AlwaysInRound(n: nat, schedule: seq<bool>)
    requires Possible(n, schedule)
    ensures exists k: nat :: InRound(After(n, schedule), k)
    ensures After(n, schedule).n == n && Remaining(After(n, schedule)) == 6 * n - |schedule|
  {
    if schedule == [] {
      assert Counting(0) == [];
      assert InRound(After(n, schedule), 0);
    } else {
      AlwaysInRound(n, schedule[..|schedule| - 1]);
      var s := After(n, schedule[..|schedule| - 1]);
      var k: nat :| InRound(s, k);
      MoveKeepsRound(s, k, schedule[|schedule| - 1]);
      var t := After(n, schedule);
      assert InRound(t, k) || InRound(t, k + 1);
    }
  }

  /** Theorem, mutual exclusion and order: in every interleaving the threads never
      touch the shared sequence at the same time, and it always counts from zero. */
  lemma {:induction false} TakesTurns(n: nat, schedule: seq<bool>)
    requires Possible(n, schedule)
    ensures var s := After(n, schedule);
      && !(s.main.Writing? && s.other.Adding?)
      && s.shared == Counting(|s.shared|)
  {
    AlwaysInRound(n, schedule);
  }

  /** Theorem, no deadlock: until both are done exactly one thread can move. */
  lemma {:induction false} ExactlyOneMoves(n: nat, schedule: seq<bool>)
    requires Possible(n, schedule)
    ensures var s := After(n, schedule);
      if MainDone(s) && OtherDone(s) then !MainCanMove(s) && !OtherCanMove(s)
      else MainCanMove(s) <==> !OtherCanMove(s)
  {
    AlwaysInRound(n, schedule);
  }

  /** Theorem: an interleaving is over after exactly 6n steps, with the numbers
      0, 1, ..., 2n-1 in order and both queues empty. */
  lemma {:induction false} EndsOrdered(n: nat, schedule: seq<bool>)
    requires Possible(n, schedule)
    ensures var s := After(n, schedule);
      && |schedule| <= 6 * n
      && (|schedule| == 6 * n <==> MainDone(s) && OtherDone(s))
      && (MainDone(s) && OtherDone(s) ==> s.shared == Counting(2 * n) && s.evenQueue == [] && s.oddQueue == [])
  {
    AlwaysInRound(n, schedule);
    var k: nat :| InRound(After(n, schedule), k);
    RoundsEnd(After(n, schedule), k);
  }

  lemma RoundsEnd(s: State, k: nat)
    requires InRound(s, k)
    ensures Remaining(s) >= 0 && (Remaining(s) == 0 <==> MainDone(s) && OtherDone(s))
    ensures MainDone(s) && OtherDone(s) ==> s.shared == Counting(2 * s.n) && s.evenQueue == [] && s.oddQueue == []
  {
  }
}
