/** The counting completion over a wait queue, at lock granularity, for any number of waiting threads and of calls
    of complete, which may come from threads and from interrupt handlers. */
module Completion {
  import opened Base
  import opened Counting

  type Tid = nat

  /** usize::MAX, where publishing saturates. */
  const LIMIT: nat := 0xFFFF_FFFF_FFFF_FFFF

  datatype Phase =
    | Out                     // not using the completion
    | Checking(woken: bool)   // about to lock and test the counter; woken: taken off the queue by a wake-up
    | Holding                 // counter was zero; holds the counter lock and wants the queue lock
    | Handing                 // holds the queue lock, has dropped the counter lock
    | Queued                  // in the wait queue

  /** `calls` are the calls of complete that have published but have not yet woken anyone. */
  datatype State = State(count: nat, counterLock: Option<Tid>, queueLock: Option<Tid>, queue: seq<Tid>,
                         phase: map<Tid, Phase>, calls: set<nat>, published: nat, consumed: nat)

  function PhaseOf(s: State, t: Tid): Phase { if t in s.phase then s.phase[t] else Out }

  function At(s: State, t: Tid, p: Phase): State { s.(phase := s.phase[t := p]) }

  datatype Step =
    | BeginWait(t: Tid)
    | Check(t: Tid)
    | TakeQueue(t: Tid)
    | Enqueue(t: Tid)
    | Publish(call: nat)
    | WakeOne(call: nat)

  predicate Enabled(s: State, step: Step) {
    match step
    case BeginWait(t) => PhaseOf(s, t) == Out
    case Check(t) => PhaseOf(s, t).Checking? && s.counterLock.None?
    case TakeQueue(t) => PhaseOf(s, t) == Holding && s.queueLock.None?
    case Enqueue(t) => PhaseOf(s, t) == Handing
    case Publish(k) => k !in s.calls && s.counterLock.None?
    case WakeOne(k) => k in s.calls && s.queueLock.None?
  }

  function Next(s: State, step: Step): State
    requires Enabled(s, step)
  {
    match step
    case BeginWait(t) => At(s, t, Checking(false))
    case Check(t) =>
      if s.count != 0 then At(s, t, Out).(count := s.count - 1, consumed := s.consumed + 1)
      else At(s, t, Holding).(counterLock := Some(t))
    case TakeQueue(t) => At(s, t, Handing).(counterLock := None, queueLock := Some(t))
    case Enqueue(t) => At(s, t, Queued).(queueLock := None, queue := s.queue + [t])
    case Publish(k) =>
      s.(calls := s.calls + {k}, count := if s.count < LIMIT then s.count + 1 else s.count,
         published := s.published + 1)
    case WakeOne(k) =>
      var s1 := s.(calls := s.calls - {k});
      if s.queue == [] then s1 else At(s1, s.queue[0], Checking(true)).(queue := s.queue[1..])
  }

  /** Calls that have published but not yet woken, plus woken waiters that have not yet rechecked. */
  ghost function InFlight(s: State): nat { |s.calls| + Count(s.phase, Checking(true)) }

  ghost predicate Inv(s: State) {
    && NoDup(s.queue)
    && (forall t: Tid :: t in s.queue <==> PhaseOf(s, t) == Queued)
    && (forall t: Tid :: PhaseOf(s, t) == Holding <==> s.counterLock == Some(t))
    && (forall t: Tid :: PhaseOf(s, t) == Handing <==> s.queueLock == Some(t))
    && (s.counterLock.Some? ==> s.count == 0)
    && (s.queue != [] || s.queueLock.Some? ==> s.count <= InFlight(s))
    && s.count + s.consumed <= s.published
    && s.count <= LIMIT
    && (s.published <= LIMIT ==> s.count + s.consumed == s.published)
  }

  const START := State(0, None, None, [], map[], {}, 0, 0)

  lemma StepKeeps(s: State, step: Step)
    requires Inv(s) && Enabled(s, step)
    ensures Inv(Next(s, step))
  {
    match step
    case Publish(_) =>
    case WakeOne(k) => WakeKeeps(s, k);
    case _ => CountUpdate(s.phase, step.t, Next(s, step).phase[step.t], Checking(true));
  }

  lemma WakeKeeps(s: State, k: nat)
    requires Inv(s) && Enabled(s, WakeOne(k))
    ensures Inv(Next(s, WakeOne(k)))
  {
    if s.queue != [] {
      var h := s.queue[0];
      assert h in s.queue;
      NoDupTail(s.queue);
      CountUpdate(s.phase, h, Checking(true), Checking(true));
    }
  }

  /** The states after each step of a run from the initial state. */
  ghost predicate IsRun(states: seq<State>, steps: seq<Step>) {
    && |states| == |steps| + 1 && states[0] == START
    && forall i :: 0 <= i < |steps| ==> Enabled(states[i], steps[i]) && states[i + 1] == Next(states[i], steps[i])
  }

  lemma {:induction false} RunInv(states: seq<State>, steps: seq<Step>, i: nat)
    requires IsRun(states, steps) && i < |states|
    ensures Inv(states[i])
  {
    if i == 0 {
    } else {
      RunInv(states, steps, i - 1);
      StepKeeps(states[i - 1], steps[i - 1]);
    }
  }

  /** No lost wake-up: while someone is queued, every available completion has a wake-up or a recheck coming. */
  lemma NoLostWakeup(states: seq<State>, steps: seq<Step>, i: nat)
    requires IsRun(states, steps) && i < |states| && states[i].queue != []
    ensures states[i].count <= InFlight(states[i])
    ensures states[i].count > 0 ==> states[i].calls != {} || exists t: Tid :: PhaseOf(states[i], t) == Checking(true)
  {
    RunInv(states, steps, i);
    if states[i].count > 0 { WakeComing(states[i]); }
  }

  lemma WakeComing(s: State)
    requires Inv(s) && s.queue != [] && s.count > 0
    ensures s.calls != {} || exists t: Tid :: PhaseOf(s, t) == Checking(true)
  {
    CountSome(s.phase, Checking(true));
    if t: Tid :| t in s.phase && s.phase[t] == Checking(true) { assert PhaseOf(s, t) == Checking(true); }
  }

  /** At rest nobody sleeps on an available completion. */
  lemma NobodySleepsOnCompletion(states: seq<State>, steps: seq<Step>, i: nat)
    requires IsRun(states, steps) && i < |states|
    requires states[i].calls == {} && forall t: Tid :: PhaseOf(states[i], t) == Out || PhaseOf(states[i], t) == Queued
    ensures states[i].queue != [] ==> states[i].count == 0
  {
    if states[i].queue != [] { NoLostWakeup(states, steps, i); }
  }

  /** Consumption never exceeds publication, and is exact until the counter has saturated. */
  lemma Conservation(states: seq<State>, steps: seq<Step>, i: nat)
    requires IsRun(states, steps) && i < |states|
    ensures states[i].consumed + states[i].count <= states[i].published
    ensures states[i].published <= LIMIT ==> states[i].consumed + states[i].count == states[i].published
  {
    RunInv(states, steps, i);
  }

  /** The two locks never deadlock: a started wait that is not asleep, or a started call, means that some started
      operation can go on. */
  lemma Progress(states: seq<State>, steps: seq<Step>, i: nat, t: Tid)
    requires IsRun(states, steps) && i < |states|
    requires states[i].calls != {} || (PhaseOf(states[i], t) != Out && PhaseOf(states[i], t) != Queued)
    ensures exists step: Step :: !step.BeginWait? && !step.Publish? && Enabled(states[i], step)
  {
    var s := states[i];
    RunInv(states, steps, i);
    if s.queueLock.Some? {
      assert Enabled(s, Enqueue(s.queueLock.value));
    } else if s.counterLock.Some? {
      assert Enabled(s, TakeQueue(s.counterLock.value));
    } else if k :| k in s.calls {
      assert Enabled(s, WakeOne(k));
    } else {
      assert Enabled(s, Check(t));
    }
  }
}
