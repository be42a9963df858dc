/** The completion over the thread machine: waiters are threads that run, block and are woken by the real protocol, and
    every run of the two together is a run of the completion at lock granularity. */
module CompletionThreads {
  import opened Base
  import opened ThreadMachine
  import opened ThreadInvariant
  import opened ThreadQueues
  import opened ThreadClients
  import T = ThreadTheorems
  import C = Completion

  /** The wait queue of the completion. */
  const QUEUE := Named(0)

  /** Where a thread is in Completion::wait: about to test the counter, holding its lock after finding it zero, or in
      the queue's part of the wait, up to the next test. */
  datatype Place = Outside | Testing | Holding | Inner

  /** `calls` are the calls of complete that have published and not yet woken; `waking` are the CPUs that have taken
      the queue lock for one of them. */
  datatype Joint = Joint(machine: State, count: nat, counterLock: Option<Tid>, place: map<Tid, Place>,
                         calls: set<nat>, waking: map<Cid, nat>, published: nat, consumed: nat)

  datatype Move =
    | Begin(cpu: Cid)
    | Check(cpu: Cid)
    | Take(cpu: Cid)
    | Publish(call: nat)
    | Signal(cpu: Cid, call: nat)
    | Other(step: Step)

  function PlaceOf(j: Joint, t: Tid): Place { if t in j.place then j.place[t] else Outside }

  function Put(j: Joint, t: Tid, p: Place): Joint { j.(place := j.place[t := p]) }

  /** The completion's queue is entered only by the completion, a waiting thread does nothing of its own, and the
      counter lock keeps interrupts out. */
  predicate Allowed(j: Joint, step: Step) {
    && (step.CheckWait? || step.WakeStart? ==> step.queue != QUEUE)
    && (step.cpu < |j.machine.cpus| ==>
          var p := PlaceOf(j, j.machine.cpus[step.cpu].current);
          && (p != Outside ==> !step.Spawn? && !step.Start? && !step.CheckWait? && !step.Exit?)
          && (p == Holding ==> !step.Yield? && !step.WakeStart?))
  }

  ghost function Do(j: Joint, move: Move): Option<Joint> {
    match move
    case Begin(c) =>
      if InCode(j.machine, c) && PlaceOf(j, j.machine.cpus[c].current) == Outside
      then Some(Put(j, j.machine.cpus[c].current, Testing)) else None
    case Check(c) => if InCode(j.machine, c) then DoCheck(j, j.machine.cpus[c].current) else None
    case Take(c) =>
      if InCode(j.machine, c) && PlaceOf(j, j.machine.cpus[c].current) == Holding
      then Then(Exec(j.machine, CheckWait(c, QUEUE)), Put(j, j.machine.cpus[c].current, Inner).(counterLock := None))
      else None
    case Publish(k) =>
      if k in j.calls || j.counterLock.Some? then None
      else Some(j.(calls := j.calls + {k}, count := if j.count < C.LIMIT then j.count + 1 else j.count,
                   published := j.published + 1))
    case Signal(c, k) =>
      if && k in j.calls && k !in j.waking.Values
         && c < |j.machine.cpus| && PlaceOf(j, j.machine.cpus[c].current) != Holding
      then Then(Exec(j.machine, WakeStart(c, QUEUE, false)), j.(waking := j.waking[c := k]))
      else None
    case Other(step) => if Allowed(j, step) then Then(Exec(j.machine, step), Woken(j, step)) else None
  }

  function Then(o: Outcome, j: Joint): Option<Joint> { if o.Ok? then Some(j.(machine := o.state)) else None }

  /** One round of the loop in wait: the counter is consumed, or its lock kept to wait. */
  ghost function DoCheck(j: Joint, t: Tid): Option<Joint> {
    if (PlaceOf(j, t) != Testing && PlaceOf(j, t) != Inner) || j.counterLock.Some? then None
    else if j.count != 0 then Some(Put(j, t, Outside).(count := j.count - 1, consumed := j.consumed + 1))
    else Some(Put(j, t, Holding).(counterLock := Some(t)))
  }

  /** wake_first is where a call of complete does its waking. */
  ghost function Woken(j: Joint, step: Step): Joint {
    if Pops(j.machine, step, QUEUE) && step.cpu in j.waking
    then j.(calls := j.calls - {j.waking[step.cpu]}, waking := j.waking - {step.cpu}) else j
  }

  // ---------------------------------------------------------------- the completion this is

  ghost function Phase(j: Joint, t: Tid): C.Phase {
    match PlaceOf(j, t)
    case Outside => C.Out
    case Testing => C.Checking(false)
    case Holding => C.Holding
    case Inner =>
      if t in Waiters(j.machine, QUEUE) then C.Queued
      else if Handing(j.machine, QUEUE) == Some(t) then C.Handing
      else C.Checking(true)
  }

  ghost function Abs(j: Joint): C.State {
    C.State(j.count, j.counterLock, Handing(j.machine, QUEUE), Waiters(j.machine, QUEUE),
            map t | t in j.place :: Phase(j, t), j.calls, j.published, j.consumed)
  }

  /** The queue holds only threads that are in the wait. */
  ghost predicate Users(j: Joint) {
    && (forall t :: t in Waiters(j.machine, QUEUE) ==> PlaceOf(j, t) == Inner)
    && (forall t :: Handing(j.machine, QUEUE) == Some(t) ==> PlaceOf(j, t) == Inner)
  }

  /** Every waker of the queue works for one call. */
  ghost predicate Wakers(j: Joint) {
    && (forall c: Cid :: Wakes(j.machine, c, QUEUE) ==>
          !j.machine.cpus[c].wake.value.all
          && (j.machine.cpus[c].wake.value.marked.None? ==> c in j.waking && j.waking[c] in j.calls))
    && (forall c: Cid :: c in j.waking ==> Wakes(j.machine, c, QUEUE)
                                           && j.machine.cpus[c].wake.value.marked.None?)
  }

  /** A thread in the wait is alive and waits on no other queue. */
  ghost predicate Alive(j: Joint) {
    && (forall t :: PlaceOf(j, t) != Outside ==> UserOk(j.machine, t, QUEUE))
    && (forall c: Cid :: c < |j.machine.cpus| && j.machine.cpus[c].pc.Handover? && j.machine.cpus[c].pc.q != QUEUE ==>
                           PlaceOf(j, j.machine.cpus[c].current) == Outside)
  }

  ghost predicate JointInv(j: Joint, g: Witness, w: Witness) {
    Inv(j.machine, g, w) && Locked(j.machine) && Users(j) && Wakers(j) && Alive(j)
  }

  /** `j'` is `j` seen from the completion, or one step of the completion further. */
  ghost predicate Follows(j: Joint, j': Joint) {
    Abs(j') == Abs(j) || exists step :: C.Enabled(Abs(j), step) && Abs(j') == C.Next(Abs(j), step)
  }

  lemma SamePhases(j: Joint, j': Joint)
    requires j'.place.Keys == j.place.Keys && forall x: Tid :: Phase(j', x) == Phase(j, x)
    ensures Abs(j').phase == Abs(j).phase
  {
  }

  lemma OnePhase(j: Joint, j': Joint, t: Tid)
    requires j'.place.Keys == j.place.Keys + {t} && forall x: Tid :: x != t ==> Phase(j', x) == Phase(j, x)
    ensures C.PhaseOf(Abs(j), t) == Phase(j, t) && Abs(j').phase == Abs(j).phase[t := Phase(j', t)]
  {
  }

  lemma BeginFollows(j: Joint, c: Cid, j': Joint)
    requires Users(j) && Wakers(j) && Do(j, Begin(c)) == Some(j') && Away(j.machine, j.machine.cpus[c].current, QUEUE)
    ensures Follows(j, j') && Users(j') && Wakers(j')
  {
    var t := j.machine.cpus[c].current;
    OnePhase(j, j', t);
    assert C.Enabled(Abs(j), C.BeginWait(t)) && Abs(j') == C.Next(Abs(j), C.BeginWait(t));
  }

  lemma CheckFollows(j: Joint, c: Cid, j': Joint)
    requires Users(j) && Wakers(j) && Do(j, Check(c)) == Some(j') && Away(j.machine, j.machine.cpus[c].current, QUEUE)
    ensures Follows(j, j') && Users(j') && Wakers(j')
  {
    var t := j.machine.cpus[c].current;
    OnePhase(j, j', t);
    assert C.Enabled(Abs(j), C.Check(t)) && Abs(j') == C.Next(Abs(j), C.Check(t));
  }

  lemma TakeFollows(j: Joint, c: Cid, j': Joint)
    requires Users(j) && Wakers(j) && Locked(j.machine)
    requires Do(j, Take(c)) == Some(j') && Away(j.machine, j.machine.cpus[c].current, QUEUE)
    ensures Follows(j, j') && Users(j') && Wakers(j')
  {
    var m, t := j.machine, j.machine.cpus[c].current;
    QueueStep(m, CheckWait(c, QUEUE), j'.machine, QUEUE);
    HandingStep(m, CheckWait(c, QUEUE), j'.machine, QUEUE);
    OnePhase(j, j', t);
    assert C.Enabled(Abs(j), C.TakeQueue(t)) && Abs(j') == C.Next(Abs(j), C.TakeQueue(t));
  }

  lemma PublishFollows(j: Joint, k: nat, j': Joint)
    requires Users(j) && Wakers(j) && Do(j, Publish(k)) == Some(j')
    ensures Follows(j, j') && Users(j') && Wakers(j')
  {
    SamePhases(j, j');
    assert C.Enabled(Abs(j), C.Publish(k)) && Abs(j') == C.Next(Abs(j), C.Publish(k));
  }

  lemma SignalFollows(j: Joint, c: Cid, k: nat, j': Joint)
    requires Users(j) && Wakers(j) && Locked(j.machine) && Do(j, Signal(c, k)) == Some(j')
    ensures Follows(j, j') && Users(j') && Wakers(j')
  {
    var step := WakeStart(c, QUEUE, false);
    QueueStep(j.machine, step, j'.machine, QUEUE);
    HandingStep(j.machine, step, j'.machine, QUEUE);
    SamePhases(j, j');
    assert Abs(j') == Abs(j);
  }

  lemma WakersKeep(j: Joint, step: Step, j': Joint)
    requires Wakers(j) && Locked(j.machine) && Do(j, Other(step)) == Some(j')
    ensures Wakers(j')
  {
    var m, m', c := j.machine, j'.machine, step.cpu;
    QueueStep(m, step, m', QUEUE);
    if step.WakeFirst? || step.WakeTest? || step.WakeTry? {
      StepWakes(m, step, m', QUEUE);
      if Wakes(m, c, QUEUE) { OneWake(m, step, m'); }
    } else {
      OtherWake(m, step, m', QUEUE);
    }
    WakersMove(j, step, j');
  }

  lemma WakersMove(j: Joint, step: Step, j': Joint)
    requires Wakers(j) && Locked(j.machine) && OneCpu(j.machine, j'.machine, step.cpu) && step.cpu < |j.machine.cpus|
    requires j' == Woken(j, step).(machine := j'.machine)
    requires var m, m', c := j.machine, j'.machine, step.cpu;
             if Wakes(m, c, QUEUE) then
               && (Wakes(m', c, QUEUE) ==> !m'.cpus[c].wake.value.all && m'.cpus[c].wake.value.marked.Some?)
               && (step.WakeFirst? <==> m.cpus[c].wake.value.marked.None?)
             else !Wakes(m', c, QUEUE)
    ensures Wakers(j')
  {
    var m, c := j.machine, step.cpu;
    forall d: Cid | d != c && Wakes(m, c, QUEUE) ensures !Wakes(m, d, QUEUE) {
      if Wakes(m, d, QUEUE) { OneWaker(m, c, d, QUEUE); }
    }
  }

  lemma OtherFollows(j: Joint, step: Step, j': Joint)
    requires Users(j) && Wakers(j) && Locked(j.machine) && QueueApart(j.machine, QUEUE)
    requires Do(j, Other(step)) == Some(j')
    ensures Follows(j, j') && Users(j')
  {
    var m, m' := j.machine, j'.machine;
    QueueStep(m, step, m', QUEUE);
    HandingStep(m, step, m', QUEUE);
    if Appends(m, step, QUEUE) {
      AppendsFollows(j, step, j');
    } else if Pops(m, step, QUEUE) {
      PopsFollows(j, step, j');
    } else {
      QuietFollows(j, j');
    }
  }

  /** Anything else is nothing to the completion. */
  lemma QuietFollows(j: Joint, j': Joint)
    requires Users(j) && j' == j.(machine := j'.machine)
    requires Waiters(j'.machine, QUEUE) == Waiters(j.machine, QUEUE)
    requires Handing(j'.machine, QUEUE) == Handing(j.machine, QUEUE)
    ensures Follows(j, j') && Users(j')
  {
    SamePhases(j, j');
  }

  /** The Enqueue of the machine is the Enqueue of the completion. */
  lemma AppendsFollows(j: Joint, step: Step, j': Joint)
    requires Users(j) && Locked(j.machine) && QueueApart(j.machine, QUEUE)
    requires Appends(j.machine, step, QUEUE) && j' == j.(machine := j'.machine)
    requires Waiters(j'.machine, QUEUE) == WaitersAfter(j.machine, step, QUEUE)
    requires Handing(j'.machine, QUEUE) == HandingAfter(j.machine, step, QUEUE)
    ensures Follows(j, j') && Users(j')
  {
    var m, t := j.machine, j.machine.cpus[step.cpu].current;
    assert Inside(m, step.cpu, QUEUE);
    OnePhase(j, j', t);
    assert C.Enabled(Abs(j), C.Enqueue(t)) && Abs(j') == C.Next(Abs(j), C.Enqueue(t));
  }

  /** The WakeFirst of the machine is the whole WakeOne of the completion. */
  lemma PopsFollows(j: Joint, step: Step, j': Joint)
    requires Users(j) && Wakers(j) && Locked(j.machine) && QueueApart(j.machine, QUEUE)
    requires Pops(j.machine, step, QUEUE) && j' == Woken(j, step).(machine := j'.machine)
    requires j.machine.cpus[step.cpu].wake.value.marked.None?
    requires Waiters(j'.machine, QUEUE) == WaitersAfter(j.machine, step, QUEUE)
    requires Handing(j'.machine, QUEUE) == HandingAfter(j.machine, step, QUEUE)
    ensures Follows(j, j') && Users(j')
  {
    var m, k := j.machine, j.waking[step.cpu];
    var ws := Waiters(m, QUEUE);
    assert Inside(m, step.cpu, QUEUE) && Handing(m, QUEUE).None?;
    assert C.Enabled(Abs(j), C.WakeOne(k));
    if ws == [] {
      SamePhases(j, j');
    } else {
      NoDupTail(ws);
      OnePhase(j, j', ws[0]);
    }
    assert Abs(j') == C.Next(Abs(j), C.WakeOne(k));
  }

  /** The machine's step, if the move is one. */
  function StepOf(move: Move): Option<Step> {
    match move
    case Take(c) => Some(CheckWait(c, QUEUE))
    case Signal(c, _) => Some(WakeStart(c, QUEUE, false))
    case Other(step) => Some(step)
    case _ => None
  }

  lemma AliveSteps(j: Joint, move: Move, j': Joint, g: Witness, w: Witness)
    requires JointInv(j, g, w) && Do(j, move) == Some(j') && StepOf(move).Some?
    ensures Alive(j')
  {
    var m, step, m' := j.machine, StepOf(move).value, j'.machine;
    HandoverKeeps(m, step, m');
    forall t | PlaceOf(j', t) != Outside ensures UserOk(m', t, QUEUE) { UserKeeps(m, step, m', t, QUEUE); }
  }

  /** A thread that is current on one CPU hands over on no other. */
  lemma AliveStarts(j: Joint, c: Cid, j': Joint, g: Witness, w: Witness)
    requires JointInv(j, g, w) && InCode(j.machine, c) && j'.machine == j.machine
    requires forall t :: t != j.machine.cpus[c].current ==> PlaceOf(j', t) == PlaceOf(j, t)
    ensures Alive(j')
  {
    var m := j.machine;
    UserStarts(m, g, w, c, QUEUE);
    forall d: Cid | d < |m.cpus| && m.cpus[d].pc.Handover? ensures m.cpus[d].current != m.cpus[c].current {
      assert CpuOk(m, g, c) && CpuOk(m, g, d);
    }
  }

  ghost predicate TimelyMove(j: Joint, move: Move) { move.Other? ==> T.Timely(j.machine, move.step) }

  lemma MachineKeeps(j: Joint, move: Move, j': Joint, g: Witness, w: Witness) returns (g': Witness, w': Witness)
    requires Inv(j.machine, g, w) && Locked(j.machine) && Do(j, move) == Some(j') && TimelyMove(j, move)
    ensures Inv(j'.machine, g', w') && Locked(j'.machine)
  {
    g', w' := g, w;
    if StepOf(move).Some? {
      g', w' := T.StepKeeps(j.machine, g, w, StepOf(move).value, j'.machine);
      LockedKeeps(j.machine, StepOf(move).value, j'.machine);
    }
  }

  /** Every move keeps the joint invariant and is a step of the completion, or nothing to it. */
  lemma MoveKeeps(j: Joint, move: Move, j': Joint, g: Witness, w: Witness) returns (g': Witness, w': Witness)
    requires JointInv(j, g, w) && Do(j, move) == Some(j') && TimelyMove(j, move)
    ensures JointInv(j', g', w') && Follows(j, j')
  {
    g', w' := MachineKeeps(j, move, j', g, w);
    InvQueueApart(j.machine, g, w, QUEUE);
    if move.Begin? || move.Check? || move.Take? { RunsOutside(j.machine, g, w, move.cpu, QUEUE); }
    match move {
      case Begin(c) => BeginFollows(j, c, j'); AliveStarts(j, c, j', g, w);
      case Check(c) => CheckFollows(j, c, j'); AliveStarts(j, c, j', g, w);
      case Take(c) => TakeFollows(j, c, j'); AliveSteps(j, move, j', g, w);
      case Publish(k) => PublishFollows(j, k, j');
      case Signal(c, k) => SignalFollows(j, c, k, j'); AliveSteps(j, move, j', g, w);
      case Other(step) =>
        OtherFollows(j, step, j');
        WakersKeep(j, step, j');
        AliveSteps(j, move, j', g, w);
    }
  }

  ghost predicate Started(j: Joint) {
    T.Booted(j.machine) && j == Joint(j.machine, 0, None, map[], {}, map[], 0, 0)
  }

  ghost predicate IsRun(states: seq<Joint>, moves: seq<Move>) {
    && |states| == |moves| + 1 && Started(states[0])
    && forall i :: 0 <= i < |moves| ==> Do(states[i], moves[i]) == Some(states[i + 1])
  }

  ghost predicate TimelyTo(states: seq<Joint>, moves: seq<Move>, i: nat)
    requires |states| == |moves| + 1 && i < |states|
  {
    forall k :: 0 <= k < i ==> TimelyMove(states[k], moves[k])
  }

  lemma {:induction false} RunInv(states: seq<Joint>, moves: seq<Move>, i: nat) returns (g: Witness, w: Witness)
    requires IsRun(states, moves) && i < |states| && TimelyTo(states, moves, i)
    ensures JointInv(states[i], g, w) && (i > 0 ==> Follows(states[i - 1], states[i]))
  {
    if i == 0 {
      g := T.BootInv(states[0].machine);
      w := map[];
    } else {
      g, w := RunInv(states, moves, i - 1);
      g, w := MoveKeeps(states[i - 1], moves[i - 1], states[i], g, w);
    }
  }

  /** Every run over the real queue is a run of the completion at lock granularity, as long as no try comes late. */
  lemma {:induction false} IsCompletion(states: seq<Joint>, moves: seq<Move>, i: nat)
    returns (cs: seq<C.State>, steps: seq<C.Step>)
    requires IsRun(states, moves) && i < |states| && TimelyTo(states, moves, i)
    ensures C.IsRun(cs, steps) && cs[|cs| - 1] == Abs(states[i])
  {
    if i == 0 {
      cs, steps := [C.START], [];
    } else {
      cs, steps := IsCompletion(states, moves, i - 1);
      var g, w := RunInv(states, moves, i);
      if Abs(states[i]) != Abs(states[i - 1]) {
        var step :| C.Enabled(Abs(states[i - 1]), step) && Abs(states[i]) == C.Next(Abs(states[i - 1]), step);
        cs, steps := cs + [Abs(states[i])], steps + [step];
      }
    }
  }

  /** No lost wake-up over the real queue: while a thread sleeps and a completion is there, some call has still to wake,
      or a woken thread is running, ready, or about to be made ready by a CPU. */
  lemma NoLostWakeup(states: seq<Joint>, moves: seq<Move>, i: nat)
    requires IsRun(states, moves) && i < |states| && TimelyTo(states, moves, i)
    requires Waiters(states[i].machine, QUEUE) != [] && states[i].count > 0
    ensures states[i].calls != {} || exists t: Tid :: PlaceOf(states[i], t) == Inner && Coming(states[i].machine, t)
  {
    var j := states[i];
    var cs, steps := IsCompletion(states, moves, i);
    C.NoLostWakeup(cs, steps, |cs| - 1);
    var g, w := RunInv(states, moves, i);
    if j.calls == {} {
      var t: Tid :| C.PhaseOf(Abs(j), t) == C.Checking(true);
      AwayIsComing(j.machine, g, w, t, QUEUE);
      assert PlaceOf(j, t) == Inner;
    }
  }
}
