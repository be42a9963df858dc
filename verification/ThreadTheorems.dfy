/** What holds in every run of the thread machine. */
module ThreadTheorems {
  import opened Base
  import opened ThreadMachine
  import opened ThreadInvariant
  import opened ThreadFrames
  import opened ThreadSafety

  /** After boot every CPU has landed on its first thread and owns an idle thread; ids are handed out in order. */
  ghost predicate Booted(s: State) {
    && s.queues == map[] && s.locks == map[]
    && (forall c: Cid :: c < |s.cpus| ==> s.cpus[c] == Cpu(2 * c, 2 * c, None, None, 2 * c + 1, [], Landed, None))
    && s.threads == (map t: Tid | 0 <= t < 2 * |s.cpus| :: FRESH.(state := if t % 2 == 0 then Running else Idle))
    && s.manager == s.threads.Keys
  }

  ghost predicate IsRun(states: seq<State>, steps: seq<Step>) {
    && |states| == |steps| + 1 && Booted(states[0])
    && forall i :: 0 <= i < |steps| ==> Exec(states[i], steps[i]) == Ok(states[i + 1])
  }

  ghost function FirstCpu(t: Tid): Cid { t / 2 }

  lemma BootInv(s: State) returns (g: Witness)
    requires Booted(s)
    ensures Inv(s, g, map[])
  {
    g := map t: Tid | t in s.threads :: FirstCpu(t);
    forall c: Cid | c < |s.cpus| ensures CpuOk(s, g, c) {}
    forall t: Tid ensures ThreadOk(s, g, map[], t) && JoinOk(s, g, t) {}
  }

  /** The thread a step tries for the ready queue, if it is a try. */
  function Tried(s: State, step: Step): Option<Tid> {
    if step.cpu >= |s.cpus| then None
    else
      var u := s.cpus[step.cpu];
      if step.TryLeft? && u.pc.Releasing? then Some(u.pc.left)
      else if step.WakeTry? && u.wake.Some? then u.wake.value.marked
      else None
  }

  /** The step is no try, or its thread is not Waking any more, or is on no CPU. */
  predicate Timely(s: State, step: Step) {
    Tried(s, step).Some? ==>
      var th := Th(s, Tried(s, step).value); th.state == Waking ==> !th.onCpu
  }

  /** No try before index `i` came too late. */
  ghost predicate TimelyTo(states: seq<State>, steps: seq<Step>, i: nat)
    requires |states| == |steps| + 1 && i < |states|
  {
    forall j :: 0 <= j < i ==> Timely(states[j], steps[j])
  }

  lemma StepKeeps(s: State, g: Witness, w: Witness, step: Step, s': State) returns (g': Witness, w': Witness)
    requires Inv(s, g, w) && Exec(s, step) == Ok(s') && Timely(s, step)
    ensures Inv(s', g', w')
  {
    var c := step.cpu;
    g', w' := g, w;
    match step
    case Spawn(_, t) => SpawnKeeps(s, g, w, c, t, s');
    case Start(_, t) => StartKeeps(s, g, w, c, t, s');
    case CheckWait(_, q) => CheckWaitKeeps(s, g, w, c, q, s');
    case Enqueue(_) => EnqueueKeeps(s, g, w, c, s');
    case Commit(_) => CommitKeeps(s, g, w, c, s');
    case Yield(_) => YieldKeeps(s, g, w, c, s');
    case Exit(_) => ExitKeeps(s, g, w, c, s');
    case WakeJoiners(_) => WakeJoinersKeeps(s, g, w, c, s');
    case GetNext(_) => GetNextKeeps(s, g, w, c, s'); g' := Claim(g, c, s');
    case Requeue(_) => RequeueKeeps(s, g, w, c, s');
    case _ => g', w' := LateStepKeeps(s, g, w, step, s');
  }

  /** The steps from the commitment to the next thread on, and those of a waker. */
  lemma LateStepKeeps(s: State, g: Witness, w: Witness, step: Step, s': State) returns (g': Witness, w': Witness)
    requires Inv(s, g, w) && Exec(s, step) == Ok(s') && Timely(s, step)
    requires step.CommitNext? || step.Prepare? || step.SwitchContext? || step.Clear? || step.TryLeft? || step.Reap?
          || step.WakeStart? || step.WakeFirst? || step.WakeTest? || step.WakeTry?
    ensures Inv(s', g', w')
  {
    var c := step.cpu;
    g', w' := g, w;
    match step
    case CommitNext(_) => CommitNextKeeps(s, g, w, c, s');
    case Prepare(_) => PrepareKeeps(s, g, w, c, s');
    case SwitchContext(_) => SwitchContextKeeps(s, g, w, c, s');
    case Clear(_) => ClearKeeps(s, g, w, c, s'); w' := Charge(w, c, s');
    case TryLeft(_) => TryLeftKeeps(s, g, w, c, s');
    case Reap(_) => ReapKeeps(s, g, w, c, s');
    case WakeStart(_, q, all) => WakeStartKeeps(s, g, w, c, q, all, s');
    case WakeFirst(_) => WakeFirstKeeps(s, g, w, c, s'); w' := Marks(w, c, s');
    case WakeTest(_) => WakeTestKeeps(s, g, w, c, s');
    case WakeTry(_) => WakeTryKeeps(s, g, w, c, s');
  }

  lemma {:induction false} RunInv(states: seq<State>, steps: seq<Step>, i: nat) returns (g: Witness, w: Witness)
    requires IsRun(states, steps) && i < |states| && TimelyTo(states, steps, i)
    ensures Inv(states[i], g, w)
  {
    if i == 0 {
      g := BootInv(states[0]);
      w := map[];
    } else {
      g, w := RunInv(states, steps, i - 1);
      g, w := StepKeeps(states[i - 1], g, w, steps[i - 1], states[i]);
    }
  }

  /** No assertion of the machine fires, whatever comes next; in particular the handoff slots are empty whenever they
      are written. */
  lemma NeverPanics(states: seq<State>, steps: seq<Step>, i: nat, step: Step)
    requires IsRun(states, steps) && i < |states| && TimelyTo(states, steps, i)
    ensures Exec(states[i], step) != Panic
  {
    var s := states[i];
    var g, w := RunInv(states, steps, i);
    if step.cpu < |s.cpus| { StepSafe(s, g, w, step); }
  }

  lemma StepSafe(s: State, g: Witness, w: Witness, step: Step)
    requires Inv(s, g, w) && step.cpu < |s.cpus|
    ensures Exec(s, step) != Panic
  {
    if step.WakeFirst? || step.WakeTest? || step.WakeTry? {
      WakeSafe(s, g, w, step);
    } else {
      assert CpuOk(s, g, step.cpu) && ReadyOk(s, step.cpu) && ThreadOk(s, g, w, s.cpus[step.cpu].current);
      if step.Enqueue? || step.Commit? || step.Exit? || step.GetNext? || step.Requeue? {
        LeaveSafe(s, g, w, step);
      } else {
        SwitchSafe(s, g, step);
      }
    }
  }

  lemma WakeSafe(s: State, g: Witness, w: Witness, step: Step)
    requires Inv(s, g, w) && step.cpu < |s.cpus| && (step.WakeFirst? || step.WakeTest? || step.WakeTry?)
    ensures Exec(s, step) != Panic
  {
    var u := s.cpus[step.cpu];
    if u.wake.Some? && Waiters(s, u.wake.value.q) != [] {
      assert QueueOk(s, u.wake.value.q) && Waiters(s, u.wake.value.q)[0] in Waiters(s, u.wake.value.q);
    }
  }

  lemma LeaveSafe(s: State, g: Witness, w: Witness, step: Step)
    requires step.cpu < |s.cpus| && CpuOk(s, g, step.cpu) && ReadyOk(s, step.cpu)
    requires ThreadOk(s, g, w, s.cpus[step.cpu].current)
    requires step.Enqueue? || step.Commit? || step.Exit? || step.GetNext? || step.Requeue?
    ensures Exec(s, step) != Panic
  {
    var u := s.cpus[step.cpu];
    if u.ready != [] { assert u.ready[0] in u.ready; }
  }

  lemma SwitchSafe(s: State, g: Witness, step: Step)
    requires step.cpu < |s.cpus| && CpuOk(s, g, step.cpu)
    requires !(step.Enqueue? || step.Commit? || step.Exit? || step.GetNext? || step.Requeue?)
    requires !(step.WakeFirst? || step.WakeTest? || step.WakeTry?)
    ensures Exec(s, step) != Panic
  {
  }

  /** CPU `c` is running `t`, on its stack, or has not yet let go of it. */
  ghost predicate InUse(s: State, c: Cid, t: Tid)
    requires c < |s.cpus|
  {
    s.cpus[c].current == t || s.cpus[c].stack == t || s.cpus[c].previous == Some(t)
  }

  /** No thread is current on two CPUs, no two CPUs are on one stack, and the ready queues hold each thread at most
      once, never while another CPU has it in use. */
  ghost predicate Apart(s: State, c: Cid, d: Cid)
    requires c < |s.cpus| && d < |s.cpus|
  {
    && s.cpus[c].current != s.cpus[d].current && s.cpus[c].stack != s.cpus[d].stack
    && s.cpus[c].current != s.cpus[d].stack
    && forall t :: t in s.cpus[c].ready ==> t !in s.cpus[d].ready && !InUse(s, d, t)
  }

  ghost predicate Excluded(s: State) {
    && (forall c: Cid, d: Cid :: c < |s.cpus| && d < |s.cpus| && c != d ==> Apart(s, c, d))
    && (forall c: Cid :: c < |s.cpus| ==> QueuedOnce(s, c))
  }

  /** A queued thread is Ready and queued once, and its own CPU is on its stack only while leaving it. */
  ghost predicate QueuedOnce(s: State, c: Cid)
    requires c < |s.cpus|
  {
    && NoDup(s.cpus[c].ready)
    && forall t :: t in s.cpus[c].ready ==>
         && Th(s, t).state == Ready
         && (s.cpus[c].stack == t ==>
               s.cpus[c].pc.Requeued? || s.cpus[c].pc.Committed? || s.cpus[c].pc == Switching)
  }

  lemma InvApart(s: State, g: Witness, w: Witness, c: Cid, d: Cid)
    requires Inv(s, g, w) && c < |s.cpus| && d < |s.cpus| && c != d
    ensures Apart(s, c, d)
  {
    assert CpuOk(s, g, c) && CpuOk(s, g, d) && ReadyOk(s, c) && ReadyOk(s, d);
    StackHome(s, g, c);
    StackHome(s, g, d);
    forall t | t in s.cpus[c].ready ensures !InUse(s, d, t) {
      if Refers(s.cpus[d], t) { QueuedElsewhere(s, g, c, t, d); }
    }
  }

  lemma InvQueuedOnce(s: State, g: Witness, w: Witness, c: Cid)
    requires Inv(s, g, w) && c < |s.cpus|
    ensures QueuedOnce(s, c)
  {
    assert CpuOk(s, g, c) && ReadyOk(s, c);
    StackHome(s, g, c);
    forall t | t in s.cpus[c].ready && s.cpus[c].stack == t
      ensures s.cpus[c].pc.Requeued? || s.cpus[c].pc.Committed? || s.cpus[c].pc == Switching
    {
      QueuedElsewhere(s, g, c, t, c);
    }
  }

  /** While no try comes too late, threads and stacks are never shared. */
  lemma Exclusive(states: seq<State>, steps: seq<Step>, i: nat)
    requires IsRun(states, steps) && i < |states| && TimelyTo(states, steps, i)
    ensures Excluded(states[i])
  {
    var s := states[i];
    var g, w := RunInv(states, steps, i);
    forall c: Cid, d: Cid | c < |s.cpus| && d < |s.cpus| && c != d ensures Apart(s, c, d) { InvApart(s, g, w, c, d); }
    forall c: Cid | c < |s.cpus| ensures QueuedOnce(s, c) { InvQueuedOnce(s, g, w, c); }
  }

  /** A try that comes too late queues a thread that another CPU has in use. */
  lemma LateBreaks(s: State, g: Witness, w: Witness, step: Step, s': State)
    requires Inv(s, g, w) && Exec(s, step) == Ok(s') && !Timely(s, step)
    ensures !Excluded(s')
  {
    var c, t := step.cpu, Tried(s, step).value;
    assert ThreadOk(s, g, w, t) && CpuOk(s, g, c) && CpuOk(s, g, g[t]);
    LateQueued(s, g, step, s', t);
    assert Refers(s.cpus[g[t]], t);
    WakingReferred(s, g, g[t], t);
    assert !Apart(s', c, g[t]);
  }

  lemma LateQueued(s: State, g: Witness, step: Step, s': State, t: Tid)
    requires Exec(s, step) == Ok(s') && Tried(s, step) == Some(t) && Th(s, t).state == Waking
    requires CpuOk(s, g, step.cpu)
    ensures |s'.cpus| == |s.cpus| && t in s'.cpus[step.cpu].ready
    ensures forall d: Cid :: d < |s.cpus| && d != step.cpu ==> s'.cpus[d] == s.cpus[d]
    ensures MayWake(s.cpus[step.cpu].pc) || s.cpus[step.cpu].pc == Choose(ToExit) || s.cpus[step.cpu].pc.Releasing?
  {
  }

  /** Exclusion holds along a run exactly if no try comes too late: each one finds its thread no longer Waking,
      or finds its on_cpu clear. */
  lemma ExclusiveIff(states: seq<State>, steps: seq<Step>)
    requires IsRun(states, steps)
    ensures (forall i :: 0 <= i < |states| ==> Excluded(states[i])) <==> TimelyTo(states, steps, |steps|)
  {
    if TimelyTo(states, steps, |steps|) {
      forall i | 0 <= i < |states| ensures Excluded(states[i]) { Exclusive(states, steps, i); }
    }
    if forall i :: 0 <= i < |states| ==> Excluded(states[i]) { ExcludedIsTimely(states, steps, |steps|); }
  }

  lemma {:induction false} ExcludedIsTimely(states: seq<State>, steps: seq<Step>, i: nat)
    requires IsRun(states, steps) && i < |states|
    requires forall j :: 0 <= j < |states| ==> Excluded(states[j])
    ensures TimelyTo(states, steps, i)
  {
    if i > 0 {
      ExcludedIsTimely(states, steps, i - 1);
      var g, w := RunInv(states, steps, i - 1);
      if !Timely(states[i - 1], steps[i - 1]) { LateBreaks(states[i - 1], g, w, steps[i - 1], states[i]); }
    }
  }

  lemma StackHome(s: State, g: Witness, c: Cid)
    requires c < |s.cpus| && CpuOk(s, g, c)
    ensures At(g, s.cpus[c].stack, c) && At(g, s.cpus[c].current, c) && Refers(s.cpus[c], s.cpus[c].stack)
    ensures s.cpus[c].stack != s.cpus[c].current ==>
              s.cpus[c].pc == Switching && s.cpus[c].previous == Some(s.cpus[c].stack)
  {
  }

  /** Someone still has to put a Waking thread in a ready queue. */
  ghost predicate Responsible(s: State, c: Cid, t: Tid) {
    c < |s.cpus| &&
    var u := s.cpus[c];
    || Charged(s, c, t)
    || (u.current == t && (u.pc.Choose? || u.pc.Chosen? || u.pc.Committed?) && u.pc.why == ToBlock)
    || (u.previous == Some(t) && (u.pc == Switching || u.pc == Landed))
  }

  /** Each Blocked -> Waking wake-up is followed by exactly one ready-queue insertion: the counts differ by
      one exactly while the thread is Waking, and then a waker or a switching CPU is still to try. */
  lemma WakeOnce(states: seq<State>, steps: seq<Step>, i: nat, t: Tid)
    requires IsRun(states, steps) && i < |states| && TimelyTo(states, steps, i)
    ensures var s := states[i];
            && Th(s, t).wakes == Th(s, t).inserts + (if Th(s, t).state == Waking then 1 else 0)
            && (Th(s, t).state == Waking ==> exists c: Cid :: Responsible(s, c, t))
  {
    var g, w := RunInv(states, steps, i);
    InvResponsible(states[i], g, w, t);
  }

  lemma InvResponsible(s: State, g: Witness, w: Witness, t: Tid)
    requires Inv(s, g, w)
    ensures Th(s, t).wakes == Th(s, t).inserts + (if Th(s, t).state == Waking then 1 else 0)
    ensures Th(s, t).state == Waking ==> exists c: Cid :: Responsible(s, c, t)
  {
    assert ThreadOk(s, g, w, t);
    if Th(s, t).state == Waking {
      if Th(s, t).onCpu {
        assert CpuOk(s, g, g[t]) && Responsible(s, g[t], t);
      } else {
        assert Responsible(s, w[t], t);
      }
    }
  }

  ghost predicate RunBy(s: State, c: Cid, t: Tid) { c < |s.cpus| && s.cpus[c].current == t }

  /** How one step may change one thread: along the transition table, dead only by its own exit, idle only by the yield
      of an idle thread, a waiter only by its own wait, inserted as woken only by the two tries, in and out of the
      manager only by Spawn and Reap. */
  ghost predicate MovesBy(s: State, step: Step, s': State, t: Tid) {
    var th, th' := Th(s, t), Th(s', t);
    && (th'.state == th.state || CanTransition(th.state, th'.state))
    && (th'.state == Dead && th.state != Dead ==> step.Exit? && RunBy(s, step.cpu, t))
    && (th'.state == Idle && th.state != Idle ==>
          step.Requeue? && RunBy(s, step.cpu, t) && s.cpus[step.cpu].idle == t)
    && (th'.waiter.Some? && th'.waiter != th.waiter ==>
          step.Enqueue? && RunBy(s, step.cpu, t) && s.cpus[step.cpu].pc == Handover(th'.waiter.value))
    && (th'.inserts != th.inserts ==> th.state == Waking && (step.TryLeft? || step.WakeTry?))
    && (t in s'.manager && t !in s.manager ==> th.state == New)
    && (t in s.manager && t !in s'.manager ==>
          step.Reap? && step.cpu < |s.cpus| && s.cpus[step.cpu].pc == Reaping && s.cpus[step.cpu].pendingExit == Some(t)
          && th.state == Dead)
  }

  lemma MovesEarly(s: State, step: Step, s': State, t: Tid)
    requires Exec(s, step) == Ok(s')
    requires step.Spawn? || step.Start? || step.CheckWait? || step.Enqueue? || step.Commit? || step.Yield? || step.Exit?
    ensures MovesBy(s, step, s', t)
  {
  }

  lemma MovesSwitch(s: State, step: Step, s': State, t: Tid)
    requires Exec(s, step) == Ok(s')
    requires step.CommitNext? || step.Prepare? || step.SwitchContext? || step.Reap?
    ensures MovesBy(s, step, s', t)
  {
  }

  lemma MovesChoose(s: State, step: Step, s': State, t: Tid)
    requires Exec(s, step) == Ok(s')
    requires step.WakeJoiners? || step.GetNext?
    ensures MovesBy(s, step, s', t)
  {
  }

  lemma MovesRequeue(s: State, step: Step, s': State, t: Tid)
    requires Exec(s, step) == Ok(s') && step.Requeue?
    ensures MovesBy(s, step, s', t)
  {
  }

  lemma MovesWake(s: State, step: Step, s': State, t: Tid)
    requires Exec(s, step) == Ok(s') && step.WakeFirst?
    ensures MovesBy(s, step, s', t)
  {
  }

  lemma MovesTry(s: State, step: Step, s': State, t: Tid)
    requires Exec(s, step) == Ok(s') && step.WakeTry?
    ensures MovesBy(s, step, s', t)
  {
    TryThread(s, step.cpu, s', t);
  }

  /** A waker's try touches only the tried thread. */
  lemma TryThread(s: State, c: Cid, s': State, t: Tid)
    requires c < |s.cpus| && Exec(s, WakeTry(c)) == Ok(s')
    ensures s'.manager == s.manager
    ensures Th(s', t) == Th(s, t) ||
            (Th(s, t).state == Waking &&
             Th(s', t) == Th(s, t).(state := Ready, runNode := Some(c), inserts := Th(s, t).inserts + 1))
  {
  }

  lemma MovesClear(s: State, step: Step, s': State, t: Tid)
    requires Exec(s, step) == Ok(s') && step.Clear?
    ensures MovesBy(s, step, s', t)
  {
  }

  lemma MovesTryLeft(s: State, step: Step, s': State, t: Tid)
    requires Exec(s, step) == Ok(s') && step.TryLeft?
    ensures MovesBy(s, step, s', t)
  {
  }

  lemma MovesTest(s: State, step: Step, s': State, t: Tid)
    requires Exec(s, step) == Ok(s') && step.WakeTest?
    ensures MovesBy(s, step, s', t)
  {
  }

  lemma MovesWakeStart(s: State, step: Step, s': State, t: Tid)
    requires Exec(s, step) == Ok(s') && step.WakeStart?
    ensures MovesBy(s, step, s', t)
  {
  }

  lemma Moves(s: State, step: Step, s': State, t: Tid)
    requires Exec(s, step) == Ok(s')
    ensures MovesBy(s, step, s', t)
  {
    match step {
      case Spawn(_, _) => MovesEarly(s, step, s', t);
      case Start(_, _) => MovesEarly(s, step, s', t);
      case CheckWait(_, _) => MovesEarly(s, step, s', t);
      case Enqueue(_) => MovesEarly(s, step, s', t);
      case Commit(_) => MovesEarly(s, step, s', t);
      case Yield(_) => MovesEarly(s, step, s', t);
      case Exit(_) => MovesEarly(s, step, s', t);
      case WakeJoiners(_) => MovesChoose(s, step, s', t);
      case GetNext(_) => MovesChoose(s, step, s', t);
      case Requeue(_) => MovesRequeue(s, step, s', t);
      case CommitNext(_) => MovesSwitch(s, step, s', t);
      case Prepare(_) => MovesSwitch(s, step, s', t);
      case SwitchContext(_) => MovesSwitch(s, step, s', t);
      case Reap(_) => MovesSwitch(s, step, s', t);
      case WakeFirst(_) => MovesWake(s, step, s', t);
      case WakeTry(_) => MovesTry(s, step, s', t);
      case Clear(_) => MovesClear(s, step, s', t);
      case TryLeft(_) => MovesTryLeft(s, step, s', t);
      case WakeTest(_) => MovesTest(s, step, s', t);
      case _ => MovesWakeStart(s, step, s', t);
    }
  }

  /** Only the tried thread is inserted, and the try moves no CPU. */
  lemma TryLeftStep(s: State, c: Cid, s': State, t: Tid)
    requires c < |s.cpus| && Exec(s, TryLeft(c)) == Ok(s') && Th(s', t).inserts != Th(s, t).inserts
    ensures Tried(s, TryLeft(c)) == Some(t) && Th(s', t).onCpu == Th(s, t).onCpu && SameStacks(s, s')
  {
  }

  lemma WakeTryStep(s: State, c: Cid, s': State, t: Tid)
    requires c < |s.cpus| && Exec(s, WakeTry(c)) == Ok(s') && Th(s', t).inserts != Th(s, t).inserts
    ensures Tried(s, WakeTry(c)) == Some(t) && Th(s', t).onCpu == Th(s, t).onCpu && SameStacks(s, s')
  {
  }

  ghost predicate SameStacks(s: State, s': State) {
    |s'.cpus| == |s.cpus| && forall d: Cid :: d < |s.cpus| ==>
                               s'.cpus[d].stack == s.cpus[d].stack && s'.cpus[d].current == s.cpus[d].current
  }

  /** No CPU runs `t` or is on its stack. */
  ghost predicate OffCpus(s: State, t: Tid) {
    forall d: Cid :: d < |s.cpus| ==> s.cpus[d].stack != t && s.cpus[d].current != t
  }

  /** A woken thread enters a ready queue only when no CPU is on its stack any more. */
  lemma QueuedOffStack(states: seq<State>, steps: seq<Step>, i: nat, t: Tid)
    requires IsRun(states, steps) && i < |steps| && TimelyTo(states, steps, i + 1)
    ensures Th(states[i + 1], t).inserts != Th(states[i], t).inserts ==>
              !Th(states[i + 1], t).onCpu && OffCpus(states[i + 1], t)
  {
    var s, s', step := states[i], states[i + 1], steps[i];
    if Th(s', t).inserts != Th(s, t).inserts {
      var g, w := RunInv(states, steps, i);
      Moves(s, step, s', t);
      if step.TryLeft? { TryLeftStep(s, step.cpu, s', t); } else { WakeTryStep(s, step.cpu, s', t); }
      assert Timely(s, step);
      forall d: Cid | d < |s.cpus| ensures s.cpus[d].stack != t && s.cpus[d].current != t {
        assert CpuOk(s, g, d);
        if s.cpus[d].stack == t || s.cpus[d].current == t { OnStack(s, g, d, t); }
      }
    }
  }

  lemma OnStack(s: State, g: Witness, d: Cid, t: Tid)
    requires d < |s.cpus| && CpuOk(s, g, d) && Th(s, t).state == Waking
    requires s.cpus[d].stack == t || s.cpus[d].current == t
    ensures At(g, t, d) && Th(s, t).onCpu && s.cpus[d].pc != Landed
  {
  }

  /** A thread leaves the manager only at a Reap, by a CPU running another thread, Dead, off every CPU, and never comes
      back. */
  lemma RemovedOnce(states: seq<State>, steps: seq<Step>, i: nat, t: Tid, j: nat)
    requires IsRun(states, steps) && i < |steps| && i < j < |states| && TimelyTo(states, steps, i)
    requires t in states[i].manager && t !in states[i + 1].manager
    ensures var s, c := states[i], steps[i].cpu;
            steps[i].Reap? && s.cpus[c].pendingExit == Some(t) && s.cpus[c].current != t
            && Th(s, t).state == Dead && !Th(s, t).onCpu
    ensures OffCpus(states[i], t)
    ensures t !in states[j].manager && Th(states[j], t).state == Dead
  {
    var s, s', c := states[i], states[i + 1], steps[i].cpu;
    var g, w := RunInv(states, steps, i);
    Moves(s, steps[i], s', t);
    assert CpuOk(s, g, c);
    forall d: Cid | d < |s.cpus| ensures s.cpus[d].stack != t && s.cpus[d].current != t {
      assert CpuOk(s, g, d);
      StackHome(s, g, d);
    }
    StaysRemoved(states, steps, i + 1, t, j);
  }

  lemma {:induction false} StaysRemoved(states: seq<State>, steps: seq<Step>, i: nat, t: Tid, j: nat)
    requires IsRun(states, steps) && i <= j < |states|
    requires t !in states[i].manager && Th(states[i], t).state == Dead
    ensures t !in states[j].manager && Th(states[j], t).state == Dead
    decreases j - i
  {
    if i < j {
      Moves(states[i], steps[i], states[i + 1], t);
      StaysRemoved(states, steps, i + 1, t, j);
    }
  }

  /** Nobody waits for a thread that has exited and has finished waking its joiners. */
  lemma NoStrandedJoiner(states: seq<State>, steps: seq<Step>, i: nat, t: Tid)
    requires IsRun(states, steps) && i < |states| && TimelyTo(states, steps, i)
    requires Th(states[i], t).state == Dead && Waiters(states[i], Joiners(t)) != []
    ensures exists c: Cid :: c < |states[i].cpus| && states[i].cpus[c].current == t
              && (states[i].cpus[c].pc == Dying
                  || (states[i].cpus[c].wake.Some? && states[i].cpus[c].wake.value.q == Joiners(t)))
  {
    var g, w := RunInv(states, steps, i);
    assert JoinOk(states[i], g, t);
  }

  /** When every CPU is just running its thread, every other thread is accounted for: nothing is half-way. */
  lemma AtRest(states: seq<State>, steps: seq<Step>, i: nat, t: Tid)
    requires IsRun(states, steps) && i < |states| && TimelyTo(states, steps, i)
    requires forall c: Cid :: c < |states[i].cpus| ==> states[i].cpus[c].pc == Run && states[i].cpus[c].wake.None?
    ensures var s := states[i]; var th := Th(s, t);
            match th.state
            case Ready =>
              th.runNode.Some? && th.runNode.value < |s.cpus| && t in s.cpus[th.runNode.value].ready && !th.onCpu
            case Running => th.onCpu && exists c: Cid :: c < |s.cpus| && s.cpus[c].current == t && s.cpus[c].stack == t
            case Blocked => th.waiter.Some? && t in Waiters(s, th.waiter.value) && !th.onCpu
            case Dead => t !in s.manager && Waiters(s, Joiners(t)) == []
            case Waking => false
            case Blocking => false
            case _ => true
  {
    var s := states[i];
    var g, w := RunInv(states, steps, i);
    assert ThreadOk(s, g, w, t) && JoinOk(s, g, t);
    if t in g && g[t] < |s.cpus| { assert CpuOk(s, g, g[t]); }
  }
}
