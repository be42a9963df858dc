/** The thread life cycle and the switch/wake protocol as a step relation over any number of CPUs.

    One step is one critical section (or one unlocked group of per-CPU writes) of the kernel.
    `Exec` runs one step: it either produces the next state, is `Stuck` because the step is not
    enabled, or is a `Panic` because an `assert!`/`expect` of the kernel fires. */
module ThreadMachine {
  import opened Base

  type Tid = nat
  type Cid = nat

  datatype ThreadState = New | Registered | Idle | Ready | Running | Blocking | Blocked | Waking | Dead

  /** The transition table of a thread. */
  predicate CanTransition(from: ThreadState, to: ThreadState) {
    match (from, to)
    case (New, Registered) => true
    case (Registered, Ready) => true
    case (Registered, Idle) => true
    case (Ready, Running) => true
    case (Idle, Running) => true
    case (Running, Ready) => true
    case (Running, Idle) => true
    case (Running, Blocking) => true
    case (Running, Running) => true
    case (Blocking, Blocked) => true
    case (Blocking, Running) => true
    case (Blocked, Waking) => true
    case (Waking, Ready) => true
    case (Running, Dead) => true
    case _ => false
  }

  /** A wait queue: one named by its owner, or the joiners of a thread. */
  datatype Qid = Named(id: nat) | Joiners(thread: Tid)

  /** `runNode` and `waiter` are the intrusive list nodes: the list the node is linked into, if any.
      `wakes` and `inserts` are history: how often the thread went Blocked -> Waking, and how often
      it was put in a ready queue as a woken thread. */
  datatype Thread = Thread(state: ThreadState, onCpu: bool, runNode: Option<Cid>, waiter: Option<Qid>,
                           wakes: nat, inserts: nat)

  const FRESH := Thread(New, false, None, None, 0, 0)

  datatype Reason = ToBlock | ToYield | ToExit

  /** Where a CPU is in the kernel. */
  datatype Pc =
    | Run                                 // running a thread's own code
    | Handover(q: Qid)                    // condition false, queue lock taken, condition lock dropped
    | Waiting(q: Qid)                     // enqueued as Blocking, about to recheck and commit
    | Dying                               // Dead published, joiners not yet woken
    | Choose(why: Reason)                 // about to pick the next thread
    | Chosen(why: Reason, next: Tid)      // next taken from the ready queue, or the idle thread
    | Requeued(next: Tid)                 // the yielding thread gave up Running
    | Committed(why: Reason, next: Tid)   // next is Running
    | Switching                           // handoff published, still on the old stack
    | Landed                              // on the new stack, old thread not yet released
    | Releasing(left: Tid)                // on_cpu of the old thread cleared, the thread not yet tried
    | Reaping                             // old thread released, pending_exit not yet taken

  /** A wake in progress: its queue, whether it is wake_all, the thread marked Waking but not yet tried, and
      whether that thread's on_cpu has been read as clear. */
  datatype Wake = Wake(q: Qid, all: bool, marked: Option<Tid>, tested: bool)

  datatype Cpu = Cpu(current: Tid, stack: Tid, previous: Option<Tid>, pendingExit: Option<Tid>,
                     idle: Tid, ready: seq<Tid>, pc: Pc, wake: Option<Wake>)

  datatype State = State(threads: map<Tid, Thread>, cpus: seq<Cpu>, queues: map<Qid, seq<Tid>>,
                         locks: map<Qid, Cid>, manager: set<Tid>)

  function Th(s: State, t: Tid): Thread { if t in s.threads then s.threads[t] else FRESH }

  function Waiters(s: State, q: Qid): seq<Tid> { if q in s.queues then s.queues[q] else [] }

  predicate Free(s: State, q: Qid) { q !in s.locks }

  function SetThread(s: State, t: Tid, th: Thread): State { s.(threads := s.threads[t := th]) }

  function SetCpu(s: State, c: Cid, u: Cpu): State
    requires c < |s.cpus|
  {
    s.(cpus := s.cpus[c := u])
  }

  datatype Outcome = Ok(state: State) | Stuck | Panic

  datatype Step =
    | Spawn(cpu: Cid, thread: Tid)
    | Start(cpu: Cid, thread: Tid)
    | CheckWait(cpu: Cid, queue: Qid)
    | Enqueue(cpu: Cid)
    | Commit(cpu: Cid)
    | Yield(cpu: Cid)
    | Exit(cpu: Cid)
    | WakeJoiners(cpu: Cid)
    | GetNext(cpu: Cid)
    | Requeue(cpu: Cid)
    | CommitNext(cpu: Cid)
    | Prepare(cpu: Cid)
    | SwitchContext(cpu: Cid)
    | Clear(cpu: Cid)
    | TryLeft(cpu: Cid)
    | Reap(cpu: Cid)
    | WakeStart(cpu: Cid, queue: Qid, all: bool)
    | WakeFirst(cpu: Cid)
    | WakeTest(cpu: Cid)
    | WakeTry(cpu: Cid)

  /** Interrupt handlers may wake threads only while the CPU has interrupts enabled. */
  predicate MayWake(pc: Pc) {
    pc == Run || pc == Choose(ToYield) || (pc.Chosen? && pc.why == ToYield) || pc.Requeued?
    || (pc.Committed? && pc.why == ToYield)
  }

  function Exec(s: State, step: Step): Outcome {
    var c := step.cpu;
    if c >= |s.cpus| then Stuck else
    match step
    case WakeFirst(_) => ExecWakeFirst(s, c)
    case WakeTest(_) => ExecWakeTest(s, c)
    case WakeTry(_) => ExecWakeTry(s, c)
    case _ =>
      // a wake in progress runs to its end before the code it interrupted goes on
      if s.cpus[c].wake.Some? then Stuck else
      match step
      case Spawn(_, t) => ExecSpawn(s, c, t)
      case Start(_, t) => ExecStart(s, c, t)
      case CheckWait(_, q) => ExecCheckWait(s, c, q)
      case Enqueue(_) => ExecEnqueue(s, c)
      case Commit(_) => ExecCommit(s, c)
      case Yield(_) => ExecYield(s, c)
      case Exit(_) => ExecExit(s, c)
      case WakeJoiners(_) => ExecWakeJoiners(s, c)
      case GetNext(_) => ExecGetNext(s, c)
      case Requeue(_) => ExecRequeue(s, c)
      case CommitNext(_) => ExecCommitNext(s, c)
      case Prepare(_) => ExecPrepare(s, c)
      case SwitchContext(_) => ExecSwitchContext(s, c)
      case Clear(_) => ExecClear(s, c)
      case TryLeft(_) => ExecTryLeft(s, c)
      case Reap(_) => ExecReap(s, c)
      case WakeStart(_, q, all) => ExecWakeStart(s, c, q, all)
      case _ => Stuck
  }

  /** ThreadManager::register: New -> Registered, owned by the manager. */
  function ExecSpawn(s: State, c: Cid, t: Tid): Outcome
    requires c < |s.cpus|
  {
    if s.cpus[c].pc != Run || Th(s, t).state != New then Stuck else
    Ok(SetThread(s, t, Th(s, t).(state := Registered)).(manager := s.manager + {t}))
  }

  /** thread_run on a Registered thread: Ready, at the tail of this CPU's ready queue. */
  function ExecStart(s: State, c: Cid, t: Tid): Outcome
    requires c < |s.cpus|
  {
    if s.cpus[c].pc != Run || Th(s, t).state != Registered then Stuck else
    Ok(Link(s, c, t))
  }

  /** ReadyQueue::link together with the transition to Ready made under the same lock. */
  function Link(s: State, c: Cid, t: Tid): State
    requires c < |s.cpus|
  {
    SetCpu(SetThread(s, t, Th(s, t).(state := Ready, runNode := Some(c))), c,
           s.cpus[c].(ready := s.cpus[c].ready + [t]))
  }

  /** WaitQueue::wait up to the lock handover: the condition is false under its lock, the queue lock is
      taken before the condition lock is dropped. Joining waits for the target to be Dead. */
  function ExecCheckWait(s: State, c: Cid, q: Qid): Outcome
    requires c < |s.cpus|
  {
    var u := s.cpus[c];
    if u.pc != Run || u.current == u.idle || !Free(s, q) then Stuck
    else if q.Joiners? && (q.thread == u.current || Th(s, q.thread).state == Dead) then Stuck
    else Ok(SetCpu(s, c, u.(pc := Handover(q))).(locks := s.locks[q := c]))
  }

  /** The rest of the first queue critical section: Running -> Blocking, waiter at the tail, unlock. */
  function ExecEnqueue(s: State, c: Cid): Outcome
    requires c < |s.cpus|
  {
    var u := s.cpus[c];
    if !u.pc.Handover? then Stuck else
    var q, t := u.pc.q, u.current;
    if Th(s, t).waiter.Some? || !CanTransition(Th(s, t).state, Blocking) then Panic else
    Ok(SetCpu(SetThread(s, t, Th(s, t).(state := Blocking, waiter := Some(q))), c, u.(pc := Waiting(q)))
       .(queues := s.queues[q := Waiters(s, q) + [t]], locks := s.locks - {q}))
  }

  /** The second queue critical section: an early wake-up cancels the wait, otherwise Blocking -> Blocked. */
  function ExecCommit(s: State, c: Cid): Outcome
    requires c < |s.cpus|
  {
    var u := s.cpus[c];
    if !u.pc.Waiting? || !Free(s, u.pc.q) then Stuck else
    var th := Th(s, u.current);
    if th.state == Running then
      if th.waiter.Some? then Panic else Ok(SetCpu(s, c, u.(pc := Run)))
    else if th.state == Blocking then
      if th.waiter.None? then Panic else
      Ok(SetCpu(SetThread(s, u.current, th.(state := Blocked)), c, u.(pc := Choose(ToBlock))))
    else Panic
  }

  /** Entry of schedule, from a preemption point or a yield. */
  function ExecYield(s: State, c: Cid): Outcome
    requires c < |s.cpus|
  {
    if s.cpus[c].pc != Run then Stuck else Ok(SetCpu(s, c, s.cpus[c].(pc := Choose(ToYield))))
  }

  /** exit_current up to the published Dead state. */
  function ExecExit(s: State, c: Cid): Outcome
    requires c < |s.cpus|
  {
    var u := s.cpus[c];
    if u.pc != Run || u.current == u.idle then Stuck
    else if !CanTransition(Th(s, u.current).state, Dead) then Panic
    else Ok(SetCpu(SetThread(s, u.current, Th(s, u.current).(state := Dead)), c, u.(pc := Dying)))
  }

  /** finish: wake_all on the joiners of the exiting thread. */
  function ExecWakeJoiners(s: State, c: Cid): Outcome
    requires c < |s.cpus|
  {
    var u := s.cpus[c];
    var q := Joiners(u.current);
    if u.pc != Dying || !Free(s, q) then Stuck else
    Ok(SetCpu(s, c, u.(pc := Choose(ToExit), wake := Some(Wake(q, true, None, false)))).(locks := s.locks[q := c]))
  }

  /** get_next().unwrap_or(idle); schedule returns at once when idle would follow idle. */
  function ExecGetNext(s: State, c: Cid): Outcome
    requires c < |s.cpus|
  {
    var u := s.cpus[c];
    if !u.pc.Choose? then Stuck
    else if u.ready == [] then
      if u.pc.why == ToYield && u.current == u.idle then Ok(SetCpu(s, c, u.(pc := Run)))
      else Ok(SetCpu(s, c, u.(pc := Chosen(u.pc.why, u.idle))))
    else
      var t := u.ready[0];
      if t == u.current then Panic else
      Ok(SetCpu(SetThread(s, t, Th(s, t).(runNode := None)), c,
                u.(ready := u.ready[1..], pc := Chosen(u.pc.why, t))))
  }

  /** schedule only: the current thread goes to Idle or back to the ready queue. */
  function ExecRequeue(s: State, c: Cid): Outcome
    requires c < |s.cpus|
  {
    var u := s.cpus[c];
    if !u.pc.Chosen? || u.pc.why != ToYield then Stuck else
    var t := u.current;
    if t == u.idle then
      if !CanTransition(Th(s, t).state, Idle) then Panic else
      Ok(SetCpu(SetThread(s, t, Th(s, t).(state := Idle)), c, u.(pc := Requeued(u.pc.next))))
    else
      if !CanTransition(Th(s, t).state, Ready) then Panic else
      var s1 := Link(s, c, t);
      Ok(SetCpu(s1, c, s1.cpus[c].(pc := Requeued(u.pc.next))))
  }

  /** next.transition_to(Running). */
  function ExecCommitNext(s: State, c: Cid): Outcome
    requires c < |s.cpus|
  {
    var u := s.cpus[c];
    if !(u.pc.Requeued? || (u.pc.Chosen? && u.pc.why != ToYield)) then Stuck else
    var n := u.pc.next;
    if !CanTransition(Th(s, n).state, Running) then Panic else
    Ok(SetCpu(SetThread(s, n, Th(s, n).(state := Running)), c,
              u.(pc := Committed(if u.pc.Requeued? then ToYield else u.pc.why, n))))
  }

  /** exit_current's pending_exit slot and prepare_switch. */
  function ExecPrepare(s: State, c: Cid): Outcome
    requires c < |s.cpus|
  {
    var u := s.cpus[c];
    if !u.pc.Committed? then Stuck else
    var n := u.pc.next;
    if u.pc.why == ToExit && u.pendingExit.Some? then Panic
    else if u.previous.Some? || n == u.current then Panic
    else
      Ok(SetCpu(SetThread(s, n, Th(s, n).(onCpu := true)), c,
                u.(current := n, previous := Some(u.current), pc := Switching,
                   pendingExit := if u.pc.why == ToExit then Some(u.current) else u.pendingExit)))
  }

  /** switch_context: the CPU leaves the old stack. */
  function ExecSwitchContext(s: State, c: Cid): Outcome
    requires c < |s.cpus|
  {
    var u := s.cpus[c];
    if u.pc != Switching then Stuck else Ok(SetCpu(s, c, u.(stack := u.current, pc := Landed)))
  }

  /** try_enqueue_woken: only a thread that is still Waking is put in the ready queue. */
  function TryEnqueueWoken(s: State, c: Cid, t: Tid): State
    requires c < |s.cpus|
  {
    if Th(s, t).state != Waking then s else
    Link(SetThread(s, t, Th(s, t).(inserts := Th(s, t).inserts + 1)), c, t)
  }

  /** finish_switch up to the cleared on_cpu of the previous thread. */
  function ExecClear(s: State, c: Cid): Outcome
    requires c < |s.cpus|
  {
    var u := s.cpus[c];
    if u.pc != Landed then Stuck else
    var s1 := SetThread(s, u.current, Th(s, u.current).(onCpu := true));
    if u.previous.None? then Ok(SetCpu(s1, c, u.(pc := Reaping))) else
    var p := u.previous.value;
    var s2 := SetCpu(s1, c, u.(previous := None, pc := Releasing(p)));
    Ok(SetThread(s2, p, Th(s2, p).(onCpu := false)))
  }

  /** finish_switch's try to enqueue the thread whose on_cpu it has cleared. */
  function ExecTryLeft(s: State, c: Cid): Outcome
    requires c < |s.cpus|
  {
    if !s.cpus[c].pc.Releasing? then Stuck else
    var s1 := TryEnqueueWoken(s, c, s.cpus[c].pc.left);
    Ok(SetCpu(s1, c, s1.cpus[c].(pc := Reaping)))
  }

  /** The rest of finish_switch: an exited thread is removed from the manager. */
  function ExecReap(s: State, c: Cid): Outcome
    requires c < |s.cpus|
  {
    var u := s.cpus[c];
    if u.pc != Reaping then Stuck
    else if u.pendingExit.None? then Ok(SetCpu(s, c, u.(pc := Run)))
    else
      var x := u.pendingExit.value;
      if Th(s, x).state != Dead || x !in s.manager then Panic else
      Ok(SetCpu(s, c, u.(pc := Run, pendingExit := None)).(manager := s.manager - {x}))
  }

  function ExecWakeStart(s: State, c: Cid, q: Qid, all: bool): Outcome
    requires c < |s.cpus|
  {
    var u := s.cpus[c];
    if !MayWake(u.pc) || !q.Named? || !Free(s, q) then Stuck else
    Ok(SetCpu(s, c, u.(wake := Some(Wake(q, all, None, false)))).(locks := s.locks[q := c]))
  }

  /** After one waiter has been handled: wake_all goes on, wake_one drops the queue lock. */
  function WakeNext(s: State, c: Cid): State
    requires c < |s.cpus| && s.cpus[c].wake.Some?
  {
    var k := s.cpus[c].wake.value;
    if k.all then SetCpu(s, c, s.cpus[c].(wake := Some(k.(marked := None, tested := false)))) else WakeDone(s, c)
  }

  function WakeDone(s: State, c: Cid): State
    requires c < |s.cpus| && s.cpus[c].wake.Some?
  {
    SetCpu(s, c, s.cpus[c].(wake := None)).(locks := s.locks - {s.cpus[c].wake.value.q})
  }

  /** wake_first up to the state change of the first waiter. */
  function ExecWakeFirst(s: State, c: Cid): Outcome
    requires c < |s.cpus|
  {
    var u := s.cpus[c];
    if u.wake.None? || u.wake.value.marked.Some? then Stuck else
    var k := u.wake.value;
    if Waiters(s, k.q) == [] then Ok(WakeDone(s, c)) else
    var t := Waiters(s, k.q)[0];
    var th := Th(s, t);
    var s1 := s.(queues := s.queues[k.q := Waiters(s, k.q)[1..]]);
    if th.waiter.None? then Panic
    else if th.state == Blocking then
      Ok(WakeNext(SetThread(s1, t, th.(state := Running, waiter := None)), c))
    else if th.state == Blocked then
      Ok(SetCpu(SetThread(s1, t, th.(state := Waking, waiter := None, wakes := th.wakes + 1)), c,
                u.(wake := Some(k.(marked := Some(t), tested := false)))))
    else Panic
  }

  /** wake_first's test of on_cpu: a thread still on a CPU is left to that CPU. */
  function ExecWakeTest(s: State, c: Cid): Outcome
    requires c < |s.cpus|
  {
    var u := s.cpus[c];
    if u.wake.None? || u.wake.value.marked.None? || u.wake.value.tested then Stuck
    else if Th(s, u.wake.value.marked.value).onCpu then Ok(WakeNext(s, c))
    else Ok(SetCpu(s, c, u.(wake := Some(u.wake.value.(tested := true)))))
  }

  /** The rest of wake_first: try to enqueue on the waker's CPU. */
  function ExecWakeTry(s: State, c: Cid): Outcome
    requires c < |s.cpus|
  {
    var u := s.cpus[c];
    if u.wake.None? || u.wake.value.marked.None? || !u.wake.value.tested then Stuck
    else Ok(WakeNext(TryEnqueueWoken(s, c, u.wake.value.marked.value), c))
  }
}
