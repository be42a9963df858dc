/** The inductive invariant of the thread machine.

    `g` names, for each thread a CPU has ever held, the last CPU that held it; `w` names the last CPU
    charged with trying a thread. Both are witnesses: they live outside the machine's state. */
module ThreadInvariant {
  import opened Base
  import opened ThreadMachine

  type Witness = map<Tid, Cid>

  ghost predicate At(m: Witness, t: Tid, c: Cid) { t in m && m[t] == c }

  ghost predicate Leaving(s: State, c: Cid, t: Tid, why: Reason, requeued: bool)
    requires c < |s.cpus|
  {
    var th := Th(s, t);
    match why
    case ToBlock => t != s.cpus[c].idle && (th.state == Blocked || th.state == Waking)
    case ToExit => t != s.cpus[c].idle && th.state == Dead && t in s.manager
    case ToYield =>
      if !requeued then th.state == Running
      else if t == s.cpus[c].idle then th.state == Idle
      else th.state == Ready && th.runNode == Some(c)
  }

  /** The thread a CPU has switched away from but not yet released. */
  ghost predicate Left(s: State, g: Witness, c: Cid, p: Tid)
    requires c < |s.cpus|
  {
    var u, th := s.cpus[c], Th(s, p);
    p != u.current && At(g, p, c) && th.onCpu &&
    match th.state
    case Blocked => u.pendingExit == None && p != u.idle
    case Waking => u.pendingExit == None && p != u.idle
    case Ready => u.pendingExit == None && th.runNode == Some(c) && p != u.idle
    case Idle => u.pendingExit == None && p == u.idle
    case Dead => u.pendingExit == Some(p) && p in s.manager && p != u.idle
    case _ => false
  }

  ghost predicate NextOk(s: State, g: Witness, c: Cid, n: Tid)
    requires c < |s.cpus|
  {
    n != s.cpus[c].current && At(g, n, c) && !Th(s, n).onCpu &&
    if n == s.cpus[c].idle then Th(s, n).state == Idle
    else Th(s, n).state == Ready && Th(s, n).runNode == None
  }

  ghost predicate Settled(s: State, c: Cid)
    requires c < |s.cpus|
  {
    var u := s.cpus[c];
    u.previous == None && u.pendingExit == None && u.stack == u.current && Th(s, u.current).onCpu
  }

  ghost predicate PcOk(s: State, g: Witness, c: Cid)
    requires c < |s.cpus|
  {
    var u := s.cpus[c];
    var th := Th(s, u.current);
    match u.pc
    case Run => Settled(s, c) && th.state == Running
    case Handover(q) => Settled(s, c) && th.state == Running && u.current != u.idle
    case Waiting(q) =>
      Settled(s, c) && u.current != u.idle && (th.state == Running || (th.state == Blocking && th.waiter == Some(q)))
    case Dying => Settled(s, c) && th.state == Dead && u.current in s.manager && u.current != u.idle
    case Choose(why) => Settled(s, c) && Leaving(s, c, u.current, why, false)
    case Chosen(why, n) => Settled(s, c) && Leaving(s, c, u.current, why, false) && NextOk(s, g, c, n)
    case Requeued(n) => Settled(s, c) && Leaving(s, c, u.current, ToYield, true) && NextOk(s, g, c, n)
    case Committed(why, n) =>
      Settled(s, c) && Leaving(s, c, u.current, why, true) && n != u.current && At(g, n, c)
      && !Th(s, n).onCpu && Th(s, n).state == Running
    case Switching =>
      u.previous.Some? && u.stack == u.previous.value && th.state == Running && th.onCpu
      && Left(s, g, c, u.previous.value)
    case Landed =>
      u.stack == u.current && th.state == Running
      && (u.previous.None? ==> u.pendingExit == None)
      && (u.previous.Some? ==> th.onCpu && Left(s, g, c, u.previous.value))
    case Releasing(_) => Released(s, g, c)
    case Reaping => Released(s, g, c)
  }

  /** On the new stack, with the on_cpu of the thread left cleared. */
  ghost predicate Released(s: State, g: Witness, c: Cid)
    requires c < |s.cpus|
  {
    var u, th := s.cpus[c], Th(s, s.cpus[c].current);
    && u.previous == None && u.stack == u.current && th.onCpu && th.state == Running
    && (u.pendingExit.Some? ==>
          var x := u.pendingExit.value;
          x != u.current && At(g, x, c) && Th(s, x).state == Dead && !Th(s, x).onCpu && x in s.manager)
  }

  ghost predicate CpuOk(s: State, g: Witness, c: Cid)
    requires c < |s.cpus|
  {
    var u := s.cpus[c];
    && At(g, u.current, c) && At(g, u.idle, c)
    && (Th(s, u.idle).state == Idle || Th(s, u.idle).state == Running)
    && PcOk(s, g, c)
    && (u.wake.Some? ==>
          && (MayWake(u.pc) || u.pc == Choose(ToExit))
          && u.wake.value.q in s.locks && s.locks[u.wake.value.q] == c
          && (u.pc == Choose(ToExit) ==> u.wake.value.q == Joiners(u.current) && u.wake.value.all)
          && (u.wake.value.q.Joiners? ==> u.pc == Choose(ToExit)))
    && (u.pc.Handover? ==> u.pc.q in s.locks && s.locks[u.pc.q] == c)
  }

  ghost predicate ReadyOk(s: State, c: Cid)
    requires c < |s.cpus|
  {
    && NoDup(s.cpus[c].ready)
    && forall t :: t in s.cpus[c].ready ==> Th(s, t).runNode == Some(c) && Th(s, t).state == Ready
  }

  ghost predicate QueueOk(s: State, q: Qid) {
    && NoDup(Waiters(s, q))
    && forall t :: t in Waiters(s, q) ==>
         Th(s, t).waiter == Some(q) && (Th(s, t).state == Blocking || Th(s, t).state == Blocked)
  }

  ghost predicate Holds(s: State, c: Cid, t: Tid) {
    c < |s.cpus| && (s.cpus[c].current == t || s.cpus[c].previous == Some(t))
  }

  /** CPU `c` still has to try `t`: as its waker, or as the CPU that has left it. */
  ghost predicate Charged(s: State, c: Cid, t: Tid) {
    c < |s.cpus| &&
    (s.cpus[c].pc == Releasing(t) || (s.cpus[c].wake.Some? && s.cpus[c].wake.value.marked == Some(t)))
  }

  ghost predicate Picked(pc: Pc, t: Tid) { (pc.Chosen? || pc.Requeued?) && pc.next == t }

  ghost predicate Promoted(pc: Pc, t: Tid) { pc.Committed? && pc.next == t }

  ghost predicate ThreadOk(s: State, g: Witness, w: Witness, t: Tid) {
    var th := Th(s, t);
    && (th.runNode.Some? ==> th.runNode.value < |s.cpus| && t in s.cpus[th.runNode.value].ready)
    && (th.waiter.Some? ==> t in Waiters(s, th.waiter.value))
    && (th.runNode.Some? ==> th.state == Ready)
    && (th.waiter.Some? <==> th.state == Blocking || th.state == Blocked)
    && (th.onCpu ==> t in g && Holds(s, g[t], t))
    && th.wakes == th.inserts + (if th.state == Waking then 1 else 0)
    && (th.state == New ==> t !in s.manager)
    && (th.state != New && th.state != Dead ==> t in s.manager)
    && match th.state
       case New => t !in g
       case Registered => t !in g
       case Idle => t in g && g[t] < |s.cpus| && s.cpus[g[t]].idle == t
       case Ready =>
         th.runNode.None? ==> t in g && g[t] < |s.cpus| && Picked(s.cpus[g[t]].pc, t)
       case Running =>
         t in g && g[t] < |s.cpus| &&
         (s.cpus[g[t]].current == t || Promoted(s.cpus[g[t]].pc, t))
       case Blocking =>
         t in g && g[t] < |s.cpus| && s.cpus[g[t]].current == t && s.cpus[g[t]].pc == Waiting(th.waiter.value)
       case Blocked => true
       case Waking => th.onCpu || (t in w && Charged(s, w[t], t))
       case Dead =>
         t in s.manager ==>
           t in g && g[t] < |s.cpus| && (s.cpus[g[t]].current == t || s.cpus[g[t]].pendingExit == Some(t))
  }

  /** The exiting thread's CPU still has its joiners to wake. */
  ghost predicate WillWakeJoiners(s: State, g: Witness, t: Tid) {
    && t in g && g[t] < |s.cpus| && s.cpus[g[t]].current == t
    && (s.cpus[g[t]].pc == Dying ||
        (s.cpus[g[t]].wake.Some? && s.cpus[g[t]].wake.value.q == Joiners(t)))
  }

  ghost predicate JoinOk(s: State, g: Witness, t: Tid) {
    && (Th(s, t).state == Dead && Waiters(s, Joiners(t)) != [] ==> WillWakeJoiners(s, g, t))
    && (Th(s, t).state == Dead && Joiners(t) in s.locks ==> WillWakeJoiners(s, g, t))
  }

  ghost predicate Inv(s: State, g: Witness, w: Witness) {
    && (forall c: Cid :: c < |s.cpus| ==> CpuOk(s, g, c))
    && (forall c: Cid :: c < |s.cpus| ==> ReadyOk(s, c))
    && (forall q :: QueueOk(s, q))
    && (forall t :: ThreadOk(s, g, w, t))
    && (forall t :: JoinOk(s, g, t))
  }
}
