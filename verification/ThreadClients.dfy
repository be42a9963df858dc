/** What a client of a wait queue may rely on: how the queue, its wakers and its waiting threads move. */
module ThreadClients {
  import opened Base
  import opened ThreadMachine
  import opened ThreadInvariant
  import opened ThreadQueues
  import T = ThreadTheorems

  /** CPU `c` is in the code of a thread that may wait. */
  predicate InCode(m: State, c: Cid) {
    c < |m.cpus| && m.cpus[c].pc == Run && m.cpus[c].wake.None? && m.cpus[c].current != m.cpus[c].idle
  }

  /** Neither in the queue nor handing over to it. */
  ghost predicate Away(m: State, t: Tid, q: Qid) { t !in Waiters(m, q) && Handing(m, q) != Some(t) }

  /** A thread in its own code is in no queue, has nothing to hand over, and is current on no other CPU. */
  lemma RunsOutside(m: State, g: Witness, w: Witness, c: Cid, q: Qid)
    requires Inv(m, g, w) && Locked(m) && c < |m.cpus| && m.cpus[c].pc == Run
    ensures Away(m, m.cpus[c].current, q)
    ensures forall d: Cid :: d < |m.cpus| && d != c ==> m.cpus[d].current != m.cpus[c].current
  {
    assert CpuOk(m, g, c) && QueueOk(m, q);
    if Handing(m, q).Some? { assert CpuOk(m, g, m.locks[q]); }
    forall d: Cid | d < |m.cpus| && d != c ensures m.cpus[d].current != m.cpus[c].current { assert CpuOk(m, g, d); }
  }

  /** No thread is queued twice, or while it is still handing over. */
  ghost predicate QueueApart(m: State, q: Qid) {
    NoDup(Waiters(m, q)) && (Handing(m, q).Some? ==> Handing(m, q).value !in Waiters(m, q))
  }

  lemma InvQueueApart(m: State, g: Witness, w: Witness, q: Qid)
    requires Inv(m, g, w) && Locked(m)
    ensures QueueApart(m, q)
  {
    assert QueueOk(m, q);
    if Handing(m, q).Some? { assert CpuOk(m, g, m.locks[q]); }
  }

  /** The thread that a step puts in the queue is the one handing over, and not there yet. */
  lemma AppendsOwn(m: State, step: Step, q: Qid)
    requires Locked(m) && QueueApart(m, q) && Appends(m, step, q)
    ensures Handing(m, q) == Some(m.cpus[step.cpu].current) && m.cpus[step.cpu].current !in Waiters(m, q)
    ensures !Wakes(m, step.cpu, q) && q in m.locks && m.locks[q] == step.cpu
  {
    assert Inside(m, step.cpu, q);
  }

  // ---------------------------------------------------------------- wakers

  /** CPU `c` is waking threads of `q`. */
  ghost predicate Wakes(m: State, c: Cid, q: Qid) {
    c < |m.cpus| && m.cpus[c].wake.Some? && m.cpus[c].wake.value.q == q
  }

  /** Nobody else is on the queue while a waker is. */
  lemma OneWaker(m: State, c: Cid, d: Cid, q: Qid)
    requires Locked(m) && Wakes(m, c, q) && Wakes(m, d, q)
    ensures c == d
  {
    assert Inside(m, c, q) && Inside(m, d, q);
  }

  /** The steps of wake_one leave its loop after one waiter. */
  lemma OneWake(m: State, step: Step, m': State)
    requires Exec(m, step) == Ok(m') && (step.WakeFirst? || step.WakeTest? || step.WakeTry?)
    requires !m.cpus[step.cpu].wake.value.all
    ensures m'.cpus[step.cpu].wake.None? || m'.cpus[step.cpu].wake.value.marked.Some?
    ensures step.WakeFirst? <==> m.cpus[step.cpu].wake.value.marked.None?
  {
  }

  /** The other steps start no wake on a queue they do not name. */
  lemma OtherWake(m: State, step: Step, m': State, q: Qid)
    requires Exec(m, step) == Ok(m') && !(step.WakeFirst? || step.WakeTest? || step.WakeTry?)
    requires q.Named? && (step.WakeStart? ==> step.queue != q)
    ensures !Wakes(m, step.cpu, q) && !Wakes(m', step.cpu, q)
  {
    if Plain(step) { PlainQuiet(m, step, m'); }
  }

  // ---------------------------------------------------------------- waiting threads

  /** The thread is alive, is no idle thread, and waits on no queue but `q`. */
  ghost predicate UserOk(m: State, t: Tid, q: Qid) {
    var th := Th(m, t);
    && (th.state == Ready || th.state == Running || th.state == Blocking || th.state == Blocked || th.state == Waking)
    && (th.waiter.Some? ==> th.waiter.value == q)
    && forall c: Cid :: c < |m.cpus| ==> m.cpus[c].idle != t
  }

  /** A step keeps a user so unless it is its own exit or its own wait elsewhere. */
  lemma UserKeeps(m: State, step: Step, m': State, t: Tid, q: Qid)
    requires Exec(m, step) == Ok(m') && UserOk(m, t, q) && OneCpu(m, m', step.cpu)
    requires T.RunBy(m, step.cpu, t) ==> !step.Exit? && (m.cpus[step.cpu].pc.Handover? ==> m.cpus[step.cpu].pc.q == q)
    ensures UserOk(m', t, q)
  {
    T.Moves(m, step, m', t);
  }

  /** A thread in its own code may become a user of any queue. */
  lemma UserStarts(m: State, g: Witness, w: Witness, c: Cid, q: Qid)
    requires Inv(m, g, w) && InCode(m, c)
    ensures UserOk(m, m.cpus[c].current, q)
  {
    var t := m.cpus[c].current;
    assert CpuOk(m, g, c) && ThreadOk(m, g, w, t);
    forall d: Cid | d < |m.cpus| ensures m.cpus[d].idle != t { assert CpuOk(m, g, d); }
  }

  /** After a step only its own CPU can have begun to hand over. */
  lemma HandoverKeeps(m: State, step: Step, m': State)
    requires Exec(m, step) == Ok(m') && Sections(m)
    ensures OneCpu(m, m', step.cpu) && step.cpu < |m.cpus|
    ensures m'.cpus[step.cpu].pc.Handover? ==>
              m'.cpus[step.cpu].current == m.cpus[step.cpu].current &&
              (m'.cpus[step.cpu].pc == m.cpus[step.cpu].pc || step == CheckWait(step.cpu, m'.cpus[step.cpu].pc.q))
  {
    QueueStep(m, step, m', Named(0));
    if step.WakeFirst? || step.WakeTest? || step.WakeTry? {
      StepWakes(m, step, m', Named(0));
    } else if Plain(step) {
      PlainQuiet(m, step, m');
    }
  }

  /** A user that is in no queue is running, ready, or about to be made ready by some CPU. */
  ghost predicate Coming(m: State, t: Tid) {
    && Th(m, t).waiter.None?
    && (Th(m, t).state == Running || Th(m, t).state == Ready
        || (Th(m, t).state == Waking && exists c: Cid :: T.Responsible(m, c, t)))
  }

  lemma AwayIsComing(m: State, g: Witness, w: Witness, t: Tid, q: Qid)
    requires Inv(m, g, w) && UserOk(m, t, q) && t !in Waiters(m, q)
    ensures Coming(m, t)
  {
    assert ThreadOk(m, g, w, t);
    T.InvResponsible(m, g, w, t);
  }
}
