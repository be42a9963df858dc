/** What each step of the thread machine does to a wait queue and its lock. */
module ThreadQueues {
  import opened Base
  import opened ThreadMachine

  /** Only CPU `c` has moved. */
  ghost predicate OneCpu(s: State, s': State, c: Cid) {
    && |s'.cpus| == |s.cpus| && (forall d: Cid :: d < |s.cpus| && d != c ==> s'.cpus[d] == s.cpus[d])
    && (c < |s.cpus| ==> s'.cpus[c].idle == s.cpus[c].idle)
  }

  /** CPU `c` is inside a critical section of `q`: handing over to it, or waking from it. */
  ghost predicate Inside(s: State, c: Cid, q: Qid) {
    c < |s.cpus| && (s.cpus[c].pc == Handover(q) || (s.cpus[c].wake.Some? && s.cpus[c].wake.value.q == q))
  }

  /** The thread that holds the lock of `q` to wait on it. */
  ghost function Handing(s: State, q: Qid): Option<Tid> {
    if q in s.locks && s.locks[q] < |s.cpus| && s.cpus[s.locks[q]].pc == Handover(q)
    then Some(s.cpus[s.locks[q]].current) else None
  }

  /** The step enters the queue's lock, for its own thread to wait or to wake others. */
  ghost predicate Enters(s: State, step: Step, q: Qid) {
    step.cpu < |s.cpus| &&
    (step == CheckWait(step.cpu, q) || (step.WakeStart? && step.queue == q)
     || (step.WakeJoiners? && q == Joiners(s.cpus[step.cpu].current)))
  }

  /** The step puts its own thread at the tail. */
  ghost predicate Appends(s: State, step: Step, q: Qid) {
    step.Enqueue? && step.cpu < |s.cpus| && s.cpus[step.cpu].pc == Handover(q)
  }

  /** The step takes the first waiter off, if there is one. */
  ghost predicate Pops(s: State, step: Step, q: Qid) {
    step.WakeFirst? && step.cpu < |s.cpus| && s.cpus[step.cpu].wake.Some? && s.cpus[step.cpu].wake.value.q == q
  }

  ghost function WaitersAfter(s: State, step: Step, q: Qid): seq<Tid> {
    if Appends(s, step, q) then Waiters(s, q) + [s.cpus[step.cpu].current]
    else if Pops(s, step, q) && Waiters(s, q) != [] then Waiters(s, q)[1..]
    else Waiters(s, q)
  }

  /** A step of CPU `c` changes the lock of `q` only by entering or leaving its section. */
  ghost predicate LockMoves(s: State, step: Step, s': State, q: Qid) {
    if Enters(s, step, q) then q !in s.locks && q in s'.locks && s'.locks[q] == step.cpu && Inside(s', step.cpu, q)
    else if Inside(s, step.cpu, q) then
      if Inside(s', step.cpu, q) then (q in s'.locks <==> q in s.locks) && (q in s.locks ==> s'.locks[q] == s.locks[q])
      else q !in s'.locks
    else
      !Inside(s', step.cpu, q) && (q in s'.locks <==> q in s.locks) && (q in s.locks ==> s'.locks[q] == s.locks[q])
  }

  ghost predicate QueueMoves(s: State, step: Step, s': State, q: Qid) {
    OneCpu(s, s', step.cpu) && Waiters(s', q) == WaitersAfter(s, step, q) && LockMoves(s, step, s', q)
  }

  ghost predicate Sections(s: State) {
    forall c: Cid :: c < |s.cpus| && s.cpus[c].wake.Some? ==> !s.cpus[c].pc.Handover?
  }

  /** Nothing happens to any queue or lock. */
  ghost predicate Quiet(s: State, s': State, c: Cid) {
    && OneCpu(s, s', c) && c < |s.cpus| && s'.queues == s.queues && s'.locks == s.locks
    && s'.cpus[c].wake.None? && s.cpus[c].wake.None? && !s'.cpus[c].pc.Handover? && !s.cpus[c].pc.Handover?
  }

  lemma QuietEarly(s: State, step: Step, s': State)
    requires Exec(s, step) == Ok(s') && (step.Spawn? || step.Start? || step.Yield? || step.Exit? || step.Commit?)
    ensures Quiet(s, s', step.cpu)
  {
  }

  lemma QuietChoose(s: State, step: Step, s': State)
    requires Exec(s, step) == Ok(s') && (step.GetNext? || step.Requeue? || step.CommitNext?)
    ensures Quiet(s, s', step.cpu)
  {
  }

  lemma QuietSwitch(s: State, step: Step, s': State)
    requires Exec(s, step) == Ok(s') && (step.Prepare? || step.SwitchContext? || step.Clear? || step.Reap?)
    ensures Quiet(s, s', step.cpu)
  {
  }

  lemma QuietTry(s: State, step: Step, s': State)
    requires Exec(s, step) == Ok(s') && step.TryLeft?
    ensures Quiet(s, s', step.cpu)
  {
  }

  lemma StepEnters(s: State, step: Step, s': State, q: Qid)
    requires Exec(s, step) == Ok(s') && (step.CheckWait? || step.WakeStart? || step.WakeJoiners?)
    ensures QueueMoves(s, step, s', q)
  {
  }

  lemma StepAppends(s: State, step: Step, s': State, q: Qid)
    requires Exec(s, step) == Ok(s') && step.Enqueue?
    ensures QueueMoves(s, step, s', q)
  {
  }

  /** A step of a waker: it goes on with the same queue, or drops its lock. */
  ghost predicate WakeMoves(s: State, s': State, c: Cid) {
    && OneCpu(s, s', c) && c < |s.cpus| && s.cpus[c].wake.Some? && s'.cpus[c].pc == s.cpus[c].pc
    && var k := s.cpus[c].wake.value;
       if s'.cpus[c].wake.None? then s'.locks == s.locks - {k.q}
       else s'.locks == s.locks && s'.cpus[c].wake.value.q == k.q && s'.cpus[c].wake.value.all == k.all
  }

  lemma FirstMoves(s: State, c: Cid, s': State)
    requires Exec(s, WakeFirst(c)) == Ok(s')
    ensures WakeMoves(s, s', c)
    ensures var k := s.cpus[c].wake.value;
            if Waiters(s, k.q) == [] then s'.queues == s.queues && s'.cpus[c].wake.None?
            else s'.queues == s.queues[k.q := Waiters(s, k.q)[1..]]
  {
  }

  lemma TestMoves(s: State, c: Cid, s': State)
    requires Exec(s, WakeTest(c)) == Ok(s')
    ensures WakeMoves(s, s', c) && s'.queues == s.queues
  {
  }

  lemma TryMoves(s: State, c: Cid, s': State)
    requires Exec(s, WakeTry(c)) == Ok(s')
    ensures WakeMoves(s, s', c) && s'.queues == s.queues
  {
  }

  lemma StepWakes(s: State, step: Step, s': State, q: Qid)
    requires Exec(s, step) == Ok(s') && (step.WakeFirst? || step.WakeTest? || step.WakeTry?) && Sections(s)
    ensures WakeMoves(s, s', step.cpu) && QueueMoves(s, step, s', q)
  {
    var c := step.cpu;
    if step.WakeFirst? { FirstMoves(s, c, s'); }
    else if step.WakeTest? { TestMoves(s, c, s'); }
    else { TryMoves(s, c, s'); }
  }

  ghost predicate Plain(step: Step) {
    && !(step.CheckWait? || step.WakeStart? || step.WakeJoiners? || step.Enqueue?)
    && !(step.WakeFirst? || step.WakeTest? || step.WakeTry?)
  }

  lemma PlainQuiet(s: State, step: Step, s': State)
    requires Exec(s, step) == Ok(s') && Plain(step)
    ensures Quiet(s, s', step.cpu)
  {
    if step.GetNext? || step.Requeue? || step.CommitNext? { QuietChoose(s, step, s'); }
    else if step.Prepare? || step.SwitchContext? || step.Clear? || step.Reap? { QuietSwitch(s, step, s'); }
    else if step.TryLeft? { QuietTry(s, step, s'); }
    else { QuietEarly(s, step, s'); }
  }

  lemma QuietMoves(s: State, step: Step, s': State, q: Qid)
    requires Plain(step) && Quiet(s, s', step.cpu)
    ensures QueueMoves(s, step, s', q) && Handing(s', q) == Handing(s, q)
  {
  }

  /** Every step on every queue. */
  lemma QueueStep(s: State, step: Step, s': State, q: Qid)
    requires Exec(s, step) == Ok(s') && Sections(s)
    ensures QueueMoves(s, step, s', q)
  {
    if step.CheckWait? || step.WakeStart? || step.WakeJoiners? { StepEnters(s, step, s', q); }
    else if step.Enqueue? { StepAppends(s, step, s', q); }
    else if step.WakeFirst? || step.WakeTest? || step.WakeTry? { StepWakes(s, step, s', q); }
    else { PlainQuiet(s, step, s'); QuietMoves(s, step, s', q); }
  }

  // ---------------------------------------------------------------- who holds a lock

  /** A CPU holds exactly the lock of the section it is in, and is in one section at a time. */
  ghost predicate Locked(s: State) {
    && (forall q :: q in s.locks ==> Inside(s, s.locks[q], q))
    && (forall c: Cid, q :: Inside(s, c, q) ==> q in s.locks && s.locks[q] == c)
    && Sections(s)
  }

  lemma SectionsKeep(s: State, step: Step, s': State)
    requires Sections(s) && Exec(s, step) == Ok(s')
    ensures Sections(s')
  {
    if step.WakeFirst? || step.WakeTest? || step.WakeTry? {
      StepWakes(s, step, s', Named(0));
    } else if Plain(step) {
      PlainQuiet(s, step, s');
    }
  }

  lemma LockedKeeps(s: State, step: Step, s': State)
    requires Locked(s) && Exec(s, step) == Ok(s')
    ensures Locked(s')
  {
    SectionsKeep(s, step, s');
    forall q ensures q in s'.locks ==> Inside(s', s'.locks[q], q)
             ensures forall c: Cid :: Inside(s', c, q) ==> q in s'.locks && s'.locks[q] == c
    {
      QueueStep(s, step, s', q);
      SectionOk(s, step, s', q);
    }
  }

  /** What a step does to a lock keeps it with the CPU in its section. */
  lemma SectionOk(s: State, step: Step, s': State, q: Qid)
    requires Locked(s) && QueueMoves(s, step, s', q)
    ensures q in s'.locks ==> Inside(s', s'.locks[q], q)
    ensures forall c: Cid :: Inside(s', c, q) ==> q in s'.locks && s'.locks[q] == c
  {
    forall c: Cid | c != step.cpu ensures Inside(s', c, q) <==> Inside(s, c, q) {}
  }

  /** Another CPU's lock, and what it protects, stay as they are. */
  lemma OthersKeepOff(s: State, step: Step, s': State, q: Qid)
    requires Locked(s) && QueueMoves(s, step, s', q) && q in s.locks && step.cpu != s.locks[q]
    ensures q in s'.locks && s'.locks[q] == s.locks[q] && Waiters(s', q) == Waiters(s, q)
    ensures Inside(s, s.locks[q], q) && s'.cpus[s.locks[q]] == s.cpus[s.locks[q]]
  {
    assert !Inside(s, step.cpu, q);
  }

  ghost function HandingAfter(s: State, step: Step, q: Qid): Option<Tid> {
    if step.cpu < |s.cpus| && step == CheckWait(step.cpu, q) then Some(s.cpus[step.cpu].current)
    else if Appends(s, step, q) then None
    else Handing(s, q)
  }

  /** Waking hands nothing over. */
  lemma WakingHands(s: State, s': State, c: Cid, q: Qid)
    requires Locked(s) && WakeMoves(s, s', c)
    ensures Handing(s', q) == Handing(s, q)
  {
    assert Inside(s, c, s.cpus[c].wake.value.q);
  }

  lemma HandingStep(s: State, step: Step, s': State, q: Qid)
    requires Locked(s) && Exec(s, step) == Ok(s')
    ensures Handing(s', q) == HandingAfter(s, step, q)
  {
    if step.WakeFirst? || step.WakeTest? || step.WakeTry? {
      StepWakes(s, step, s', q);
      WakingHands(s, s', step.cpu, q);
    } else if Plain(step) {
      PlainQuiet(s, step, s');
      QuietMoves(s, step, s', q);
    } else {
      EntryHands(s, step, s', q);
    }
  }

  lemma EntryHands(s: State, step: Step, s': State, q: Qid)
    requires Locked(s) && Exec(s, step) == Ok(s')
    requires step.CheckWait? || step.WakeStart? || step.WakeJoiners? || step.Enqueue?
    ensures Handing(s', q) == HandingAfter(s, step, q)
  {
    assert step.Enqueue? ==> Inside(s, step.cpu, s.cpus[step.cpu].pc.q);
  }
}
