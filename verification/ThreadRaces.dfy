/** The two gaps of the protocol: between clearing a thread's on_cpu and trying it, and between a waker's test of
    on_cpu and its try. */
module ThreadRaces {
  import opened Base
  import opened ThreadMachine
  import opened ThreadTheorems

  // ---------------------------------------------------------------- nothing in the gaps

  /** Each try of a release comes directly after its own CPU's clear. */
  ghost predicate ReleasesTogether(steps: seq<Step>) {
    forall i :: 0 <= i < |steps| ==> ReleaseFollows(steps, i)
  }

  ghost predicate ReleaseFollows(steps: seq<Step>, i: nat)
    requires i < |steps|
  {
    steps[i].TryLeft? ==> i > 0 && steps[i - 1] == Clear(steps[i].cpu)
  }

  /** Each try of a waker comes directly after its own CPU's test. */
  ghost predicate WakesTogether(steps: seq<Step>) {
    forall i :: 0 <= i < |steps| ==> WakeFollows(steps, i)
  }

  ghost predicate WakeFollows(steps: seq<Step>, i: nat)
    requires i < |steps|
  {
    steps[i].WakeTry? ==> i > 0 && steps[i - 1] == WakeTest(steps[i].cpu)
  }

  /** A try directly after its clear or its test is never late. */
  lemma FollowsIsTimely(states: seq<State>, steps: seq<Step>, i: nat)
    requires IsRun(states, steps) && i < |steps|
    requires steps[i].TryLeft? ==> ReleaseFollows(steps, i)
    requires steps[i].WakeTry? ==> WakeFollows(steps, i)
    ensures Timely(states[i], steps[i])
  {
    assert Exec(states[i], steps[i]) == Ok(states[i + 1]);
    if steps[i].TryLeft? || steps[i].WakeTry? {
      assert Exec(states[i - 1], steps[i - 1]) == Ok(states[i - 1 + 1]);
    }
  }

  /** So with nothing in the gaps no try comes too late, and exclusion holds. */
  lemma TogetherExclusive(states: seq<State>, steps: seq<Step>, i: nat)
    requires IsRun(states, steps) && ReleasesTogether(steps) && WakesTogether(steps) && i < |states|
    ensures TimelyTo(states, steps, i) && Excluded(states[i])
  {
    forall j | 0 <= j < i ensures Timely(states[j], steps[j]) {
      assert ReleaseFollows(steps, j) && WakeFollows(steps, j);
      FollowsIsTimely(states, steps, j);
    }
    Exclusive(states, steps, i);
  }

  // ---------------------------------------------------------------- pieces of a run

  ghost predicate Linked(states: seq<State>, steps: seq<Step>, i: nat)
    requires i < |steps| && |states| == |steps| + 1
  {
    Exec(states[i], steps[i]) == Ok(states[i + 1])
  }

  /** The states and steps of a run so far, its last state and step, and whether all tries of a release, or of a
      waker, came directly. */
  datatype Trace =
    Trace(states: seq<State>, steps: seq<Step>, end: State, last: Option<Step>, releases: bool, wakes: bool)
  {
    ghost predicate Valid() {
      && |states| == |steps| + 1 && end == states[|steps|]
      && (forall i :: 0 <= i < |steps| ==> Linked(states, steps, i))
      && (last.Some? ==> steps != [] && steps[|steps| - 1] == last.value)
      && (releases ==> ReleasesTogether(steps)) && (wakes ==> WakesTogether(steps))
    }
  }

  /** `r'` goes on from `r`, with no new late try. */
  ghost predicate Extends(r: Trace, r': Trace) { Goes(r, r') && r'.releases == r.releases && r'.wakes == r.wakes }

  ghost predicate Goes(r: Trace, r': Trace) { r.Valid() && r'.Valid() && r'.states[0] == r.states[0] }

  lemma Go(r: Trace, step: Step) returns (r': Trace)
    requires r.Valid() && Exec(r.end, step).Ok?
    ensures Goes(r, r') && Exec(r.end, step) == Ok(r'.end) && r'.last == Some(step)
    ensures r'.releases == (r.releases && (step.TryLeft? ==> r.last == Some(Clear(step.cpu))))
    ensures r'.wakes == (r.wakes && (step.WakeTry? ==> r.last == Some(WakeTest(step.cpu))))
  {
    var s' := Exec(r.end, step).state;
    r' := Trace(r.states + [s'], r.steps + [step], s', Some(step),
                r.releases && (step.TryLeft? ==> r.last == Some(Clear(step.cpu))),
                r.wakes && (step.WakeTry? ==> r.last == Some(WakeTest(step.cpu))));
    forall i | 0 <= i < |r.steps| ensures Linked(r'.states, r'.steps, i) { assert Linked(r.states, r.steps, i); }
    forall i | 0 <= i < |r.steps| && r.releases ensures ReleaseFollows(r'.steps, i) {
      assert ReleaseFollows(r.steps, i);
    }
    forall i | 0 <= i < |r.steps| && r.wakes ensures WakeFollows(r'.steps, i) {
      assert WakeFollows(r.steps, i);
    }
  }

  lemma TraceIsRun(r: Trace)
    requires r.Valid() && Booted(r.states[0])
    ensures IsRun(r.states, r.steps)
  {
    forall i | 0 <= i < |r.steps| ensures Exec(r.states[i], r.steps[i]) == Ok(r.states[i + 1]) {
      assert Linked(r.states, r.steps, i);
    }
  }

  /** Only CPU `c`, thread `t` and the waiters of `q` are different. */
  ghost predicate Changes(s: State, s': State, c: Cid, u: Cpu, t: Tid, th: Thread, q: Qid, ws: seq<Tid>) {
    && c < |s.cpus| && s'.cpus == s.cpus[c := u]
    && (forall x: Tid :: Th(s', x) == if x == t then th else Th(s, x))
    && (forall x: Qid :: Waiters(s', x) == if x == q then ws else Waiters(s, x))
  }

  const Q := Named(0)

  /** The same without a change of waiters. */
  ghost predicate Moves(s: State, s': State, c: Cid, u: Cpu, t: Tid, th: Thread) {
    Changes(s, s', c, u, t, th, Q, Waiters(s, Q)) && s'.locks == s.locks
  }

  /** CPU `c` is in a thread's own code and free to act. */
  ghost predicate Idling(s: State, c: Cid) { c < |s.cpus| && s.cpus[c].pc == Run && s.cpus[c].wake.None? }

  lemma HandsOver(r: Trace, c: Cid, q: Qid) returns (r': Trace)
    requires r.Valid() && Idling(r.end, c) && Free(r.end, q) && q.Named?
    requires r.end.cpus[c].current != r.end.cpus[c].idle
    ensures Extends(r, r')
    ensures var s := r.end;
            r'.end == s.(cpus := s.cpus[c := s.cpus[c].(pc := Handover(q))], locks := s.locks[q := c])
  {
    r' := Go(r, CheckWait(c, q));
  }

  lemma Enqueues(r: Trace, c: Cid, q: Qid) returns (r': Trace)
    requires r.Valid() && Idling(r.end, c) && Free(r.end, q) && q.Named?
    requires var s := r.end; var u := s.cpus[c];
             u.current != u.idle && Th(s, u.current).state == Running && Th(s, u.current).waiter.None?
    ensures Extends(r, r') && r'.end.locks == r.end.locks
    ensures var s := r.end; var u := s.cpus[c];
            Changes(s, r'.end, c, u.(pc := Waiting(q)), u.current,
                    Th(s, u.current).(state := Blocking, waiter := Some(q)), q, Waiters(s, q) + [u.current])
  {
    r' := HandsOver(r, c, q);
    r' := Go(r', Enqueue(c));
  }

  /** The current thread of `c` waits on `q` and is committed as Blocked. */
  lemma Waits(r: Trace, c: Cid, q: Qid) returns (r': Trace)
    requires r.Valid() && Idling(r.end, c) && Free(r.end, q) && q.Named?
    requires var s := r.end; var u := s.cpus[c];
             u.current != u.idle && Th(s, u.current).state == Running && Th(s, u.current).waiter.None?
    ensures Extends(r, r') && r'.end.locks == r.end.locks
    ensures var s := r.end; var u := s.cpus[c];
            Changes(s, r'.end, c, u.(pc := Choose(ToBlock)), u.current,
                    Th(s, u.current).(state := Blocked, waiter := Some(q)), q, Waiters(s, q) + [u.current])
  {
    r' := Enqueues(r, c, q);
    r' := Go(r', Commit(c));
  }

  /** wake_one on `q` up to the mark on its only waiter. */
  lemma Marks(r: Trace, c: Cid, q: Qid, t: Tid) returns (r': Trace)
    requires r.Valid() && Idling(r.end, c) && Free(r.end, q) && q.Named?
    requires Waiters(r.end, q) == [t] && Th(r.end, t).state == Blocked && Th(r.end, t).waiter.Some?
    ensures Extends(r, r') && r'.end.locks == r.end.locks[q := c]
    ensures var s := r.end; var th := Th(s, t);
            Changes(s, r'.end, c, s.cpus[c].(wake := Some(Wake(q, false, Some(t), false))), t,
                    th.(state := Waking, waiter := None, wakes := th.wakes + 1), q, [])
  {
    r' := Go(r, WakeStart(c, q, false));
    r' := Go(r', WakeFirst(c));
  }

  /** The waker finds the thread still on a CPU and leaves it to that CPU. */
  lemma LeavesIt(r: Trace, c: Cid, q: Qid, t: Tid) returns (r': Trace)
    requires r.Valid() && c < |r.end.cpus| && Th(r.end, t).onCpu
    requires r.end.cpus[c].wake == Some(Wake(q, false, Some(t), false))
    ensures Extends(r, r')
    ensures var s := r.end;
            r'.end == s.(cpus := s.cpus[c := s.cpus[c].(wake := None)], locks := s.locks - {q})
  {
    r' := Go(r, WakeTest(c));
  }

  /** The waker finds the thread on no CPU. */
  lemma FindsClear(r: Trace, c: Cid, q: Qid, t: Tid) returns (r': Trace)
    requires r.Valid() && c < |r.end.cpus| && !Th(r.end, t).onCpu
    requires r.end.cpus[c].wake == Some(Wake(q, false, Some(t), false))
    ensures Extends(r, r') && r'.last == Some(WakeTest(c))
    ensures var s := r.end;
            r'.end == s.(cpus := s.cpus[c := s.cpus[c].(wake := Some(Wake(q, false, Some(t), true)))])
  {
    r' := Go(r, WakeTest(c));
  }

  /** A thread as a successful try on `c` leaves it. */
  ghost function Queued(th: Thread, c: Cid): Thread {
    th.(state := Ready, runNode := Some(c), inserts := th.inserts + 1)
  }

  /** The waker's try. */
  lemma Queues(r: Trace, c: Cid, q: Qid, t: Tid) returns (r': Trace)
    requires r.Valid() && c < |r.end.cpus| && Th(r.end, t).state == Waking
    requires r.end.cpus[c].wake == Some(Wake(q, false, Some(t), true))
    ensures Goes(r, r') && r'.releases == r.releases && r'.wakes == (r.wakes && r.last == Some(WakeTest(c)))
    ensures r'.end.locks == r.end.locks - {q}
    ensures var s := r.end; var u := s.cpus[c];
            Changes(s, r'.end, c, u.(ready := u.ready + [t], wake := None), t, Queued(Th(s, t), c), q, Waiters(s, q))
  {
    r' := Go(r, WakeTry(c));
  }

  /** A blocked current thread gives way to the idle thread, which is chosen and Running. */
  lemma ChoosesIdle(r: Trace, c: Cid) returns (r': Trace)
    requires r.Valid() && c < |r.end.cpus|
    requires var s := r.end; var u := s.cpus[c];
             u.pc == Choose(ToBlock) && u.wake.None? && u.ready == [] && Th(s, u.idle).state == Idle
    ensures Extends(r, r')
    ensures var s := r.end; var u := s.cpus[c];
            Moves(s, r'.end, c, u.(pc := Committed(ToBlock, u.idle)), u.idle, Th(s, u.idle).(state := Running))
  {
    r' := Go(r, GetNext(c));
    r' := Go(r', CommitNext(c));
  }

  /** The committed next thread gets the CPU: the CPU lands on its stack. */
  lemma Lands(r: Trace, c: Cid) returns (r': Trace)
    requires r.Valid() && c < |r.end.cpus|
    requires var u := r.end.cpus[c];
             u.pc.Committed? && u.pc.why != ToExit && u.wake.None? && u.previous.None? && u.pc.next != u.current
    ensures Extends(r, r')
    ensures var s := r.end; var u := s.cpus[c]; var n := u.pc.next;
            Moves(s, r'.end, c, u.(current := n, stack := n, previous := Some(u.current), pc := Landed), n,
                  Th(s, n).(onCpu := true))
  {
    r' := Go(r, Prepare(c));
    r' := Go(r', SwitchContext(c));
  }

  /** The first half of the release. */
  lemma Clears(r: Trace, c: Cid) returns (r': Trace)
    requires r.Valid() && c < |r.end.cpus|
    requires var s := r.end; var u := s.cpus[c];
             && u.pc == Landed && u.wake.None? && u.previous.Some? && u.previous.value != u.current
             && Th(s, u.current).onCpu
    ensures Extends(r, r') && r'.last == Some(Clear(c))
    ensures var s := r.end; var u := s.cpus[c]; var p := u.previous.value;
            Moves(s, r'.end, c, u.(previous := None, pc := Releasing(p)), p, Th(s, p).(onCpu := false))
  {
    r' := Go(r, Clear(c));
  }

  lemma Reaps(r: Trace, c: Cid) returns (r': Trace)
    requires r.Valid() && c < |r.end.cpus|
    requires var u := r.end.cpus[c]; u.pc == Reaping && u.wake.None? && u.pendingExit.None?
    ensures Extends(r, r')
    ensures var s := r.end; r'.end == s.(cpus := s.cpus[c := s.cpus[c].(pc := Run)])
  {
    r' := Go(r, Reap(c));
  }

  /** The second half, for a thread that is not Waking, and the return to the thread's own code. */
  lemma Returns(r: Trace, c: Cid) returns (r': Trace)
    requires r.Valid() && c < |r.end.cpus|
    requires var s := r.end; var u := s.cpus[c];
             u.pc.Releasing? && u.wake.None? && u.pendingExit.None? && Th(s, u.pc.left).state != Waking
    ensures Goes(r, r') && r'.wakes == r.wakes && r'.releases == (r.releases && r.last == Some(Clear(c)))
    ensures var s := r.end; r'.end == s.(cpus := s.cpus[c := s.cpus[c].(pc := Run)])
  {
    r' := Go(r, TryLeft(c));
    r' := Reaps(r', c);
  }

  /** The second half, for a thread that is Waking. */
  lemma Tries(r: Trace, c: Cid) returns (r': Trace)
    requires r.Valid() && c < |r.end.cpus|
    requires var s := r.end; var u := s.cpus[c];
             u.pc.Releasing? && u.wake.None? && Th(s, u.pc.left).state == Waking
    ensures Goes(r, r') && r'.wakes == r.wakes && r'.releases == (r.releases && r.last == Some(Clear(c)))
    ensures var s := r.end; var u := s.cpus[c]; var t := u.pc.left;
            Moves(s, r'.end, c, u.(ready := u.ready + [t], pc := Reaping), t, Queued(Th(s, t), c))
  {
    r' := Go(r, TryLeft(c));
  }

  /** A yield takes the first ready thread. */
  lemma Yields(r: Trace, c: Cid) returns (r': Trace)
    requires r.Valid() && Idling(r.end, c)
    requires var u := r.end.cpus[c]; u.ready != [] && u.ready[0] != u.current
    ensures Extends(r, r')
    ensures var s := r.end; var u := s.cpus[c]; var t := u.ready[0];
            Moves(s, r'.end, c, u.(ready := u.ready[1..], pc := Chosen(ToYield, t)), t, Th(s, t).(runNode := None))
  {
    r' := Go(r, Yield(c));
    r' := Go(r', GetNext(c));
  }

  /** The yielding thread is put back. */
  lemma PutsBack(r: Trace, c: Cid) returns (r': Trace)
    requires r.Valid() && c < |r.end.cpus|
    requires var s := r.end; var u := s.cpus[c];
             u.pc.Chosen? && u.pc.why == ToYield && u.wake.None? && Th(s, u.current).state == Running
    ensures Extends(r, r')
    ensures var s := r.end; var u := s.cpus[c]; var th := Th(s, u.current);
            var u' := u.(pc := Requeued(u.pc.next));
            if u.current == u.idle then Moves(s, r'.end, c, u', u.current, th.(state := Idle))
            else Moves(s, r'.end, c, u'.(ready := u.ready + [u.current]), u.current,
                       th.(state := Ready, runNode := Some(c)))
  {
    r' := Go(r, Requeue(c));
  }

  lemma CommitsNext(r: Trace, c: Cid) returns (r': Trace)
    requires r.Valid() && c < |r.end.cpus|
    requires var s := r.end; var u := s.cpus[c];
             u.pc.Requeued? && u.wake.None? && Th(s, u.pc.next).state == Ready
    ensures Extends(r, r')
    ensures var s := r.end; var u := s.cpus[c]; var n := u.pc.next;
            Moves(s, r'.end, c, u.(pc := Committed(ToYield, n)), n, Th(s, n).(state := Running))
  {
    r' := Go(r, CommitNext(c));
  }

  /** CPU `c` lands on its first thread and goes to its own code. */
  lemma Boots(r: Trace, c: Cid) returns (r': Trace)
    requires r.Valid() && c < |r.end.cpus|
    requires var u := r.end.cpus[c]; u.pc == Landed && u.wake.None? && u.previous.None? && u.pendingExit.None?
    ensures Extends(r, r')
    ensures var s := r.end; var u := s.cpus[c];
            Moves(s, r'.end, c, u.(pc := Run), u.current, Th(s, u.current).(onCpu := true))
  {
    r' := Go(r, Clear(c));
    r' := Reaps(r', c);
  }

  // ---------------------------------------------------------------- two runs on three CPUs

  const R := Named(1)

  /** A CPU on the stack of thread `t`. */
  function On(t: Tid, idle: Tid, ready: seq<Tid>, pc: Pc): Cpu { Cpu(t, t, None, None, idle, ready, pc, None) }

  function Busy(wakes: nat, inserts: nat): Thread { Thread(Running, true, None, None, wakes, inserts) }

  const RESTING := FRESH.(state := Idle)

  /** The first three CPUs, the threads of the first and the main thread of the second, the locks and waiters. */
  ghost predicate Stage(r: Trace, u0: Cpu, u1: Cpu, u2: Cpu, th0: Thread, th1: Thread, th2: Thread,
                        locks: map<Qid, Cid>, qs: seq<Tid>, rs: seq<Tid>) {
    && r.Valid()
    && var s := r.end;
       && |s.cpus| >= 3 && s.cpus[0] == u0 && s.cpus[1] == u1 && s.cpus[2] == u2
       && Th(s, 0) == th0 && Th(s, 1) == th1 && Th(s, 2) == th2
       && s.locks == locks && Waiters(s, Q) == qs && Waiters(s, R) == rs
  }

  lemma AllUp(s: State) returns (r: Trace)
    requires Booted(s) && |s.cpus| >= 3
    ensures r.Valid() && r.states[0] == s && r.releases && r.wakes
    ensures Stage(r, On(0, 1, [], Run), On(2, 3, [], Run), On(4, 5, [], Run),
                  Busy(0, 0), RESTING, Busy(0, 0), map[], [], [])
  {
    r := Trace([s], [], s, None, true, true);
    r := Boots(r, 0);
    r := Boots(r, 1);
    r := Boots(r, 2);
  }

  /** Thread 0 blocks on `Q` and CPU 0 lands on its idle thread. */
  lemma Leaves(r: Trace) returns (r': Trace)
    requires Stage(r, On(0, 1, [], Run), On(2, 3, [], Run), On(4, 5, [], Run),
                   Busy(0, 0), RESTING, Busy(0, 0), map[], [], [])
    ensures Extends(r, r')
    ensures Stage(r', On(1, 1, [], Landed).(previous := Some(0)), On(2, 3, [], Run), On(4, 5, [], Run),
                  Thread(Blocked, true, None, Some(Q), 0, 0), Busy(0, 0), Busy(0, 0), map[], [0], [])
  {
    r' := Waits(r, 0, Q);
    r' := ChoosesIdle(r', 0);
    r' := Lands(r', 0);
  }

  /** CPU 1 wakes thread 0 between the halves of CPU 0's release, and picks it. */
  lemma TakenOver(r: Trace) returns (r': Trace)
    requires Stage(r, On(1, 1, [], Landed).(previous := Some(0)), On(2, 3, [], Run), On(4, 5, [], Run),
                   Thread(Blocked, true, None, Some(Q), 0, 0), Busy(0, 0), Busy(0, 0), map[], [0], [])
    ensures Extends(r, r')
    ensures Stage(r', On(1, 1, [], Releasing(0)), On(2, 3, [0], Run), On(4, 5, [], Run),
                  Thread(Ready, false, Some(1), None, 1, 1), Busy(0, 0), Busy(0, 0), map[], [], [])
  {
    r' := Clears(r, 0);
    r' := Marks(r', 1, Q, 0);
    r' := FindsClear(r', 1, Q, 0);
    r' := Queues(r', 1, Q, 0);
    assert map[Q := 1] - {Q} == map[];
  }

  /** CPU 1 switches to thread 0... */
  lemma SwitchedTo(r: Trace) returns (r': Trace)
    requires Stage(r, On(1, 1, [], Releasing(0)), On(2, 3, [0], Run), On(4, 5, [], Run),
                   Thread(Ready, false, Some(1), None, 1, 1), Busy(0, 0), Busy(0, 0), map[], [], [])
    ensures Extends(r, r')
    ensures Stage(r', On(1, 1, [], Releasing(0)), On(0, 3, [2], Landed).(previous := Some(2)), On(4, 5, [], Run),
                  Busy(1, 1), Busy(0, 0), Thread(Ready, true, Some(1), None, 0, 0), map[], [], [])
  {
    r' := Yields(r, 1);
    r' := PutsBack(r', 1);
    r' := CommitsNext(r', 1);
    r' := Lands(r', 1);
  }

  /** ...which blocks again. */
  lemma BlocksAgain(r: Trace) returns (r': Trace)
    requires Stage(r, On(1, 1, [], Releasing(0)), On(0, 3, [2], Landed).(previous := Some(2)), On(4, 5, [], Run),
                   Busy(1, 1), Busy(0, 0), Thread(Ready, true, Some(1), None, 0, 0), map[], [], [])
    ensures Extends(r, r')
    ensures Stage(r', On(1, 1, [], Releasing(0)), On(0, 3, [2], Choose(ToBlock)), On(4, 5, [], Run),
                  Thread(Blocked, true, None, Some(Q), 1, 1), Busy(0, 0), Thread(Ready, false, Some(1), None, 0, 0),
                  map[], [0], [])
  {
    r' := Clears(r, 1);
    r' := Returns(r', 1);
    r' := Waits(r', 1, Q);
  }

  /** CPU 2 wakes it while CPU 1 is still on its stack. */
  lemma WokenAgain(r: Trace) returns (r': Trace)
    requires Stage(r, On(1, 1, [], Releasing(0)), On(0, 3, [2], Choose(ToBlock)), On(4, 5, [], Run),
                   Thread(Blocked, true, None, Some(Q), 1, 1), Busy(0, 0), Thread(Ready, false, Some(1), None, 0, 0),
                   map[], [0], [])
    ensures Extends(r, r')
    ensures Stage(r', On(1, 1, [], Releasing(0)), On(0, 3, [2], Choose(ToBlock)), On(4, 5, [], Run),
                  Thread(Waking, true, None, None, 2, 1), Busy(0, 0), Thread(Ready, false, Some(1), None, 0, 0),
                  map[], [], [])
  {
    r' := Marks(r, 2, Q, 0);
    r' := LeavesIt(r', 2, Q, 0);
    assert map[Q := 2] - {Q} == map[];
  }

  /** CPU 0's late try takes the new Waking for the old one, and CPU 0 switches to the thread. */
  lemma RunsTwice(r: Trace) returns (r': Trace)
    requires Stage(r, On(1, 1, [], Releasing(0)), On(0, 3, [2], Choose(ToBlock)), On(4, 5, [], Run),
                   Thread(Waking, true, None, None, 2, 1), Busy(0, 0), Thread(Ready, false, Some(1), None, 0, 0),
                   map[], [], [])
    ensures Goes(r, r') && r'.wakes == r.wakes && Shared(r'.end)
  {
    r' := Tries(r, 0);
    r' := Reaps(r', 0);
    r' := Yields(r', 0);
    r' := PutsBack(r', 0);
    r' := CommitsNext(r', 0);
    r' := Lands(r', 0);
  }

  /** Two CPUs run one thread on one stack. */
  ghost predicate Shared(s: State) {
    |s.cpus| >= 3 && s.cpus[0].stack == s.cpus[1].stack && s.cpus[0].current == s.cpus[1].current
  }

  /** A run that ends so has had a late try. */
  lemma SharedIsLate(states: seq<State>, steps: seq<Step>) returns (i: nat)
    requires IsRun(states, steps) && Shared(states[|states| - 1])
    ensures i < |steps| && !Timely(states[i], steps[i]) && (steps[i].TryLeft? || steps[i].WakeTry?)
  {
    ExclusiveIff(states, steps);
    assert !Apart(states[|states| - 1], 0, 1);
    i :| 0 <= i < |steps| && !Timely(states[i], steps[i]);
  }

  lemma LateReleaseTrace(s: State) returns (r: Trace)
    requires Booted(s) && |s.cpus| >= 3
    ensures r.Valid() && r.states[0] == s && r.wakes && Shared(r.end)
  {
    r := AllUp(s);
    r := Leaves(r);
    r := TakenOver(r);
    r := SwitchedTo(r);
    r := BlocksAgain(r);
    r := WokenAgain(r);
    r := RunsTwice(r);
  }

  /** On any machine with three CPUs, although every waker tests and tries in one go, a release whose try comes late
      ends with two CPUs on one stack. */
  lemma LateRelease(s: State) returns (states: seq<State>, steps: seq<Step>)
    requires Booted(s) && |s.cpus| >= 3
    ensures IsRun(states, steps) && states[0] == s && Shared(states[|states| - 1])
    ensures WakesTogether(steps) && exists i :: 0 <= i < |steps| && steps[i].TryLeft? && !Timely(states[i], steps[i])
  {
    var r := LateReleaseTrace(s);
    states, steps := r.states, r.steps;
    TraceIsRun(r);
    var i := SharedIsLate(states, steps);
    if steps[i].WakeTry? {
      assert WakeFollows(steps, i);
      FollowsIsTimely(states, steps, i);
    }
  }

  /** CPU 1 marks thread 0; CPU 0 releases it in one go and queues it; CPU 1 reads its on_cpu as clear. */
  lemma TestedLate(r: Trace) returns (r': Trace)
    requires Stage(r, On(1, 1, [], Landed).(previous := Some(0)), On(2, 3, [], Run), On(4, 5, [], Run),
                   Thread(Blocked, true, None, Some(Q), 0, 0), Busy(0, 0), Busy(0, 0), map[], [0], [])
    ensures Extends(r, r')
    ensures Stage(r', On(1, 1, [0], Run), On(2, 3, [], Run).(wake := Some(Wake(Q, false, Some(0), true))),
                  On(4, 5, [], Run), Thread(Ready, false, Some(0), None, 1, 1), Busy(0, 0), Busy(0, 0),
                  map[Q := 1], [], [])
  {
    r' := Marks(r, 1, Q, 0);
    r' := Clears(r', 0);
    assert Th(r'.end, 0) == Thread(Waking, false, None, None, 1, 0) && r'.end.cpus[0] == On(1, 1, [], Releasing(0));
    r' := Tries(r', 0);
    assert Th(r'.end, 0) == Thread(Ready, false, Some(0), None, 1, 1);
    r' := Reaps(r', 0);
    r' := FindsClear(r', 1, Q, 0);
  }

  /** CPU 0 runs thread 0 again... */
  lemma RunsAgain(r: Trace) returns (r': Trace)
    requires Stage(r, On(1, 1, [0], Run), On(2, 3, [], Run).(wake := Some(Wake(Q, false, Some(0), true))),
                   On(4, 5, [], Run), Thread(Ready, false, Some(0), None, 1, 1), Busy(0, 0), Busy(0, 0),
                   map[Q := 1], [], [])
    ensures Extends(r, r')
    ensures Stage(r', On(0, 1, [], Landed).(previous := Some(1)),
                  On(2, 3, [], Run).(wake := Some(Wake(Q, false, Some(0), true))), On(4, 5, [], Run),
                  Busy(1, 1), RESTING.(onCpu := true), Busy(0, 0), map[Q := 1], [], [])
  {
    r' := Yields(r, 0);
    r' := PutsBack(r', 0);
    r' := CommitsNext(r', 0);
    r' := Lands(r', 0);
  }

  /** ...which blocks on `R`. */
  lemma BlocksOnR(r: Trace) returns (r': Trace)
    requires Stage(r, On(0, 1, [], Landed).(previous := Some(1)),
                   On(2, 3, [], Run).(wake := Some(Wake(Q, false, Some(0), true))), On(4, 5, [], Run),
                   Busy(1, 1), RESTING.(onCpu := true), Busy(0, 0), map[Q := 1], [], [])
    ensures Extends(r, r')
    ensures Stage(r', On(0, 1, [], Choose(ToBlock)), On(2, 3, [], Run).(wake := Some(Wake(Q, false, Some(0), true))),
                  On(4, 5, [], Run), Thread(Blocked, true, None, Some(R), 1, 1), RESTING, Busy(0, 0),
                  map[Q := 1], [], [0])
  {
    r' := Clears(r, 0);
    r' := Returns(r', 0);
    r' := Waits(r', 0, R);
  }

  /** CPU 2 wakes it while CPU 0 is still on its stack. */
  lemma WokenOnR(r: Trace) returns (r': Trace)
    requires Stage(r, On(0, 1, [], Choose(ToBlock)), On(2, 3, [], Run).(wake := Some(Wake(Q, false, Some(0), true))),
                   On(4, 5, [], Run), Thread(Blocked, true, None, Some(R), 1, 1), RESTING, Busy(0, 0),
                   map[Q := 1], [], [0])
    ensures Extends(r, r')
    ensures Stage(r', On(0, 1, [], Choose(ToBlock)), On(2, 3, [], Run).(wake := Some(Wake(Q, false, Some(0), true))),
                  On(4, 5, [], Run), Thread(Waking, true, None, None, 2, 1), RESTING, Busy(0, 0),
                  map[Q := 1], [], [])
  {
    r' := Marks(r, 2, R, 0);
    r' := LeavesIt(r', 2, R, 0);
    assert map[Q := 1, R := 2] - {R} == map[Q := 1];
  }

  /** CPU 1's late try takes the new Waking for the old one, and CPU 1 switches to the thread. */
  lemma SwitchesToo(r: Trace) returns (r': Trace)
    requires Stage(r, On(0, 1, [], Choose(ToBlock)), On(2, 3, [], Run).(wake := Some(Wake(Q, false, Some(0), true))),
                   On(4, 5, [], Run), Thread(Waking, true, None, None, 2, 1), RESTING, Busy(0, 0),
                   map[Q := 1], [], [])
    ensures Goes(r, r') && r'.releases == r.releases && Shared(r'.end)
  {
    r' := Queues(r, 1, Q, 0);
    r' := Yields(r', 1);
    r' := PutsBack(r', 1);
    r' := CommitsNext(r', 1);
    r' := Lands(r', 1);
  }

  lemma LateWakerTrace(s: State) returns (r: Trace)
    requires Booted(s) && |s.cpus| >= 3
    ensures r.Valid() && r.states[0] == s && r.releases && Shared(r.end)
  {
    r := AllUp(s);
    r := Leaves(r);
    r := TestedLate(r);
    r := RunsAgain(r);
    r := BlocksOnR(r);
    r := WokenOnR(r);
    r := SwitchesToo(r);
  }

  /** So does a waker whose try comes late, although every release clears and tries in one go. */
  lemma LateWaker(s: State) returns (states: seq<State>, steps: seq<Step>)
    requires Booted(s) && |s.cpus| >= 3
    ensures IsRun(states, steps) && states[0] == s && Shared(states[|states| - 1])
    ensures ReleasesTogether(steps) && exists i :: 0 <= i < |steps| && steps[i].WakeTry? && !Timely(states[i], steps[i])
  {
    var r := LateWakerTrace(s);
    states, steps := r.states, r.steps;
    TraceIsRun(r);
    var i := SharedIsLate(states, steps);
    if steps[i].TryLeft? {
      assert ReleaseFollows(steps, i);
      FollowsIsTimely(states, steps, i);
    }
  }
}
