/** Who holds the queue locks of the thread machine, for how long, and that nobody waits for a stuck CPU. */
module ThreadProgress {
  import opened Base
  import opened ThreadMachine
  import opened ThreadTheorems
  import opened ThreadQueues

  /** Over every run, late tries or not. */
  lemma {:induction false} RunLocked(states: seq<State>, steps: seq<Step>, i: nat)
    requires IsRun(states, steps) && i < |states|
    ensures Locked(states[i])
  {
    if i == 0 {
    } else {
      RunLocked(states, steps, i - 1);
      LockedKeeps(states[i - 1], steps[i - 1], states[i]);
    }
  }

  // ---------------------------------------------------------------- how long a lock is held

  /** A bound on the steps the holder of `q` still takes: three for each waiter to wake. */
  ghost function Work(s: State, q: Qid): nat
    requires q in s.locks && Inside(s, s.locks[q], q)
  {
    var u := s.cpus[s.locks[q]];
    if u.wake.None? then 1
    else
      var k := u.wake.value;
      (if k.all then 3 * |Waiters(s, q)| + 1 else if k.marked.None? then 3 else 0)
      + (if k.marked.None? then 0 else if k.tested then 1 else 2)
  }

  /** Inside its section the holder can only go on with it. */
  lemma GoesOn(s: State, step: Step, s': State, q: Qid)
    requires Locked(s) && Exec(s, step) == Ok(s') && Inside(s, step.cpu, q)
    ensures s.cpus[step.cpu].wake.None? ==> step.Enqueue?
    ensures s.cpus[step.cpu].wake.Some? ==>
              (step.WakeFirst? || step.WakeTest? || step.WakeTry?) && s.cpus[step.cpu].wake.value.q == q
  {
  }

  lemma HolderSteps(s: State, step: Step, s': State, q: Qid)
    requires Locked(s) && Locked(s') && Exec(s, step) == Ok(s') && Inside(s, step.cpu, q)
    ensures q in s'.locks ==> s'.locks[q] == s.locks[q] && Work(s', q) < Work(s, q)
  {
    assert s.locks[q] == step.cpu && (q in s'.locks ==> Inside(s', s'.locks[q], q));
    GoesOn(s, step, s', q);
    if step.WakeFirst? { FirstAdvances(s, step.cpu, s', q); }
    else if step.WakeTest? || step.WakeTry? { MarkedAdvances(s, step, s', q); }
  }

  lemma FirstAdvances(s: State, c: Cid, s': State, q: Qid)
    requires c < |s.cpus| && ExecWakeFirst(s, c) == Ok(s') && s.cpus[c].wake.Some? && s.cpus[c].wake.value.q == q
    requires q in s.locks && s.locks[q] == c
    ensures q in s'.locks ==> s'.locks[q] == c && Inside(s', c, q) && Work(s', q) < Work(s, q)
  {
  }

  lemma MarkedAdvances(s: State, step: Step, s': State, q: Qid)
    requires var c := step.cpu; c < |s.cpus| && s.cpus[c].wake.Some? && s.cpus[c].wake.value.q == q
    requires Exec(s, step) == Ok(s') && (step.WakeTest? || step.WakeTry?)
    requires q in s.locks && s.locks[q] == step.cpu
    ensures q in s'.locks ==> s'.locks[q] == step.cpu && Inside(s', step.cpu, q) && Work(s', q) < Work(s, q)
  {
  }

  /** Other CPUs do not touch what a lock protects, and each step of its holder brings the release nearer. */
  lemma HolderAdvances(s: State, step: Step, s': State, q: Qid)
    requires Locked(s) && Exec(s, step) == Ok(s') && q in s.locks
    ensures Locked(s') && (q in s'.locks ==> s'.locks[q] == s.locks[q])
    ensures step.cpu != s.locks[q] ==> q in s'.locks && Waiters(s', q) == Waiters(s, q) && Work(s', q) == Work(s, q)
    ensures step.cpu == s.locks[q] && q in s'.locks ==> Work(s', q) < Work(s, q)
  {
    LockedKeeps(s, step, s');
    assert Inside(s, s.locks[q], q);
    if step.cpu != s.locks[q] {
      QueueStep(s, step, s', q);
      OthersKeepOff(s, step, s', q);
    } else {
      HolderSteps(s, step, s', q);
    }
  }

  /** How many of the steps from `i` to `j` are of CPU `c`. */
  ghost function StepsOf(steps: seq<Step>, c: Cid, i: nat, j: nat): nat
    requires i <= j <= |steps|
  {
    if i == j then 0 else StepsOf(steps, c, i, j - 1) + (if steps[j - 1].cpu == c then 1 else 0)
  }

  /** What the holder of `q` has still to do at each point, or nothing. */
  ghost function WorkAt(states: seq<State>, i: nat, q: Qid): nat
    requires i < |states|
  {
    if q in states[i].locks && Inside(states[i], states[i].locks[q], q) then Work(states[i], q) else 0
  }

  lemma HeldStep(states: seq<State>, steps: seq<Step>, j: nat, q: Qid)
    requires IsRun(states, steps) && j < |steps| && q in states[j].locks && q in states[j + 1].locks
    ensures states[j + 1].locks[q] == states[j].locks[q] && WorkAt(states, j + 1, q) > 0
    ensures WorkAt(states, j + 1, q) + (if steps[j].cpu == states[j].locks[q] then 1 else 0) <= WorkAt(states, j, q)
  {
    RunLocked(states, steps, j);
    HolderAdvances(states[j], steps[j], states[j + 1], q);
  }

  /** The step from `k` leaves the lock with its holder, and less work if it is the holder's, never more. */
  ghost predicate Drains(states: seq<State>, steps: seq<Step>, k: nat, q: Qid)
    requires k < |steps| && |states| == |steps| + 1
  {
    && q in states[k].locks && q in states[k + 1].locks && states[k + 1].locks[q] == states[k].locks[q]
    && WorkAt(states, k + 1, q) + (if steps[k].cpu == states[k].locks[q] then 1 else 0) <= WorkAt(states, k, q)
  }

  lemma {:induction false} CountDown(states: seq<State>, steps: seq<Step>, i: nat, j: nat, q: Qid)
    requires |states| == |steps| + 1 && i <= j < |states| && q in states[i].locks
    requires forall k :: i <= k < j ==> Drains(states, steps, k, q)
    ensures q in states[j].locks && states[j].locks[q] == states[i].locks[q]
    ensures StepsOf(steps, states[i].locks[q], i, j) + WorkAt(states, j, q) <= WorkAt(states, i, q)
    decreases j
  {
    if i < j {
      CountDown(states, steps, i, j - 1, q);
      assert Drains(states, steps, j - 1, q);
    }
  }

  /** A lock held from `i` to `j` stays with its holder, whose steps are paid from its work at `i`. */
  lemma BoundedHold(states: seq<State>, steps: seq<Step>, i: nat, j: nat, q: Qid)
    requires IsRun(states, steps) && i <= j < |states| && forall k :: i <= k <= j ==> q in states[k].locks
    ensures states[j].locks[q] == states[i].locks[q]
    ensures StepsOf(steps, states[i].locks[q], i, j) + WorkAt(states, j, q) <= WorkAt(states, i, q)
    ensures WorkAt(states, i, q) <= 3 * |Waiters(states[i], q)| + 3 && WorkAt(states, j, q) > 0
  {
    RunLocked(states, steps, i);
    RunLocked(states, steps, j);
    forall k | i <= k < j ensures Drains(states, steps, k, q) { HeldStep(states, steps, k, q); }
    CountDown(states, steps, i, j, q);
  }

  // ---------------------------------------------------------------- nobody waits for a stuck CPU

  ghost predicate CanStep(s: State, c: Cid) { exists step: Step :: step.cpu == c && Exec(s, step).Ok? }

  /** CPU `c` cannot go on before the lock of `q` is free. */
  ghost predicate Awaits(s: State, c: Cid, q: Qid) {
    && c < |s.cpus| && s.cpus[c].wake.None? && !Free(s, q)
    && (s.cpus[c].pc == Waiting(q) || (s.cpus[c].pc == Dying && q == Joiners(s.cpus[c].current)))
  }

  /** The step a CPU takes next, if no lock keeps it. */
  ghost function NextStep(s: State, c: Cid): Step
    requires c < |s.cpus|
  {
    var u := s.cpus[c];
    if u.wake.Some? then
      if u.wake.value.marked.None? then WakeFirst(c) else if u.wake.value.tested then WakeTry(c) else WakeTest(c)
    else
      match u.pc
      case Run => Yield(c)
      case Handover(_) => Enqueue(c)
      case Waiting(_) => Commit(c)
      case Dying => WakeJoiners(c)
      case Choose(_) => GetNext(c)
      case Chosen(why, _) => if why == ToYield then Requeue(c) else CommitNext(c)
      case Requeued(_) => CommitNext(c)
      case Committed(_, _) => Prepare(c)
      case Switching => SwitchContext(c)
      case Landed => Clear(c)
      case Releasing(_) => TryLeft(c)
      case Reaping => Reap(c)
  }

  /** It is stuck only at a lock. */
  lemma NextStuck(s: State, c: Cid)
    requires c < |s.cpus| && Exec(s, NextStep(s, c)) == Stuck
    ensures exists q :: Awaits(s, c, q)
  {
    var u := s.cpus[c];
    assert u.pc.Waiting? ==> Awaits(s, c, u.pc.q);
    assert u.pc == Dying ==> Awaits(s, c, Joiners(u.current));
  }

  /** At every point of a run every CPU can go on, or waits for a lock whose holder is another CPU that can. */
  lemma Progress(states: seq<State>, steps: seq<Step>, i: nat, c: Cid)
    requires IsRun(states, steps) && i < |states| && TimelyTo(states, steps, i) && c < |states[i].cpus|
    ensures var s := states[i];
            CanStep(s, c) || exists q :: Awaits(s, c, q) && s.locks[q] != c && CanStep(s, s.locks[q])
  {
    var s := states[i];
    RunLocked(states, steps, i);
    NeverPanics(states, steps, i, NextStep(s, c));
    if Exec(s, NextStep(s, c)) == Stuck {
      NextStuck(s, c);
      var q :| Awaits(s, c, q);
      var d := s.locks[q];
      assert Inside(s, d, q);
      NeverPanics(states, steps, i, NextStep(s, d));
      if Exec(s, NextStep(s, d)) == Stuck { NextStuck(s, d); }
      assert NextStep(s, d).cpu == d;
    } else {
      assert NextStep(s, c).cpu == c;
    }
  }
}
