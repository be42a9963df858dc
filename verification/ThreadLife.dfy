/** What scheduling does over whole runs: ready and wait queues are first in, first out, a chosen thread runs next, a
    CPU gets back out of the kernel, and a thread that exits is gone for good. */
module ThreadLife {
  import opened Base
  import opened ThreadMachine
  import opened ThreadInvariant
  import opened ThreadTheorems
  import opened ThreadQueues
  import opened ThreadProgress

  // ---------------------------------------------------------------- ready queues

  /** A ready queue loses its head to its own CPU's choice, and gains threads only at its tail, by its own CPU. */
  ghost predicate ReadyMoves(s: State, step: Step, s': State, c: Cid)
    requires c < |s.cpus|
  {
    && |s'.cpus| == |s.cpus|
    && var r, r' := s.cpus[c].ready, s'.cpus[c].ready;
       if step == GetNext(c) then r' == if r == [] then [] else r[1..]
       else r' == r || (step.cpu == c && |r'| == |r| + 1 && r'[..|r|] == r && Th(s', r'[|r|]).state == Ready)
  }

  lemma ReadyPlain(s: State, step: Step, s': State, c: Cid)
    requires c < |s.cpus| && Exec(s, step) == Ok(s') && step.cpu < |s.cpus|
    requires step.Spawn? || step.CheckWait? || step.Enqueue? || step.Commit? || step.Yield? || step.Exit?
          || step.WakeJoiners? || step.CommitNext?
    ensures ReadyMoves(s, step, s', c)
  {
  }

  lemma ReadySwitch(s: State, step: Step, s': State, c: Cid)
    requires c < |s.cpus| && Exec(s, step) == Ok(s') && step.cpu < |s.cpus|
    requires step.Prepare? || step.SwitchContext? || step.Clear? || step.Reap? || step.WakeStart?
    ensures ReadyMoves(s, step, s', c)
  {
  }

  lemma ReadyChoice(s: State, step: Step, s': State, c: Cid)
    requires c < |s.cpus| && Exec(s, step) == Ok(s') && step.cpu < |s.cpus|
    requires step.GetNext? || step.Start? || step.Requeue?
    ensures ReadyMoves(s, step, s', c)
  {
  }

  lemma ReadyTry(s: State, step: Step, s': State, c: Cid)
    requires c < |s.cpus| && Exec(s, step) == Ok(s') && step.cpu < |s.cpus| && (step.TryLeft? || step.WakeTry?)
    ensures ReadyMoves(s, step, s', c)
  {
  }

  lemma ReadyWake(s: State, step: Step, s': State, c: Cid)
    requires c < |s.cpus| && Exec(s, step) == Ok(s') && step.cpu < |s.cpus| && (step.WakeFirst? || step.WakeTest?)
    ensures ReadyMoves(s, step, s', c)
  {
  }

  lemma ReadyStep(s: State, step: Step, s': State, c: Cid)
    requires c < |s.cpus| && Exec(s, step) == Ok(s')
    ensures ReadyMoves(s, step, s', c)
  {
    if step.Prepare? || step.SwitchContext? || step.Clear? || step.Reap? || step.WakeStart? {
      ReadySwitch(s, step, s', c);
    } else if step.GetNext? || step.Start? || step.Requeue? {
      ReadyChoice(s, step, s', c);
    } else if step.TryLeft? || step.WakeTry? {
      ReadyTry(s, step, s', c);
    } else if step.WakeFirst? || step.WakeTest? {
      ReadyWake(s, step, s', c);
    } else {
      ReadyPlain(s, step, s', c);
    }
  }

  /** How often CPU `c` chooses from step `i` up to step `j`. */
  ghost function Choices(steps: seq<Step>, c: Cid, i: nat, j: nat): nat
    requires i <= j <= |steps|
  {
    if i == j then 0 else Choices(steps, c, i, j - 1) + (if steps[j - 1] == GetNext(c) then 1 else 0)
  }

  ghost predicate CpusStay(states: seq<State>, k: nat)
    requires k + 1 < |states|
  {
    |states[k + 1].cpus| == |states[k].cpus|
  }

  lemma StepCpus(s: State, step: Step, s': State)
    requires Exec(s, step) == Ok(s')
    ensures |s'.cpus| == |s.cpus|
  {
    ReadyStep(s, step, s', step.cpu);
  }

  /** The CPUs of a run stay. */
  lemma RunCpus(states: seq<State>, steps: seq<Step>, i: nat)
    requires IsRun(states, steps) && i < |states|
    ensures |states[i].cpus| == |states[0].cpus|
  {
    forall k | 0 <= k < i ensures CpusStay(states, k) {
      assert Exec(states[k], steps[k]) == Ok(states[k + 1]);
      StepCpus(states[k], steps[k], states[k + 1]);
    }
    SameCpus(states, i);
  }

  lemma {:induction false} SameCpus(states: seq<State>, i: nat)
    requires i < |states| && forall k :: 0 <= k < i ==> CpusStay(states, k)
    ensures |states[i].cpus| == |states[0].cpus|
  {
    if i > 0 {
      SameCpus(states, i - 1);
      assert CpusStay(states, i - 1);
    }
  }

  ghost predicate ReadyAt(states: seq<State>, steps: seq<Step>, c: Cid, k: nat)
    requires k < |steps| && |states| == |steps| + 1
  {
    c < |states[k].cpus| && ReadyMoves(states[k], steps[k], states[k + 1], c)
  }

  lemma RunReady(states: seq<State>, steps: seq<Step>, c: Cid, i: nat, j: nat)
    requires IsRun(states, steps) && i <= j < |states| && c < |states[i].cpus|
    ensures forall k :: i <= k < j ==> ReadyAt(states, steps, c, k)
  {
    RunCpus(states, steps, i);
    forall k | i <= k < j ensures ReadyAt(states, steps, c, k) {
      RunCpus(states, steps, k);
      assert Exec(states[k], steps[k]) == Ok(states[k + 1]);
      ReadyStep(states[k], steps[k], states[k + 1], c);
    }
  }

  /** A queued thread moves up by one with each choice of its CPU. */
  lemma {:induction false} MovesUp(states: seq<State>, steps: seq<Step>, c: Cid, i: nat, k: nat, j: nat)
    requires |states| == |steps| + 1 && i <= j < |states| && forall l :: i <= l < j ==> ReadyAt(states, steps, c, l)
    requires c < |states[i].cpus| && k < |states[i].cpus[c].ready| && Choices(steps, c, i, j) <= k
    ensures c < |states[j].cpus|
    ensures var p := k - Choices(steps, c, i, j);
            p < |states[j].cpus[c].ready| && states[j].cpus[c].ready[p] == states[i].cpus[c].ready[k]
    decreases j
  {
    if i < j {
      MovesUp(states, steps, c, i, k, j - 1);
      assert ReadyAt(states, steps, c, j - 1);
      var r, r', p := states[j - 1].cpus[c].ready, states[j].cpus[c].ready, k - Choices(steps, c, i, j - 1);
      if steps[j - 1] != GetNext(c) { assert r' == r || r'[..|r|][p] == r'[p]; }
    }
  }

  /** What the choice of a CPU falls on: the head of its ready queue, or its idle thread. */
  ghost function Favourite(s: State, c: Cid): Tid
    requires c < |s.cpus|
  {
    if s.cpus[c].ready == [] then s.cpus[c].idle else s.cpus[c].ready[0]
  }

  /** CPU `u` is on its way to running `t`. */
  ghost predicate Pursues(u: Cpu, t: Tid) {
    match u.pc
    case Chosen(_, n) => n == t
    case Requeued(n) => n == t
    case Committed(_, n) => n == t
    case Switching => u.current == t
    case Landed => u.current == t
    case Releasing(_) => u.current == t
    case Reaping => u.current == t
    case Run => u.current == t
    case _ => false
  }

  lemma ChoosesFavourite(s: State, c: Cid, s': State)
    requires c < |s.cpus| && Exec(s, GetNext(c)) == Ok(s')
    ensures c < |s'.cpus| && Pursues(s'.cpus[c], Favourite(s, c))
    ensures s.cpus[c].ready != [] ==> Picks(s', c, s.cpus[c].ready[0])
  {
  }

  ghost predicate Picks(s: State, c: Cid, t: Tid) {
    c < |s.cpus| && s.cpus[c].pc.Chosen? && s.cpus[c].pc.next == t
  }

  ghost predicate PicksHead(states: seq<State>, c: Cid, k: nat)
    requires k + 1 < |states|
  {
    c < |states[k].cpus| && states[k].cpus[c].ready != [] ==> Picks(states[k + 1], c, states[k].cpus[c].ready[0])
  }

  lemma RunPicks(states: seq<State>, steps: seq<Step>, c: Cid, k: nat)
    requires IsRun(states, steps) && k < |steps| && steps[k] == GetNext(c)
    ensures PicksHead(states, c, k)
  {
    assert Exec(states[k], steps[k]) == Ok(states[k + 1]);
    if c < |states[k].cpus| { ChoosesFavourite(states[k], c, states[k + 1]); }
  }

  lemma HeadByThen(states: seq<State>, steps: seq<Step>, c: Cid, i: nat, k: nat, j: nat)
    requires |states| == |steps| + 1 && i <= j < |steps| && PicksHead(states, c, j)
    requires forall l :: i <= l < j ==> ReadyAt(states, steps, c, l)
    requires c < |states[i].cpus| && k < |states[i].cpus[c].ready| && Choices(steps, c, i, j) == k
    ensures Picks(states[j + 1], c, states[i].cpus[c].ready[k])
  {
    MovesUp(states, steps, c, i, k, j);
  }

  /** The thread at index `k` of a ready queue is chosen by the (k+1)-th choice of its CPU from then on. */
  lemma Fifo(states: seq<State>, steps: seq<Step>, c: Cid, i: nat, k: nat, j: nat)
    requires IsRun(states, steps) && i <= j < |steps| && c < |states[i].cpus| && k < |states[i].cpus[c].ready|
    requires steps[j] == GetNext(c) && Choices(steps, c, i, j) == k
    ensures Picks(states[j + 1], c, states[i].cpus[c].ready[k])
  {
    RunReady(states, steps, c, i, j);
    RunPicks(states, steps, c, j);
    HeadByThen(states, steps, c, i, k, j);
  }

  // ---------------------------------------------------------------- through the kernel and back

  /** Steps of a waker, which may come between any two steps of a CPU that has interrupts on. */
  predicate IsWake(step: Step) { step.WakeStart? || step.WakeFirst? || step.WakeTest? || step.WakeTry? }

  /** How many of its own steps a CPU is from a thread's own code, at most. */
  function Rank(pc: Pc): (r: nat)
    ensures r <= 10
  {
    match pc
    case Run => 0
    case Reaping => 1
    case Releasing(_) => 2
    case Landed => 3
    case Switching => 4
    case Committed(_, _) => 5
    case Requeued(_) => 6
    case Chosen(_, _) => 7
    case Choose(_) => 8
    case Dying => 9
    case Waiting(_) => 9
    case Handover(_) => 10
  }

  /** A step in the kernel: the other CPUs stay, a waker leaves its place, and anything else comes nearer to the
      thread's own code, without giving up the thread it is to run. */
  ghost predicate Onward(s: State, step: Step, s': State, c: Cid)
    requires c < |s.cpus|
  {
    && |s'.cpus| == |s.cpus|
    && var u, u' := s.cpus[c], s'.cpus[c];
       && (step.cpu != c || IsWake(step) ==>
             u'.pc == u.pc && u'.current == u.current && u'.pendingExit == u.pendingExit)
       && (u.pc != Run && step.cpu == c && !IsWake(step) ==>
             && Rank(u'.pc) < Rank(u.pc)
             && (forall t :: Pursues(u, t) ==> Pursues(u', t))
             && (u.pc.Choose? || u.pc == Dying ==> u'.pc.Choose? || step == GetNext(c)))
  }

  lemma OnwardWait(s: State, step: Step, s': State, c: Cid)
    requires c < |s.cpus| && Exec(s, step) == Ok(s')
    requires step.Spawn? || step.Start? || step.CheckWait? || step.Enqueue? || step.Commit? || step.Yield? || step.Exit?
          || step.WakeJoiners?
    ensures Onward(s, step, s', c)
  {
  }

  lemma OnwardChoose(s: State, step: Step, s': State, c: Cid)
    requires c < |s.cpus| && Exec(s, step) == Ok(s') && (step.GetNext? || step.Requeue? || step.CommitNext?)
    ensures Onward(s, step, s', c)
  {
  }

  lemma OnwardSwitch(s: State, step: Step, s': State, c: Cid)
    requires c < |s.cpus| && Exec(s, step) == Ok(s')
    requires step.Prepare? || step.SwitchContext? || step.Reap?
    ensures Onward(s, step, s', c)
  {
  }

  lemma OnwardRelease(s: State, step: Step, s': State, c: Cid)
    requires c < |s.cpus| && Exec(s, step) == Ok(s') && step.Clear?
    ensures Onward(s, step, s', c)
  {
  }

  lemma OnwardTry(s: State, step: Step, s': State, c: Cid)
    requires c < |s.cpus| && Exec(s, step) == Ok(s') && step.TryLeft?
    ensures Onward(s, step, s', c)
  {
  }

  lemma OnwardWake(s: State, step: Step, s': State, c: Cid)
    requires c < |s.cpus| && Exec(s, step) == Ok(s') && IsWake(step)
    ensures Onward(s, step, s', c)
  {
  }

  lemma OnwardStep(s: State, step: Step, s': State, c: Cid)
    requires c < |s.cpus| && Exec(s, step) == Ok(s')
    ensures Onward(s, step, s', c)
  {
    if IsWake(step) {
      OnwardWake(s, step, s', c);
    } else if step.GetNext? || step.Requeue? || step.CommitNext? {
      OnwardChoose(s, step, s', c);
    } else if step.Prepare? || step.SwitchContext? || step.Reap? {
      OnwardSwitch(s, step, s', c);
    } else if step.Clear? {
      OnwardRelease(s, step, s', c);
    } else if step.TryLeft? {
      OnwardTry(s, step, s', c);
    } else {
      OnwardWait(s, step, s', c);
    }
  }

  ghost predicate OnwardAt(states: seq<State>, steps: seq<Step>, c: Cid, k: nat)
    requires k < |steps| && |states| == |steps| + 1
  {
    c < |states[k].cpus| && Onward(states[k], steps[k], states[k + 1], c)
  }

  lemma RunOnward(states: seq<State>, steps: seq<Step>, c: Cid, i: nat, j: nat)
    requires IsRun(states, steps) && i <= j < |states| && c < |states[0].cpus|
    ensures c < |states[i].cpus| && c < |states[j].cpus|
    ensures forall k :: i <= k < j ==> OnwardAt(states, steps, c, k)
  {
    RunCpus(states, steps, i);
    RunCpus(states, steps, j);
    forall k | i <= k < j ensures OnwardAt(states, steps, c, k) {
      RunCpus(states, steps, k);
      assert Exec(states[k], steps[k]) == Ok(states[k + 1]);
      OnwardStep(states[k], steps[k], states[k + 1], c);
    }
  }

  ghost predicate AtRun(states: seq<State>, c: Cid, k: nat)
    requires k < |states|
  {
    c < |states[k].cpus| && states[k].cpus[c].pc == Run
  }

  /** The steps from `i` to `j` that CPU `c` takes outside wakers. */
  ghost function OwnSteps(steps: seq<Step>, c: Cid, i: nat, j: nat): nat
    requires i <= j <= |steps|
  {
    if i == j then 0
    else OwnSteps(steps, c, i, j - 1) + (if steps[j - 1].cpu == c && !IsWake(steps[j - 1]) then 1 else 0)
  }

  lemma {:induction false} RankFalls(states: seq<State>, steps: seq<Step>, c: Cid, i: nat, j: nat)
    requires |states| == |steps| + 1 && i <= j < |states| && c < |states[i].cpus| && c < |states[j].cpus|
    requires forall k :: i <= k < j ==> OnwardAt(states, steps, c, k)
    requires forall k :: i <= k < j ==> !AtRun(states, c, k)
    ensures OwnSteps(steps, c, i, j) + Rank(states[j].cpus[c].pc) <= Rank(states[i].cpus[c].pc)
    decreases j
  {
    if i < j {
      assert OnwardAt(states, steps, c, j - 1) && !AtRun(states, c, j - 1);
      RankFalls(states, steps, c, i, j - 1);
    }
  }

  /** From any point a CPU is back in a thread's own code after at most ten of its own steps, wakers apart. */
  lemma KernelBounded(states: seq<State>, steps: seq<Step>, c: Cid, i: nat, j: nat)
    requires IsRun(states, steps) && i <= j < |states| && c < |states[0].cpus|
    requires forall k :: i <= k < j ==> !AtRun(states, c, k)
    ensures OwnSteps(steps, c, i, j) <= 10
  {
    RunOnward(states, steps, c, i, j);
    RankFalls(states, steps, c, i, j);
  }

  lemma {:induction false} StillPursues(states: seq<State>, steps: seq<Step>, c: Cid, i: nat, j: nat, t: Tid)
    requires |states| == |steps| + 1 && i <= j < |states| && c < |states[i].cpus| && Pursues(states[i].cpus[c], t)
    requires forall k :: i <= k < j ==> OnwardAt(states, steps, c, k)
    requires forall k :: i <= k < j ==> !AtRun(states, c, k)
    ensures c < |states[j].cpus| && Pursues(states[j].cpus[c], t)
    decreases j
  {
    if i < j {
      assert OnwardAt(states, steps, c, j - 1) && !AtRun(states, c, j - 1);
      StillPursues(states, steps, c, i, j - 1, t);
    }
  }

  /** What a CPU chooses is what it runs next: the head of its ready queue, or its idle thread when that is empty. */
  lemma ChosenRuns(states: seq<State>, steps: seq<Step>, c: Cid, i: nat, j: nat)
    requires IsRun(states, steps) && i < j < |states| && steps[i] == GetNext(c) && c < |states[i].cpus|
    requires AtRun(states, c, j) && (forall k :: i < k < j ==> !AtRun(states, c, k)) && TimelyTo(states, steps, j)
    ensures var t, s := Favourite(states[i], c), states[j];
            s.cpus[c].current == t && s.cpus[c].stack == t && Th(s, t).state == Running && Th(s, t).onCpu
  {
    RunCpus(states, steps, i);
    RunOnward(states, steps, c, i + 1, j);
    assert Exec(states[i], steps[i]) == Ok(states[i + 1]);
    ChoosesFavourite(states[i], c, states[i + 1]);
    StillPursues(states, steps, c, i + 1, j, Favourite(states[i], c));
    var g, w := RunInv(states, steps, j);
    assert CpuOk(states[j], g, c);
  }

  /** A yield and an exit lead out of the thread's own code. */
  lemma LeavesRun(s: State, step: Step, s': State)
    requires Exec(s, step) == Ok(s') && (step.Yield? || step.Exit?)
    ensures step.cpu < |s'.cpus| && (s'.cpus[step.cpu].pc.Choose? || s'.cpus[step.cpu].pc == Dying)
  {
  }

  lemma {:induction false} StillChoosing(states: seq<State>, steps: seq<Step>, c: Cid, i: nat, j: nat)
    requires |states| == |steps| + 1 && i <= j < |states| && c < |states[i].cpus|
    requires states[i].cpus[c].pc.Choose? || states[i].cpus[c].pc == Dying
    requires forall k :: i <= k < j ==> OnwardAt(states, steps, c, k)
    requires forall k :: i <= k < j ==> steps[k] != GetNext(c)
    ensures c < |states[j].cpus| && (states[j].cpus[c].pc.Choose? || states[j].cpus[c].pc == Dying)
    decreases j
  {
    if i < j {
      assert OnwardAt(states, steps, c, j - 1) && steps[j - 1] != GetNext(c);
      StillChoosing(states, steps, c, i, j - 1);
    }
  }

  /** After a yield or an exit a CPU runs a thread's own code again only by a choice from its ready queue. */
  lemma Schedules(states: seq<State>, steps: seq<Step>, i: nat, j: nat)
    requires IsRun(states, steps) && i < j < |states| && (steps[i].Yield? || steps[i].Exit?)
    requires AtRun(states, steps[i].cpu, j)
    ensures exists k :: i < k < j && steps[k] == GetNext(steps[i].cpu)
  {
    var c := steps[i].cpu;
    assert Exec(states[i], steps[i]) == Ok(states[i + 1]);
    LeavesRun(states[i], steps[i], states[i + 1]);
    RunCpus(states, steps, i + 1);
    RunOnward(states, steps, c, i + 1, j);
    if forall k :: i < k < j ==> steps[k] != GetNext(c) { StillChoosing(states, steps, c, i + 1, j); }
  }

  // ---------------------------------------------------------------- new threads

  /** Registering a thread puts it in the manager's keeping, and only a new one. */
  lemma SpawnRegisters(states: seq<State>, steps: seq<Step>, i: nat, t: Tid)
    requires IsRun(states, steps) && i < |steps| && TimelyTo(states, steps, i) && steps[i] == Spawn(steps[i].cpu, t)
    ensures Th(states[i], t).state == New && t !in states[i].manager
    ensures Th(states[i + 1], t).state == Registered && states[i + 1].manager == states[i].manager + {t}
  {
    assert Exec(states[i], steps[i]) == Ok(states[i + 1]);
    var g, w := RunInv(states, steps, i);
    assert ThreadOk(states[i], g, w, t);
  }

  /** A started thread is chosen by its CPU as soon as all that were ready there before it have been. */
  lemma StartedIsChosen(states: seq<State>, steps: seq<Step>, i: nat, t: Tid, j: nat)
    requires IsRun(states, steps) && i < j < |steps| && steps[i] == Start(steps[i].cpu, t)
    requires steps[i].cpu < |states[i].cpus| && steps[j] == GetNext(steps[i].cpu)
    requires Choices(steps, steps[i].cpu, i + 1, j) == |states[i].cpus[steps[i].cpu].ready|
    ensures Th(states[i + 1], t).state == Ready
    ensures Picks(states[j + 1], steps[i].cpu, t)
  {
    var c, k := steps[i].cpu, |states[i].cpus[steps[i].cpu].ready|;
    assert Exec(states[i], steps[i]) == Ok(states[i + 1]);
    assert states[i + 1].cpus[c].ready[k] == t;
    Fifo(states, steps, c, i + 1, k, j);
  }

  /** What a CPU in a thread's own code may do: yield, register any new thread and start any registered one; unless the
      thread is the idle one, exit, and wait on any queue whose lock is free, but not to join itself or a Dead thread;
      and wake a named queue whose lock is free. */
  lemma Offers(states: seq<State>, steps: seq<Step>, i: nat, c: Cid, t: Tid, q: Qid, all: bool)
    requires IsRun(states, steps) && i < |states| && TimelyTo(states, steps, i)
    requires AtRun(states, c, i) && states[i].cpus[c].wake.None?
    ensures var s := states[i]; var u := s.cpus[c];
            && Exec(s, Yield(c)).Ok?
            && (Exec(s, Spawn(c, t)).Ok? <==> Th(s, t).state == New)
            && (Exec(s, Start(c, t)).Ok? <==> Th(s, t).state == Registered)
            && (Exec(s, Exit(c)).Ok? <==> u.current != u.idle)
            && (Exec(s, CheckWait(c, q)).Ok? <==>
                  && u.current != u.idle && q !in s.locks
                  && (q.Joiners? ==> q.thread != u.current && Th(s, q.thread).state != Dead))
            && (Exec(s, WakeStart(c, q, all)).Ok? <==> q.Named? && q !in s.locks)
  {
    var g, w := RunInv(states, steps, i);
    assert CpuOk(states[i], g, c);
  }

  // ---------------------------------------------------------------- wait queues

  ghost predicate PopsAt(states: seq<State>, steps: seq<Step>, q: Qid, k: nat)
    requires k < |steps| && |states| == |steps| + 1
  {
    Pops(states[k], steps[k], q)
  }

  /** How often a waker takes from `q` from step `i` up to step `j`. */
  ghost function Taken(states: seq<State>, steps: seq<Step>, q: Qid, i: nat, j: nat): nat
    requires i <= j <= |steps| && |states| == |steps| + 1
  {
    if i == j then 0 else Taken(states, steps, q, i, j - 1) + (if PopsAt(states, steps, q, j - 1) then 1 else 0)
  }

  ghost predicate WaitersAt(states: seq<State>, steps: seq<Step>, q: Qid, k: nat)
    requires k < |steps| && |states| == |steps| + 1
  {
    var ws, ws' := Waiters(states[k], q), Waiters(states[k + 1], q);
    if PopsAt(states, steps, q, k) then ws' == if ws == [] then [] else ws[1..]
    else ws' == ws || (|ws'| == |ws| + 1 && ws'[..|ws|] == ws)
  }

  lemma RunWaiters(states: seq<State>, steps: seq<Step>, q: Qid, i: nat, j: nat)
    requires IsRun(states, steps) && i <= j < |states|
    ensures forall k :: i <= k < j ==> WaitersAt(states, steps, q, k)
  {
    forall k | i <= k < j ensures WaitersAt(states, steps, q, k) {
      RunLocked(states, steps, k);
      assert Exec(states[k], steps[k]) == Ok(states[k + 1]);
      QueueStep(states[k], steps[k], states[k + 1], q);
    }
  }

  lemma {:induction false} WaiterMovesUp(states: seq<State>, steps: seq<Step>, q: Qid, i: nat, k: nat, j: nat)
    requires |states| == |steps| + 1 && i <= j < |states| && forall l :: i <= l < j ==> WaitersAt(states, steps, q, l)
    requires k < |Waiters(states[i], q)| && Taken(states, steps, q, i, j) <= k
    ensures var p := k - Taken(states, steps, q, i, j);
            p < |Waiters(states[j], q)| && Waiters(states[j], q)[p] == Waiters(states[i], q)[k]
    decreases j
  {
    if i < j {
      WaiterMovesUp(states, steps, q, i, k, j - 1);
      assert WaitersAt(states, steps, q, j - 1);
      var ws, ws', p := Waiters(states[j - 1], q), Waiters(states[j], q), k - Taken(states, steps, q, i, j - 1);
      if !PopsAt(states, steps, q, j - 1) { assert ws' == ws || ws'[..|ws|][p] == ws'[p]; }
    }
  }

  /** The step from `s` to `s'` wakes thread `t`: it runs on, or it is to be made ready. */
  ghost predicate Wakes(s: State, s': State, t: Tid) {
    Th(s', t).waiter == None && Th(s', t).state == if Th(s, t).state == Blocked then Waking else Running
  }

  lemma HeadIsWoken(s: State, step: Step, s': State, q: Qid)
    requires Exec(s, step) == Ok(s') && Pops(s, step, q) && Waiters(s, q) != []
    ensures Wakes(s, s', Waiters(s, q)[0])
  {
  }

  ghost predicate WakesHead(states: seq<State>, q: Qid, k: nat)
    requires k + 1 < |states|
  {
    Waiters(states[k], q) != [] ==> Wakes(states[k], states[k + 1], Waiters(states[k], q)[0])
  }

  lemma RunWakes(states: seq<State>, steps: seq<Step>, q: Qid, k: nat)
    requires IsRun(states, steps) && k < |steps| && PopsAt(states, steps, q, k)
    ensures WakesHead(states, q, k)
  {
    assert Exec(states[k], steps[k]) == Ok(states[k + 1]);
    if Waiters(states[k], q) != [] { HeadIsWoken(states[k], steps[k], states[k + 1], q); }
  }

  lemma WaiterByThen(states: seq<State>, steps: seq<Step>, q: Qid, i: nat, k: nat, j: nat)
    requires |states| == |steps| + 1 && i <= j < |steps| && WakesHead(states, q, j)
    requires forall l :: i <= l < j ==> WaitersAt(states, steps, q, l)
    requires k < |Waiters(states[i], q)| && Taken(states, steps, q, i, j) == k
    ensures Wakes(states[j], states[j + 1], Waiters(states[i], q)[k])
  {
    WaiterMovesUp(states, steps, q, i, k, j);
  }

  /** The thread at index `k` of a wait queue is woken by the (k+1)-th wake-up of that queue from then on. */
  lemma WaitFifo(states: seq<State>, steps: seq<Step>, q: Qid, i: nat, k: nat, j: nat)
    requires IsRun(states, steps) && i <= j < |steps| && k < |Waiters(states[i], q)|
    requires PopsAt(states, steps, q, j) && Taken(states, steps, q, i, j) == k
    ensures Wakes(states[j], states[j + 1], Waiters(states[i], q)[k])
  {
    RunWaiters(states, steps, q, i, j);
    RunWakes(states, steps, q, j);
    WaiterByThen(states, steps, q, i, k, j);
  }

  // ---------------------------------------------------------------- exit

  /** Thread `t` is Dead, and CPU `c` still has it on its way out, or it is out of the manager. */
  ghost predicate Leaves(s: State, c: Cid, t: Tid) {
    && Th(s, t).state == Dead && c < |s.cpus|
    && var u := s.cpus[c];
       || t !in s.manager
       || (u.current == t && (u.pc == Dying || (PcHasReason(u.pc) && u.pc.why == ToExit)))
       || (u.pendingExit == Some(t) && (u.pc == Switching || u.pc == Landed || u.pc.Releasing? || u.pc == Reaping))
  }

  predicate PcHasReason(pc: Pc) { pc.Choose? || pc.Chosen? || pc.Committed? }

  /** What CPU `c` does with a thread on its way out. */
  ghost predicate Escorts(s: State, step: Step, s': State, c: Cid, t: Tid)
    requires c < |s.cpus|
  {
    && |s'.cpus| == |s.cpus|
    && var u, u' := s.cpus[c], s'.cpus[c];
       && (u.current == t && (u.pc == Dying || (PcHasReason(u.pc) && u.pc.why == ToExit)) ==>
             || (u'.current == t && (u'.pc == Dying || (PcHasReason(u'.pc) && u'.pc.why == ToExit)))
             || (u'.pendingExit == Some(t) && u'.pc == Switching))
       && (u.pendingExit == Some(t) && (u.pc == Switching || u.pc == Landed || u.pc.Releasing? || u.pc == Reaping) ==>
             || t !in s'.manager
             || (u'.pendingExit == Some(t)
                 && (u'.pc == Switching || u'.pc == Landed || u'.pc.Releasing? || u'.pc == Reaping)))
  }

  lemma EscortsEarly(s: State, step: Step, s': State, c: Cid, t: Tid)
    requires c < |s.cpus| && Exec(s, step) == Ok(s') && step.cpu == c
    requires step.WakeJoiners? || step.GetNext? || step.CommitNext? || step.Prepare?
    ensures Escorts(s, step, s', c, t)
  {
  }

  lemma EscortsLate(s: State, step: Step, s': State, c: Cid, t: Tid)
    requires c < |s.cpus| && Exec(s, step) == Ok(s') && step.cpu == c
    requires step.SwitchContext? || step.Clear? || step.TryLeft? || step.Reap?
    ensures Escorts(s, step, s', c, t)
  {
  }

  lemma EscortsElse(s: State, step: Step, s': State, c: Cid, t: Tid)
    requires c < |s.cpus| && Exec(s, step) == Ok(s') && step.cpu == c && !IsWake(step)
    requires !(step.WakeJoiners? || step.GetNext? || step.CommitNext? || step.Prepare?)
    requires !(step.SwitchContext? || step.Clear? || step.TryLeft? || step.Reap?)
    ensures Escorts(s, step, s', c, t)
  {
  }

  lemma LeavesBy(s: State, step: Step, s': State, c: Cid, t: Tid)
    requires Leaves(s, c, t) && MovesBy(s, step, s', t) && Onward(s, step, s', c)
    requires step.cpu != c || IsWake(step) || Escorts(s, step, s', c, t)
    ensures Leaves(s', c, t)
  {
  }

  lemma LeavesKeeps(s: State, step: Step, s': State, c: Cid, t: Tid)
    requires Leaves(s, c, t) && Exec(s, step) == Ok(s')
    ensures Leaves(s', c, t)
  {
    Moves(s, step, s', t);
    OnwardStep(s, step, s', c);
    if step.cpu == c && !IsWake(step) {
      if step.WakeJoiners? || step.GetNext? || step.CommitNext? || step.Prepare? {
        EscortsEarly(s, step, s', c, t);
      } else if step.SwitchContext? || step.Clear? || step.TryLeft? || step.Reap? {
        EscortsLate(s, step, s', c, t);
      } else {
        EscortsElse(s, step, s', c, t);
      }
    }
    LeavesBy(s, step, s', c, t);
  }

  ghost predicate LeavesAt(states: seq<State>, c: Cid, t: Tid, k: nat)
    requires k + 1 < |states|
  {
    Leaves(states[k], c, t) ==> Leaves(states[k + 1], c, t)
  }

  lemma {:induction false} StillLeaves(states: seq<State>, c: Cid, t: Tid, i: nat, j: nat)
    requires i <= j < |states| && Leaves(states[i], c, t) && forall k :: i <= k < j ==> LeavesAt(states, c, t, k)
    ensures Leaves(states[j], c, t)
    decreases j
  {
    if i < j {
      StillLeaves(states, c, t, i, j - 1);
      assert LeavesAt(states, c, t, j - 1);
    }
  }

  /** The thread that exits. */
  lemma ExitLeaves(s: State, c: Cid, s': State)
    requires c < |s.cpus| && Exec(s, Exit(c)) == Ok(s')
    ensures Leaves(s', c, s.cpus[c].current)
  {
  }

  /** An exit is for good: from then on the thread is Dead. */
  lemma ExitKills(states: seq<State>, steps: seq<Step>, c: Cid, i: nat, j: nat)
    requires IsRun(states, steps) && i < j < |states| && steps[i] == Exit(c) && c < |states[i].cpus|
    ensures Leaves(states[j], c, states[i].cpus[c].current)
  {
    var t := states[i].cpus[c].current;
    assert Exec(states[i], steps[i]) == Ok(states[i + 1]);
    ExitLeaves(states[i], c, states[i + 1]);
    forall k | i + 1 <= k < j ensures LeavesAt(states, c, t, k) {
      assert Exec(states[k], steps[k]) == Ok(states[k + 1]);
      if Leaves(states[k], c, t) { LeavesKeeps(states[k], steps[k], states[k + 1], c, t); }
    }
    StillLeaves(states, c, t, i + 1, j);
  }

  lemma DeadIsOut(s: State, g: Witness, w: Witness, t: Tid)
    requires Inv(s, g, w) && Th(s, t).state == Dead
    ensures forall d: Cid :: d < |s.cpus| ==> t !in s.cpus[d].ready
    ensures forall d: Cid :: d < |s.cpus| && s.cpus[d].current == t ==> s.cpus[d].pc != Run && t in s.manager
    ensures t !in s.manager ==> Waiters(s, Joiners(t)) == []
  {
    forall d: Cid | d < |s.cpus| ensures t !in s.cpus[d].ready { assert ReadyOk(s, d); }
    forall d: Cid | d < |s.cpus| && s.cpus[d].current == t ensures s.cpus[d].pc != Run && t in s.manager {
      assert CpuOk(s, g, d);
    }
    assert JoinOk(s, g, t);
  }

  /** A thread that has exited is Dead ever after, in no ready queue and never back in its own code; and once its CPU is
      in a thread's own code again, it is out of the manager and nobody waits to join it. */
  lemma ExitedForGood(states: seq<State>, steps: seq<Step>, c: Cid, i: nat, j: nat)
    requires IsRun(states, steps) && i < j < |states| && steps[i] == Exit(c) && c < |states[i].cpus|
    requires TimelyTo(states, steps, j)
    ensures var t, s := states[i].cpus[c].current, states[j];
            && Th(s, t).state == Dead
            && (forall d: Cid :: d < |s.cpus| ==> t !in s.cpus[d].ready)
            && (forall d: Cid :: d < |s.cpus| && s.cpus[d].pc == Run ==> s.cpus[d].current != t)
            && (AtRun(states, c, j) ==> t !in s.manager && Waiters(s, Joiners(t)) == [])
  {
    ExitKills(states, steps, c, i, j);
    var g, w := RunInv(states, steps, j);
    DeadIsOut(states[j], g, w, states[i].cpus[c].current);
  }
}
