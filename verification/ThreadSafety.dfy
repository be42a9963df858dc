/** Every step of the thread machine keeps the invariant. */
module ThreadSafety {
  import opened Base
  import opened ThreadMachine
  import opened ThreadInvariant
  import opened ThreadFrames

  lemma SpawnKeeps(s: State, g: Witness, w: Witness, c: Cid, t: Tid, s': State)
    requires Inv(s, g, w) && c < |s.cpus| && s.cpus[c].wake.None?
    requires ExecSpawn(s, c, t) == Ok(s')
    ensures Inv(s', g, w)
  {
    assert CpuOk(s, g, c) && ReadyOk(s, c) && ThreadOk(s, g, w, t);
    QueuesFrame(s, s', c, {t});
    StepFrame(s, g, w, s', g, w, c, {t});
  }

  lemma StartKeeps(s: State, g: Witness, w: Witness, c: Cid, t: Tid, s': State)
    requires Inv(s, g, w) && c < |s.cpus| && s.cpus[c].wake.None?
    requires ExecStart(s, c, t) == Ok(s')
    ensures Inv(s', g, w)
  {
    assert CpuOk(s, g, c) && ReadyOk(s, c) && ThreadOk(s, g, w, t);
    QueuesFrame(s, s', c, {t});
    StepFrame(s, g, w, s', g, w, c, {t});
  }

  lemma CheckWaitStays(s: State, g: Witness, w: Witness, c: Cid, q: Qid, s': State, t: Tid)
    requires c < |s.cpus| && s.cpus[c].wake.None? && CpuOk(s, g, c) && ThreadOk(s, g, w, t)
    requires ExecCheckWait(s, c, q) == Ok(s')
    ensures StaysPut(s, s', c, t)
  {
  }

  lemma CheckWaitKeeps(s: State, g: Witness, w: Witness, c: Cid, q: Qid, s': State)
    requires Inv(s, g, w) && c < |s.cpus| && s.cpus[c].wake.None?
    requires ExecCheckWait(s, c, q) == Ok(s')
    ensures Inv(s', g, w)
  {
    assert CpuOk(s, g, c) && ReadyOk(s, c);
    QueuesFrame(s, s', c, {});
    forall t ensures StaysPut(s, s', c, t) { CheckWaitStays(s, g, w, c, q, s', t); }
    StepFrame(s, g, w, s', g, w, c, {});
  }

  lemma EnqueueQueues(s: State, g: Witness, w: Witness, c: Cid, s': State)
    requires Inv(s, g, w) && c < |s.cpus|
    requires ExecEnqueue(s, c) == Ok(s')
    ensures forall q :: QueueOk(s', q)
  {
    assert CpuOk(s, g, c) && ThreadOk(s, g, w, s.cpus[c].current);
    forall q ensures QueueOk(s', q) { assert QueueOk(s, q); }
  }

  lemma EnqueueStays(s: State, g: Witness, w: Witness, c: Cid, s': State, t: Tid)
    requires c < |s.cpus| && s.cpus[c].wake.None? && CpuOk(s, g, c) && ThreadOk(s, g, w, t)
    requires ExecEnqueue(s, c) == Ok(s') && t != s.cpus[c].current
    ensures StaysPut(s, s', c, t)
  {
  }

  lemma EnqueueKeeps(s: State, g: Witness, w: Witness, c: Cid, s': State)
    requires Inv(s, g, w) && c < |s.cpus| && s.cpus[c].wake.None?
    requires ExecEnqueue(s, c) == Ok(s')
    ensures Inv(s', g, w)
  {
    var t := s.cpus[c].current;
    assert CpuOk(s, g, c) && ReadyOk(s, c) && ThreadOk(s, g, w, t);
    EnqueueQueues(s, g, w, c, s');
    forall t' | t' != t ensures StaysPut(s, s', c, t') { EnqueueStays(s, g, w, c, s', t'); }
    StepFrame(s, g, w, s', g, w, c, {t});
  }

  lemma CommitLists(s: State, g: Witness, w: Witness, c: Cid, s': State)
    requires Inv(s, g, w) && c < |s.cpus| && s.cpus[c].wake.None?
    requires ExecCommit(s, c) == Ok(s')
    ensures ReadyOk(s', c) && forall q :: QueueOk(s', q)
  {
    var t := s.cpus[c].current;
    assert CpuOk(s, g, c) && ReadyOk(s, c) && ThreadOk(s, g, w, t);
    QueuesFrame(s, s', c, {t});
  }

  lemma CommitStays(s: State, g: Witness, w: Witness, c: Cid, s': State, t: Tid)
    requires c < |s.cpus| && s.cpus[c].wake.None? && CpuOk(s, g, c) && ThreadOk(s, g, w, t)
    requires ExecCommit(s, c) == Ok(s') && t != s.cpus[c].current
    ensures StaysPut(s, s', c, t)
  {
  }

  lemma CommitKeeps(s: State, g: Witness, w: Witness, c: Cid, s': State)
    requires Inv(s, g, w) && c < |s.cpus| && s.cpus[c].wake.None?
    requires ExecCommit(s, c) == Ok(s')
    ensures Inv(s', g, w)
  {
    var t := s.cpus[c].current;
    assert CpuOk(s, g, c) && ReadyOk(s, c) && ThreadOk(s, g, w, t);
    CommitLists(s, g, w, c, s');
    forall t' | t' != t ensures StaysPut(s, s', c, t') { CommitStays(s, g, w, c, s', t'); }
    StepFrame(s, g, w, s', g, w, c, {t});
  }

  lemma YieldKeeps(s: State, g: Witness, w: Witness, c: Cid, s': State)
    requires Inv(s, g, w) && c < |s.cpus| && s.cpus[c].wake.None?
    requires ExecYield(s, c) == Ok(s')
    ensures Inv(s', g, w)
  {
    assert CpuOk(s, g, c) && ReadyOk(s, c);
    QueuesFrame(s, s', c, {});
    forall t ensures StaysPut(s, s', c, t) { assert ThreadOk(s, g, w, t); }
    StepFrame(s, g, w, s', g, w, c, {});
  }

  lemma ExitLists(s: State, g: Witness, w: Witness, c: Cid, s': State)
    requires Inv(s, g, w) && c < |s.cpus| && s.cpus[c].wake.None?
    requires ExecExit(s, c) == Ok(s')
    ensures ReadyOk(s', c) && forall q :: QueueOk(s', q)
  {
    var t := s.cpus[c].current;
    assert CpuOk(s, g, c) && ReadyOk(s, c) && ThreadOk(s, g, w, t);
    QueuesFrame(s, s', c, {t});
  }

  lemma ExitStays(s: State, g: Witness, w: Witness, c: Cid, s': State, t: Tid)
    requires c < |s.cpus| && s.cpus[c].wake.None? && CpuOk(s, g, c) && ThreadOk(s, g, w, t)
    requires ExecExit(s, c) == Ok(s') && t != s.cpus[c].current
    ensures StaysPut(s, s', c, t)
  {
  }

  lemma ExitKeeps(s: State, g: Witness, w: Witness, c: Cid, s': State)
    requires Inv(s, g, w) && c < |s.cpus| && s.cpus[c].wake.None?
    requires ExecExit(s, c) == Ok(s')
    ensures Inv(s', g, w)
  {
    var t := s.cpus[c].current;
    assert CpuOk(s, g, c) && ReadyOk(s, c) && ThreadOk(s, g, w, t);
    ExitLists(s, g, w, c, s');
    forall t' | t' != t ensures StaysPut(s, s', c, t') { ExitStays(s, g, w, c, s', t'); }
    StepFrame(s, g, w, s', g, w, c, {t});
  }

  lemma CommitNextLists(s: State, g: Witness, w: Witness, c: Cid, s': State)
    requires Inv(s, g, w) && c < |s.cpus| && s.cpus[c].wake.None?
    requires ExecCommitNext(s, c) == Ok(s')
    ensures ReadyOk(s', c) && forall q :: QueueOk(s', q)
  {
    var n := s.cpus[c].pc.next;
    assert CpuOk(s, g, c) && ReadyOk(s, c) && ThreadOk(s, g, w, n);
    QueuesFrame(s, s', c, {n});
  }

  lemma CommitNextStays(s: State, g: Witness, w: Witness, c: Cid, s': State, t: Tid)
    requires c < |s.cpus| && s.cpus[c].wake.None? && CpuOk(s, g, c) && ThreadOk(s, g, w, t)
    requires ExecCommitNext(s, c) == Ok(s') && t != s.cpus[c].pc.next
    ensures StaysPut(s, s', c, t)
  {
  }

  lemma CommitNextHere(s: State, g: Witness, w: Witness, c: Cid, s': State)
    requires c < |s.cpus| && s.cpus[c].wake.None? && CpuOk(s, g, c)
    requires ExecCommitNext(s, c) == Ok(s') && ThreadOk(s, g, w, s.cpus[c].pc.next)
    ensures CpuOk(s', g, c) && ThreadOk(s', g, w, s.cpus[c].pc.next)
  {
  }

  lemma CommitNextKeeps(s: State, g: Witness, w: Witness, c: Cid, s': State)
    requires Inv(s, g, w) && c < |s.cpus| && s.cpus[c].wake.None?
    requires ExecCommitNext(s, c) == Ok(s')
    ensures Inv(s', g, w)
  {
    var n := s.cpus[c].pc.next;
    assert CpuOk(s, g, c) && ThreadOk(s, g, w, n);
    CommitNextLists(s, g, w, c, s');
    CommitNextHere(s, g, w, c, s');
    forall t' | t' != n ensures StaysPut(s, s', c, t') { CommitNextStays(s, g, w, c, s', t'); }
    StepFrame(s, g, w, s', g, w, c, {n});
  }

  lemma SwitchContextStays(s: State, g: Witness, w: Witness, c: Cid, s': State, t: Tid)
    requires c < |s.cpus| && s.cpus[c].wake.None? && CpuOk(s, g, c) && ThreadOk(s, g, w, t)
    requires ExecSwitchContext(s, c) == Ok(s')
    ensures StaysPut(s, s', c, t)
  {
  }

  lemma SwitchContextKeeps(s: State, g: Witness, w: Witness, c: Cid, s': State)
    requires Inv(s, g, w) && c < |s.cpus| && s.cpus[c].wake.None?
    requires ExecSwitchContext(s, c) == Ok(s')
    ensures Inv(s', g, w)
  {
    assert CpuOk(s, g, c) && ReadyOk(s, c);
    QueuesFrame(s, s', c, {});
    forall t ensures StaysPut(s, s', c, t) { SwitchContextStays(s, g, w, c, s', t); }
    StepFrame(s, g, w, s', g, w, c, {});
  }

  lemma WakeStartKeeps(s: State, g: Witness, w: Witness, c: Cid, q: Qid, all: bool, s': State)
    requires Inv(s, g, w) && c < |s.cpus| && s.cpus[c].wake.None?
    requires ExecWakeStart(s, c, q, all) == Ok(s')
    ensures Inv(s', g, w)
  {
    assert CpuOk(s, g, c) && ReadyOk(s, c);
    QueuesFrame(s, s', c, {});
    StepFrame(s, g, w, s', g, w, c, {});
  }

  lemma PrepareThreads(s: State, g: Witness, w: Witness, c: Cid, s': State, t: Tid)
    requires c < |s.cpus| && s.cpus[c].wake.None? && CpuOk(s, g, c) && ThreadOk(s, g, w, t)
    requires ExecPrepare(s, c) == Ok(s')
    ensures ThreadOk(s', g, w, t)
  {
  }

  lemma PrepareLists(s: State, g: Witness, w: Witness, c: Cid, s': State)
    requires Inv(s, g, w) && c < |s.cpus| && s.cpus[c].wake.None?
    requires ExecPrepare(s, c) == Ok(s')
    ensures ReadyOk(s', c) && forall q :: QueueOk(s', q)
  {
    var n, t := s.cpus[c].pc.next, s.cpus[c].current;
    assert CpuOk(s, g, c) && ReadyOk(s, c) && ThreadOk(s, g, w, n) && ThreadOk(s, g, w, t);
    QueuesFrame(s, s', c, {n, t});
  }

  lemma PrepareKeeps(s: State, g: Witness, w: Witness, c: Cid, s': State)
    requires Inv(s, g, w) && c < |s.cpus| && s.cpus[c].wake.None?
    requires ExecPrepare(s, c) == Ok(s')
    ensures Inv(s', g, w)
  {
    var n, t := s.cpus[c].pc.next, s.cpus[c].current;
    assert CpuOk(s, g, c);
    PrepareLists(s, g, w, c, s');
    forall t' ensures ThreadOk(s', g, w, t') { PrepareThreads(s, g, w, c, s', t'); }
    WholeFrame(s, g, w, s', g, w, c, {n, t});
  }

  lemma ReapThreads(s: State, g: Witness, w: Witness, c: Cid, s': State, t: Tid)
    requires c < |s.cpus| && s.cpus[c].wake.None? && CpuOk(s, g, c) && ThreadOk(s, g, w, t)
    requires ExecReap(s, c) == Ok(s')
    ensures ThreadOk(s', g, w, t)
  {
  }

  lemma ReapLists(s: State, g: Witness, w: Witness, c: Cid, s': State)
    requires Inv(s, g, w) && c < |s.cpus| && s.cpus[c].wake.None?
    requires ExecReap(s, c) == Ok(s')
    ensures ReadyOk(s', c) && forall q :: QueueOk(s', q)
  {
    var u := s.cpus[c];
    var touched := if u.pendingExit.Some? then {u.pendingExit.value} else {};
    assert forall t :: t in touched ==> ThreadOk(s, g, w, t);
    assert CpuOk(s, g, c) && ReadyOk(s, c);
    QueuesFrame(s, s', c, touched);
  }

  lemma ReapKeeps(s: State, g: Witness, w: Witness, c: Cid, s': State)
    requires Inv(s, g, w) && c < |s.cpus| && s.cpus[c].wake.None?
    requires ExecReap(s, c) == Ok(s')
    ensures Inv(s', g, w)
  {
    var u := s.cpus[c];
    var touched := if u.pendingExit.Some? then {u.pendingExit.value} else {};
    assert CpuOk(s, g, c);
    ReapLists(s, g, w, c, s');
    forall t ensures ThreadOk(s', g, w, t) { ReapThreads(s, g, w, c, s', t); }
    WholeFrame(s, g, w, s', g, w, c, touched);
  }

  lemma RequeueCpu(s: State, g: Witness, c: Cid, s': State)
    requires c < |s.cpus| && s.cpus[c].wake.None? && CpuOk(s, g, c)
    requires ExecRequeue(s, c) == Ok(s')
    ensures CpuOk(s', g, c)
  {
  }

  lemma RequeueStays(s: State, g: Witness, w: Witness, c: Cid, s': State, t: Tid)
    requires c < |s.cpus| && s.cpus[c].wake.None? && CpuOk(s, g, c) && ThreadOk(s, g, w, t) && t != s.cpus[c].current
    requires ExecRequeue(s, c) == Ok(s')
    ensures StaysPut(s, s', c, t)
  {
  }

  lemma RequeueOther(s: State, g: Witness, w: Witness, c: Cid, s': State, t: Tid)
    requires c < |s.cpus| && s.cpus[c].wake.None? && CpuOk(s, g, c) && ThreadOk(s, g, w, t) && t != s.cpus[c].current
    requires ExecRequeue(s, c) == Ok(s')
    ensures ThreadOk(s', g, w, t)
  {
    RequeueStays(s, g, w, c, s', t);
    ThreadFrame(s, g, w, s', g, w, c, t);
  }

  lemma RequeueCurrent(s: State, g: Witness, w: Witness, c: Cid, s': State)
    requires c < |s.cpus| && s.cpus[c].wake.None? && CpuOk(s, g, c) && ThreadOk(s, g, w, s.cpus[c].current)
    requires ExecRequeue(s, c) == Ok(s')
    ensures ThreadOk(s', g, w, s.cpus[c].current)
  {
  }

  lemma RequeueLists(s: State, g: Witness, w: Witness, c: Cid, s': State)
    requires Inv(s, g, w) && c < |s.cpus| && s.cpus[c].wake.None?
    requires ExecRequeue(s, c) == Ok(s')
    ensures ReadyOk(s', c) && forall q :: QueueOk(s', q)
  {
    var t := s.cpus[c].current;
    assert CpuOk(s, g, c) && ReadyOk(s, c) && ThreadOk(s, g, w, t);
    QueuesFrame(s, s', c, {t});
  }

  lemma RequeueKeeps(s: State, g: Witness, w: Witness, c: Cid, s': State)
    requires Inv(s, g, w) && c < |s.cpus| && s.cpus[c].wake.None?
    requires ExecRequeue(s, c) == Ok(s')
    ensures Inv(s', g, w)
  {
    var t := s.cpus[c].current;
    RequeueCpu(s, g, c, s');
    RequeueLists(s, g, w, c, s');
    forall t' ensures ThreadOk(s', g, w, t') {
      if t' == t { RequeueCurrent(s, g, w, c, s'); } else { RequeueOther(s, g, w, c, s', t'); }
    }
    WholeFrame(s, g, w, s', g, w, c, {t});
  }

  ghost function Claim(g: Witness, c: Cid, s': State): Witness
    requires c < |s'.cpus|
  {
    if s'.cpus[c].pc.Chosen? then g[s'.cpus[c].pc.next := c] else g
  }

  lemma GetNextCpu(s: State, g: Witness, w: Witness, c: Cid, s': State)
    requires c < |s.cpus| && s.cpus[c].wake.None? && CpuOk(s, g, c) && ReadyOk(s, c)
    requires ThreadOk(s, g, w, s.cpus[c].idle)
    requires ExecGetNext(s, c) == Ok(s')
    requires s.cpus[c].ready != [] ==> !Th(s, s.cpus[c].ready[0]).onCpu
    ensures CpuOk(s', Claim(g, c, s'), c)
  {
  }

  lemma GetNextThreads(s: State, g: Witness, w: Witness, c: Cid, s': State, t: Tid)
    requires c < |s.cpus| && s.cpus[c].wake.None? && CpuOk(s, g, c) && ReadyOk(s, c) && ThreadOk(s, g, w, t)
    requires ExecGetNext(s, c) == Ok(s')
    requires s.cpus[c].ready != [] ==> !Th(s, s.cpus[c].ready[0]).onCpu
    ensures ThreadOk(s', Claim(g, c, s'), w, t)
  {
    if s.cpus[c].ready == [] || t != s.cpus[c].ready[0] {
      GetNextOther(s, g, w, c, s', t);
    }
  }

  lemma GetNextOther(s: State, g: Witness, w: Witness, c: Cid, s': State, t: Tid)
    requires c < |s.cpus| && s.cpus[c].wake.None? && CpuOk(s, g, c) && ReadyOk(s, c) && ThreadOk(s, g, w, t)
    requires ExecGetNext(s, c) == Ok(s') && (s.cpus[c].ready != [] ==> t != s.cpus[c].ready[0])
    ensures ThreadOk(s', Claim(g, c, s'), w, t)
  {
    var r := s.cpus[c].ready;
    assert r != [] ==> r == [r[0]] + r[1..];
    GetNextStays(s, g, w, c, s', t);
    ThreadFrame(s, g, w, s', Claim(g, c, s'), w, c, t);
  }

  lemma GetNextStays(s: State, g: Witness, w: Witness, c: Cid, s': State, t: Tid)
    requires c < |s.cpus| && s.cpus[c].wake.None? && CpuOk(s, g, c) && ThreadOk(s, g, w, t)
    requires ExecGetNext(s, c) == Ok(s')
    ensures StaysPut(s, s', c, t)
  {
  }

  lemma GetIdleKeeps(s: State, g: Witness, w: Witness, c: Cid, s': State)
    requires Inv(s, g, w) && c < |s.cpus| && s.cpus[c].wake.None? && s.cpus[c].ready == []
    requires ExecGetNext(s, c) == Ok(s')
    ensures Inv(s', Claim(g, c, s'), w)
  {
    assert CpuOk(s, g, c) && ReadyOk(s, c);
    GetNextCpu(s, g, w, c, s');
    QueuesFrame(s, s', c, {});
    forall t' ensures ThreadOk(s', Claim(g, c, s'), w, t') { GetNextThreads(s, g, w, c, s', t'); }
    WholeFrame(s, g, w, s', Claim(g, c, s'), w, c, {});
  }

  lemma GetNextKeeps(s: State, g: Witness, w: Witness, c: Cid, s': State)
    requires Inv(s, g, w) && c < |s.cpus| && s.cpus[c].wake.None?
    requires ExecGetNext(s, c) == Ok(s')
    ensures Inv(s', Claim(g, c, s'), w)
  {
    if s.cpus[c].ready == [] {
      GetIdleKeeps(s, g, w, c, s');
    } else {
      var t := s.cpus[c].ready[0];
      GetQueuedKeeps(s, g, w, c, t, s');
    }
  }

  /** The head of this CPU's ready queue is on no CPU. */
  lemma HeadFree(s: State, g: Witness, w: Witness, c: Cid, t: Tid)
    requires Inv(s, g, w) && c < |s.cpus| && s.cpus[c].pc.Choose? && t in s.cpus[c].ready
    ensures !Th(s, t).onCpu && (t in g && g[t] < |s.cpus| ==> !Refers(s.cpus[g[t]], t))
  {
    assert CpuOk(s, g, c) && ReadyOk(s, c) && ThreadOk(s, g, w, t);
    if t in g && g[t] < |s.cpus| && Refers(s.cpus[g[t]], t) { QueuedElsewhere(s, g, c, t, g[t]); }
  }

  lemma GetQueuedKeeps(s: State, g: Witness, w: Witness, c: Cid, t: Tid, s': State)
    requires Inv(s, g, w) && c < |s.cpus| && s.cpus[c].wake.None?
    requires s.cpus[c].ready != [] && t == s.cpus[c].ready[0] && ExecGetNext(s, c) == Ok(s')
    ensures Inv(s', Claim(g, c, s'), w)
  {
    var r := s.cpus[c].ready;
    HeadFree(s, g, w, c, t);
    assert ReadyOk(s, c) && ThreadOk(s, g, w, t);
    NoDupTail(r);
    GetNextCpu(s, g, w, c, s');
    QueuesFrame(s, s', c, {t});
    forall t' ensures ThreadOk(s', Claim(g, c, s'), w, t') { GetNextThreads(s, g, w, c, s', t'); }
    WholeFrame(s, g, w, s', Claim(g, c, s'), w, c, {t});
  }

  /** A Waking thread that no CPU is on may enter a ready queue. */
  lemma EnqueueWokenCpu(s: State, g: Witness, c: Cid, t: Tid, d: Cid)
    requires c < |s.cpus| && d < |s.cpus| && CpuOk(s, g, d) && Th(s, t).state == Waking && !Th(s, t).onCpu
    ensures CpuOk(TryEnqueueWoken(s, c, t), g, d)
  {
    if Refers(s.cpus[d], t) { WakingReferred(s, g, d, t); }
    CpuFrame(s, g, TryEnqueueWoken(s, c, t), g, d);
  }

  /** A CPU that refers to a Waking thread is on its stack or has just left it, and has its on_cpu set. */
  lemma WakingReferred(s: State, g: Witness, d: Cid, t: Tid)
    requires d < |s.cpus| && CpuOk(s, g, d) && Th(s, t).state == Waking && Refers(s.cpus[d], t)
    ensures Th(s, t).onCpu && At(g, t, d) && Holds(s, d, t) && !MayWake(s.cpus[d].pc) && !s.cpus[d].pc.Releasing?
  {
  }

  lemma EnqueueWokenLists(s: State, g: Witness, w: Witness, c: Cid, t: Tid)
    requires Inv(s, g, w) && c < |s.cpus| && Th(s, t).state == Waking && !Th(s, t).onCpu
    ensures var s' := TryEnqueueWoken(s, c, t);
            && (forall d: Cid :: d < |s'.cpus| ==> CpuOk(s', g, d) && ReadyOk(s', d))
            && (forall q :: QueueOk(s', q))
  {
    var s' := TryEnqueueWoken(s, c, t);
    assert ReadyOk(s, c) && ThreadOk(s, g, w, t);
    assert CpuOk(s, g, c);
    forall d: Cid | d < |s'.cpus| ensures CpuOk(s', g, d) { EnqueueWokenCpu(s, g, c, t, d); }
    ReadyFrame(s, s', c, {t});
    QueuesFrame(s, s', c, {t});
  }

  lemma EnqueueWokenKeeps(s: State, g: Witness, w: Witness, c: Cid, t: Tid)
    requires Inv(s, g, w) && c < |s.cpus| && Th(s, t).state == Waking && !Th(s, t).onCpu
    ensures Inv(TryEnqueueWoken(s, c, t), g, w)
  {
    var s' := TryEnqueueWoken(s, c, t);
    EnqueueWokenLists(s, g, w, c, t);
    assert ThreadOk(s, g, w, t);
    ThreadsFrame(s, g, w, s', g, w, c, {t});
    forall t' ensures JoinOk(s', g, t') { assert JoinOk(s, g, t'); }
  }

  /** The CPU that clears a thread's on_cpu is charged with trying it. */
  ghost function Charge(w: Witness, c: Cid, s': State): Witness
    requires c < |s'.cpus|
  {
    if s'.cpus[c].pc.Releasing? then w[s'.cpus[c].pc.left := c] else w
  }

  lemma ClearCpu(s: State, g: Witness, c: Cid, s': State)
    requires c < |s.cpus| && s.cpus[c].wake.None? && CpuOk(s, g, c) && ExecClear(s, c) == Ok(s')
    ensures CpuOk(s', g, c)
  {
  }

  lemma ClearOther(s: State, g: Witness, w: Witness, c: Cid, s': State, t: Tid)
    requires c < |s.cpus| && s.cpus[c].wake.None? && CpuOk(s, g, c) && ThreadOk(s, g, w, t)
    requires ExecClear(s, c) == Ok(s') && t != s.cpus[c].current && s.cpus[c].previous != Some(t)
    ensures ThreadOk(s', g, Charge(w, c, s'), t)
  {
  }

  lemma ClearCurrent(s: State, g: Witness, w: Witness, c: Cid, s': State)
    requires c < |s.cpus| && s.cpus[c].wake.None? && CpuOk(s, g, c) && ThreadOk(s, g, w, s.cpus[c].current)
    requires ExecClear(s, c) == Ok(s')
    ensures ThreadOk(s', g, Charge(w, c, s'), s.cpus[c].current)
  {
  }

  lemma ClearPrevious(s: State, g: Witness, w: Witness, c: Cid, s': State)
    requires c < |s.cpus| && s.cpus[c].wake.None? && CpuOk(s, g, c) && s.cpus[c].previous.Some?
    requires ThreadOk(s, g, w, s.cpus[c].previous.value) && ExecClear(s, c) == Ok(s')
    ensures ThreadOk(s', g, Charge(w, c, s'), s.cpus[c].previous.value)
  {
  }

  lemma ClearThreads(s: State, g: Witness, w: Witness, c: Cid, s': State, t: Tid)
    requires c < |s.cpus| && s.cpus[c].wake.None? && CpuOk(s, g, c) && ThreadOk(s, g, w, t)
    requires ExecClear(s, c) == Ok(s')
    ensures ThreadOk(s', g, Charge(w, c, s'), t)
  {
    if t == s.cpus[c].current {
      ClearCurrent(s, g, w, c, s');
    } else if s.cpus[c].previous == Some(t) {
      ClearPrevious(s, g, w, c, s');
    } else {
      ClearOther(s, g, w, c, s', t);
    }
  }

  lemma ClearKeeps(s: State, g: Witness, w: Witness, c: Cid, s': State)
    requires Inv(s, g, w) && c < |s.cpus| && s.cpus[c].wake.None? && ExecClear(s, c) == Ok(s')
    ensures Inv(s', g, Charge(w, c, s'))
  {
    var u := s.cpus[c];
    assert CpuOk(s, g, c) && ReadyOk(s, c);
    ClearCpu(s, g, c, s');
    forall t' ensures ThreadOk(s', g, Charge(w, c, s'), t') { ClearThreads(s, g, w, c, s', t'); }
    if u.previous.Some? {
      ClearFrame(s, g, w, c, s', {u.current, u.previous.value});
    } else {
      ClearFrame(s, g, w, c, s', {u.current});
    }
  }

  lemma ClearFrame(s: State, g: Witness, w: Witness, c: Cid, s': State, touched: set<Tid>)
    requires Inv(s, g, w) && c < |s.cpus| && s.cpus[c].wake.None? && ExecClear(s, c) == Ok(s')
    requires CpuOk(s', g, c) && forall t :: ThreadOk(s', g, Charge(w, c, s'), t)
    requires Only(s, s', c, touched)
    requires forall t :: t in touched ==> At(g, t, c) && Refers(s.cpus[c], t)
    ensures Inv(s', g, Charge(w, c, s'))
  {
    assert CpuOk(s, g, c) && ReadyOk(s, c);
    forall t | t in touched
      ensures Th(s', t) == Th(s, t).(onCpu := Th(s', t).onCpu)
      ensures Th(s, t).waiter.Some? ==> Th(s, t).state == Blocking || Th(s, t).state == Blocked
    {
      assert ThreadOk(s, g, w, t);
    }
    QueuesFrame(s, s', c, touched);
    WholeFrame(s, g, w, s', g, Charge(w, c, s'), c, touched);
  }

  /** The charge is over once its thread is no longer Waking. */
  lemma UnchargeKeeps(s: State, g: Witness, w: Witness, c: Cid)
    requires Inv(s, g, w) && c < |s.cpus| && s.cpus[c].wake.None? && s.cpus[c].pc.Releasing?
    requires Th(s, s.cpus[c].pc.left).state != Waking
    ensures Inv(SetCpu(s, c, s.cpus[c].(pc := Reaping)), g, w)
  {
    var s' := SetCpu(s, c, s.cpus[c].(pc := Reaping));
    assert CpuOk(s, g, c) && ReadyOk(s, c);
    QueuesFrame(s, s', c, {});
    forall t ensures StaysPut(s, s', c, t) { UnchargeStays(s, g, w, c, t); }
    StepFrame(s, g, w, s', g, w, c, {});
  }

  lemma UnchargeStays(s: State, g: Witness, w: Witness, c: Cid, t: Tid)
    requires c < |s.cpus| && CpuOk(s, g, c) && ThreadOk(s, g, w, t) && s.cpus[c].pc.Releasing?
    ensures StaysPut(s, SetCpu(s, c, s.cpus[c].(pc := Reaping)), c, t)
  {
  }

  /** A try that finds its thread Waking must find its on_cpu clear. */
  lemma TryLeftKeeps(s: State, g: Witness, w: Witness, c: Cid, s': State)
    requires Inv(s, g, w) && c < |s.cpus| && s.cpus[c].wake.None? && ExecTryLeft(s, c) == Ok(s')
    requires Th(s, s.cpus[c].pc.left).state == Waking ==> !Th(s, s.cpus[c].pc.left).onCpu
    ensures Inv(s', g, w)
  {
    var t := s.cpus[c].pc.left;
    if Th(s, t).state == Waking { EnqueueWokenKeeps(s, g, w, c, t); }
    UnchargeKeeps(TryEnqueueWoken(s, c, t), g, w, c);
  }

  lemma WakeJoinersCpus(s: State, g: Witness, w: Witness, c: Cid, s': State)
    requires Inv(s, g, w) && c < |s.cpus| && s.cpus[c].wake.None? && ExecWakeJoiners(s, c) == Ok(s')
    ensures forall d: Cid :: d < |s'.cpus| ==> CpuOk(s', g, d) && ReadyOk(s', d)
    ensures forall q :: QueueOk(s', q)
  {
    assert CpuOk(s, g, c) && ReadyOk(s, c);
    CpusFrame(s, g, s', g, c, {});
    ReadyFrame(s, s', c, {});
    QueuesFrame(s, s', c, {});
  }

  lemma WakeJoinersThread(s: State, g: Witness, w: Witness, c: Cid, s': State, t: Tid)
    requires c < |s.cpus| && s.cpus[c].wake.None? && CpuOk(s, g, c) && ThreadOk(s, g, w, t)
    requires ExecWakeJoiners(s, c) == Ok(s')
    ensures ThreadOk(s', g, w, t)
  {
    ThreadFrame(s, g, w, s', g, w, c, t);
  }

  lemma WakeJoinersJoin(s: State, g: Witness, c: Cid, s': State, t: Tid)
    requires c < |s.cpus| && s.cpus[c].wake.None? && CpuOk(s, g, c) && JoinOk(s, g, t)
    requires ExecWakeJoiners(s, c) == Ok(s')
    ensures JoinOk(s', g, t)
  {
  }

  lemma WakeJoinersKeeps(s: State, g: Witness, w: Witness, c: Cid, s': State)
    requires Inv(s, g, w) && c < |s.cpus| && s.cpus[c].wake.None?
    requires ExecWakeJoiners(s, c) == Ok(s')
    ensures Inv(s', g, w)
  {
    assert CpuOk(s, g, c);
    WakeJoinersCpus(s, g, w, c, s');
    forall t ensures ThreadOk(s', g, w, t) { WakeJoinersThread(s, g, w, c, s', t); }
    forall t ensures JoinOk(s', g, t) { WakeJoinersJoin(s, g, c, s', t); }
  }

  /** The wake may let go of its marked thread: it is no longer Waking, or still has a CPU to leave it. */
  ghost predicate MayDrop(s: State, c: Cid)
    requires c < |s.cpus| && s.cpus[c].wake.Some?
  {
    s.cpus[c].wake.value.marked.Some? ==>
      var m := Th(s, s.cpus[c].wake.value.marked.value); m.state != Waking || m.onCpu
  }

  lemma WakeDoneCpus(s: State, g: Witness, w: Witness, c: Cid)
    requires Inv(s, g, w) && c < |s.cpus| && s.cpus[c].wake.Some?
    ensures var s' := WakeDone(s, c);
            && (forall d: Cid :: d < |s'.cpus| ==> CpuOk(s', g, d) && ReadyOk(s', d)) && (forall q :: QueueOk(s', q))
  {
    var s' := WakeDone(s, c);
    assert CpuOk(s, g, c) && ReadyOk(s, c);
    CpusFrame(s, g, s', g, c, {});
    ReadyFrame(s, s', c, {});
    QueuesFrame(s, s', c, {});
  }

  lemma WakeDoneThread(s: State, g: Witness, w: Witness, c: Cid, t: Tid)
    requires c < |s.cpus| && s.cpus[c].wake.Some? && ThreadOk(s, g, w, t) && MayDrop(s, c)
    ensures ThreadOk(WakeDone(s, c), g, w, t)
  {
    ThreadFrame(s, g, w, WakeDone(s, c), g, w, c, t);
  }

  lemma WakeDoneJoin(s: State, g: Witness, c: Cid, t: Tid)
    requires c < |s.cpus| && s.cpus[c].wake.Some? && JoinOk(s, g, t) && CpuOk(s, g, c)
    requires s.cpus[c].wake.value.q.Named? || Waiters(s, s.cpus[c].wake.value.q) == []
    ensures JoinOk(WakeDone(s, c), g, t)
  {
  }

  lemma WakeDoneKeeps(s: State, g: Witness, w: Witness, c: Cid)
    requires Inv(s, g, w) && c < |s.cpus| && s.cpus[c].wake.Some? && MayDrop(s, c)
    requires s.cpus[c].wake.value.q.Named? || Waiters(s, s.cpus[c].wake.value.q) == []
    ensures Inv(WakeDone(s, c), g, w)
  {
    WakeDoneCpus(s, g, w, c);
    forall t ensures ThreadOk(WakeDone(s, c), g, w, t) { WakeDoneThread(s, g, w, c, t); }
    forall t ensures JoinOk(WakeDone(s, c), g, t) { WakeDoneJoin(s, g, c, t); }
  }

  ghost function Remark(s: State, c: Cid, marked: Option<Tid>, tested: bool): State
    requires c < |s.cpus| && s.cpus[c].wake.Some?
  {
    SetCpu(s, c, s.cpus[c].(wake := Some(s.cpus[c].wake.value.(marked := marked, tested := tested))))
  }

  lemma RemarkCpus(s: State, g: Witness, w: Witness, c: Cid, marked: Option<Tid>, tested: bool)
    requires Inv(s, g, w) && c < |s.cpus| && s.cpus[c].wake.Some?
    ensures var s' := Remark(s, c, marked, tested);
            && (forall d: Cid :: d < |s'.cpus| ==> CpuOk(s', g, d) && ReadyOk(s', d)) && (forall q :: QueueOk(s', q))
  {
    var s' := Remark(s, c, marked, tested);
    assert CpuOk(s, g, c) && ReadyOk(s, c);
    CpusFrame(s, g, s', g, c, {});
    ReadyFrame(s, s', c, {});
    QueuesFrame(s, s', c, {});
  }

  lemma RemarkThread(s: State, g: Witness, w: Witness, c: Cid, marked: Option<Tid>, tested: bool, t: Tid)
    requires c < |s.cpus| && s.cpus[c].wake.Some? && ThreadOk(s, g, w, t)
    requires marked == s.cpus[c].wake.value.marked || MayDrop(s, c)
    ensures ThreadOk(Remark(s, c, marked, tested), g, w, t)
  {
    ThreadFrame(s, g, w, Remark(s, c, marked, tested), g, w, c, t);
  }

  lemma RemarkJoin(s: State, g: Witness, c: Cid, marked: Option<Tid>, tested: bool, t: Tid)
    requires c < |s.cpus| && s.cpus[c].wake.Some? && JoinOk(s, g, t)
    ensures JoinOk(Remark(s, c, marked, tested), g, t)
  {
  }

  lemma RemarkKeeps(s: State, g: Witness, w: Witness, c: Cid, marked: Option<Tid>, tested: bool)
    requires Inv(s, g, w) && c < |s.cpus| && s.cpus[c].wake.Some?
    requires marked == s.cpus[c].wake.value.marked || MayDrop(s, c)
    ensures Inv(Remark(s, c, marked, tested), g, w)
  {
    var s' := Remark(s, c, marked, tested);
    RemarkCpus(s, g, w, c, marked, tested);
    forall t ensures ThreadOk(s', g, w, t) { RemarkThread(s, g, w, c, marked, tested, t); }
    forall t ensures JoinOk(s', g, t) { RemarkJoin(s, g, c, marked, tested, t); }
  }

  lemma WakeNextKeeps(s: State, g: Witness, w: Witness, c: Cid)
    requires Inv(s, g, w) && c < |s.cpus| && s.cpus[c].wake.Some? && MayDrop(s, c)
    ensures Inv(WakeNext(s, c), g, w)
  {
    if s.cpus[c].wake.value.all {
      RemarkKeeps(s, g, w, c, None, false);
    } else {
      assert CpuOk(s, g, c);
      WakeDoneKeeps(s, g, w, c);
    }
  }

  lemma WakeTestKeeps(s: State, g: Witness, w: Witness, c: Cid, s': State)
    requires Inv(s, g, w) && c < |s.cpus| && ExecWakeTest(s, c) == Ok(s')
    ensures Inv(s', g, w)
  {
    if Th(s, s.cpus[c].wake.value.marked.value).onCpu {
      WakeNextKeeps(s, g, w, c);
    } else {
      RemarkKeeps(s, g, w, c, s.cpus[c].wake.value.marked, true);
    }
  }

  /** A try that finds its thread Waking must find its on_cpu clear. */
  lemma WakeTryKeeps(s: State, g: Witness, w: Witness, c: Cid, s': State)
    requires Inv(s, g, w) && c < |s.cpus| && ExecWakeTry(s, c) == Ok(s')
    requires var t := s.cpus[c].wake.value.marked.value; Th(s, t).state == Waking ==> !Th(s, t).onCpu
    ensures Inv(s', g, w)
  {
    var t := s.cpus[c].wake.value.marked.value;
    if Th(s, t).state == Waking { EnqueueWokenKeeps(s, g, w, c, t); }
    WakeNextKeeps(TryEnqueueWoken(s, c, t), g, w, c);
  }

  /** The first waiter leaves its queue and changes state; its own CPU, if it is still on one, allows it. */
  ghost function Unwait(s: State, q: Qid, st: ThreadState): State
    requires Waiters(s, q) != []
  {
    var t := Waiters(s, q)[0];
    SetThread(s.(queues := s.queues[q := Waiters(s, q)[1..]]), t,
              Th(s, t).(state := st, waiter := None, wakes := Th(s, t).wakes + if st == Waking then 1 else 0))
  }

  lemma UnwaitCpu(s: State, g: Witness, q: Qid, st: ThreadState, d: Cid)
    requires Waiters(s, q) != [] && d < |s.cpus| && CpuOk(s, g, d)
    requires Th(s, Waiters(s, q)[0]).waiter.Some?
    requires if st == Running then Th(s, Waiters(s, q)[0]).state == Blocking
             else st == Waking && Th(s, Waiters(s, q)[0]).state == Blocked
    ensures CpuOk(Unwait(s, q, st), g, d)
  {
  }

  lemma UnwaitThreads(s: State, g: Witness, w: Witness, w': Witness, q: Qid, st: ThreadState, t: Tid)
    requires Waiters(s, q) != [] && ThreadOk(s, g, w, t) && QueueOk(s, q)
    requires if st == Running then Th(s, Waiters(s, q)[0]).state == Blocking && w' == w
             else st == Waking && Th(s, Waiters(s, q)[0]).state == Blocked
                  && exists c: Cid :: w' == w[Waiters(s, q)[0] := c] && Charged(s, c, Waiters(s, q)[0])
    requires Th(s, Waiters(s, q)[0]).waiter == Some(q)
    ensures ThreadOk(Unwait(s, q, st), g, w', t)
  {
    var r := Waiters(s, q);
    assert r == [r[0]] + r[1..];
  }

  lemma UnwaitKeeps(s: State, g: Witness, w: Witness, w': Witness, q: Qid, st: ThreadState)
    requires Inv(s, g, w) && Waiters(s, q) != []
    requires if st == Running then Th(s, Waiters(s, q)[0]).state == Blocking && w' == w
             else st == Waking && Th(s, Waiters(s, q)[0]).state == Blocked
                  && exists c: Cid :: w' == w[Waiters(s, q)[0] := c] && Charged(s, c, Waiters(s, q)[0])
    ensures Inv(Unwait(s, q, st), g, w')
  {
    var s' := Unwait(s, q, st);
    assert QueueOk(s, q);
    forall d: Cid | d < |s'.cpus| ensures CpuOk(s', g, d) { UnwaitCpu(s, g, q, st, d); }
    forall d: Cid | d < |s'.cpus| ensures ReadyOk(s', d) { assert ReadyOk(s, d); }
    var r := Waiters(s, q);
    NoDupTail(r);
    forall q' ensures QueueOk(s', q') {
      assert QueueOk(s, q');
      assert Waiters(s', q') == if q' == q then r[1..] else Waiters(s, q');
      assert forall t :: t in Waiters(s', q') ==> t in Waiters(s, q') && t != r[0] && Th(s', t) == Th(s, t);
    }
    forall t ensures ThreadOk(s', g, w', t) { UnwaitThreads(s, g, w, w', q, st, t); }
    forall t ensures JoinOk(s', g, t) { assert JoinOk(s, g, t); }
  }

  ghost function Marks(w: Witness, c: Cid, s': State): Witness
    requires c < |s'.cpus|
  {
    if s'.cpus[c].wake.Some? && s'.cpus[c].wake.value.marked.Some?
    then w[s'.cpus[c].wake.value.marked.value := c] else w
  }

  lemma WakeFirstKeeps(s: State, g: Witness, w: Witness, c: Cid, s': State)
    requires Inv(s, g, w) && c < |s.cpus|
    requires ExecWakeFirst(s, c) == Ok(s')
    ensures Inv(s', g, Marks(w, c, s'))
  {
    var q := s.cpus[c].wake.value.q;
    if Waiters(s, q) == [] {
      WakeDoneKeeps(s, g, w, c);
    } else {
      var t := Waiters(s, q)[0];
      assert QueueOk(s, q);
      if Th(s, t).state == Blocking {
        UnwaitKeeps(s, g, w, w, q, Running);
        WakeNextKeeps(Unwait(s, q, Running), g, w, c);
      } else {
        RemarkKeeps(s, g, w, c, Some(t), false);
        var s1 := Remark(s, c, Some(t), false);
        assert Charged(s1, c, t);
        UnwaitKeeps(s1, g, w, w[t := c], q, Waking);
      }
    }
  }
}
