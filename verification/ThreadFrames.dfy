/** Frame lemmas: what a step on one CPU leaves alone. */
module ThreadFrames {
  import opened Base
  import opened ThreadMachine
  import opened ThreadInvariant

  ghost predicate Refers(u: Cpu, t: Tid) {
    || t == u.current || t == u.idle || u.previous == Some(t) || u.pendingExit == Some(t)
    || ((u.pc.Chosen? || u.pc.Requeued? || u.pc.Committed?) && u.pc.next == t)
  }

  /** Only CPU `c` and the threads in `touched` differ between `s` and `s'`. */
  ghost predicate Only(s: State, s': State, c: Cid, touched: set<Tid>) {
    && |s'.cpus| == |s.cpus| && c < |s.cpus|
    && (forall d: Cid :: d < |s.cpus| && d != c ==> s'.cpus[d] == s.cpus[d])
    && s'.cpus[c].idle == s.cpus[c].idle
    && (forall t :: t !in touched ==> Th(s', t) == Th(s, t) && (t in s'.manager <==> t in s.manager))
  }

  ghost predicate SameAt(m: Witness, m': Witness, touched: set<Tid>) {
    forall t :: t !in touched ==> (t in m' <==> t in m) && (t in m ==> m'[t] == m[t])
  }

  lemma CpuFrame(s: State, g: Witness, s': State, g': Witness, d: Cid)
    requires d < |s.cpus| && d < |s'.cpus| && s'.cpus[d].(ready := s.cpus[d].ready) == s.cpus[d]
    requires CpuOk(s, g, d)
    requires forall t :: Refers(s.cpus[d], t) ==>
               Th(s', t) == Th(s, t) && (t in s.manager ==> t in s'.manager) && (At(g, t, d) ==> At(g', t, d))
    requires forall q :: q in s.locks && s.locks[q] == d ==> q in s'.locks && s'.locks[q] == d
    ensures CpuOk(s', g', d)
  {
    var u := s.cpus[d];
    assert Refers(u, u.current) && Refers(u, u.idle);
    assert u.previous.Some? ==> Refers(u, u.previous.value);
    assert u.pendingExit.Some? ==> Refers(u, u.pendingExit.value);
    assert u.pc.Chosen? || u.pc.Requeued? || u.pc.Committed? ==> Refers(u, u.pc.next);
  }

  lemma Home(s: State, g: Witness, d: Cid, t: Tid)
    requires d < |s.cpus| && CpuOk(s, g, d) && Refers(s.cpus[d], t)
    ensures At(g, t, d)
  {
  }

  lemma CpusFrame(s: State, g: Witness, s': State, g': Witness, c: Cid, touched: set<Tid>)
    requires forall d: Cid :: d < |s.cpus| ==> CpuOk(s, g, d)
    requires Only(s, s', c, touched) && SameAt(g, g', touched) && CpuOk(s', g', c)
    requires forall t :: t in touched && t in g && g[t] < |s.cpus| && g[t] != c ==> !Refers(s.cpus[g[t]], t)
    requires forall q :: q in s.locks && s.locks[q] != c ==> q in s'.locks && s'.locks[q] == s.locks[q]
    ensures forall d: Cid :: d < |s'.cpus| ==> CpuOk(s', g', d)
  {
    forall d: Cid | d < |s'.cpus| ensures CpuOk(s', g', d) {
      if d != c {
        forall t | Refers(s.cpus[d], t) ensures t !in touched { Home(s, g, d, t); }
        CpuFrame(s, g, s', g', d);
      }
    }
  }

  lemma ReadyFrame(s: State, s': State, c: Cid, touched: set<Tid>)
    requires forall d: Cid :: d < |s.cpus| ==> ReadyOk(s, d)
    requires Only(s, s', c, touched) && ReadyOk(s', c)
    requires forall t :: t in touched ==> Th(s, t).runNode == None || Th(s, t).runNode == Some(c)
    ensures forall d: Cid :: d < |s'.cpus| ==> ReadyOk(s', d)
  {
    forall d: Cid | d < |s'.cpus| ensures ReadyOk(s', d) {
      assert ReadyOk(s, d);
    }
  }

  lemma QueuesFrame(s: State, s': State, c: Cid, touched: set<Tid>)
    requires forall q :: QueueOk(s, q)
    requires Only(s, s', c, touched)
    requires s'.queues == s.queues
    requires forall t :: t in touched ==>
               && Th(s', t).waiter == Th(s, t).waiter
               && (Th(s, t).waiter.Some? ==> Th(s', t).state == Blocking || Th(s', t).state == Blocked)
    ensures forall q :: QueueOk(s', q)
  {
    forall q ensures QueueOk(s', q) { assert QueueOk(s, q); }
  }

  /** What thread `t` relies on at CPU `c` has not moved. */
  ghost predicate StaysPut(s: State, s': State, c: Cid, t: Tid)
    requires c < |s.cpus| && c < |s'.cpus|
  {
    var u, u', th := s.cpus[c], s'.cpus[c], Th(s, t);
    || !Refers(u, t)
    || (&& u'.current == u.current && u'.previous == u.previous && u'.pendingExit == u.pendingExit
        && (u'.pc == u.pc ||
            (&& (th.state == Ready ==> th.runNode.Some? || Picked(u'.pc, t)) && th.state != Blocking
             && (th.state == Running ==> u.current == t))))
  }

  lemma ThreadFrame(s: State, g: Witness, w: Witness, s': State, g': Witness, w': Witness, c: Cid, t: Tid)
    requires ThreadOk(s, g, w, t)
    requires |s'.cpus| == |s.cpus| && c < |s.cpus|
    requires forall d: Cid :: d < |s.cpus| && d != c ==> s'.cpus[d] == s.cpus[d]
    requires s'.cpus[c].idle == s.cpus[c].idle
    requires Th(s', t) == Th(s, t) && (t in s'.manager <==> t in s.manager)
    requires (t in g' <==> t in g) && (t in g ==> g'[t] == g[t])
    requires (t in w' <==> t in w) && (t in w ==> w'[t] == w[t])
    requires StaysPut(s, s', c, t)
    requires t in s.cpus[c].ready ==> t in s'.cpus[c].ready
    requires forall q :: t in Waiters(s, q) ==> t in Waiters(s', q)
    requires Charged(s, c, t) ==> Charged(s', c, t) || Th(s, t).state != Waking || Th(s, t).onCpu
    ensures ThreadOk(s', g', w', t)
  {
  }

  lemma ThreadsFrame(s: State, g: Witness, w: Witness, s': State, g': Witness, w': Witness, c: Cid, touched: set<Tid>)
    requires forall t :: ThreadOk(s, g, w, t)
    requires Only(s, s', c, touched) && SameAt(g, g', touched) && SameAt(w, w', touched)
    requires forall t :: t in touched || ThreadOk(s', g', w', t) || StaysPut(s, s', c, t)
    requires forall t :: t in touched ==> ThreadOk(s', g', w', t)
    requires forall t :: t !in touched && t in s.cpus[c].ready ==> t in s'.cpus[c].ready
    requires forall q, t :: t !in touched && t in Waiters(s, q) ==> t in Waiters(s', q)
    requires forall t :: t !in touched && Charged(s, c, t) ==>
               Charged(s', c, t) || Th(s, t).state != Waking || Th(s, t).onCpu
    ensures forall t :: ThreadOk(s', g', w', t)
  {
    forall t ensures ThreadOk(s', g', w', t) {
      if t !in touched && StaysPut(s, s', c, t) { ThreadFrame(s, g, w, s', g', w', c, t); }
    }
  }

  /** A thread this CPU holds that is dead after the step was dead before, or has just died here. */
  ghost predicate Dies(s: State, s': State, g: Witness, g': Witness, c: Cid, t: Tid)
    requires c < |s.cpus| && c < |s'.cpus|
  {
    && At(g, t, c) && At(g', t, c) && s.cpus[c].wake.None? && s.cpus[c].pc != Dying
    && (Th(s, t).state == Dead || (s'.cpus[c].pc == Dying && s'.cpus[c].current == t))
  }

  /** What makes a thread safe to touch for CPU `c`: it holds it, or nobody does. */
  ghost predicate Touchable(s: State, g: Witness, c: Cid, t: Tid)
    requires c < |s.cpus|
  {
    || Refers(s.cpus[c], t)
    || ((Th(s, t).runNode == None || Th(s, t).runNode == Some(c))
        && (t in g && g[t] < |s.cpus| && g[t] != c ==> !Refers(s.cpus[g[t]], t)))
  }

  /** A thread in CPU `c`'s ready queue is referred to by no CPU but, while it is being left, by `c`. */
  lemma QueuedElsewhere(s: State, g: Witness, c: Cid, t: Tid, d: Cid)
    requires c < |s.cpus| && d < |s.cpus| && ReadyOk(s, c) && CpuOk(s, g, d) && t in s.cpus[c].ready
    requires Refers(s.cpus[d], t)
    ensures d == c && (s.cpus[c].pc.Requeued? || s.cpus[c].pc.Committed? || s.cpus[c].previous == Some(t))
  {
  }

  lemma Touching(s: State, g: Witness, w: Witness, c: Cid, t: Tid)
    requires Inv(s, g, w) && c < |s.cpus| && Touchable(s, g, c, t)
    ensures Th(s, t).runNode == None || Th(s, t).runNode == Some(c)
    ensures t in g && g[t] < |s.cpus| && g[t] != c ==> !Refers(s.cpus[g[t]], t)
  {
    if Refers(s.cpus[c], t) {
      Home(s, g, c, t);
      assert ThreadOk(s, g, w, t);
      if Th(s, t).runNode.Some? {
        var d := Th(s, t).runNode.value;
        assert ReadyOk(s, d);
        QueuedElsewhere(s, g, d, t, c);
      }
    }
  }

  /** Steps that neither end a thread nor serve its joiners keep the join clause. */
  lemma JoinsFrame(s: State, g: Witness, s': State, g': Witness, c: Cid, touched: set<Tid>)
    requires forall t :: JoinOk(s, g, t)
    requires Only(s, s', c, touched) && SameAt(g, g', touched)
    requires forall t :: t in touched && Th(s', t).state == Dead ==> Dies(s, s', g, g', c, t)
    requires forall t :: Th(s, t).state == Dead && Waiters(s', Joiners(t)) != [] ==>
               Waiters(s, Joiners(t)) != [] || Joiners(t) in s.locks
    requires forall t :: Th(s, t).state == Dead && Joiners(t) in s'.locks ==> Joiners(t) in s.locks
    requires s'.cpus[c].current == s.cpus[c].current || s.cpus[c].pc != Dying
    requires s.cpus[c].wake.None? || s.cpus[c].wake == s'.cpus[c].wake || s.cpus[c].wake.value.q.Named?
    requires s.cpus[c].wake.Some? ==> s'.cpus[c].current == s.cpus[c].current
    requires s.cpus[c].pc == Dying ==> s'.cpus[c].pc == Dying
    ensures forall t :: JoinOk(s', g', t)
  {
    forall t ensures JoinOk(s', g', t) { assert JoinOk(s, g, t); }
  }

  /** A step whose effect stays on CPU `c` and on threads no other CPU refers to, with the threads done. */
  lemma WholeFrame(s: State, g: Witness, w: Witness, s': State, g': Witness, w': Witness, c: Cid, touched: set<Tid>)
    requires Inv(s, g, w) && Only(s, s', c, touched) && SameAt(g, g', touched)
    requires CpuOk(s', g', c) && ReadyOk(s', c)
    requires forall q :: QueueOk(s', q)
    requires forall t :: ThreadOk(s', g', w', t)
    requires forall t :: t in touched ==> Touchable(s, g, c, t)
    requires forall t :: t in touched && Th(s', t).state == Dead ==> Dies(s, s', g, g', c, t)
    requires forall q :: q in s.locks && s.locks[q] != c ==> q in s'.locks && s'.locks[q] == s.locks[q]
    requires forall t :: Th(s, t).state == Dead && Waiters(s', Joiners(t)) != [] ==>
               Waiters(s, Joiners(t)) != [] || Joiners(t) in s.locks
    requires forall t :: Th(s, t).state == Dead && Joiners(t) in s'.locks ==> Joiners(t) in s.locks
    requires s.cpus[c].pc != Dying
    requires s.cpus[c].wake.None?
             || (s'.cpus[c].current == s.cpus[c].current
                 && (s.cpus[c].wake == s'.cpus[c].wake || s.cpus[c].wake.value.q.Named?))
    ensures Inv(s', g', w')
  {
    forall t | t in touched
      ensures Th(s, t).runNode == None || Th(s, t).runNode == Some(c)
      ensures t in g && g[t] < |s.cpus| && g[t] != c ==> !Refers(s.cpus[g[t]], t)
    {
      Touching(s, g, w, c, t);
    }
    CpusFrame(s, g, s', g', c, touched);
    ReadyFrame(s, s', c, touched);
    JoinsFrame(s, g, s', g', c, touched);
  }

  /** The same where most threads stay put. */
  lemma StepFrame(s: State, g: Witness, w: Witness, s': State, g': Witness, w': Witness, c: Cid, touched: set<Tid>)
    requires Inv(s, g, w) && Only(s, s', c, touched) && SameAt(g, g', touched) && SameAt(w, w', touched)
    requires CpuOk(s', g', c) && ReadyOk(s', c)
    requires forall q :: QueueOk(s', q)
    requires forall t :: t in touched ==> ThreadOk(s', g', w', t) && Touchable(s, g, c, t)
    requires forall t :: t in touched && Th(s', t).state == Dead ==> Dies(s, s', g, g', c, t)
    requires forall q :: q in s.locks && s.locks[q] != c ==> q in s'.locks && s'.locks[q] == s.locks[q]
    requires forall t :: t !in touched ==> ThreadOk(s', g', w', t) || StaysPut(s, s', c, t)
    requires forall t :: t !in touched && t in s.cpus[c].ready ==> t in s'.cpus[c].ready
    requires forall q, t :: t !in touched && t in Waiters(s, q) ==> t in Waiters(s', q)
    requires forall t :: t !in touched && Charged(s, c, t) ==>
               Charged(s', c, t) || Th(s, t).state != Waking || Th(s, t).onCpu
    requires forall t :: Th(s, t).state == Dead && Waiters(s', Joiners(t)) != [] ==>
               Waiters(s, Joiners(t)) != [] || Joiners(t) in s.locks
    requires forall t :: Th(s, t).state == Dead && Joiners(t) in s'.locks ==> Joiners(t) in s.locks
    requires s.cpus[c].pc != Dying
    requires s.cpus[c].wake.None?
             || (s'.cpus[c].current == s.cpus[c].current
                 && (s.cpus[c].wake == s'.cpus[c].wake || s.cpus[c].wake.value.q.Named?))
    ensures Inv(s', g', w')
  {
    ThreadsFrame(s, g, w, s', g', w', c, touched);
    WholeFrame(s, g, w, s', g', w', c, touched);
  }
}
