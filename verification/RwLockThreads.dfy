/** The reader/writer lock over the thread machine: its waiters run, block and are woken by the real protocol, with
    wake_all as a loop, and every run of the two together is a run of the lock at lock granularity. */
module RwLockThreads {
  import opened Base
  import opened ThreadMachine
  import opened ThreadInvariant
  import opened ThreadQueues
  import opened ThreadClients
  import T = ThreadTheorems
  import R = RwLock

  /** The two wait queues of the lock. */
  const READERS := Named(0)
  const WRITERS := Named(1)

  /** Where a thread is in the lock's operations: about to try, holding the status lock after a failed try, in the
      queue's part of the wait, holding the lock, unlocking, and unlocking with its wake-ups decided. */
  datatype Place =
    Outside | RTest | RHeld | RInner | Reads | RLeave | WTest | WHeld | WInner | Writes | WLeave | Done

  datatype Lock = Lock(counts: R.Counts, status: Option<Tid>, place: map<Tid, Place>)

  datatype Joint = Joint(machine: State, lock: Lock)

  datatype Act =
    | ReadLock | CheckRead | ReadUnlock | QuickRead | TryWriteLock | WriteLock | CheckWrite | WriteUnlock | Finish

  datatype Move =
    | Local(cpu: Cid, act: Act)
    | TakeReaders(cpu: Cid)
    | TakeWriters(cpu: Cid)
    | WakeWriter(cpu: Cid)
    | WakeReaders(cpu: Cid)
    | Other(step: Step)

  function PlaceOf(l: Lock, t: Tid): Place { if t in l.place then l.place[t] else Outside }

  function Put(l: Lock, t: Tid, p: Place): Lock { l.(place := l.place[t := p]) }

  predicate HoldsStatus(p: Place) { p == RHeld || p == WHeld || p == RLeave || p == WLeave || p == Done }

  /** In an operation, and not just holding the lock. */
  predicate Within(p: Place) { p != Outside && p != Reads && p != Writes }

  /** The unlock of thread `t` is going to wake a writer. */
  predicate Deciding(l: Lock, t: Tid) {
    || (PlaceOf(l, t) == RLeave && R.WakesWriter(l.counts))
    || (PlaceOf(l, t) == WLeave && R.PrefersWriter(l.counts))
  }

  /** What a thread does in its own code; the condition is called with the status lock held. */
  function DoLocal(l: Lock, t: Tid, act: Act): Option<Lock> {
    var p, k := PlaceOf(l, t), l.counts;
    match act
    case ReadLock => if p == Outside then Some(Put(l, t, RTest)) else None
    case CheckRead =>
      if (p != RTest && p != RInner) || l.status.Some? then None
      else if R.MayRead(k) then Some(Put(l, t, Reads).(counts := R.AfterRead(k)))
      else Some(Put(l, t, RHeld).(status := Some(t)))
    case ReadUnlock =>
      if p != Reads || l.status.Some? then None
      else Some(Put(l, t, RLeave).(status := Some(t), counts := R.AfterReadUnlock(k)))
    case QuickRead =>
      if p != RLeave || R.WakesWriter(k) then None else Some(Put(l, t, Outside).(status := None))
    case TryWriteLock =>
      if p != Outside || l.status.Some? then None
      else if R.IsFree(k) then Some(Put(l, t, Writes).(counts := R.AfterTryWrite(k))) else Some(l)
    case WriteLock =>
      if p != Outside || l.status.Some? then None else Some(Put(l, t, WTest).(counts := R.AfterAnnounce(k)))
    case CheckWrite =>
      if (p != WTest && p != WInner) || l.status.Some? then None
      else if R.IsFree(k) then Some(Put(l, t, Writes).(counts := R.AfterWrite(k)))
      else Some(Put(l, t, WHeld).(status := Some(t)))
    case WriteUnlock =>
      if p != Writes || l.status.Some? then None
      else Some(Put(l, t, WLeave).(status := Some(t), counts := R.AfterWriteUnlock(k)))
    case Finish => if p != Done then None else Some(Put(l, t, Outside).(status := None))
  }

  /** What a move by which the lock enters its queues does to the lock, if it may be made. */
  function EnterLock(l: Lock, t: Tid, move: Move): Option<Lock> {
    match move
    case TakeReaders(_) => if PlaceOf(l, t) == RHeld then Some(Put(l, t, RInner).(status := None)) else None
    case TakeWriters(_) => if PlaceOf(l, t) == WHeld then Some(Put(l, t, WInner).(status := None)) else None
    case WakeWriter(_) => if Deciding(l, t) then Some(l) else None
    case WakeReaders(_) =>
      if PlaceOf(l, t) == WLeave && !R.PrefersWriter(l.counts) then Some(Put(l, t, Done)) else None
    case _ => None
  }

  /** The machine's step, if the move is one. */
  function StepOf(move: Move): Option<Step> {
    match move
    case TakeReaders(c) => Some(CheckWait(c, READERS))
    case TakeWriters(c) => Some(CheckWait(c, WRITERS))
    case WakeWriter(c) => Some(WakeStart(c, WRITERS, false))
    case WakeReaders(c) => Some(WakeStart(c, READERS, true))
    case Other(step) => Some(step)
    case Local(_, _) => None
  }

  /** The lock's queues are entered only by the lock. */
  predicate Foreign(step: Step) {
    step.CheckWait? || step.WakeStart? ==> step.queue != READERS && step.queue != WRITERS
  }

  /** A thread in one of the lock's operations does nothing of its own, an unlock is not preempted, and a wait holds
      the status lock with interrupts off. */
  predicate Allowed(j: Joint, step: Step) {
    && Foreign(step)
    && (step.cpu < |j.machine.cpus| ==>
          var p := PlaceOf(j.lock, j.machine.cpus[step.cpu].current);
          && (Within(p) ==> !step.Spawn? && !step.Start? && !step.CheckWait? && !step.Exit?)
          && (HoldsStatus(p) ==> !step.Yield?)
          && (p == RHeld || p == WHeld ==> !step.WakeStart?))
  }

  function Then(o: Outcome, l: Lock): Option<Joint> { if o.Ok? then Some(Joint(o.state, l)) else None }

  ghost function Do(j: Joint, move: Move): Option<Joint> {
    if move.Other? then
      if Allowed(j, move.step) then Then(Exec(j.machine, move.step), Woken(j, move.step)) else None
    else if !InCode(j.machine, move.cpu) then None
    else
      var m, l, t := j.machine, j.lock, j.machine.cpus[move.cpu].current;
      if move.Local? then
        if DoLocal(l, t, move.act).Some? then Some(Joint(m, DoLocal(l, t, move.act).value)) else None
      else if EnterLock(l, t, move).None? then None
      else Then(Exec(m, StepOf(move).value), EnterLock(l, t, move).value)
  }

  /** wake_first on the writers is where an unlock does its waking. */
  ghost function Woken(j: Joint, step: Step): Lock {
    if Pops(j.machine, step, WRITERS) then Put(j.lock, j.machine.cpus[step.cpu].current, Done) else j.lock
  }

  // ---------------------------------------------------------------- the lock this is

  /** A wake_all on the readers is under way. */
  ghost predicate Draining(m: State) { READERS in m.locks && Wakes(m, m.locks[READERS], READERS) }

  /** What the lock sees of the machine: the readers in their queue, those of them that no wake_all has taken over, the
      writers in theirs, and who is handing over to each queue. */
  datatype View = View(waiting: seq<Tid>, sleepers: seq<Tid>, writers: seq<Tid>, rHand: Option<Tid>, wHand: Option<Tid>)

  ghost function ViewOf(m: State): View {
    var rs := Waiters(m, READERS);
    View(rs, if Draining(m) then [] else rs, Waiters(m, WRITERS), Handing(m, READERS), Handing(m, WRITERS))
  }

  ghost function Phase(v: View, p: Place, t: Tid): R.Phase {
    match p
    case Outside => R.Out
    case RTest => R.RCheck
    case RHeld => R.RHold
    case RInner => if t in v.sleepers then R.RQueued else if v.rHand == Some(t) then R.RHand else R.RCheck
    case Reads => R.Reading
    case RLeave => R.RUnlock
    case WTest => R.WCheck
    case WHeld => R.WHold
    case WInner => if t in v.writers then R.WQueued else if v.wHand == Some(t) then R.WHand else R.WCheck
    case Writes => R.Writing
    case WLeave => R.WUnlock
    case Done => R.Out
  }

  ghost function StatusOf(l: Lock): Option<Tid> {
    if l.status.Some? && PlaceOf(l, l.status.value) == Done then None else l.status
  }

  ghost function Phases(v: View, l: Lock): map<Tid, R.Phase> { map t | t in l.place :: Phase(v, l.place[t], t) }

  ghost function Abs(v: View, l: Lock): R.State {
    R.State(l.counts, StatusOf(l), v.rHand, v.wHand, v.sleepers, v.writers, Phases(v, l))
  }

  ghost predicate Users(v: View, l: Lock) {
    && (forall t :: t in v.waiting ==> PlaceOf(l, t) == RInner)
    && (forall t :: t in v.writers ==> PlaceOf(l, t) == WInner)
    && (forall t :: t in v.sleepers ==> t in v.waiting)
    && (v.rHand.Some? ==> PlaceOf(l, v.rHand.value) == RInner)
    && (v.wHand.Some? ==> PlaceOf(l, v.wHand.value) == WInner)
    && (forall t: Tid :: HoldsStatus(PlaceOf(l, t)) <==> l.status == Some(t))
  }

  /** A waker of a writer is an unlock that has so decided; readers are woken all. */
  ghost predicate Wakers(j: Joint) {
    && (forall c: Cid :: Wakes(j.machine, c, WRITERS) ==>
          !j.machine.cpus[c].wake.value.all
          && (j.machine.cpus[c].wake.value.marked.None? ==> Deciding(j.lock, j.machine.cpus[c].current)))
    && WakesAll(j.machine)
  }

  ghost predicate WakesAll(m: State) {
    forall c: Cid :: Wakes(m, c, READERS) ==> m.cpus[c].wake.value.all
  }

  function QueueOf(p: Place): Qid { if p == WTest || p == WHeld || p == WInner then WRITERS else READERS }

  /** A thread in an operation is alive and waits on no other queue. */
  ghost predicate Alive(j: Joint) {
    && (forall t :: Within(PlaceOf(j.lock, t)) ==> UserOk(j.machine, t, QueueOf(PlaceOf(j.lock, t))))
    && (forall c: Cid :: c < |j.machine.cpus| && j.machine.cpus[c].pc.Handover? ==>
          var p := PlaceOf(j.lock, j.machine.cpus[c].current);
          Within(p) ==> j.machine.cpus[c].pc.q == QueueOf(p))
  }

  ghost predicate JointInv(j: Joint, g: Witness, w: Witness) {
    Inv(j.machine, g, w) && Locked(j.machine) && Users(ViewOf(j.machine), j.lock) && Wakers(j) && Alive(j)
  }

  /** The lock stays as it is, or takes one step. */
  ghost predicate Follows(s: R.State, s': R.State) {
    s' == s || exists step :: R.Enabled(s, step) && s' == R.Next(s, step)
  }

  /** From `v` and `l` to `v'` and `l'` the lock does that. */
  ghost predicate Sees(v: View, l: Lock, v': View, l': Lock) { Follows(Abs(v, l), Abs(v', l')) && Users(v', l') }

  /** Away from both queues. */
  ghost predicate AwayBoth(v: View, t: Tid) {
    t !in v.waiting && t !in v.writers && v.rHand != Some(t) && v.wHand != Some(t)
  }

  // ---------------------------------------------------------------- on views: each move is a step, or nothing

  lemma OnePhase(v: View, l: Lock, v': View, l': Lock, t: Tid)
    requires l'.place.Keys == l.place.Keys + {t}
    requires forall x: Tid :: x != t ==> Phase(v', PlaceOf(l', x), x) == Phase(v, PlaceOf(l, x), x)
    ensures R.PhaseOf(Abs(v, l), t) == Phase(v, PlaceOf(l, t), t)
    ensures Phases(v', l') == Phases(v, l)[t := Phase(v', PlaceOf(l', t), t)]
  {
    forall x: Tid | x in l'.place && x != t ensures Phases(v', l')[x] == Phases(v, l)[x] {
      assert PlaceOf(l', x) == l'.place[x] && PlaceOf(l, x) == l.place[x];
    }
  }

  /** When at most thread `t`, away from the queues, has moved and the queues hold no newcomer. */
  lemma UsersKeep(v: View, l: Lock, v': View, l': Lock, t: Tid)
    requires Users(v, l) && forall x: Tid :: x != t ==> PlaceOf(l', x) == PlaceOf(l, x)
    requires PlaceOf(l', t) == PlaceOf(l, t) || AwayBoth(v, t)
    requires forall x :: x in v'.waiting ==> x in v.waiting || v.rHand == Some(x)
    requires forall x :: x in v'.writers ==> x in v.writers || v.wHand == Some(x)
    requires forall x :: x in v'.sleepers ==> x in v'.waiting
    requires v'.rHand == v.rHand || v'.rHand.None? || (v'.rHand == Some(t) && PlaceOf(l', t) == RInner)
    requires v'.wHand == v.wHand || v'.wHand.None? || (v'.wHand == Some(t) && PlaceOf(l', t) == WInner)
    requires HoldsStatus(PlaceOf(l', t)) <==> l'.status == Some(t)
    requires l'.status == l.status || (l.status in {None, Some(t)} && l'.status in {None, Some(t)})
    ensures Users(v', l')
  {
  }

  lemma LocalUsers(v: View, l: Lock, t: Tid, act: Act, l': Lock)
    requires Users(v, l) && DoLocal(l, t, act) == Some(l') && AwayBoth(v, t)
    ensures Users(v, l')
  {
    assert HoldsStatus(PlaceOf(l, t)) <==> l.status == Some(t);
    LocalStatus(l, t, act, l');
    UsersKeep(v, l, v, l', t);
  }

  lemma LocalStatus(l: Lock, t: Tid, act: Act, l': Lock)
    requires DoLocal(l, t, act) == Some(l') && (HoldsStatus(PlaceOf(l, t)) <==> l.status == Some(t))
    ensures HoldsStatus(PlaceOf(l', t)) <==> l'.status == Some(t)
    ensures l'.status == l.status || (l.status in {None, Some(t)} && l'.status in {None, Some(t)})
    ensures forall x: Tid :: x != t ==> PlaceOf(l', x) == PlaceOf(l, x)
    ensures l'.counts == l.counts || l.status.None?
  {
  }

  lemma BeginFollows(v: View, l: Lock, t: Tid, act: Act, l': Lock)
    requires DoLocal(l, t, act) == Some(l') && (act == ReadLock || act == WriteLock)
    ensures Follows(Abs(v, l), Abs(v, l'))
  {
    OnePhase(v, l, v, l', t);
    var step := if act == ReadLock then R.ReadLock(t) else R.WriteLock(t);
    assert R.Enabled(Abs(v, l), step) && Abs(v, l') == R.Next(Abs(v, l), step);
  }

  lemma CheckReadFollows(v: View, l: Lock, t: Tid, l': Lock)
    requires DoLocal(l, t, CheckRead) == Some(l') && t !in v.sleepers && AwayBoth(v, t)
    ensures Follows(Abs(v, l), Abs(v, l'))
  {
    OnePhase(v, l, v, l', t);
    assert Phase(v, PlaceOf(l, t), t) == R.RCheck;
    assert R.Enabled(Abs(v, l), R.CheckRead(t)) && Abs(v, l') == R.Next(Abs(v, l), R.CheckRead(t));
  }

  lemma CheckWriteFollows(v: View, l: Lock, t: Tid, l': Lock)
    requires DoLocal(l, t, CheckWrite) == Some(l') && t !in v.sleepers && AwayBoth(v, t)
    ensures Follows(Abs(v, l), Abs(v, l'))
  {
    OnePhase(v, l, v, l', t);
    assert Phase(v, PlaceOf(l, t), t) == R.WCheck;
    assert R.Enabled(Abs(v, l), R.CheckWrite(t)) && Abs(v, l') == R.Next(Abs(v, l), R.CheckWrite(t));
  }

  lemma ReadUnlockFollows(v: View, l: Lock, t: Tid, l': Lock)
    requires DoLocal(l, t, ReadUnlock) == Some(l')
    ensures Follows(Abs(v, l), Abs(v, l'))
  {
    OnePhase(v, l, v, l', t);
    assert R.Enabled(Abs(v, l), R.ReadUnlock(t)) && Abs(v, l') == R.Next(Abs(v, l), R.ReadUnlock(t));
  }

  lemma WriteUnlockFollows(v: View, l: Lock, t: Tid, l': Lock)
    requires DoLocal(l, t, WriteUnlock) == Some(l')
    ensures Follows(Abs(v, l), Abs(v, l'))
  {
    OnePhase(v, l, v, l', t);
    assert R.Enabled(Abs(v, l), R.WriteUnlock(t)) && Abs(v, l') == R.Next(Abs(v, l), R.WriteUnlock(t));
  }

  lemma TryFollows(v: View, l: Lock, t: Tid, l': Lock)
    requires DoLocal(l, t, TryWriteLock) == Some(l')
    ensures Follows(Abs(v, l), Abs(v, l'))
  {
    if R.IsFree(l.counts) {
      OnePhase(v, l, v, l', t);
      assert R.Enabled(Abs(v, l), R.TryWriteLock(t)) && Abs(v, l') == R.Next(Abs(v, l), R.TryWriteLock(t));
    }
  }

  /** An unlock that wakes nobody ends at once, and the end of another is nothing more to the lock. */
  lemma EndFollows(v: View, l: Lock, t: Tid, act: Act, l': Lock)
    requires Users(v, l) && DoLocal(l, t, act) == Some(l') && (act == QuickRead || act == Finish)
    ensures Follows(Abs(v, l), Abs(v, l'))
  {
    OnePhase(v, l, v, l', t);
    assert HoldsStatus(PlaceOf(l, t));
    if act == Finish {
      assert Abs(v, l') == Abs(v, l);
    } else {
      assert R.Enabled(Abs(v, l), R.FinishReadUnlock(t)) && Abs(v, l') == R.Next(Abs(v, l), R.FinishReadUnlock(t));
    }
  }

  /** What a thread does in its own code is a step of the lock. */
  lemma LocalFollows(v: View, l: Lock, t: Tid, act: Act, l': Lock)
    requires Users(v, l) && DoLocal(l, t, act) == Some(l') && AwayBoth(v, t)
    ensures Sees(v, l, v, l')
  {
    LocalUsers(v, l, t, act, l');
    match act
    case ReadLock => BeginFollows(v, l, t, act, l');
    case WriteLock => BeginFollows(v, l, t, act, l');
    case CheckRead => CheckReadFollows(v, l, t, l');
    case CheckWrite => CheckWriteFollows(v, l, t, l');
    case ReadUnlock => ReadUnlockFollows(v, l, t, l');
    case WriteUnlock => WriteUnlockFollows(v, l, t, l');
    case TryWriteLock => TryFollows(v, l, t, l');
    case QuickRead => EndFollows(v, l, t, act, l');
    case Finish => EndFollows(v, l, t, act, l');
  }

  lemma TakeReadersFollows(v: View, l: Lock, t: Tid)
    requires Users(v, l) && AwayBoth(v, t) && PlaceOf(l, t) == RHeld && v.rHand.None?
    ensures Sees(v, l, v.(rHand := Some(t)), Put(l, t, RInner).(status := None))
  {
    var v', l' := v.(rHand := Some(t)), Put(l, t, RInner).(status := None);
    OnePhase(v, l, v', l', t);
    assert R.Enabled(Abs(v, l), R.TakeReaders(t)) && Abs(v', l') == R.Next(Abs(v, l), R.TakeReaders(t));
    TakeUsers(v, l, v', l', t);
  }

  lemma TakeWritersFollows(v: View, l: Lock, t: Tid)
    requires Users(v, l) && AwayBoth(v, t) && PlaceOf(l, t) == WHeld && v.wHand.None?
    ensures Sees(v, l, v.(wHand := Some(t)), Put(l, t, WInner).(status := None))
  {
    var v', l' := v.(wHand := Some(t)), Put(l, t, WInner).(status := None);
    OnePhase(v, l, v', l', t);
    assert R.Enabled(Abs(v, l), R.TakeWriters(t)) && Abs(v', l') == R.Next(Abs(v, l), R.TakeWriters(t));
    TakeUsers(v, l, v', l', t);
  }

  lemma TakeUsers(v: View, l: Lock, v': View, l': Lock, t: Tid)
    requires Users(v, l) && AwayBoth(v, t) && HoldsStatus(PlaceOf(l, t))
    requires (v' == v.(rHand := Some(t)) && l' == Put(l, t, RInner).(status := None))
             || (v' == v.(wHand := Some(t)) && l' == Put(l, t, WInner).(status := None))
    ensures Users(v', l')
  {
    UsersKeep(v, l, v', l', t);
  }

  /** An unlock with its wake-ups decided. */
  lemma DoneUsers(v: View, l: Lock, v': View, t: Tid)
    requires Users(v, l) && (PlaceOf(l, t) == RLeave || PlaceOf(l, t) == WLeave)
    requires v'.waiting == v.waiting && v'.rHand == v.rHand && v'.wHand == v.wHand
    requires (forall x :: x in v'.sleepers ==> x in v.sleepers) && (forall x :: x in v'.writers ==> x in v.writers)
    ensures Users(v', Put(l, t, Done))
  {
    assert HoldsStatus(PlaceOf(l, t)) && AwayBoth(v, t);
    UsersKeep(v, l, v', Put(l, t, Done), t);
  }

  /** The start of wake_all is the end of the write lock: all readers that sleep then are on their way. */
  lemma WakeReadersFollows(v: View, l: Lock, t: Tid)
    requires Users(v, l) && PlaceOf(l, t) == WLeave && !R.PrefersWriter(l.counts) && v.rHand.None?
    ensures Sees(v, l, v.(sleepers := []), Put(l, t, Done))
  {
    var v', l', step := v.(sleepers := []), Put(l, t, Done), R.FinishWriteUnlock(t);
    assert HoldsStatus(PlaceOf(l, t)) && R.PhaseOf(Abs(v, l), t) == R.WUnlock;
    DrainedPhases(v, l, t);
    assert R.Enabled(Abs(v, l), step) && Abs(v', l') == R.Next(Abs(v, l), step);
    DoneUsers(v, l, v', t);
  }

  lemma DrainedPhases(v: View, l: Lock, t: Tid)
    requires Users(v, l) && PlaceOf(l, t) == WLeave && v.rHand.None?
    ensures Phases(v.(sleepers := []), Put(l, t, Done)) ==
            (Phases(v, l) + (map x | x in v.sleepers :: R.RCheck))[t := R.Out]
  {
    forall x | x in v.sleepers ensures x in l.place && l.place[x] == RInner { assert PlaceOf(l, x) == RInner; }
  }

  lemma ReaderQueues(v: View, l: Lock, t: Tid)
    requires Users(v, l) && v.rHand == Some(t) && t !in v.sleepers
    ensures Sees(v, l, v.(waiting := v.waiting + [t], sleepers := v.sleepers + [t], rHand := None), l)
  {
    var v' := v.(waiting := v.waiting + [t], sleepers := v.sleepers + [t], rHand := None);
    OnePhase(v, l, v', l, t);
    assert R.Enabled(Abs(v, l), R.QueueReader(t)) && Abs(v', l) == R.Next(Abs(v, l), R.QueueReader(t));
    assert HoldsStatus(PlaceOf(l, t)) <==> l.status == Some(t);
    UsersKeep(v, l, v', l, t);
  }

  lemma WriterQueues(v: View, l: Lock, t: Tid)
    requires Users(v, l) && v.wHand == Some(t) && t !in v.writers
    ensures Sees(v, l, v.(writers := v.writers + [t], wHand := None), l)
  {
    var v' := v.(writers := v.writers + [t], wHand := None);
    OnePhase(v, l, v', l, t);
    assert R.Enabled(Abs(v, l), R.QueueWriter(t)) && Abs(v', l) == R.Next(Abs(v, l), R.QueueWriter(t));
    assert HoldsStatus(PlaceOf(l, t)) <==> l.status == Some(t);
    UsersKeep(v, l, v', l, t);
  }

  function UnlockStep(l: Lock, t: Tid): R.Step {
    if PlaceOf(l, t) == RLeave then R.FinishReadUnlock(t) else R.FinishWriteUnlock(t)
  }

  function Rest(ws: seq<Tid>): seq<Tid> { if ws == [] then [] else ws[1..] }

  /** wake_first on the writers is the end of the unlock that called it. */
  lemma WriterWoken(v: View, l: Lock, t: Tid)
    requires Users(v, l) && Deciding(l, t) && NoDup(v.writers) && v.wHand.None?
    ensures Sees(v, l, v.(writers := Rest(v.writers)), Put(l, t, Done))
  {
    var v', l', step := v.(writers := Rest(v.writers)), Put(l, t, Done), UnlockStep(l, t);
    assert HoldsStatus(PlaceOf(l, t)) && R.PhaseOf(Abs(v, l), t) == Phase(v, PlaceOf(l, t), t);
    WokenPhases(v, l, t);
    assert R.Enabled(Abs(v, l), step) && Abs(v', l') == R.Next(Abs(v, l), step);
    DoneUsers(v, l, v', t);
  }

  lemma WokenPhases(v: View, l: Lock, t: Tid)
    requires Users(v, l) && Deciding(l, t) && NoDup(v.writers) && v.wHand.None?
    ensures Phases(v.(writers := Rest(v.writers)), Put(l, t, Done)) ==
            (if v.writers == [] then Phases(v, l) else Phases(v, l)[v.writers[0] := R.WCheck])[t := R.Out]
  {
    if v.writers != [] {
      NoDupTail(v.writers);
      assert PlaceOf(l, v.writers[0]) == WInner;
    }
  }

  // ---------------------------------------------------------------- how the machine's steps move the view

  /** wake_all ends only at an empty queue. */
  lemma AllWake(m: State, step: Step, m': State)
    requires Exec(m, step) == Ok(m') && (step.WakeFirst? || step.WakeTest? || step.WakeTry?)
    requires m.cpus[step.cpu].wake.value.all
    ensures m'.cpus[step.cpu].wake.None? ==> step.WakeFirst? && Waiters(m, m.cpus[step.cpu].wake.value.q) == []
    ensures m'.cpus[step.cpu].wake.Some? ==> m'.cpus[step.cpu].wake.value.all
  {
  }

  ghost function Sleepers(m: State): seq<Tid> { ViewOf(m).sleepers }

  /** So a wake_all under way goes on until the queue is empty. */
  lemma DrainingWake(m: State, step: Step, m': State)
    requires Locked(m) && WakesAll(m) && Exec(m, step) == Ok(m')
    requires step.WakeFirst? || step.WakeTest? || step.WakeTry?
    ensures Sleepers(m') == Sleepers(m)
  {
    StepWakes(m, step, m', READERS);
    var c := step.cpu;
    if Wakes(m, c, READERS) {
      assert Inside(m, c, READERS);
      AllWake(m, step, m');
    } else {
      assert Inside(m, c, m.cpus[c].wake.value.q);
      assert Draining(m) <==> Draining(m');
    }
  }

  lemma DrainingOther(m: State, step: Step, m': State)
    requires Locked(m) && Exec(m, step) == Ok(m') && Foreign(step)
    requires !(step.WakeFirst? || step.WakeTest? || step.WakeTry?)
    ensures Draining(m') <==> Draining(m)
    ensures Appends(m, step, READERS) ==> !Draining(m)
  {
    QueueStep(m, step, m', READERS);
    OtherWake(m, step, m', READERS);
    if Appends(m, step, READERS) { assert Inside(m, step.cpu, READERS); }
    if READERS in m.locks && m.locks[READERS] != step.cpu { OthersKeepOff(m, step, m', READERS); }
  }

  ghost function ViewAfter(m: State, step: Step): View
    requires step.cpu < |m.cpus|
  {
    var v, t := ViewOf(m), m.cpus[step.cpu].current;
    View(WaitersAfter(m, step, READERS), v.sleepers + (if Appends(m, step, READERS) then [t] else []),
         WaitersAfter(m, step, WRITERS), if Appends(m, step, READERS) then None else v.rHand,
         if Appends(m, step, WRITERS) then None else v.wHand)
  }

  /** The view after any step that is not the lock's own. */
  lemma OtherView(m: State, step: Step, m': State)
    requires Locked(m) && WakesAll(m) && Exec(m, step) == Ok(m') && Foreign(step)
    ensures ViewOf(m') == ViewAfter(m, step)
  {
    QueueStep(m, step, m', READERS);
    QueueStep(m, step, m', WRITERS);
    HandingStep(m, step, m', READERS);
    HandingStep(m, step, m', WRITERS);
    if step.WakeFirst? || step.WakeTest? || step.WakeTry? {
      DrainingWake(m, step, m');
    } else {
      DrainingOther(m, step, m');
    }
  }

  /** The view after a step by which thread `t` enters one of the lock's queues. */
  ghost function EnterAfter(v: View, t: Tid, step: Step): View {
    View(v.waiting, if step == WakeStart(step.cpu, READERS, true) then [] else v.sleepers, v.writers,
         if step == CheckWait(step.cpu, READERS) then Some(t) else v.rHand,
         if step == CheckWait(step.cpu, WRITERS) then Some(t) else v.wHand)
  }

  lemma EnterView(m: State, step: Step, m': State)
    requires Locked(m) && Exec(m, step) == Ok(m') && !Foreign(step)
    requires step.WakeStart? ==> step.all == (step.queue == READERS)
    ensures ViewOf(m') == EnterAfter(ViewOf(m), m.cpus[step.cpu].current, step)
    ensures step.queue == READERS ==> ViewOf(m).rHand.None?
    ensures step.queue == WRITERS ==> ViewOf(m).wHand.None?
  {
    QueueStep(m, step, m', READERS);
    QueueStep(m, step, m', WRITERS);
    HandingStep(m, step, m', READERS);
    HandingStep(m, step, m', WRITERS);
    EnterDraining(m, step, m');
  }

  lemma EnterDraining(m: State, step: Step, m': State)
    requires Locked(m) && Exec(m, step) == Ok(m') && !Foreign(step)
    ensures Free(m, step.queue) && (step.queue == READERS ==> !Draining(m))
    ensures Draining(m') <==> Draining(m) || (step.WakeStart? && step.queue == READERS)
  {
    if READERS in m.locks { assert Inside(m, m.locks[READERS], READERS); }
  }

  // ---------------------------------------------------------------- the moves

  lemma EnterFollows(v: View, l: Lock, t: Tid, move: Move)
    requires Users(v, l) && AwayBoth(v, t) && EnterLock(l, t, move).Some?
    requires move.TakeReaders? || move.WakeReaders? ==> v.rHand.None?
    requires move.TakeWriters? ==> v.wHand.None?
    ensures Sees(v, l, EnterAfter(v, t, StepOf(move).value), EnterLock(l, t, move).value)
  {
    match move
    case TakeReaders(_) => TakeReadersFollows(v, l, t);
    case TakeWriters(_) => TakeWritersFollows(v, l, t);
    case WakeReaders(_) => WakeReadersFollows(v, l, t);
    case WakeWriter(_) => assert EnterAfter(v, t, StepOf(move).value) == v;
  }

  lemma EnterSees(j: Joint, move: Move, j': Joint)
    requires Locked(j.machine) && Users(ViewOf(j.machine), j.lock) && Do(j, move) == Some(j')
    requires !move.Local? && !move.Other? && AwayBoth(ViewOf(j.machine), j.machine.cpus[move.cpu].current)
    ensures Sees(ViewOf(j.machine), j.lock, ViewOf(j'.machine), j'.lock)
  {
    var m, t := j.machine, j.machine.cpus[move.cpu].current;
    EnterView(m, StepOf(move).value, j'.machine);
    EnterFollows(ViewOf(m), j.lock, t, move);
  }

  lemma OtherSees(j: Joint, step: Step, j': Joint)
    requires Locked(j.machine) && Users(ViewOf(j.machine), j.lock) && Wakers(j) && Do(j, Other(step)) == Some(j')
    requires QueueApart(j.machine, READERS) && QueueApart(j.machine, WRITERS)
    ensures Sees(ViewOf(j.machine), j.lock, ViewOf(j'.machine), j'.lock)
  {
    var m, l, t := j.machine, j.lock, j.machine.cpus[step.cpu].current;
    var v, v' := ViewOf(m), ViewOf(j'.machine);
    OtherView(m, step, j'.machine);
    if Appends(m, step, READERS) {
      AppendsOwn(m, step, READERS);
      ReaderQueues(v, l, t);
    } else if Appends(m, step, WRITERS) {
      AppendsOwn(m, step, WRITERS);
      WriterQueues(v, l, t);
    } else if Pops(m, step, WRITERS) {
      PopsSees(j, step, v');
    } else {
      QuietSees(v, l, v');
    }
  }

  lemma PopsSees(j: Joint, step: Step, v': View)
    requires Locked(j.machine) && Users(ViewOf(j.machine), j.lock) && Wakers(j) && QueueApart(j.machine, WRITERS)
    requires Pops(j.machine, step, WRITERS) && j.machine.cpus[step.cpu].wake.value.marked.None?
    requires v' == ViewAfter(j.machine, step)
    ensures Sees(ViewOf(j.machine), j.lock, v', Woken(j, step))
  {
    var m, t := j.machine, j.machine.cpus[step.cpu].current;
    assert Inside(m, step.cpu, WRITERS) && Wakes(m, step.cpu, WRITERS) && Deciding(j.lock, t);
    WriterWoken(ViewOf(m), j.lock, t);
  }

  /** A wake_all may take readers off their queue that the lock no longer counts as asleep. */
  lemma QuietSees(v: View, l: Lock, v': View)
    requires Users(v, l) && v' == v.(waiting := v'.waiting)
    requires (forall t :: t in v'.waiting ==> t in v.waiting) && (forall t :: t in v.sleepers ==> t in v'.waiting)
    ensures Sees(v, l, v', l)
  {
    assert Phases(v', l) == Phases(v, l);
  }

  // ---------------------------------------------------------------- wakers

  /** An unlock that is to wake a writer keeps the status lock, so nobody else changes the counters. */
  lemma LocalWakers(j: Joint, c: Cid, act: Act, j': Joint)
    requires Users(ViewOf(j.machine), j.lock) && Wakers(j) && Do(j, Local(c, act)) == Some(j')
    requires var m := j.machine; forall d: Cid :: d < |m.cpus| && d != c ==> m.cpus[d].current != m.cpus[c].current
    ensures Wakers(j')
  {
    var m, l, t := j.machine, j.lock, j.machine.cpus[c].current;
    assert HoldsStatus(PlaceOf(l, t)) <==> l.status == Some(t);
    LocalStatus(l, t, act, j'.lock);
    forall d: Cid | Wakes(m, d, WRITERS) && m.cpus[d].wake.value.marked.None?
      ensures Deciding(j'.lock, m.cpus[d].current)
    {
      assert HoldsStatus(PlaceOf(l, m.cpus[d].current));
    }
  }

  /** Entering a queue makes at most its own CPU a waker. */
  lemma EnterWakes(m: State, step: Step, m': State)
    requires Exec(m, step) == Ok(m') && (step.CheckWait? || step.WakeStart?)
    ensures OneCpu(m, m', step.cpu) && step.cpu < |m.cpus| && m'.cpus[step.cpu].current == m.cpus[step.cpu].current
    ensures m.cpus[step.cpu].wake.None?
    ensures m'.cpus[step.cpu].wake == if step.WakeStart? then Some(Wake(step.queue, step.all, None, false)) else None
  {
  }

  lemma EnterWakers(j: Joint, move: Move, j': Joint)
    requires Users(ViewOf(j.machine), j.lock) && Wakers(j) && Do(j, move) == Some(j') && !move.Local? && !move.Other?
    requires var m, c := j.machine, move.cpu;
             forall d: Cid :: d < |m.cpus| && d != c ==> m.cpus[d].current != m.cpus[c].current
    ensures Wakers(j')
  {
    EnterWakes(j.machine, StepOf(move).value, j'.machine);
    forall d: Cid, q: Qid | d != move.cpu ensures Wakes(j'.machine, d, q) <==> Wakes(j.machine, d, q) {}
  }

  lemma OtherWakers(j: Joint, step: Step, j': Joint)
    requires Wakers(j) && Locked(j.machine) && Do(j, Other(step)) == Some(j')
    ensures Wakers(j')
  {
    var m, m', c := j.machine, j'.machine, step.cpu;
    QueueStep(m, step, m', READERS);
    if step.WakeFirst? || step.WakeTest? || step.WakeTry? {
      StepWakes(m, step, m', READERS);
      if Wakes(m, c, WRITERS) { OneWake(m, step, m'); }
      if Wakes(m, c, READERS) { AllWake(m, step, m'); }
    } else {
      OtherWake(m, step, m', READERS);
      OtherWake(m, step, m', WRITERS);
    }
    WakersMove(j, step, j');
  }

  lemma WakersMove(j: Joint, step: Step, j': Joint)
    requires Wakers(j) && Locked(j.machine) && OneCpu(j.machine, j'.machine, step.cpu) && step.cpu < |j.machine.cpus|
    requires j'.lock == Woken(j, step)
    requires var m, m', c := j.machine, j'.machine, step.cpu;
             && (Wakes(m', c, WRITERS) ==>
                   Wakes(m, c, WRITERS) && !m'.cpus[c].wake.value.all && m'.cpus[c].wake.value.marked.Some?)
             && (Wakes(m', c, READERS) ==> m'.cpus[c].wake.value.all)
    ensures Wakers(j')
  {
    var m, c := j.machine, step.cpu;
    forall d: Cid | d != c && Wakes(m, c, WRITERS) ensures !Wakes(m, d, WRITERS) {
      if Wakes(m, d, WRITERS) { OneWaker(m, c, d, WRITERS); }
    }
    forall d: Cid, q: Qid | d != c ensures Wakes(j'.machine, d, q) <==> Wakes(m, d, q) {}
  }

  // ---------------------------------------------------------------- threads in an operation stay alive

  /** A thread in an operation takes no step of its own that ends it or has it wait elsewhere. */
  ghost predicate Disciplined(m: State, l: Lock, step: Step) {
    step.cpu < |m.cpus| &&
    var p := PlaceOf(l, m.cpus[step.cpu].current);
    Within(p) ==> !step.Exit? && (step.CheckWait? ==> step.queue == QueueOf(p))
  }

  lemma MoveDisciplined(j: Joint, move: Move, j': Joint)
    requires Do(j, move) == Some(j') && StepOf(move).Some?
    ensures Disciplined(j.machine, j.lock, StepOf(move).value)
    ensures Exec(j.machine, StepOf(move).value) == Ok(j'.machine)
  {
  }

  lemma AliveSteps(j: Joint, step: Step, j': Joint)
    requires Alive(j) && Locked(j.machine) && Exec(j.machine, step) == Ok(j'.machine)
    requires Disciplined(j.machine, j.lock, step)
    requires forall t :: PlaceOf(j'.lock, t) == PlaceOf(j.lock, t) || SameQueue(PlaceOf(j.lock, t), PlaceOf(j'.lock, t))
    ensures Alive(j')
  {
    var m, m' := j.machine, j'.machine;
    HandoverKeeps(m, step, m');
    forall t | Within(PlaceOf(j'.lock, t)) ensures UserOk(m', t, QueueOf(PlaceOf(j'.lock, t))) {
      UserKeeps(m, step, m', t, QueueOf(PlaceOf(j.lock, t)));
    }
  }

  ghost predicate SameQueue(p: Place, p': Place) { Within(p) && Within(p') && QueueOf(p) == QueueOf(p') }

  lemma WokenQueue(j: Joint, step: Step, t: Tid)
    requires Wakers(j) && Exec(j.machine, step).Ok?
    ensures var l' := Woken(j, step);
            PlaceOf(l', t) == PlaceOf(j.lock, t) || SameQueue(PlaceOf(j.lock, t), PlaceOf(l', t))
  {
    if Pops(j.machine, step, WRITERS) { assert Wakes(j.machine, step.cpu, WRITERS); }
  }

  /** The moves of the lock that are steps keep a thread with its queue. */
  lemma SameQueues(j: Joint, move: Move, j': Joint, t: Tid)
    requires Wakers(j) && Do(j, move) == Some(j') && StepOf(move).Some?
    ensures PlaceOf(j'.lock, t) == PlaceOf(j.lock, t) || SameQueue(PlaceOf(j.lock, t), PlaceOf(j'.lock, t))
  {
    if move.Other? {
      WokenQueue(j, move.step, t);
    }
  }

  lemma AliveStarts(j: Joint, c: Cid, act: Act, j': Joint, g: Witness, w: Witness)
    requires JointInv(j, g, w) && Do(j, Local(c, act)) == Some(j')
    ensures Alive(j')
  {
    var m, t := j.machine, j.machine.cpus[c].current;
    RunsOutside(m, g, w, c, READERS);
    UserStarts(m, g, w, c, QueueOf(PlaceOf(j'.lock, t)));
    assert forall x: Tid :: x != t ==> PlaceOf(j'.lock, x) == PlaceOf(j.lock, x);
  }

  // ---------------------------------------------------------------- runs

  ghost predicate TimelyMove(j: Joint, move: Move) { move.Other? ==> T.Timely(j.machine, move.step) }

  lemma MachineKeeps(j: Joint, move: Move, j': Joint, g: Witness, w: Witness) returns (g': Witness, w': Witness)
    requires Inv(j.machine, g, w) && Locked(j.machine) && Do(j, move) == Some(j') && TimelyMove(j, move)
    ensures Inv(j'.machine, g', w') && Locked(j'.machine)
  {
    g', w' := g, w;
    if StepOf(move).Some? {
      MoveDisciplined(j, move, j');
      g', w' := T.StepKeeps(j.machine, g, w, StepOf(move).value, j'.machine);
      LockedKeeps(j.machine, StepOf(move).value, j'.machine);
    }
  }

  lemma ClientKeeps(j: Joint, move: Move, j': Joint, g: Witness, w: Witness)
    requires JointInv(j, g, w) && Do(j, move) == Some(j')
    ensures Sees(ViewOf(j.machine), j.lock, ViewOf(j'.machine), j'.lock) && Wakers(j')
  {
    var m := j.machine;
    if move.Other? {
      InvQueueApart(m, g, w, READERS);
      InvQueueApart(m, g, w, WRITERS);
      OtherSees(j, move.step, j');
      OtherWakers(j, move.step, j');
    } else {
      RunsOutside(m, g, w, move.cpu, READERS);
      RunsOutside(m, g, w, move.cpu, WRITERS);
      if move.Local? {
        LocalFollows(ViewOf(m), j.lock, m.cpus[move.cpu].current, move.act, j'.lock);
        LocalWakers(j, move.cpu, move.act, j');
      } else {
        EnterSees(j, move, j');
        EnterWakers(j, move, j');
      }
    }
  }

  /** Every move keeps the joint invariant and is a step of the lock, or nothing to it. */
  lemma MoveKeeps(j: Joint, move: Move, j': Joint, g: Witness, w: Witness) returns (g': Witness, w': Witness)
    requires JointInv(j, g, w) && Do(j, move) == Some(j') && TimelyMove(j, move)
    ensures JointInv(j', g', w')
    ensures Follows(Abs(ViewOf(j.machine), j.lock), Abs(ViewOf(j'.machine), j'.lock))
  {
    g', w' := MachineKeeps(j, move, j', g, w);
    ClientKeeps(j, move, j', g, w);
    if move.Local? {
      AliveStarts(j, move.cpu, move.act, j', g, w);
    } else {
      forall t: Tid ensures PlaceOf(j'.lock, t) == PlaceOf(j.lock, t)
                            || SameQueue(PlaceOf(j.lock, t), PlaceOf(j'.lock, t))
      {
        SameQueues(j, move, j', t);
      }
      MoveDisciplined(j, move, j');
      AliveSteps(j, StepOf(move).value, j');
    }
  }

  ghost predicate Started(j: Joint) {
    T.Booted(j.machine) && j.lock == Lock(R.Counts(0, 0, 0), None, map[])
  }

  ghost predicate IsRun(states: seq<Joint>, moves: seq<Move>) {
    && |states| == |moves| + 1 && Started(states[0])
    && forall i :: 0 <= i < |moves| ==> Do(states[i], moves[i]) == Some(states[i + 1])
  }

  ghost predicate TimelyTo(states: seq<Joint>, moves: seq<Move>, i: nat)
    requires |states| == |moves| + 1 && i < |states|
  {
    forall k :: 0 <= k < i ==> TimelyMove(states[k], moves[k])
  }

  ghost function Seen(j: Joint): R.State { Abs(ViewOf(j.machine), j.lock) }

  lemma {:induction false} RunInv(states: seq<Joint>, moves: seq<Move>, i: nat) returns (g: Witness, w: Witness)
    requires IsRun(states, moves) && i < |states| && TimelyTo(states, moves, i)
    ensures JointInv(states[i], g, w) && (i > 0 ==> Follows(Seen(states[i - 1]), Seen(states[i])))
  {
    if i == 0 {
      g := T.BootInv(states[0].machine);
      w := map[];
    } else {
      g, w := RunInv(states, moves, i - 1);
      g, w := MoveKeeps(states[i - 1], moves[i - 1], states[i], g, w);
    }
  }

  lemma AppendStep(rs: seq<R.State>, steps: seq<R.Step>, step: R.Step)
    requires R.IsRun(rs, steps) && R.Enabled(rs[|rs| - 1], step)
    ensures R.IsRun(rs + [R.Next(rs[|rs| - 1], step)], steps + [step])
  {
    var rs', steps' := rs + [R.Next(rs[|rs| - 1], step)], steps + [step];
    forall i | 0 <= i < |steps'| ensures R.Enabled(rs'[i], steps'[i]) && rs'[i + 1] == R.Next(rs'[i], steps'[i]) {
      if i < |steps| { assert R.Enabled(rs[i], steps[i]) && rs[i + 1] == R.Next(rs[i], steps[i]); }
    }
  }

  lemma ExtendRun(rs: seq<R.State>, steps: seq<R.Step>, s: R.State) returns (rs': seq<R.State>, steps': seq<R.Step>)
    requires R.IsRun(rs, steps) && Follows(rs[|rs| - 1], s)
    ensures R.IsRun(rs', steps') && rs'[|rs'| - 1] == s
  {
    rs', steps' := rs, steps;
    if s != rs[|rs| - 1] {
      var step :| R.Enabled(rs[|rs| - 1], step) && s == R.Next(rs[|rs| - 1], step);
      AppendStep(rs, steps, step);
      rs', steps' := rs + [s], steps + [step];
    }
  }

  /** Every run over the real queues is a run of the lock at lock granularity, as long as no try comes late. */
  lemma {:induction false} IsRwLock(states: seq<Joint>, moves: seq<Move>, i: nat)
    returns (rs: seq<R.State>, steps: seq<R.Step>)
    requires IsRun(states, moves) && i < |states| && TimelyTo(states, moves, i)
    ensures R.IsRun(rs, steps) && rs[|rs| - 1] == Seen(states[i])
  {
    if i == 0 {
      rs, steps := [R.START], [];
      assert Seen(states[0]) == R.START;
    } else {
      rs, steps := IsRwLock(states, moves, i - 1);
      var g, w := RunInv(states, moves, i);
      rs, steps := ExtendRun(rs, steps, Seen(states[i]));
    }
  }

  /** Mutual exclusion of the real threads. */
  lemma Exclusion(states: seq<Joint>, moves: seq<Move>, i: nat, t: Tid, u: Tid)
    requires IsRun(states, moves) && i < |states| && TimelyTo(states, moves, i)
    requires PlaceOf(states[i].lock, t) == Writes && t != u
    ensures PlaceOf(states[i].lock, u) != Writes && PlaceOf(states[i].lock, u) != Reads
  {
    var rs, steps := IsRwLock(states, moves, i);
    R.Exclusion(rs, steps, |rs| - 1, t, u);
  }

  /** What ends a wait: a thread that holds the lock, or one in an operation that is on its way. */
  ghost predicate Hope(j: Joint, t: Tid) {
    var p := PlaceOf(j.lock, t);
    || p == Reads || p == Writes
    || (Within(p) && Coming(j.machine, t))
    || (p == RInner && t in Waiters(j.machine, READERS) && Draining(j.machine))
  }

  /** Nobody is stranded: while a thread sleeps in one of the queues, some thread holds the lock, or is in an operation
      and running, ready or about to be made ready, or a wake_all is about to take it off. */
  lemma NobodyStranded(states: seq<Joint>, moves: seq<Move>, i: nat)
    requires IsRun(states, moves) && i < |states| && TimelyTo(states, moves, i)
    requires var m := states[i].machine; Waiters(m, READERS) != [] || Waiters(m, WRITERS) != []
    ensures exists t: Tid :: Hope(states[i], t)
  {
    var j := states[i];
    var g, w := RunInv(states, moves, i);
    if Draining(j.machine) && Waiters(j.machine, READERS) != [] {
      var t := Waiters(j.machine, READERS)[0];
      assert t in ViewOf(j.machine).waiting && Hope(j, t);
    } else {
      var rs, steps := IsRwLock(states, moves, i);
      if forall t: Tid :: R.Asleep(R.PhaseOf(Seen(j), t)) { R.NobodyStranded(rs, steps, |rs| - 1); }
      var t: Tid :| !R.Asleep(R.PhaseOf(Seen(j), t));
      AwakeHopes(j, g, w, t);
    }
  }

  lemma AwakeHopes(j: Joint, g: Witness, w: Witness, t: Tid)
    requires JointInv(j, g, w) && !R.Asleep(R.PhaseOf(Seen(j), t))
    ensures Hope(j, t)
  {
    var p := PlaceOf(j.lock, t);
    assert R.PhaseOf(Seen(j), t) == Phase(ViewOf(j.machine), p, t);
    if Within(p) && !(p == RInner && t in Waiters(j.machine, READERS)) {
      assert t !in Waiters(j.machine, QueueOf(p));
      AwayIsComing(j.machine, g, w, t, QueueOf(p));
    }
  }
}
