/** The sleeping reader/writer lock as a client of two wait queues, at lock granularity. */
module RwLock {
  import opened Base
  import opened Counting

  type Tid = nat

  datatype Counts = Counts(reading: int, writing: int, waiting: int)

  /** The lock object: three counters changed in place under the status lock. */
  class Status {
    var readCount: int
    var writeCount: int
    var writeWaiting: int

    ghost function Now(): Counts
      reads this
    {
      Counts(readCount, writeCount, writeWaiting)
    }

    constructor ()
      ensures Now() == Counts(0, 0, 0)
    {
      readCount, writeCount, writeWaiting := 0, 0, 0;
    }

    method TryRead() returns (ok: bool)
      modifies this
      ensures ok == MayRead(old(Now())) && Now() == if ok then AfterRead(old(Now())) else old(Now())
    {
      if writeCount != 0 || writeWaiting != 0 { return false; }
      readCount := readCount + 1;
      return true;
    }

    method TryWrite() returns (ok: bool)
      modifies this
      ensures ok == IsFree(old(Now())) && Now() == if ok then AfterWrite(old(Now())) else old(Now())
    {
      if readCount != 0 || writeCount != 0 { return false; }
      writeWaiting := writeWaiting - 1;
      writeCount := writeCount + 1;
      return true;
    }

    /** The announcement of rwlock_write_lock. */
    method Announce()
      modifies this
      ensures Now() == AfterAnnounce(old(Now()))
    {
      writeWaiting := writeWaiting + 1;
    }

    /** rwlock_write_try_lock. */
    method WriteTryLock() returns (ok: bool)
      modifies this
      ensures ok == IsFree(old(Now()))
      ensures Now() == if ok then AfterTryWrite(old(Now())) else old(Now())
    {
      if readCount == 0 && writeCount == 0 {
        writeCount := writeCount + 1;
        return true;
      }
      return false;
    }

    /** The counter part of rwlock_read_unlock; the result says whether to wake a writer. */
    method ReadUnlock() returns (wakeWriter: bool)
      modifies this
      ensures Now() == AfterReadUnlock(old(Now()))
      ensures wakeWriter == WakesWriter(Now())
    {
      readCount := readCount - 1;
      wakeWriter := readCount == 0 && writeWaiting > 0;
    }

    /** The counter part of rwlock_write_unlock; the result picks one writer or all readers. */
    method WriteUnlock() returns (wakeWriter: bool)
      modifies this
      ensures Now() == AfterWriteUnlock(old(Now())) && wakeWriter == PrefersWriter(Now())
    {
      writeCount := writeCount - 1;
      wakeWriter := writeWaiting > 0;
    }
  }

  predicate MayRead(k: Counts) { k.writing == 0 && k.waiting == 0 }
  predicate IsFree(k: Counts) { k.reading == 0 && k.writing == 0 }
  predicate WakesWriter(k: Counts) { k.reading == 0 && k.waiting > 0 }
  function AfterRead(k: Counts): Counts { k.(reading := k.reading + 1) }
  function AfterWrite(k: Counts): Counts { k.(waiting := k.waiting - 1, writing := k.writing + 1) }
  function AfterTryWrite(k: Counts): Counts { k.(writing := k.writing + 1) }
  function AfterReadUnlock(k: Counts): Counts { k.(reading := k.reading - 1) }
  function AfterWriteUnlock(k: Counts): Counts { k.(writing := k.writing - 1) }
  function AfterAnnounce(k: Counts): Counts { k.(waiting := k.waiting + 1) }
  predicate PrefersWriter(k: Counts) { k.waiting > 0 }

  datatype Phase =
    | Out
    | RCheck        // about to lock the status and try to read
    | RHold         // try failed; holds the status lock and wants the readers' queue lock
    | RHand         // holds the readers' queue lock, has dropped the status lock
    | RQueued
    | Reading
    | RUnlock       // read_count dropped; holds the status lock
    | WCheck        // announced in write_waiting, about to try
    | WHold
    | WHand
    | WQueued
    | Writing
    | WUnlock       // write_count dropped; holds the status lock

  datatype State = State(counts: Counts, status: Option<Tid>, rLock: Option<Tid>, wLock: Option<Tid>,
                         readers: seq<Tid>, writers: seq<Tid>, phase: map<Tid, Phase>)

  const START := State(Counts(0, 0, 0), None, None, None, [], [], map[])

  function PhaseOf(s: State, t: Tid): Phase { if t in s.phase then s.phase[t] else Out }

  function At(s: State, t: Tid, p: Phase): State { s.(phase := s.phase[t := p]) }

  datatype Step =
    | ReadLock(t: Tid)
    | CheckRead(t: Tid)
    | TakeReaders(t: Tid)
    | QueueReader(t: Tid)
    | ReadUnlock(t: Tid)
    | FinishReadUnlock(t: Tid)
    | TryWriteLock(t: Tid)
    | WriteLock(t: Tid)
    | CheckWrite(t: Tid)
    | TakeWriters(t: Tid)
    | QueueWriter(t: Tid)
    | WriteUnlock(t: Tid)
    | FinishWriteUnlock(t: Tid)

  predicate Enabled(s: State, step: Step) {
    var p := PhaseOf(s, step.t);
    match step
    case ReadLock(_) => p == Out
    case CheckRead(_) => p == RCheck && s.status.None?
    case TakeReaders(_) => p == RHold && s.rLock.None?
    case QueueReader(_) => p == RHand
    case ReadUnlock(_) => p == Reading && s.status.None?
    case FinishReadUnlock(_) => p == RUnlock && (WakesWriter(s.counts) ==> s.wLock.None?)
    case TryWriteLock(_) => p == Out && s.status.None?
    case WriteLock(_) => p == Out && s.status.None?
    case CheckWrite(_) => p == WCheck && s.status.None?
    case TakeWriters(_) => p == WHold && s.wLock.None?
    case QueueWriter(_) => p == WHand
    case WriteUnlock(_) => p == Writing && s.status.None?
    case FinishWriteUnlock(_) => p == WUnlock && (if PrefersWriter(s.counts) then s.wLock.None? else s.rLock.None?)
  }

  /** wake_one on the writers' queue. */
  function WakeWriter(s: State): State {
    if s.writers == [] then s else At(s, s.writers[0], WCheck).(writers := s.writers[1..])
  }

  /** wake_all on the readers' queue. */
  function WakeReaders(s: State): State {
    s.(readers := [], phase := s.phase + (map t | t in s.readers :: RCheck))
  }

  function Next(s: State, step: Step): State
    requires Enabled(s, step)
  {
    var t, k := step.t, s.counts;
    match step
    case ReadLock(_) => At(s, t, RCheck)
    case CheckRead(_) =>
      if MayRead(k) then At(s, t, Reading).(counts := AfterRead(k)) else At(s, t, RHold).(status := Some(t))
    case TakeReaders(_) => At(s, t, RHand).(status := None, rLock := Some(t))
    case QueueReader(_) => At(s, t, RQueued).(rLock := None, readers := s.readers + [t])
    case ReadUnlock(_) => At(s, t, RUnlock).(status := Some(t), counts := AfterReadUnlock(k))
    case FinishReadUnlock(_) => At(if WakesWriter(k) then WakeWriter(s) else s, t, Out).(status := None)
    case TryWriteLock(_) => if IsFree(k) then At(s, t, Writing).(counts := AfterTryWrite(k)) else s
    case WriteLock(_) => At(s, t, WCheck).(counts := AfterAnnounce(k))
    case CheckWrite(_) =>
      if IsFree(k) then At(s, t, Writing).(counts := AfterWrite(k)) else At(s, t, WHold).(status := Some(t))
    case TakeWriters(_) => At(s, t, WHand).(status := None, wLock := Some(t))
    case QueueWriter(_) => At(s, t, WQueued).(wLock := None, writers := s.writers + [t])
    case WriteUnlock(_) => At(s, t, WUnlock).(status := Some(t), counts := AfterWriteUnlock(k))
    case FinishWriteUnlock(_) => At(if PrefersWriter(k) then WakeWriter(s) else WakeReaders(s), t, Out).(status := None)
  }

  ghost predicate HoldsStatus(p: Phase) { p == RHold || p == WHold || p == RUnlock || p == WUnlock }

  /** Phases, locks and queues agree. */
  ghost predicate Placed(s: State) {
    && NoDup(s.readers) && NoDup(s.writers)
    && (forall t: Tid :: t in s.readers <==> PhaseOf(s, t) == RQueued)
    && (forall t: Tid :: t in s.writers <==> PhaseOf(s, t) == WQueued)
    && (forall t: Tid :: HoldsStatus(PhaseOf(s, t)) <==> s.status == Some(t))
    && (forall t: Tid :: PhaseOf(s, t) == RHand <==> s.rLock == Some(t))
    && (forall t: Tid :: PhaseOf(s, t) == WHand <==> s.wLock == Some(t))
  }

  ghost function Announced(m: map<Tid, Phase>): nat {
    Count(m, WCheck) + Count(m, WHold) + Count(m, WHand) + Count(m, WQueued)
  }

  /** The counters count the threads in the phases they stand for. */
  ghost predicate Counted(s: State) {
    && s.counts.reading == Count(s.phase, Reading)
    && s.counts.writing == Count(s.phase, Writing)
    && s.counts.waiting == Announced(s.phase)
  }

  /** Mutual exclusion and the reason each waiter waits for. */
  ghost predicate Justified(s: State) {
    var k := s.counts;
    var unlocking := s.status.Some? && PhaseOf(s, s.status.value) in {RUnlock, WUnlock};
    && k.writing <= 1 && (k.writing == 1 ==> k.reading == 0)
    && (s.status.Some? && PhaseOf(s, s.status.value) == RHold ==> !MayRead(k))
    && (s.status.Some? && PhaseOf(s, s.status.value) == WHold ==> !IsFree(k))
    && (s.status.Some? && PhaseOf(s, s.status.value) == RUnlock ==> k.writing == 0)
    && (s.status.Some? && PhaseOf(s, s.status.value) == WUnlock ==> IsFree(k))
    && ((s.readers != [] || s.rLock.Some?) && !unlocking ==> !MayRead(k))
    && ((s.readers != [] || s.rLock.Some?) && s.status.Some? && PhaseOf(s, s.status.value) == RUnlock ==> !MayRead(k))
    && ((s.writers != [] || s.wLock.Some?) && IsFree(k) && !unlocking ==> Count(s.phase, WCheck) > 0)
  }

  ghost predicate Inv(s: State) { Placed(s) && Counted(s) && Justified(s) }

  lemma CountAll(m: map<Tid, Phase>, t: Tid, p: Phase, q: Phase)
    requires q == if t in m then m[t] else Out
    ensures var m' := m[t := p];
            && Count(m', Reading) ==
               Count(m, Reading) + (if p == Reading then 1 else 0) - (if q == Reading then 1 else 0)
            && Count(m', Writing) ==
               Count(m, Writing) + (if p == Writing then 1 else 0) - (if q == Writing then 1 else 0)
            && Count(m', WCheck) == Count(m, WCheck) + (if p == WCheck then 1 else 0) - (if q == WCheck then 1 else 0)
            && Announced(m') == Announced(m)
                 + (if p in {WCheck, WHold, WHand, WQueued} then 1 else 0)
                 - (if q in {WCheck, WHold, WHand, WQueued} then 1 else 0)
  {
    CountUpdate(m, t, p, Reading);
    CountUpdate(m, t, p, Writing);
    CountUpdate(m, t, p, WCheck);
    CountUpdate(m, t, p, WHold);
    CountUpdate(m, t, p, WHand);
    CountUpdate(m, t, p, WQueued);
  }

  /** A thread in a phase is counted in it. */
  lemma Present(s: State, t: Tid, p: Phase)
    requires PhaseOf(s, t) == p && p != Out
    ensures Count(s.phase, p) > 0
  {
    CountSome(s.phase, p);
  }

  /** Taking the first writer off its queue keeps places and counts. */
  lemma WakeWriterKeeps(s: State)
    requires Placed(s) && Counted(s) && s.wLock.None?
    ensures Placed(WakeWriter(s)) && Counted(WakeWriter(s))
    ensures s.writers != [] ==> Count(WakeWriter(s).phase, WCheck) > 0
    ensures forall t :: PhaseOf(s, t) != WQueued ==> PhaseOf(WakeWriter(s), t) == PhaseOf(s, t)
  {
    if s.writers != [] {
      NoDupTail(s.writers);
      CountAll(s.phase, s.writers[0], WCheck, WQueued);
    }
  }

  lemma WakeReadersCount(s: State, p: Phase)
    requires (forall t: Tid :: t in s.readers ==> PhaseOf(s, t) == RQueued) && p != RQueued && p != RCheck && p != Out
    ensures Count(WakeReaders(s).phase, p) == Count(s.phase, p)
  {
    CountSame(s.phase, WakeReaders(s).phase, p);
  }

  lemma WakeReadersPlaced(s: State)
    requires Placed(s) && s.rLock.None?
    ensures Placed(WakeReaders(s))
    ensures forall t :: PhaseOf(s, t) != RQueued ==> PhaseOf(WakeReaders(s), t) == PhaseOf(s, t)
  {
    forall t: Tid
      ensures PhaseOf(WakeReaders(s), t) == if PhaseOf(s, t) == RQueued then RCheck else PhaseOf(s, t)
    {
      WakeReadersPhase(s, t);
    }
  }

  lemma WakeReadersPhase(s: State, t: Tid)
    requires t in s.readers <==> PhaseOf(s, t) == RQueued
    ensures PhaseOf(WakeReaders(s), t) == if PhaseOf(s, t) == RQueued then RCheck else PhaseOf(s, t)
  {
  }

  lemma WakeReadersCounted(s: State)
    requires Placed(s) && Counted(s)
    ensures Counted(WakeReaders(s))
    ensures Count(WakeReaders(s).phase, WCheck) == Count(s.phase, WCheck)
  {
    WakeReadersCount(s, Reading);
    WakeReadersCount(s, Writing);
    WakeReadersCount(s, WCheck);
    WakeReadersCount(s, WHold);
    WakeReadersCount(s, WHand);
    WakeReadersCount(s, WQueued);
  }

  /** The end of an unlock after its wake-up: drop the status lock and leave. */
  lemma LeavePlaced(s: State, t: Tid)
    requires Placed(s) && (PhaseOf(s, t) == RUnlock || PhaseOf(s, t) == WUnlock)
    ensures Placed(At(s, t, Out).(status := None))
  {
  }

  lemma LeaveCounted(s: State, t: Tid)
    requires Counted(s) && (PhaseOf(s, t) == RUnlock || PhaseOf(s, t) == WUnlock)
    ensures Counted(At(s, t, Out).(status := None))
    ensures Count(s.phase[t := Out], WCheck) == Count(s.phase, WCheck)
  {
    CountAll(s.phase, t, Out, PhaseOf(s, t));
  }

  lemma FinishRead(s: State, t: Tid)
    requires Inv(s) && Enabled(s, FinishReadUnlock(t))
    ensures Inv(Next(s, FinishReadUnlock(t)))
  {
    var s1 := if WakesWriter(s.counts) then WakeWriter(s) else s;
    if WakesWriter(s.counts) { WakeWriterKeeps(s); }
    LeavePlaced(s1, t);
    LeaveCounted(s1, t);
    if s.writers != [] { Present(s, s.writers[0], WQueued); }
    if s.wLock.Some? { Present(s, s.wLock.value, WHand); }
  }

  lemma FinishWrite(s: State, t: Tid)
    requires Inv(s) && Enabled(s, FinishWriteUnlock(t))
    ensures Inv(Next(s, FinishWriteUnlock(t)))
  {
    var s1 := if s.counts.waiting > 0 then WakeWriter(s) else WakeReaders(s);
    if s.counts.waiting > 0 {
      WakeWriterKeeps(s);
    } else {
      WakeReadersPlaced(s);
      WakeReadersCounted(s);
    }
    LeavePlaced(s1, t);
    LeaveCounted(s1, t);
    if s.writers != [] { Present(s, s.writers[0], WQueued); }
    if s.wLock.Some? { Present(s, s.wLock.value, WHand); }
  }

  lemma PlacedReader(s: State, step: Step)
    requires Placed(s) && Enabled(s, step)
    requires step.ReadLock? || step.CheckRead?
    ensures Placed(Next(s, step))
  {
  }

  lemma PlacedTaker(s: State, step: Step)
    requires Placed(s) && Enabled(s, step) && (step.TakeReaders? || step.TakeWriters?)
    ensures Placed(Next(s, step))
  {
  }

  lemma PlacedWriter(s: State, step: Step)
    requires Placed(s) && Enabled(s, step)
    requires step.WriteLock? || step.CheckWrite?
    ensures Placed(Next(s, step))
  {
  }

  lemma PlacedHolder(s: State, step: Step)
    requires Placed(s) && Enabled(s, step) && (step.ReadUnlock? || step.WriteUnlock? || step.TryWriteLock?)
    ensures Placed(Next(s, step))
  {
  }

  lemma PlacedQueued(s: State, step: Step)
    requires Placed(s) && Enabled(s, step) && (step.QueueWriter? || step.QueueReader?)
    ensures Placed(Next(s, step))
  {
  }

  lemma CountedKeeps(s: State, step: Step)
    requires Counted(s) && Enabled(s, step) && !step.FinishReadUnlock? && !step.FinishWriteUnlock?
    ensures Counted(Next(s, step))
  {
    CountAll(s.phase, step.t, PhaseOf(Next(s, step), step.t), PhaseOf(s, step.t));
  }

  lemma JustifiedKeeps(s: State, step: Step)
    requires Inv(s) && Enabled(s, step) && !step.FinishReadUnlock? && !step.FinishWriteUnlock?
    ensures Justified(Next(s, step))
  {
    CountAll(s.phase, step.t, PhaseOf(Next(s, step), step.t), PhaseOf(s, step.t));
    if PhaseOf(s, step.t) != Out { Present(s, step.t, PhaseOf(s, step.t)); }
  }

  lemma StepKeeps(s: State, step: Step)
    requires Inv(s) && Enabled(s, step)
    ensures Inv(Next(s, step))
  {
    if step.FinishReadUnlock? {
      FinishRead(s, step.t);
    } else if step.FinishWriteUnlock? {
      FinishWrite(s, step.t);
    } else {
      if step.QueueWriter? || step.QueueReader? {
        PlacedQueued(s, step);
      } else if step.ReadUnlock? || step.WriteUnlock? || step.TryWriteLock? {
        PlacedHolder(s, step);
      } else if step.TakeReaders? || step.TakeWriters? {
        PlacedTaker(s, step);
      } else if step.ReadLock? || step.CheckRead? {
        PlacedReader(s, step);
      } else {
        PlacedWriter(s, step);
      }
      CountedKeeps(s, step);
      JustifiedKeeps(s, step);
    }
  }

  ghost predicate IsRun(states: seq<State>, steps: seq<Step>) {
    && |states| == |steps| + 1 && states[0] == START
    && forall i :: 0 <= i < |steps| ==> Enabled(states[i], steps[i]) && states[i + 1] == Next(states[i], steps[i])
  }

  lemma {:induction false} RunInv(states: seq<State>, steps: seq<Step>, i: nat)
    requires IsRun(states, steps) && i < |states|
    ensures Inv(states[i])
  {
    if i == 0 {
    } else {
      RunInv(states, steps, i - 1);
      StepKeeps(states[i - 1], steps[i - 1]);
    }
  }

  /** At most one writer, and never a writer together with a reader. */
  lemma Exclusion(states: seq<State>, steps: seq<Step>, i: nat, t: Tid, u: Tid)
    requires IsRun(states, steps) && i < |states| && PhaseOf(states[i], t) == Writing && t != u
    ensures PhaseOf(states[i], u) != Writing && PhaseOf(states[i], u) != Reading
  {
    var s := states[i];
    RunInv(states, steps, i);
    Present(s, t, Writing);
    if PhaseOf(s, u) == Reading { Present(s, u, Reading); }
    if PhaseOf(s, u) == Writing {
      CountUpdate(s.phase, t, Out, Writing);
      Present(At(s, t, Out), u, Writing);
    }
  }

  /** write_waiting counts exactly the writers that are queued or on their way. */
  lemma WaitingExact(states: seq<State>, steps: seq<Step>, i: nat)
    requires IsRun(states, steps) && i < |states|
    ensures states[i].counts.waiting == Announced(states[i].phase)
    ensures states[i].counts.reading == Count(states[i].phase, Reading)
    ensures states[i].counts.writing == Count(states[i].phase, Writing)
  {
    RunInv(states, steps, i);
  }

  /** A writer that holds the lock, or has announced itself and is not yet in. */
  ghost predicate Wants(p: Phase) { p in {Writing, WCheck, WHold, WHand, WQueued} }

  ghost predicate Holds(p: Phase) { p == Reading || p == Writing }

  lemma CountsShow(s: State)
    requires Counted(s)
    ensures MayRead(s.counts) <==> forall u: Tid :: !Wants(PhaseOf(s, u))
    ensures IsFree(s.counts) <==> forall u: Tid :: !Holds(PhaseOf(s, u))
  {
    forall p: Phase | p != Out ensures Count(s.phase, p) > 0 <==> exists u: Tid :: PhaseOf(s, u) == p {
      CountSome(s.phase, p);
      if u: Tid :| u in s.phase && s.phase[u] == p { assert PhaseOf(s, u) == p; }
    }
  }

  /** A reader gets in exactly if no writer holds the lock or has announced itself, and a writer exactly if nobody holds
      it; the others go on to wait or, trying, give up. */
  lemma Grants(states: seq<State>, steps: seq<Step>, i: nat)
    requires IsRun(states, steps) && i < |steps|
    ensures var s, s', t := states[i], states[i + 1], steps[i].t;
            && (steps[i].CheckRead? ==>
                  PhaseOf(s', t) == if forall u: Tid :: !Wants(PhaseOf(s, u)) then Reading else RHold)
            && (steps[i].CheckWrite? ==>
                  PhaseOf(s', t) == if forall u: Tid :: !Holds(PhaseOf(s, u)) then Writing else WHold)
            && (steps[i].TryWriteLock? ==>
                  PhaseOf(s', t) == if forall u: Tid :: !Holds(PhaseOf(s, u)) then Writing else Out)
  {
    RunInv(states, steps, i);
    assert Enabled(states[i], steps[i]) && states[i + 1] == Next(states[i], steps[i]);
    CountsShow(states[i]);
  }

  /** The end of a write lock lets the first queued writer go on if any writer has announced itself, and otherwise all
      queued readers. */
  lemma UnlockWakes(states: seq<State>, steps: seq<Step>, i: nat)
    requires IsRun(states, steps) && i < |steps| && steps[i].FinishWriteUnlock?
    ensures var s, s' := states[i], states[i + 1];
            if exists u: Tid :: Wants(PhaseOf(s, u)) then
              s'.readers == s.readers && (s.writers != [] ==> PhaseOf(s', s.writers[0]) == WCheck)
            else s'.readers == [] && forall u :: u in s.readers ==> PhaseOf(s', u) == RCheck
  {
    var s, t := states[i], steps[i].t;
    RunInv(states, steps, i);
    assert Enabled(s, steps[i]) && states[i + 1] == Next(s, steps[i]);
    CountsShow(s);
    assert s.status == Some(t);
    if s.writers != [] { assert s.writers[0] in s.writers && PhaseOf(s, s.writers[0]) == WQueued; }
    forall u | u in s.readers ensures u != t { assert PhaseOf(s, u) == RQueued; }
  }

  /** Queued readers have a writer that holds or waits; queued writers on a free lock have another writer on
      its way. Both may lapse only while an unlock still holds the status lock and is about to wake. */
  lemma EveryWaitJustified(states: seq<State>, steps: seq<Step>, i: nat)
    requires IsRun(states, steps) && i < |states|
    requires states[i].status.Some? ==> PhaseOf(states[i], states[i].status.value) in {RHold, WHold}
    ensures states[i].readers != [] ==> states[i].counts.writing != 0 || states[i].counts.waiting != 0
    ensures states[i].writers != [] && IsFree(states[i].counts) ==> exists t: Tid :: PhaseOf(states[i], t) == WCheck
  {
    var s := states[i];
    RunInv(states, steps, i);
    if s.writers != [] && IsFree(s.counts) {
      CountSome(s.phase, WCheck);
      var t :| t in s.phase && s.phase[t] == WCheck;
      assert PhaseOf(s, t) == WCheck;
    }
  }

  ghost predicate Asleep(p: Phase) { p == Out || p == RQueued || p == WQueued }

  /** Nobody is stranded: when every thread is outside or asleep, both queues are empty. */
  lemma NobodyStranded(states: seq<State>, steps: seq<Step>, i: nat)
    requires IsRun(states, steps) && i < |states|
    requires forall t: Tid :: Asleep(PhaseOf(states[i], t))
    ensures states[i].readers == [] && states[i].writers == []
  {
    var s := states[i];
    RunInv(states, steps, i);
    assert s.status.Some? ==> Asleep(PhaseOf(s, s.status.value));
    assert s.wLock.Some? ==> Asleep(PhaseOf(s, s.wLock.value));
    forall t | t in s.phase ensures Asleep(s.phase[t]) { assert Asleep(PhaseOf(s, t)); }
    forall p | !Asleep(p) ensures Count(s.phase, p) == 0 { CountSome(s.phase, p); }
    assert s.writers == [];
    forall t | t in s.phase ensures s.phase[t] != WQueued { assert PhaseOf(s, t) == s.phase[t]; }
    CountSome(s.phase, WQueued);
  }

  /** The three spin locks never deadlock: an operation that has started and is not asleep or holding can go on. */
  lemma Progress(states: seq<State>, steps: seq<Step>, i: nat, t: Tid)
    requires IsRun(states, steps) && i < |states|
    requires !Asleep(PhaseOf(states[i], t)) && PhaseOf(states[i], t) != Reading && PhaseOf(states[i], t) != Writing
    ensures exists step: Step ::
              Enabled(states[i], step) && PhaseOf(states[i], step.t) !in {Out, Reading, Writing}
  {
    var s := states[i];
    RunInv(states, steps, i);
    if s.rLock.Some? {
      assert Enabled(s, QueueReader(s.rLock.value));
    } else if s.wLock.Some? {
      assert Enabled(s, QueueWriter(s.wLock.value));
    } else if s.status.Some? {
      var u := s.status.value;
      assert HoldsStatus(PhaseOf(s, u));
      assert Enabled(s, TakeReaders(u)) || Enabled(s, TakeWriters(u))
             || Enabled(s, FinishReadUnlock(u)) || Enabled(s, FinishWriteUnlock(u));
    } else {
      assert !HoldsStatus(PhaseOf(s, t)) && PhaseOf(s, t) != RHand && PhaseOf(s, t) != WHand;
      assert Enabled(s, CheckRead(t)) || Enabled(s, CheckWrite(t));
    }
  }
}
