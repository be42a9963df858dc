/** Hard interrupts, softirqs and the preemption point on one CPU, under any interrupt arrival.

    Each thread has a stack of the interrupt frames it is executing, oldest first; the CPU runs the top
    frame of the current thread. A step is one stretch of `handle`/`run_softirq`/`drain`, or something a
    device handler, a softirq handler or a thread does. */
module Interrupts {
  import opened Base

  /** Softirq kinds are 0..COUNT-1. */
  const COUNT: nat := 5
  const DEPTH_MAX: nat := 255

  type Kind = nat
  type Tid = nat

  datatype Frame =
    | Handler(outermost: bool, interruptedSoftirq: bool)   // hardirq guard held: device handler, then EOI
    | Between                                              // hardirq guard dropped, softirq guard to come
    | Draining                                             // softirq guard held, about to swap the mask
    | Dispatching(mask: set<Kind>)                         // running the handlers of `mask`
    | Drained                                              // the swap found nothing, interrupts still on
    | Closing                                              // interrupts off, about to recheck the mask
    | Point                                                // softirq guard dropped: the preemption point
    | Leaving                                              // about to return from the interrupt

  datatype State = State(hard: nat, soft: nat, irqOn: bool, pending: set<Kind>, current: Tid,
                         stacks: map<Tid, seq<Frame>>)

  function StackOf(s: State, t: Tid): seq<Frame> { if t in s.stacks then s.stacks[t] else [] }

  function Stack(s: State): seq<Frame> { StackOf(s, s.current) }

  function SetStack(s: State, st: seq<Frame>): State { s.(stacks := s.stacks[s.current := st]) }

  function Top(s: State): Option<Frame> { if Stack(s) == [] then None else Some(Stack(s)[|Stack(s)| - 1]) }

  function SetTop(s: State, f: Frame): State
    requires Stack(s) != []
  {
    SetStack(s, Stack(s)[..|Stack(s)| - 1] + [f])
  }

  predicate InSoftirq(s: State) { s.hard == 0 && s.soft != 0 }

  /** Threads, device handlers and softirq handlers call `raise`. */
  predicate MayRaise(top: Option<Frame>) { top == None || top.value.Handler? || top.value.Dispatching? }

  datatype Step =
    | Interrupt
    | Raise(kind: Kind)
    | SetIrq(on: bool)
    | EndHandler
    | EnterSoftirq
    | Swap
    | EndDispatch
    | Disable
    | Recheck
    | Switch(to: Tid)
    | PassPoint
    | Return

  datatype Outcome = Ok(state: State) | Stuck | Panic

  function Exec(s: State, step: Step): Outcome {
    var top := Top(s);
    match step
    case Interrupt =>
      // HardIrqGuard::new, entered through a gate that turns interrupts off
      if !s.irqOn then Stuck
      else if s.hard >= DEPTH_MAX then Panic
      else Ok(SetStack(s, Stack(s) + [Handler(s.hard == 0, s.soft != 0)]).(hard := s.hard + 1, irqOn := false))
    case Raise(k) =>
      if !MayRaise(top) then Stuck
      else if k >= COUNT || InSoftirq(s) then Panic
      else Ok(s.(pending := s.pending + {k}))
    case SetIrq(on) =>
      if top == None || top.value.Handler? || top.value.Dispatching? then Ok(s.(irqOn := on)) else Stuck
    case EndHandler =>
      // into_softirq: drop the hardirq guard, then decide
      if !(top.Some? && top.value.Handler?) then Stuck
      else if s.hard == 0 then Panic
      else
        var run := top.value.outermost && !top.value.interruptedSoftirq;
        Ok(SetTop(s, if run then Between else Leaving).(hard := s.hard - 1))
    case EnterSoftirq =>
      if top != Some(Between) then Stuck
      else if s.soft != 0 then Panic
      else Ok(SetTop(s, Draining).(soft := 1, irqOn := true))
    case Swap =>
      if top != Some(Draining) then Stuck
      else if s.pending == {} then Ok(SetTop(s, Drained))
      else Ok(SetTop(s, Dispatching(s.pending)).(pending := {}))
    case EndDispatch =>
      if !(top.Some? && top.value.Dispatching?) then Stuck
      else Ok(SetTop(s, Draining))
    case Disable =>
      if top != Some(Drained) then Stuck else Ok(SetTop(s, Closing).(irqOn := false))
    case Recheck =>
      if top != Some(Closing) then Stuck
      else if s.pending != {} then Ok(SetTop(s, Draining).(irqOn := true))
      else if s.soft == 0 then Panic
      else Ok(SetTop(s, Point).(soft := s.soft - 1))
    case Switch(to) =>
      // the scheduler runs at a preemption point or from a thread, and resumes a thread that stopped at one
      if s.hard != 0 || s.soft != 0 || !(top == None || top == Some(Point)) then Stuck
      else if !(StackOf(s, to) == [] || StackOf(s, to)[|StackOf(s, to)| - 1] == Point) then Stuck
      else Ok(s.(current := to, irqOn := StackOf(s, to) == []))
    case PassPoint =>
      if top != Some(Point) then Stuck else Ok(SetTop(s, Leaving))
    case Return =>
      // the interrupted context had interrupts on
      if top != Some(Leaving) then Stuck
      else Ok(SetStack(s, Stack(s)[..|Stack(s)| - 1]).(irqOn := true))
  }

  ghost predicate IsSoft(f: Frame) { f == Draining || f.Dispatching? || f == Drained || f == Closing }

  ghost function Hards(st: seq<Frame>): nat {
    if st == [] then 0 else Hards(st[..|st| - 1]) + if st[|st| - 1].Handler? then 1 else 0
  }

  ghost function Softs(st: seq<Frame>): nat {
    if st == [] then 0 else Softs(st[..|st| - 1]) + if IsSoft(st[|st| - 1]) then 1 else 0
  }

  /** Some frame of the stack is running the handler of `k`. */
  ghost predicate InFlight(st: seq<Frame>, k: Kind) {
    exists i :: 0 <= i < |st| && st[i].Dispatching? && k in st[i].mask
  }

  /** What a frame remembers about the frames below it is true of them, and it interrupted an interruptible one. */
  ghost predicate Fits(below: seq<Frame>, f: Frame) {
    && (below != [] ==> below[|below| - 1] != Closing && below[|below| - 1] != Point)
    && match f
       case Handler(outermost, interrupted) => outermost == (Hards(below) == 0) && interrupted == (Softs(below) != 0)
       case Leaving => true
       case _ => Hards(below) == 0 && Softs(below) == 0
  }

  ghost predicate Nested(st: seq<Frame>) {
    st == [] || (Nested(st[..|st| - 1]) && Fits(st[..|st| - 1], st[|st| - 1]))
  }

  /** A thread that is not running holds no guard. */
  ghost predicate Parked(st: seq<Frame>) { Nested(st) && Hards(st) == 0 && Softs(st) == 0 }

  ghost predicate Inv(s: State) {
    && Nested(Stack(s)) && s.hard == Hards(Stack(s)) && s.soft == Softs(Stack(s)) && s.soft <= 1
    && (forall t :: t != s.current ==> Parked(StackOf(s, t)))
    && (Top(s) == Some(Closing) || Top(s) == Some(Point) ==> !s.irqOn)
  }

  lemma Pushed(below: seq<Frame>, f: Frame)
    ensures Hards(below + [f]) == Hards(below) + if f.Handler? then 1 else 0
    ensures Softs(below + [f]) == Softs(below) + if IsSoft(f) then 1 else 0
    ensures Nested(below + [f]) <==> Nested(below) && Fits(below, f)
  {
    var st := below + [f];
    assert st[..|st| - 1] == below && st[|st| - 1] == f;
  }

  /** With no softirq frame nothing is in flight. */
  lemma {:induction false} NoSoftNoFlight(st: seq<Frame>, k: Kind)
    requires Softs(st) == 0
    ensures !InFlight(st, k)
  {
    if st != [] {
      NoSoftNoFlight(st[..|st| - 1], k);
      forall i | 0 <= i < |st| ensures !(st[i].Dispatching? && k in st[i].mask) {
        if i < |st| - 1 { assert st[..|st| - 1][i] == st[i]; }
      }
    }
  }

  /** Replacing the top frame of the current stack. */
  lemma Retop(s: State, below: seq<Frame>, f: Frame, f': Frame, s': State)
    requires Inv(s) && Stack(s) == below + [f] && Fits(below, f')
    requires s'.current == s.current && s'.stacks == s.stacks[s.current := below + [f']]
    requires s'.hard == Hards(below) + (if f'.Handler? then 1 else 0)
    requires s'.soft == Softs(below) + (if IsSoft(f') then 1 else 0)
    requires f' == Closing || f' == Point ==> !s'.irqOn
    ensures Inv(s')
  {
    Pushed(below, f);
    Pushed(below, f');
    forall t | t != s'.current ensures Parked(StackOf(s', t)) { assert StackOf(s', t) == StackOf(s, t); }
  }

  lemma EndHandlerKeeps(s: State)
    requires Inv(s) && Exec(s, EndHandler).Ok? && Stack(s) != []
    ensures Inv(Exec(s, EndHandler).state)
  {
    var st, s' := Stack(s), Exec(s, EndHandler).state;
    var below, f, f' := st[..|st| - 1], st[|st| - 1], Stack(s')[|st| - 1];
    assert st == below + [f];
    Pushed(below, f);
    Retop(s, below, f, f', s');
  }

  lemma TopStepKeeps(s: State, step: Step)
    requires Inv(s) && Exec(s, step).Ok? && Stack(s) != []
    requires step.EnterSoftirq? || step.Disable? || step.Recheck? || step.PassPoint?
    ensures Inv(Exec(s, step).state)
  {
    var st, s' := Stack(s), Exec(s, step).state;
    var below, f, f' := st[..|st| - 1], st[|st| - 1], Stack(s')[|st| - 1];
    assert st == below + [f];
    Pushed(below, f);
    Retop(s, below, f, f', s');
  }

  lemma DrainStepKeeps(s: State, step: Step)
    requires Inv(s) && Exec(s, step).Ok? && Stack(s) != [] && (step.Swap? || step.EndDispatch?)
    ensures Inv(Exec(s, step).state)
  {
    var st, s' := Stack(s), Exec(s, step).state;
    var below, f, f' := st[..|st| - 1], st[|st| - 1], Stack(s')[|st| - 1];
    assert st == below + [f];
    Pushed(below, f);
    Retop(s, below, f, f', s');
  }

  lemma InterruptKeeps(s: State)
    requires Inv(s) && Exec(s, Interrupt).Ok?
    ensures Inv(Exec(s, Interrupt).state)
  {
    var s' := Exec(s, Interrupt).state;
    Pushed(Stack(s), Handler(s.hard == 0, s.soft != 0));
    forall t | t != s'.current ensures Parked(StackOf(s', t)) { assert StackOf(s', t) == StackOf(s, t); }
  }

  lemma ReturnKeeps(s: State)
    requires Inv(s) && Exec(s, Return).Ok?
    ensures Inv(Exec(s, Return).state)
  {
    var st, s' := Stack(s), Exec(s, Return).state;
    var below, f := st[..|st| - 1], st[|st| - 1];
    assert st == below + [f];
    Pushed(below, f);
    forall t | t != s'.current ensures Parked(StackOf(s', t)) { assert StackOf(s', t) == StackOf(s, t); }
  }

  lemma SwitchKeeps(s: State, to: Tid)
    requires Inv(s) && Exec(s, Switch(to)).Ok?
    ensures Inv(Exec(s, Switch(to)).state)
  {
    var s' := Exec(s, Switch(to)).state;
    assert to != s.current ==> Parked(StackOf(s, to));
    assert Stack(s') == StackOf(s, to);
    forall t | t != to ensures Parked(StackOf(s', t)) { assert StackOf(s', t) == StackOf(s, t); }
  }

  lemma StepKeeps(s: State, step: Step)
    requires Inv(s) && Exec(s, step).Ok?
    ensures Inv(Exec(s, step).state)
  {
    match step {
      case Interrupt => InterruptKeeps(s);
      case Raise(k) => RaiseKeeps(s, k);
      case SetIrq(on) =>
        var s' := Exec(s, step).state;
        forall t | t != s'.current ensures Parked(StackOf(s', t)) { assert StackOf(s', t) == StackOf(s, t); }
      case Switch(to) => SwitchKeeps(s, to);
      case Return => ReturnKeeps(s);
      case EndHandler => EndHandlerKeeps(s);
      case Swap => DrainStepKeeps(s, step);
      case EndDispatch => DrainStepKeeps(s, step);
      case _ => TopStepKeeps(s, step);
    }
  }

  lemma RaiseKeeps(s: State, k: Kind)
    requires Inv(s) && Exec(s, Raise(k)).Ok?
    ensures Inv(Exec(s, Raise(k)).state)
  {
    var s' := Exec(s, Raise(k)).state;
    forall t | t != s'.current ensures Parked(StackOf(s', t)) { assert StackOf(s', t) == StackOf(s, t); }
  }

  ghost predicate IsRun(states: seq<State>, steps: seq<Step>) {
    && |states| == |steps| + 1
    && states[0] == State(0, 0, states[0].irqOn, {}, states[0].current, map[])
    && forall i :: 0 <= i < |steps| ==> Exec(states[i], steps[i]) == Ok(states[i + 1])
  }

  lemma {:induction false} RunInv(states: seq<State>, steps: seq<Step>, i: nat)
    requires IsRun(states, steps) && i < |states|
    ensures Inv(states[i])
  {
    if i == 0 {
    } else {
      RunInv(states, steps, i - 1);
      assert Exec(states[i - 1], steps[i - 1]) == Ok(states[i - 1 + 1]);
      StepKeeps(states[i - 1], steps[i - 1]);
    }
  }

  /** Both counters always count the guards alive on the context stack, and softirq processing never nests. */
  lemma DepthsMatch(states: seq<State>, steps: seq<Step>, i: nat)
    requires IsRun(states, steps) && i < |states|
    ensures states[i].hard == Hards(Stack(states[i])) && states[i].soft == Softs(Stack(states[i]))
    ensures Softs(Stack(states[i])) <= 1
  {
    RunInv(states, steps, i);
  }

  /** An assertion fails exactly when an interrupt arrives on top of 255 unfinished handlers, when a softirq handler
      raises a softirq, or when a kind that does not exist is raised. */
  lemma PanicsExactly(states: seq<State>, steps: seq<Step>, i: nat, step: Step)
    requires IsRun(states, steps) && i < |states|
    ensures var s := states[i];
            Exec(s, step) == Panic <==>
              || (step == Interrupt && s.irqOn && Hards(Stack(s)) >= DEPTH_MAX)
              || (step.Raise? && MayRaise(Top(s))
                  && (step.kind >= COUNT || (Top(s).Some? && Top(s).value.Dispatching?)))
  {
    var s := states[i];
    RunInv(states, steps, i);
    var st := Stack(s);
    if st != [] {
      var below, f := st[..|st| - 1], st[|st| - 1];
      assert st == below + [f];
      Pushed(below, f);
    }
  }

  /** At step `a` the softirq processing takes all pending softirqs, `k` among them, to be dispatched. */
  ghost predicate Starts(states: seq<State>, steps: seq<Step>, a: nat, k: Kind)
    requires a < |steps| && |states| == |steps| + 1
  {
    steps[a] == Swap && k in states[a].pending && Top(states[a + 1]) == Some(Dispatching(states[a].pending))
  }

  /** At step `b` a dispatch that included the handler of `k` ends. */
  ghost predicate Ends(states: seq<State>, steps: seq<Step>, b: nat, k: Kind)
    requires b < |steps| && |states| == |steps| + 1
  {
    && steps[b] == EndDispatch
    && Top(states[b]).Some? && Top(states[b]).value.Dispatching? && k in Top(states[b]).value.mask
  }

  /** Between the steps `r` and `i` a dispatch that includes `k` begins and one ends. */
  ghost predicate Served(states: seq<State>, steps: seq<Step>, k: Kind, r: nat, i: nat)
    requires i <= |steps| && |states| == |steps| + 1
  {
    exists a, b :: r < a < b < i && Starts(states, steps, a, k) && Ends(states, steps, b, k)
  }

  /** What has become of a softirq raised at step `r`: it is pending, being dispatched, or has been. */
  ghost predicate Handled(states: seq<State>, steps: seq<Step>, k: Kind, r: nat, i: nat)
    requires i <= |steps| && |states| == |steps| + 1
  {
    || k in states[i].pending
    || (InFlight(Stack(states[i]), k) && exists a :: r < a < i && Starts(states, steps, a, k))
    || Served(states, steps, k, r, i)
  }

  /** How one step moves a pending softirq and one in flight. */
  lemma FlightStep(s: State, step: Step, s': State, k: Kind)
    requires Inv(s) && Exec(s, step) == Ok(s')
    ensures k in s.pending ==>
              k in s'.pending || (step == Swap && Top(s') == Some(Dispatching(s.pending)) && InFlight(Stack(s'), k))
    ensures InFlight(Stack(s), k) ==>
              || InFlight(Stack(s'), k)
              || (step == EndDispatch && Top(s).Some? && Top(s).value.Dispatching? && k in Top(s).value.mask)
  {
    if step.Switch? && InFlight(Stack(s), k) { NoSoftNoFlight(Stack(s), k); }
    if InFlight(Stack(s), k) {
      var st, st' := Stack(s), Stack(s');
      var i :| 0 <= i < |st| && st[i].Dispatching? && k in st[i].mask;
      if i < |st'| && st'[i] == st[i] { assert InFlight(st', k); }
    }
    if step == Swap && k in s.pending {
      assert Stack(s')[|Stack(s')| - 1].Dispatching?;
    }
  }

  lemma HandledStep(states: seq<State>, steps: seq<Step>, k: Kind, r: nat, i: nat)
    requires IsRun(states, steps) && r < i < |steps| && Handled(states, steps, k, r, i)
    ensures Handled(states, steps, k, r, i + 1)
  {
    RunInv(states, steps, i);
    assert Exec(states[i], steps[i]) == Ok(states[i + 1]);
    FlightStep(states[i], steps[i], states[i + 1], k);
    if Served(states, steps, k, r, i) {
      var a, b :| r < a < b < i && Starts(states, steps, a, k) && Ends(states, steps, b, k);
      assert Starts(states, steps, a, k) && Ends(states, steps, b, k);
    } else if k in states[i].pending {
      if k !in states[i + 1].pending { assert Starts(states, steps, i, k); }
    } else {
      var a :| r < a < i && Starts(states, steps, a, k);
      if !InFlight(Stack(states[i + 1]), k) { assert Ends(states, steps, i, k); }
    }
  }

  lemma {:induction false} RunHandled(states: seq<State>, steps: seq<Step>, k: Kind, r: nat, i: nat)
    requires IsRun(states, steps) && r < i <= |steps| && steps[r] == Raise(k)
    ensures Handled(states, steps, k, r, i)
    decreases i
  {
    if i == r + 1 {
      assert Exec(states[r], steps[r]) == Ok(states[r + 1]);
    } else {
      RunHandled(states, steps, k, r, i - 1);
      HandledStep(states, steps, k, r, i - 1);
    }
  }

  /** When an interrupt reaches its preemption point, no guard is alive, interrupts are off and nothing is pending. */
  lemma PointReached(states: seq<State>, steps: seq<Step>, i: nat)
    requires IsRun(states, steps) && i < |steps|
    requires Top(states[i + 1]) == Some(Point) && Top(states[i]) == Some(Closing)
    ensures var s := states[i + 1];
            && s.hard == 0 && s.soft == 0 && Hards(Stack(s)) == 0 && Softs(Stack(s)) == 0
            && !s.irqOn && s.pending == {}
  {
    var s := states[i];
    RunInv(states, steps, i);
    RunInv(states, steps, i + 1);
    var st := Stack(s);
    var below := st[..|st| - 1];
    assert st == below + [Closing];
    Pushed(below, Closing);
  }

  /** And every softirq raised before, by any thread or nested handler, has been dispatched since: after the raise a
      dispatch of all that was pending, it among them, began and ended. */
  lemma AllDispatched(states: seq<State>, steps: seq<Step>, i: nat, r: nat, k: Kind)
    requires IsRun(states, steps) && r < i < |steps| && steps[r] == Raise(k)
    requires Top(states[i + 1]) == Some(Point) && Top(states[i]) == Some(Closing)
    ensures Served(states, steps, k, r, i + 1)
  {
    PointReached(states, steps, i);
    RunHandled(states, steps, k, r, i + 1);
    NoSoftNoFlight(Stack(states[i + 1]), k);
  }

  /** A preemption point only ever comes out of the recheck, and only there does an interrupt reach the scheduler. */
  lemma PointOnlyAfterRecheck(states: seq<State>, steps: seq<Step>, i: nat)
    requires IsRun(states, steps) && i < |steps| && Top(states[i + 1]) == Some(Point)
    ensures Top(states[i]) == Some(Point) || steps[i].Switch? || Top(states[i]) == Some(Closing)
  {
    RunInv(states, steps, i);
  }

  /** The interrupt that interrupted a thread itself always goes through softirq processing before it returns. */
  lemma OutermostDrains(states: seq<State>, steps: seq<Step>, i: nat)
    requires IsRun(states, steps) && i < |steps| && steps[i] == EndHandler && |Stack(states[i])| == 1
    ensures Stack(states[i + 1]) == [Between]
  {
    RunInv(states, steps, i);
    var st := Stack(states[i]);
    assert st == [] + [st[0]];
    Pushed([], st[0]);
  }
}
