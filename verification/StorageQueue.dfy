/** The sorted request queue of a storage device. */
module StorageQueue {
  import opened Arith
  import opened Base
  import opened StorageMerge
  import opened StorageCopy

  ghost predicate Sorted(q: seq<Element>) {
    forall i, j :: 0 <= i < j < |q| ==> q[i].Position() <= q[j].Position()
  }

  /** All requests of the elements, in order. */
  ghost function Flatten(q: seq<Element>): seq<Request> {
    if q == [] then [] else q[0].Members() + Flatten(q[1..])
  }

  ghost function Requests(q: seq<Element>): multiset<Request> { multiset(Flatten(q)) }

  /** The queued half of storage_add_request, from element `i` on; `alloc` says which merge allocations succeed. */
  ghost function Insert(q: seq<Element>, r: Request, limit: nat, alloc: nat -> bool, i: nat): seq<Element>
    requires i <= |q|
    decreases |q| - i
  {
    if i == |q| then q + [Single(r)]
    else
      var merged := TryMerge(r, q[i], limit, alloc(i));
      if merged.Some? then q[i := merged.value]
      else if q[i].Position() > r.position then q[..i] + [Single(r)] + q[i..]
      else Insert(q, r, limit, alloc, i + 1)
  }

  /** The queue stays sorted by position. */
  lemma {:induction false} InsertSorted(q: seq<Element>, r: Request, limit: nat, alloc: nat -> bool, i: nat)
    requires i <= |q| && Sorted(q) && forall j :: 0 <= j < i ==> q[j].Position() <= r.position
    ensures Sorted(Insert(q, r, limit, alloc, i))
    decreases |q| - i
  {
    if i < |q| {
      var merged := TryMerge(r, q[i], limit, alloc(i));
      if merged.None? && q[i].Position() <= r.position {
        InsertSorted(q, r, limit, alloc, i + 1);
      }
    }
  }

  lemma {:induction false} FlattenConcat(a: seq<Element>, b: seq<Element>)
    ensures Flatten(a + b) == Flatten(a) + Flatten(b)
  {
    if a == [] {
      assert a + b == b;
    } else {
      assert (a + b)[1..] == a[1..] + b;
      FlattenConcat(a[1..], b);
    }
  }

  lemma FlattenOne(e: Element)
    ensures Flatten([e]) == e.Members()
  {
    assert [e][1..] == [];
  }

  /** Replacing or inserting one element changes the requests by that element's. */
  lemma RequestsSplit(a: seq<Element>, e: Element, b: seq<Element>)
    ensures Requests(a + [e] + b) == Requests(a) + multiset(e.Members()) + Requests(b)
  {
    FlattenConcat(a + [e], b);
    FlattenConcat(a, [e]);
    FlattenOne(e);
  }

  lemma ReplaceConserves(q: seq<Element>, i: nat, e: Element, r: Request)
    requires i < |q| && multiset(e.Members()) == multiset(q[i].Members()) + multiset{r}
    ensures Requests(q[i := e]) == Requests(q) + multiset{r}
  {
    assert q == q[..i] + [q[i]] + q[i + 1..];
    assert q[i := e] == q[..i] + [e] + q[i + 1..];
    RequestsSplit(q[..i], q[i], q[i + 1..]);
    RequestsSplit(q[..i], e, q[i + 1..]);
  }

  /** Inserting puts the new request in exactly one place and moves no other out. */
  lemma {:induction false} InsertConserves(q: seq<Element>, r: Request, limit: nat, alloc: nat -> bool, i: nat)
    requires i <= |q|
    ensures Requests(Insert(q, r, limit, alloc, i)) == Requests(q) + multiset{r}
    decreases |q| - i
  {
    if i == |q| {
      Append(q, Single(r));
    } else {
      var merged := TryMerge(r, q[i], limit, alloc(i));
      if merged.Some? {
        ReplaceConserves(q, i, merged.value, r);
      } else if q[i].Position() > r.position {
        BeforeConserves(q, i, r);
      } else {
        InsertConserves(q, r, limit, alloc, i + 1);
      }
    }
  }

  lemma BeforeConserves(q: seq<Element>, i: nat, r: Request)
    requires i < |q|
    ensures Requests(q[..i] + [Single(r)] + q[i..]) == Requests(q) + multiset{r}
  {
    assert q == q[..i] + q[i..];
    RequestsSplit(q[..i], Single(r), q[i..]);
    FlattenConcat(q[..i], q[i..]);
  }

  /** The request passes over the first `k` elements: it does not merge with them, and none lies beyond it. */
  ghost predicate Passes(q: seq<Element>, r: Request, limit: nat, alloc: nat -> bool, k: nat)
    requires k <= |q|
  {
    forall j: nat :: j < k ==> TryMerge(r, q[j], limit, alloc(j)).None? && q[j].Position() <= r.position
  }

  /** Where a request goes: into the first element it merges with, if it passes all before that, and otherwise before
      the first one beyond it, or to the end; all others stay as and where they are. */
  lemma {:induction false} InsertPlace(q: seq<Element>, r: Request, limit: nat, alloc: nat -> bool, i: nat)
    returns (k: nat)
    requires i <= |q| && Passes(q, r, limit, alloc, i)
    ensures k <= |q| && Passes(q, r, limit, alloc, k)
    ensures var q' := Insert(q, r, limit, alloc, i);
            if k < |q| && TryMerge(r, q[k], limit, alloc(k)).Some? then
              q' == q[k := TryMerge(r, q[k], limit, alloc(k)).value]
            else q' == q[..k] + [Single(r)] + q[k..] && (k < |q| ==> q[k].Position() > r.position)
    decreases |q| - i
  {
    k := i;
    if i == |q| {
      assert q[..i] == q && q[i..] == [];
    } else if TryMerge(r, q[i], limit, alloc(i)).None? && q[i].Position() <= r.position {
      k := InsertPlace(q, r, limit, alloc, i + 1);
    }
  }

  ghost predicate AllCoherent(q: seq<Element>) { forall e :: e in q ==> Coherent(e) }

  /** The first element the request merges with, if any, keeps its end, and the union fits the counter. */
  ghost predicate KeepsChains(q: seq<Element>, r: Request, limit: nat, alloc: nat -> bool, i: nat)
    requires i <= |q|
    decreases |q| - i
  {
    if i == |q| then true
    else if TryMerge(r, q[i], limit, alloc(i)).Some? then
      (q[i].Single? || KeepsEnd(r, q[i])) && Hull(r, q[i]) < TWO_32
    else q[i].Position() > r.position || KeepsChains(q, r, limit, alloc, i + 1)
  }

  /** Every queued range stays the union of its members exactly when no chain is extended to the left past its start and
      no union outgrows the 32-bit count. */
  lemma {:induction false} InsertCoherent(q: seq<Element>, r: Request, limit: nat, alloc: nat -> bool, i: nat)
    requires i <= |q| && AllCoherent(q)
    ensures AllCoherent(Insert(q, r, limit, alloc, i)) <==> KeepsChains(q, r, limit, alloc, i)
    decreases |q| - i
  {
    SingleCoherent(r);
    if i < |q| {
      var merged := TryMerge(r, q[i], limit, alloc(i));
      assert q[i] in q;
      if merged.Some? {
        if q[i].Single? { FirstMergeUnion(r, q[i].request, limit); } else { LaterMergeUnion(r, q[i], limit); }
        assert merged.value in q[i := merged.value] by { assert q[i := merged.value][i] == merged.value; }
        assert forall e :: e in q[i := merged.value] ==> e == merged.value || e in q;
      } else if q[i].Position() <= r.position {
        InsertCoherent(q, r, limit, alloc, i + 1);
      }
    }
  }

  /** Where the requests handed to a device are: waiting, at the device, or done. */
  datatype Contents = Contents(queue: seq<Element>, submitted: seq<Element>, completed: seq<Request>)

  datatype Op =
    | TrySubmit(r: Request, busy: bool)         // first critical section of storage_add_request
    | Add(r: Request, alloc: nat -> bool)       // its second critical section
    | Submit(busy: bool)                        // storage_periodic_task
    | Finish(k: nat)                            // storage_finish_request on the k-th submitted element

  ghost predicate Enabled(s: Contents, op: Op) { op.Finish? ==> op.k < |s.submitted| }

  ghost function Apply(s: Contents, op: Op, limit: nat): Contents
    requires Enabled(s, op)
  {
    match op
    case TrySubmit(r, busy) =>
      if s.queue == [] && !busy then s.(submitted := s.submitted + [Single(r)]) else s
    case Add(r, alloc) => s.(queue := Insert(s.queue, r, limit, alloc, 0))
    case Submit(busy) =>
      if busy || s.queue == [] then s else s.(queue := s.queue[1..], submitted := s.submitted + [s.queue[0]])
    case Finish(k) =>
      s.(submitted := s.submitted[..k] + s.submitted[k + 1..], completed := s.completed + s.submitted[k].Members())
  }

  ghost function Everything(s: Contents): multiset<Request> {
    Requests(s.queue) + Requests(s.submitted) + multiset(s.completed)
  }

  /** The requests an operation takes in. */
  ghost function Taken(s: Contents, op: Op): multiset<Request> {
    match op
    case TrySubmit(r, busy) => if s.queue == [] && !busy then multiset{r} else multiset{}
    case Add(r, _) => multiset{r}
    case _ => multiset{}
  }

  lemma StepConserves(s: Contents, op: Op, limit: nat)
    requires Enabled(s, op)
    ensures Everything(Apply(s, op, limit)) == Everything(s) + Taken(s, op)
  {
    match op {
      case TrySubmit(_, _) => SubmitConserves(s, op, limit);
      case Add(_, _) => AddConserves(s, op, limit);
      case Submit(_) => SubmitConserves(s, op, limit);
      case Finish(_) => FinishConserves(s, op, limit);
    }
  }

  lemma AddConserves(s: Contents, op: Op, limit: nat)
    requires Enabled(s, op) && op.Add?
    ensures Everything(Apply(s, op, limit)) == Everything(s) + Taken(s, op)
  {
    InsertConserves(s.queue, op.r, limit, op.alloc, 0);
  }

  lemma SubmitConserves(s: Contents, op: Op, limit: nat)
    requires Enabled(s, op) && (op.TrySubmit? || op.Submit?)
    ensures Everything(Apply(s, op, limit)) == Everything(s) + Taken(s, op)
  {
    if op.TrySubmit? {
      Append(s.submitted, Single(op.r));
    } else if s.queue != [] {
      Append(s.submitted, s.queue[0]);
      RemoveAt(s.queue, 0);
      assert s.queue[..0] + s.queue[0 + 1..] == s.queue[1..];
    }
  }

  lemma FinishConserves(s: Contents, op: Op, limit: nat)
    requires Enabled(s, op) && op.Finish?
    ensures Everything(Apply(s, op, limit)) == Everything(s) + Taken(s, op)
  {
    RemoveAt(s.submitted, op.k);
  }

  lemma Append(es: seq<Element>, e: Element)
    ensures Requests(es + [e]) == Requests(es) + multiset(e.Members())
  {
    FlattenConcat(es, [e]);
    FlattenOne(e);
  }

  lemma RemoveAt(es: seq<Element>, k: nat)
    requires k < |es|
    ensures Requests(es) == Requests(es[..k] + es[k + 1..]) + multiset(es[k].Members())
  {
    assert es == es[..k] + [es[k]] + es[k + 1..];
    RequestsSplit(es[..k], es[k], es[k + 1..]);
    FlattenConcat(es[..k], es[k + 1..]);
  }

  ghost predicate IsRun(states: seq<Contents>, ops: seq<Op>, limit: nat) {
    && |states| == |ops| + 1 && states[0] == Contents([], [], [])
    && forall i :: 0 <= i < |ops| ==> Enabled(states[i], ops[i]) && states[i + 1] == Apply(states[i], ops[i], limit)
  }

  ghost function Accepted(states: seq<Contents>, ops: seq<Op>, i: nat): multiset<Request>
    requires i <= |ops| && |states| == |ops| + 1
  {
    if i == 0 then multiset{} else Accepted(states, ops, i - 1) + Taken(states[i - 1], ops[i - 1])
  }

  /** Over every run the queue is sorted, and the requests queued, submitted and completed are together
      exactly the accepted ones, each as often as it was accepted. */
  lemma {:induction false} RunConserves(states: seq<Contents>, ops: seq<Op>, limit: nat, i: nat)
    requires IsRun(states, ops, limit) && i < |states|
    ensures Sorted(states[i].queue) && Everything(states[i]) == Accepted(states, ops, i)
  {
    if i == 0 {
    } else {
      RunConserves(states, ops, limit, i - 1);
      var s, op := states[i - 1], ops[i - 1];
      StepConserves(s, op, limit);
      StepSorted(s, op, limit);
    }
  }

  lemma StepSorted(s: Contents, op: Op, limit: nat)
    requires Enabled(s, op) && Sorted(s.queue)
    ensures Sorted(Apply(s, op, limit).queue)
  {
    if op.Add? { InsertSorted(s.queue, op.r, limit, op.alloc, 0); }
  }

  /** An idle device gets the element with the lowest position of all that wait, and a busy one nothing. */
  lemma SubmitsLowest(states: seq<Contents>, ops: seq<Op>, limit: nat, i: nat)
    requires IsRun(states, ops, limit) && i < |ops| && ops[i].Submit?
    ensures var s, s' := states[i], states[i + 1];
            if ops[i].busy || s.queue == [] then s' == s
            else
              && |s'.submitted| == |s.submitted| + 1 && s'.submitted[..|s.submitted|] == s.submitted
              && s'.submitted[|s.submitted|] in s.queue
              && forall e :: e in s.queue ==> s'.submitted[|s.submitted|].Position() <= e.Position()
  {
    RunConserves(states, ops, limit, i);
    assert Enabled(states[i], ops[i]) && states[i + 1] == Apply(states[i], ops[i], limit);
    var q := states[i].queue;
    if q != [] {
      forall e | e in q ensures q[0].Position() <= e.Position() { var k :| 0 <= k < |q| && q[k] == e; }
    }
  }

  /** No chain is extended to the left past its start, and no union outgrows its counter, before step `i`. */
  ghost predicate ChainsKept(states: seq<Contents>, ops: seq<Op>, limit: nat, i: nat)
    requires |states| == |ops| + 1 && i < |states|
  {
    forall j :: 0 <= j < i && ops[j].Add? ==> KeepsChains(states[j].queue, ops[j].r, limit, ops[j].alloc, 0)
  }

  /** Over every such run every element waiting or at the device has the union of its members' ranges. */
  lemma {:induction false} RunCoherent(states: seq<Contents>, ops: seq<Op>, limit: nat, i: nat)
    requires IsRun(states, ops, limit) && i < |states| && ChainsKept(states, ops, limit, i)
    ensures AllCoherent(states[i].queue) && AllCoherent(states[i].submitted)
  {
    if i == 0 {
    } else {
      RunCoherent(states, ops, limit, i - 1);
      var s, op := states[i - 1], ops[i - 1];
      match op {
        case TrySubmit(r, _) => SingleCoherent(r);
        case Add(r, alloc) => InsertCoherent(s.queue, r, limit, alloc, 0);
        case Submit(_) => assert s.queue != [] ==> s.queue[0] in s.queue;
        case Finish(_) =>
      }
    }
  }

  /** A finished write of such a run, with its bytes counted in 32 bits, has done to the device what its members, one
      by one, would have done. */
  lemma FinishedWrite(states: seq<Contents>, ops: seq<Op>, limit: nat, i: nat, d: Device, bs: nat, garbage: seq<Byte>,
                      x: nat)
    requires IsRun(states, ops, limit) && i < |ops| && ops[i].Finish? && ChainsKept(states, ops, limit, i)
    requires var e := states[i].submitted[ops[i].k];
             && bs > 0 && e.Count() * bs < TWO_32 && |garbage| == BufferSize(e, bs)
             && forall m :: m in e.Members() ==> Filled(m, bs)
    ensures var e := states[i].submitted[ops[i].k];
            && (forall m :: m in e.Members() ==> Lies(m, e.Position(), bs, |garbage|))
            && Store(d, e.Position() * bs, Gather(garbage, e.Position(), bs, e.Members()))(x) ==
               StoreAll(d, bs, e.Members())(x)
  {
    RunCoherent(states, ops, limit, i);
    assert states[i].submitted[ops[i].k] in states[i].submitted;
    MergedWrite(d, states[i].submitted[ops[i].k], bs, garbage, x);
  }

  /** A finished read of such a run has brought each member its own bytes. */
  lemma FinishedRead(states: seq<Contents>, ops: seq<Op>, limit: nat, i: nat, d: Device, bs: nat, m: Request)
    requires IsRun(states, ops, limit) && i < |ops| && ops[i].Finish? && ChainsKept(states, ops, limit, i)
    requires var e := states[i].submitted[ops[i].k]; m in e.Members() && e.Count() * bs < TWO_32
    ensures var e := states[i].submitted[ops[i].k];
            && Lies(m, e.Position(), bs, BufferSize(e, bs))
            && Slice(Load(d, e.Position() * bs, BufferSize(e, bs)), e.Position(), bs, m) ==
               Load(d, m.position * bs, m.count * bs)
  {
    RunCoherent(states, ops, limit, i);
    assert states[i].submitted[ops[i].k] in states[i].submitted;
    MergedRead(d, states[i].submitted[ops[i].k], bs, m);
  }

  ghost predicate AllWithin(q: seq<Element>, limit: nat) { forall e :: e in q ==> e.Count() <= limit }

  lemma MergeWithin(r: Request, e: Element, limit: nat, alloc: bool)
    requires TryMerge(r, e, limit, alloc).Some? && r.count <= limit && e.Count() <= limit && 2 * limit < TWO_32
    ensures TryMerge(r, e, limit, alloc).value.Count() <= limit
  {
    if e.Single? {
      HullFits(r, e, limit);
      NewMergeIs(r, e.request, limit);
    } else {
      ModifyFits(r, e, limit);
    }
  }

  /** With a limit below 2^31 no merge outgrows it. */
  lemma {:induction false} InsertWithin(q: seq<Element>, r: Request, limit: nat, alloc: nat -> bool, i: nat)
    requires i <= |q| && AllWithin(q, limit) && r.count <= limit && 2 * limit < TWO_32
    ensures AllWithin(Insert(q, r, limit, alloc, i), limit)
    decreases |q| - i
  {
    if i < |q| {
      var merged := TryMerge(r, q[i], limit, alloc(i));
      assert q[i] in q;
      if merged.Some? {
        MergeWithin(r, q[i], limit, alloc(i));
        assert forall e :: e in q[i := merged.value] ==> e == merged.value || e in q;
      } else if q[i].Position() <= r.position {
        InsertWithin(q, r, limit, alloc, i + 1);
      }
    }
  }

  /** Over every run whose requests keep to a limit below 2^31, so does everything waiting or at the device. */
  lemma {:induction false} RunWithin(states: seq<Contents>, ops: seq<Op>, limit: nat, i: nat)
    requires IsRun(states, ops, limit) && i < |states| && 2 * limit < TWO_32
    requires forall j :: 0 <= j < i && (ops[j].Add? || ops[j].TrySubmit?) ==> ops[j].r.count <= limit
    ensures AllWithin(states[i].queue, limit) && AllWithin(states[i].submitted, limit)
  {
    if i == 0 {
    } else {
      RunWithin(states, ops, limit, i - 1);
      var s, op := states[i - 1], ops[i - 1];
      match op {
        case TrySubmit(_, _) =>
        case Add(r, alloc) => InsertWithin(s.queue, r, limit, alloc, 0);
        case Submit(_) => assert s.queue != [] ==> s.queue[0] in s.queue;
        case Finish(_) =>
      }
    }
  }

  /** So when the limit is below 4 GiB, every buffer is as large as its range. */
  lemma RunBuffers(states: seq<Contents>, ops: seq<Op>, limit: nat, i: nat, bs: nat, e: Element)
    requires IsRun(states, ops, limit) && i < |states| && 2 * limit < TWO_32 && limit * bs < TWO_32
    requires forall j :: 0 <= j < i && (ops[j].Add? || ops[j].TrySubmit?) ==> ops[j].r.count <= limit
    requires e in states[i].queue || e in states[i].submitted
    ensures e.Count() * bs < TWO_32 && BufferSize(e, bs) == e.Count() * bs
  {
    RunWithin(states, ops, limit, i);
    if e.Count() < limit { MulGap(e.Count(), limit, bs); }
  }

  /** The device's queue, changed in place under its lock. */
  class IoQueue {
    var queue: seq<Element>
    var submitted: seq<Element>
    var completed: seq<Request>
    const limit: nat

    ghost function Now(): Contents
      reads this
    {
      Contents(queue, submitted, completed)
    }

    constructor (limit: nat)
      ensures this.limit == limit && Now() == Contents([], [], [])
    {
      queue, submitted, completed, this.limit := [], [], [], limit;
    }

    /** The first critical section of storage_add_request: an idle device takes the request at once. */
    method TrySubmit(r: Request, busy: bool) returns (taken: bool)
      modifies this
      ensures taken == (old(queue) == [] && !busy) && Now() == Apply(old(Now()), Op.TrySubmit(r, busy), limit)
    {
      taken := queue == [] && !busy;
      if taken { submitted := submitted + [Single(r)]; }
    }

    /** The second critical section: merge into or insert before an element, or append. */
    method Add(r: Request, alloc: nat -> bool)
      modifies this
      ensures Now() == Apply(old(Now()), Op.Add(r, alloc), limit)
    {
      ghost var q := queue;
      var i := 0;
      while i < |queue|
        invariant 0 <= i <= |queue| && queue == q && submitted == old(submitted) && completed == old(completed)
        invariant Insert(q, r, limit, alloc, 0) == Insert(q, r, limit, alloc, i)
      {
        var merged := TryMerge(r, queue[i], limit, alloc(i));
        if merged.Some? {
          queue := queue[i := merged.value];
          return;
        }
        if queue[i].Position() > r.position {
          queue := queue[..i] + [Single(r)] + queue[i..];
          return;
        }
        i := i + 1;
      }
      queue := queue + [Single(r)];
    }

    /** storage_periodic_task: an idle device takes the first element. */
    method Submit(busy: bool)
      modifies this
      ensures Now() == Apply(old(Now()), Op.Submit(busy), limit)
    {
      if !busy && queue != [] { submitted, queue := submitted + [queue[0]], queue[1..]; }
    }

    /** storage_finish_request: the loop completes each member of the chain in turn. */
    method Finish(k: nat)
      requires k < |submitted|
      modifies this
      ensures Now() == Apply(old(Now()), Op.Finish(k), limit)
    {
      ghost var before := submitted;
      var members := submitted[k].Members();
      submitted := submitted[..k] + submitted[k + 1..];
      var i := 0;
      while i < |members|
        invariant 0 <= i <= |members| && queue == old(queue) && submitted == before[..k] + before[k + 1..]
        invariant completed == old(completed) + members[..i]
      {
        completed := completed + [members[i]];
        i := i + 1;
      }
      assert members[..i] == members;
    }
  }
}
