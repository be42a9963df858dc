/** A slab: its free list is threaded through the first word of each free object. */
module Slab {
  import opened Base
  import opened Arith

  datatype Shape = Shape(base: nat, stride: nat, num: nat) {
    predicate Ok() { base > 0 && stride > 0 && num > 0 }
    /** Word address of object `k`; 0 is the null pointer. */
    function Addr(k: nat): nat { base + k * stride }
    function Limit(): nat { base + num * stride }
  }

  /** Memory words, the pointer union (free-list head or cache pointer) and the count of live objects. */
  datatype State = State(mem: seq<nat>, link: nat, inuse: nat)

  ghost function Head(sh: Shape, free: seq<nat>): nat { if free == [] then 0 else sh.Addr(free[0]) }

  ghost predicate LinksTo(mem: seq<nat>, sh: Shape, k: nat, next: nat) {
    sh.Addr(k) < |mem| && mem[sh.Addr(k)] == next
  }

  /** From `link` the pointers in memory visit exactly the objects of `free`, in order, then null. */
  ghost predicate Chain(mem: seq<nat>, sh: Shape, link: nat, free: seq<nat>) {
    && link == Head(sh, free)
    && forall i :: 0 <= i < |free| ==> LinksTo(mem, sh, free[i], Head(sh, free[i + 1..]))
  }

  ghost predicate Inv(sh: Shape, s: State, free: seq<nat>) {
    && sh.Ok() && sh.Limit() <= |s.mem|
    && NoDup(free) && (forall k :: k in free ==> k < sh.num)
    && s.inuse + |free| == sh.num
    && Chain(s.mem, sh, s.link, free)
  }

  // ---------------------------------------------------------------- steps

  /** allocate: pop the head; without one, store the cache pointer in the union. */
  function Take(s: State, memCache: nat): (State, Option<nat>) {
    if s.link == 0 then (s.(link := memCache), None)
    else (s.(link := if s.link < |s.mem| then s.mem[s.link] else 0, inuse := s.inuse + 1), Some(s.link))
  }

  /** deallocate: push the object; u16 `inuse` is decremented. */
  function Put(s: State, at: nat): State
    requires at < |s.mem| && s.inuse > 0
  {
    State(s.mem[at := s.link], at, s.inuse - 1)
  }

  datatype Step = Alloc(memCache: nat) | Free(k: nat) | Write(k: nat, word: nat, value: nat)

  /** Callers free and write only objects they hold and never allocate from a full slab. */
  predicate Legal(sh: Shape, free: seq<nat>, step: Step) {
    match step
    case Alloc(_) => free != []
    case Free(k) => k < sh.num && k !in free
    case Write(k, word, _) => k < sh.num && k !in free && word < sh.stride
  }

  function After(free: seq<nat>, step: Step): seq<nat> {
    match step
    case Alloc(_) => if free == [] then [] else free[1..]
    case Free(k) => [k] + free
    case Write(_, _, _) => free
  }

  function Exec(sh: Shape, s: State, step: Step): State {
    match step
    case Alloc(memCache) => Take(s, memCache).0
    case Free(k) => if sh.Addr(k) < |s.mem| && s.inuse > 0 then Put(s, sh.Addr(k)) else s
    case Write(k, word, v) => if sh.Addr(k) + word < |s.mem| then s.(mem := s.mem[sh.Addr(k) + word := v]) else s
  }

  // ---------------------------------------------------------------- list facts

  /** Objects lie inside the slab and different ones do not overlap. */
  lemma ObjectsDisjoint(sh: Shape, k: nat, l: nat)
    requires sh.Ok() && k < sh.num && l < sh.num
    ensures sh.base <= sh.Addr(k) && sh.Addr(k) + sh.stride <= sh.Limit()
    ensures k != l ==> sh.Addr(k) + sh.stride <= sh.Addr(l) || sh.Addr(l) + sh.stride <= sh.Addr(k)
  {
    MulGap(k, sh.num, sh.stride);
    if k < l { MulGap(k, l, sh.stride); } else if l < k { MulGap(l, k, sh.stride); }
  }

  lemma LiveWrite(mem: seq<nat>, sh: Shape, link: nat, free: seq<nat>, k: nat, word: nat, v: nat)
    requires Chain(mem, sh, link, free) && sh.Ok() && k < sh.num && k !in free
    requires forall f :: f in free ==> f < sh.num
    requires word < sh.stride && sh.Addr(k) + word < |mem|
    ensures Chain(mem[sh.Addr(k) + word := v], sh, link, free)
  {
    forall i | 0 <= i < |free|
      ensures LinksTo(mem[sh.Addr(k) + word := v], sh, free[i], Head(sh, free[i + 1..]))
    {
      assert LinksTo(mem, sh, free[i], Head(sh, free[i + 1..]));
      assert free[i] in free;
      ObjectsDisjoint(sh, k, free[i]);
    }
  }

  lemma ChainTail(mem: seq<nat>, sh: Shape, link: nat, free: seq<nat>)
    requires Chain(mem, sh, link, free) && free != []
    ensures link < |mem| && Chain(mem, sh, mem[link], free[1..])
  {
    assert LinksTo(mem, sh, free[0], Head(sh, free[1..]));
    forall i | 0 <= i < |free[1..]|
      ensures LinksTo(mem, sh, free[1..][i], Head(sh, free[1..][i + 1..]))
    {
      assert free[1..][i] == free[i + 1] && free[1..][i + 1..] == free[i + 2..];
      assert LinksTo(mem, sh, free[i + 1], Head(sh, free[i + 1 + 1..]));
    }
  }

  lemma ChainPush(mem: seq<nat>, sh: Shape, link: nat, free: seq<nat>, k: nat)
    requires Chain(mem, sh, link, free) && LinksTo(mem, sh, k, link)
    ensures Chain(mem, sh, sh.Addr(k), [k] + free)
  {
    var longer := [k] + free;
    forall i | 0 <= i < |longer|
      ensures LinksTo(mem, sh, longer[i], Head(sh, longer[i + 1..]))
    {
      if i == 0 {
        assert longer[1..] == free;
      } else {
        assert longer[i] == free[i - 1] && longer[i + 1..] == free[i..];
        assert LinksTo(mem, sh, free[i - 1], Head(sh, free[i - 1 + 1..]));
      }
    }
  }

  /** Distinct indices below `num` that miss `k` are fewer than `num`. */
  lemma {:induction false} Pigeonhole(s: seq<nat>, num: nat, k: nat)
    requires NoDup(s) && (forall f :: f in s ==> f < num) && k < num && k !in s
    ensures |s| < num
    decreases |s|
  {
    if s != [] {
      NoDupTail(s);
      var rest := s[1..];
      // Rename num - 1, if present in the tail or equal to k, to the head that was dropped.
      var h := s[0];
      var t := seq(|rest|, i requires 0 <= i < |rest| => if rest[i] == num - 1 then h else rest[i]);
      assert forall i :: 0 <= i < |rest| ==> rest[i] in rest;
      assert forall i :: 0 <= i < |rest| ==> rest[i] in s;
      assert h in s;
      Pigeonhole(t, num - 1, if k == num - 1 then h else k);
    }
  }

  lemma AllocKeeps(sh: Shape, s: State, free: seq<nat>, memCache: nat)
    requires Inv(sh, s, free) && free != []
    ensures Inv(sh, Take(s, memCache).0, free[1..]) && Take(s, memCache).1 == Some(sh.Addr(free[0]))
  {
    ChainTail(s.mem, sh, s.link, free);
    NoDupTail(free);
  }

  lemma FreeKeeps(sh: Shape, s: State, free: seq<nat>, k: nat)
    requires Inv(sh, s, free) && k < sh.num && k !in free
    ensures sh.Addr(k) < |s.mem| && s.inuse > 0 && Inv(sh, Put(s, sh.Addr(k)), [k] + free)
  {
    ObjectsDisjoint(sh, k, k);
    Pigeonhole(free, sh.num, k);
    LiveWrite(s.mem, sh, s.link, free, k, 0, s.link);
    ChainPush(s.mem[sh.Addr(k) := s.link], sh, s.link, free, k);
  }

  lemma StepKeeps(sh: Shape, s: State, free: seq<nat>, step: Step)
    requires Inv(sh, s, free) && Legal(sh, free, step)
    ensures Inv(sh, Exec(sh, s, step), After(free, step))
  {
    match step
    case Alloc(memCache) => AllocKeeps(sh, s, free, memCache);
    case Free(k) => FreeKeeps(sh, s, free, k);
    case Write(k, word, v) =>
      ObjectsDisjoint(sh, k, k);
      LiveWrite(s.mem, sh, s.link, free, k, word, v);
  }

  // ---------------------------------------------------------------- runs

  ghost predicate IsRun(sh: Shape, states: seq<State>, frees: seq<seq<nat>>, steps: seq<Step>) {
    && |states| == |frees| == |steps| + 1
    && Inv(sh, states[0], frees[0])
    && forall i :: 0 <= i < |steps| ==> Follows(sh, states, frees, steps, i)
  }

  ghost predicate Follows(sh: Shape, states: seq<State>, frees: seq<seq<nat>>, steps: seq<Step>, i: nat)
    requires |states| == |frees| == |steps| + 1 && i < |steps|
  {
    && Legal(sh, frees[i], steps[i])
    && states[i + 1] == Exec(sh, states[i], steps[i]) && frees[i + 1] == After(frees[i], steps[i])
  }

  /** Along every legal run memory holds the free list, and live plus free objects make up the slab. */
  lemma {:induction false} RunInv(sh: Shape, states: seq<State>, frees: seq<seq<nat>>, steps: seq<Step>, i: nat)
    requires IsRun(sh, states, frees, steps) && i < |states|
    ensures Inv(sh, states[i], frees[i])
  {
    if i > 0 {
      RunInv(sh, states, frees, steps, i - 1);
      assert Follows(sh, states, frees, steps, i - 1);
      StepKeeps(sh, states[i - 1], frees[i - 1], steps[i - 1]);
    }
  }

  /** What an allocation returns is a free object: inside the slab and apart from every live one. */
  lemma AllocationIsFresh(sh: Shape, states: seq<State>, frees: seq<seq<nat>>, steps: seq<Step>, i: nat)
    requires IsRun(sh, states, frees, steps) && i < |steps| && steps[i].Alloc?
    ensures frees[i] != []
    ensures
      var k := frees[i][0];
      && Take(states[i], steps[i].memCache).1 == Some(sh.Addr(k))
      && sh.base <= sh.Addr(k) && sh.Addr(k) + sh.stride <= sh.Limit()
      && (forall l: nat | l < sh.num && l !in frees[i] ::
            sh.Addr(k) + sh.stride <= sh.Addr(l) || sh.Addr(l) + sh.stride <= sh.Addr(k))
      && k !in frees[i + 1]
  {
    RunInv(sh, states, frees, steps, i);
    assert Follows(sh, states, frees, steps, i);
    var k := frees[i][0];
    AllocKeeps(sh, states[i], frees[i], steps[i].memCache);
    NoDupTail(frees[i]);
    ObjectsDisjoint(sh, k, k);
    forall l: nat | l < sh.num && l !in frees[i]
      ensures sh.Addr(k) + sh.stride <= sh.Addr(l) || sh.Addr(l) + sh.stride <= sh.Addr(k)
    {
      ObjectsDisjoint(sh, k, l);
    }
  }

  /** A full slab (inuse equal to the object count) is exactly where `allocate` destroys the list. */
  lemma AllocSafeIff(sh: Shape, s: State, free: seq<nat>, memCache: nat)
    requires Inv(sh, s, free) && memCache > 0
    ensures (exists f :: Inv(sh, Take(s, memCache).0, f)) <==> s.inuse < sh.num
  {
    if free != [] {
      AllocKeeps(sh, s, free, memCache);
    } else {
      var t := Take(s, memCache).0;
      assert forall f :: Inv(sh, t, f) ==> f == [];
    }
  }

  /** Allocating from a full slab, then freeing `k`: the second allocation after that hands out the cache itself. */
  lemma ExhaustedHandsOutCache(sh: Shape, s: State, k: nat, memCache: nat)
    requires Inv(sh, s, []) && k < sh.num && memCache > 0
    ensures
      var broken := Take(s, memCache).0;
      && Take(s, memCache).1 == None
      && sh.Addr(k) < |broken.mem| && broken.inuse > 0
      && var freed := Put(broken, sh.Addr(k));
         && Take(freed, memCache).1 == Some(sh.Addr(k))
         && Take(Take(freed, memCache).0, memCache).1 == Some(memCache)
  {
    ObjectsDisjoint(sh, k, k);
  }

  // ---------------------------------------------------------------- the slab object

  ghost function UpTo(from: nat, n: nat): seq<nat>
    requires from <= n
    decreases n - from
  {
    if from == n then [] else [from] + UpTo(from + 1, n)
  }

  lemma {:induction false} UpToAll(from: nat, n: nat)
    requires from <= n
    ensures |UpTo(from, n)| == n - from
    ensures forall i :: 0 <= i < n - from ==> UpTo(from, n)[i] == from + i
    decreases n - from
  {
    if from < n { UpToAll(from + 1, n); }
  }

  /** The value `FreeNode::init` leaves in object `k`. */
  ghost function NextOf(sh: Shape, k: nat): nat { if k + 1 < sh.num then sh.Addr(k + 1) else 0 }

  ghost predicate Linked(mem: seq<nat>, sh: Shape, k: nat) { LinksTo(mem, sh, k, NextOf(sh, k)) }

  lemma {:induction false} LinkedUp(mem: seq<nat>, sh: Shape, from: nat)
    requires from < sh.num
    requires forall k: nat :: from <= k < sh.num ==> Linked(mem, sh, k)
    ensures Chain(mem, sh, sh.Addr(from), UpTo(from, sh.num))
    decreases sh.num - from
  {
    assert Linked(mem, sh, from);
    if from + 1 < sh.num {
      LinkedUp(mem, sh, from + 1);
      ChainPush(mem, sh, sh.Addr(from + 1), UpTo(from + 1, sh.num), from);
    } else {
      assert UpTo(from + 1, sh.num) == [];
      ChainPush(mem, sh, 0, [], from);
    }
  }

  /** FreeNode::init: thread the list through all objects, in address order. */
  method InitNodes(mem: array<nat>, sh: Shape)
    requires sh.Ok() && sh.Limit() <= mem.Length
    modifies mem
    ensures forall k: nat :: k < sh.num ==> Linked(mem[..], sh, k)
    ensures forall i :: 0 <= i < mem.Length && !(sh.base <= i < sh.Limit()) ==> mem[i] == old(mem[i])
  {
    var current := sh.base;
    for i := 0 to sh.num - 1
      invariant current == sh.Addr(i)
      invariant forall k: nat :: k < i ==> Linked(mem[..], sh, k)
      invariant forall j :: 0 <= j < mem.Length && !(sh.base <= j < sh.Limit()) ==> mem[j] == old(mem[j])
    {
      var next := current + sh.stride;
      assert next == sh.Addr(i + 1) by { assert (i + 1) * sh.stride == i * sh.stride + sh.stride; }
      SetNode(mem, sh, i, next);
      current := next;
    }
    SetNode(mem, sh, sh.num - 1, 0);
  }

  method SetNode(mem: array<nat>, sh: Shape, k: nat, next: nat)
    requires sh.Ok() && k < sh.num && sh.Limit() <= mem.Length
    modifies mem
    ensures LinksTo(mem[..], sh, k, next)
    ensures forall l: nat :: l < k && old(Linked(mem[..], sh, l)) ==> Linked(mem[..], sh, l)
    ensures forall i :: 0 <= i < mem.Length && !(sh.base <= i < sh.Limit()) ==> mem[i] == old(mem[i])
  {
    ObjectsDisjoint(sh, k, k);
    forall l: nat | l < k ensures sh.Addr(l) != sh.Addr(k) { ObjectsDisjoint(sh, l, k); }
    mem[sh.Addr(k)] := next;
  }

  class Slub {
    const shape: Shape
    const mem: array<nat>
    var link: nat
    var inuse: nat
    ghost var free: seq<nat>

    ghost function Now(): State
      reads this, mem
    {
      State(mem[..], link, inuse)
    }

    ghost predicate Valid()
      reads this, mem
    {
      Inv(shape, Now(), free)
    }

    constructor (mem: array<nat>, sh: Shape)
      requires sh.Ok() && sh.Limit() <= mem.Length
      modifies mem
      ensures Valid() && this.mem == mem && shape == sh && inuse == 0 && free == UpTo(0, sh.num)
    {
      shape, this.mem, link, inuse, free := sh, mem, sh.base, 0, UpTo(0, sh.num);
      new;
      InitNodes(mem, sh);
      UpToAll(0, sh.num);
      LinkedUp(mem[..], sh, 0);
    }

    method Allocate(memCache: nat) returns (r: Option<nat>)
      requires Valid() && memCache > 0
      modifies this
      ensures (Now(), r) == Take(old(Now()), memCache)
      ensures r.Some? <==> old(free) != []
      ensures r.Some? ==> r.value == shape.Addr(old(free)[0]) && free == old(free)[1..]
      ensures Valid() <==> old(inuse) < shape.num
    {
      AllocSafeIff(shape, Now(), free, memCache);
      if link == 0 {
        link := memCache;
        return None;
      }
      AllocKeeps(shape, Now(), free, memCache);
      r := Some(link);
      link := mem[link];
      inuse := inuse + 1;
      free := free[1..];
    }

    method Deallocate(ghost k: nat, node: nat)
      requires Valid() && k < shape.num && k !in free && node == shape.Addr(k)
      modifies this, mem
      ensures Valid() && free == [k] + old(free)
      ensures Now() == State(old(mem[..])[node := old(link)], node, old(inuse) - 1)
    {
      FreeKeeps(shape, Now(), free, k);
      ghost var put := Put(Now(), node);
      mem[node] := link;
      link := node;
      inuse := inuse - 1;
      free := [k] + free;
      assert Now() == put;
    }
  }
}
