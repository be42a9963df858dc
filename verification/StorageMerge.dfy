/** Merging requests that overlap or touch. */
module StorageMerge {
  import opened Base

  /** A request as its caller made it. For a write `data` is what to store, for a read it is the caller's buffer. */
  datatype Request = Request(id: nat, isWrite: bool, position: Position64, count: Count32, data: seq<Byte>)

  /** A queue element: a lone request, or a request standing for a chain of members in arrival order. */
  datatype Element =
    | Single(request: Request)
    | Merged(start: Position64, length: Count32, write: bool, chain: seq<Request>)
  {
    function Position(): Position64 { if Single? then request.position else start }
    function Count(): Count32 { if Single? then request.count else length }
    function End(): nat { Position() + Count() }
    function IsWrite(): bool { if Single? then request.isWrite else write }
    function Members(): seq<Request> { if Single? then [request] else chain }
  }

  /** The end of a range as the code computes it, in 64 bits. */
  function End64(position: Position64, count: Count32): Position64 {
    if position + count < TWO_64 then position + count else position + count - TWO_64
  }

  function Sum32(a: Count32, b: Count32): Count32 { if a + b < TWO_32 then a + b else a + b - TWO_32 }

  /** Same direction, within the device limit as a 32-bit sum, overlapping or touching. */
  predicate Mergeable(r: Request, e: Element, limit: nat) {
    && r.isWrite == e.IsWrite()
    && Sum32(r.count, e.Count()) <= limit
    && End64(r.position, r.count) >= e.Position() && r.position <= End64(e.Position(), e.Count())
  }

  /** A range that wraps around the end of the device never merges. */
  lemma MergesUnwrapped(r: Request, e: Element, limit: nat)
    requires Mergeable(r, e, limit)
    ensures r.position + r.count < TWO_64 && e.End() < TWO_64
    ensures r.position + r.count >= e.Position() && r.position <= e.End()
  {
  }

  /** Two unwrapped ranges merge exactly if they have one direction, their 32-bit sum is within the limit, and no block
      lies between them. */
  lemma MergeableIff(r: Request, e: Element, limit: nat)
    requires r.position + r.count < TWO_64 && e.End() < TWO_64
    ensures Mergeable(r, e, limit) <==>
            && r.isWrite == e.IsWrite() && (r.count + e.Count()) % TWO_32 <= limit
            && forall b: nat :: InRange(Min(r.position, e.Position()), Hull(r, e), b) ==>
                 InRange(r.position, r.count, b) || InRange(e.Position(), e.Count(), b)
  {
    var lo := Min(r.position, e.Position());
    if r.position + r.count < e.Position() {
      assert InRange(lo, Hull(r, e), r.position + r.count);
    } else if r.position > e.End() {
      assert InRange(lo, Hull(r, e), e.End());
    }
  }

  /** From the first block of the two to the last. */
  function Hull(r: Request, e: Element): nat {
    Max(r.position + r.count, e.End()) - Min(r.position, e.Position())
  }

  /** storage_new_merge_request: a fresh request replaces the queued one. */
  function NewMerge(r: Request, q: Request): Element {
    var position := Min(r.position, q.position);
    var length := Max(End64(r.position, r.count), End64(q.position, q.count)) - position;
    Merged(position, length % TWO_32, r.isWrite, [q, r])
  }

  /** storage_modify_merged_request: the position is moved before the old end is computed from it. */
  function ModifyMerged(r: Request, e: Element): Element
    requires e.Merged?
  {
    var position := Min(e.start, r.position);
    var length := Max(End64(r.position, r.count), End64(position, e.length)) - position;
    Merged(position, length % TWO_32, e.write, e.chain + [r])
  }

  /** storage_try_merge_request; `alloc` says whether the fresh request could be allocated. */
  function TryMerge(r: Request, e: Element, limit: nat, alloc: bool): Option<Element> {
    if !Mergeable(r, e, limit) then None
    else if e.Merged? then Some(ModifyMerged(r, e))
    else if alloc then Some(NewMerge(r, e.request))
    else None
  }

  /** The code's ends are the real ones wherever it merges. */
  lemma NewMergeIs(r: Request, q: Request, limit: nat)
    requires Mergeable(r, Single(q), limit)
    ensures NewMerge(r, q).Position() == Min(r.position, q.position)
    ensures NewMerge(r, q).Count() == Hull(r, Single(q)) % TWO_32
  {
    MergesUnwrapped(r, Single(q), limit);
  }

  lemma ModifyMergedIs(r: Request, e: Element, limit: nat)
    requires e.Merged? && Mergeable(r, e, limit)
    ensures var p := Min(e.start, r.position);
            && ModifyMerged(r, e).Position() == p
            && ModifyMerged(r, e).Count() == (Max(r.position + r.count, p + e.length) - p) % TWO_32
    ensures r.position + r.count >= e.Position() && r.position <= e.End()
  {
    MergesUnwrapped(r, e, limit);
  }

  ghost predicate InRange(position: nat, count: nat, b: nat) { position <= b < position + count }

  ghost predicate SomeCovers(ms: seq<Request>, b: nat) {
    exists i :: 0 <= i < |ms| && InRange(ms[i].position, ms[i].count, b)
  }

  /** The element's range is exactly the union of its members' ranges. */
  ghost predicate Coherent(e: Element) {
    && (forall b: nat :: InRange(e.Position(), e.Count(), b) <==> SomeCovers(e.Members(), b))
    && (forall m :: m in e.Members() ==> m.isWrite == e.IsWrite()
                                         && e.Position() <= m.position && m.position + m.count <= e.End())
  }

  /** The new request does not move the merged range to the left, unless it covers all of it. */
  predicate KeepsEnd(r: Request, e: Element) { r.position >= e.Position() || r.position + r.count >= e.End() }

  lemma SingleCoherent(r: Request)
    ensures Coherent(Single(r))
  {
    assert Single(r).Members()[0] == r;
    forall b: nat ensures InRange(r.position, r.count, b) <==> SomeCovers([r], b) {
      if InRange(r.position, r.count, b) { assert [r][0] == r; }
    }
  }

  lemma CoversAppend(ms: seq<Request>, r: Request, b: nat)
    ensures SomeCovers(ms + [r], b) <==> SomeCovers(ms, b) || InRange(r.position, r.count, b)
  {
    if SomeCovers(ms, b) {
      var i :| 0 <= i < |ms| && InRange(ms[i].position, ms[i].count, b);
      assert (ms + [r])[i] == ms[i];
    }
    if InRange(r.position, r.count, b) { assert (ms + [r])[|ms|] == r; }
    if SomeCovers(ms + [r], b) {
      var i :| 0 <= i < |ms| + 1 && InRange((ms + [r])[i].position, (ms + [r])[i].count, b);
      assert i < |ms| ==> (ms + [r])[i] == ms[i];
    }
  }

  /** A range that is the hull of two touching ranges is their union. */
  lemma HullIsUnion(e: Element, r: Request, e': Element)
    requires Coherent(e) && r.isWrite == e.IsWrite()
    requires r.position + r.count >= e.Position() && r.position <= e.End()
    requires e'.Members() == e.Members() + [r] && e'.IsWrite() == e.IsWrite()
    requires e'.Position() == Min(e.Position(), r.position) && e'.End() == Max(e.End(), r.position + r.count)
    ensures Coherent(e')
  {
    forall b: nat ensures InRange(e'.Position(), e'.Count(), b) <==> SomeCovers(e'.Members(), b) {
      CoversAppend(e.Members(), r, b);
    }
  }

  /** A range that ends before one of its members is not their union. */
  lemma SticksOut(e: Element, m: Request)
    requires m in e.Members() && m.position + m.count > e.End()
    ensures !Coherent(e)
  {
  }

  /** While the 32-bit sum of the test does not wrap, the union fits both the counter and the limit. */
  lemma HullFits(r: Request, e: Element, limit: nat)
    requires Mergeable(r, e, limit) && r.count + e.Count() < TWO_32
    ensures Hull(r, e) <= limit && Hull(r, e) < TWO_32
  {
    MergesUnwrapped(r, e, limit);
  }

  lemma ModifyFits(r: Request, e: Element, limit: nat)
    requires e.Merged? && Mergeable(r, e, limit) && r.count + e.Count() < TWO_32
    ensures ModifyMerged(r, e).Count() <= limit
  {
    ModifyMergedIs(r, e, limit);
    ReachFits(e.start, e.length, r.position, r.count);
  }

  /** From the first start, either range taken from its own or from the first start, ends within both counts. */
  lemma ReachFits(start: nat, length: nat, position: nat, count: nat)
    requires position + count >= start && position <= start + length
    ensures var p := Min(start, position); 0 <= Max(position + count, p + length) - p <= count + length
  {
  }

  /** The first merge is the union of the two exactly if the union fits the 32-bit counter. */
  lemma FirstMergeUnion(r: Request, q: Request, limit: nat)
    requires Mergeable(r, Single(q), limit)
    ensures Coherent(NewMerge(r, q)) <==> Hull(r, Single(q)) < TWO_32
    ensures r.count + q.count < TWO_32 ==> Hull(r, Single(q)) < TWO_32 && NewMerge(r, q).Count() <= limit
  {
    NewMergeIs(r, q, limit);
    if r.count + q.count < TWO_32 { HullFits(r, Single(q), limit); }
    if Hull(r, Single(q)) < TWO_32 {
      SingleCoherent(q);
      assert [q] + [r] == [q, r];
      MergesUnwrapped(r, Single(q), limit);
      HullIsUnion(Single(q), r, NewMerge(r, q));
    }
  }

  /** Some member of a range that is not empty reaches its end. */
  lemma LastMember(e: Element) returns (m: Request)
    requires Coherent(e) && e.Count() > 0
    ensures m in e.Members() && m.position + m.count == e.End()
  {
    var b := e.End() - 1;
    assert InRange(e.Position(), e.Count(), b);
    var i :| 0 <= i < |e.Members()| && InRange(e.Members()[i].position, e.Members()[i].count, b);
    m := e.Members()[i];
  }

  /** A later merge is the union exactly when the new request keeps the end and the union fits the counter; without
      the end the range is cut short of some member. */
  lemma LaterMergeUnion(r: Request, e: Element, limit: nat)
    requires e.Merged? && Coherent(e) && Mergeable(r, e, limit)
    ensures Coherent(ModifyMerged(r, e)) <==> KeepsEnd(r, e) && Hull(r, e) < TWO_32
    ensures !KeepsEnd(r, e) ==>
              ModifyMerged(r, e).End() < e.End() && ModifyMerged(r, e).Count() == Max(r.count, e.Count())
    ensures !KeepsEnd(r, e) ==> exists m :: m in e.Members() && m.position + m.count > ModifyMerged(r, e).End()
    ensures r.count + e.Count() < TWO_32 ==> Hull(r, e) < TWO_32 && ModifyMerged(r, e).Count() <= limit
  {
    ModifyMergedIs(r, e, limit);
    if r.count + e.Count() < TWO_32 { HullFits(r, e, limit); }
    if KeepsEnd(r, e) && Hull(r, e) < TWO_32 {
      HullIsUnion(e, r, ModifyMerged(r, e));
    } else {
      CutShort(r, e, limit);
    }
    if !KeepsEnd(r, e) { EndLost(r, e, limit); }
  }

  lemma EndLost(r: Request, e: Element, limit: nat)
    requires e.Merged? && Mergeable(r, e, limit) && !KeepsEnd(r, e)
    ensures ModifyMerged(r, e).End() < e.End() && ModifyMerged(r, e).Count() == Max(r.count, e.Count())
  {
    MergesUnwrapped(r, e, limit);
  }

  /** Otherwise some member reaches beyond the new end. */
  lemma CutShort(r: Request, e: Element, limit: nat)
    requires e.Merged? && Coherent(e) && Mergeable(r, e, limit) && !(KeepsEnd(r, e) && Hull(r, e) < TWO_32)
    ensures !Coherent(ModifyMerged(r, e))
    ensures !KeepsEnd(r, e) ==> exists m :: m in e.Members() && m.position + m.count > ModifyMerged(r, e).End()
  {
    ModifyMergedIs(r, e, limit);
    var e' := ModifyMerged(r, e);
    assert e'.chain[|e.chain|] == r;
    if e.Count() > 0 && e.End() > e'.End() {
      var m := LastMember(e);
      assert m in e'.Members();
      SticksOut(e', m);
    } else {
      SticksOut(e', r);
    }
  }

  /** Extending a chain to the left loses blocks that are already in it. */
  lemma LeftExtensionLoses(a: Request, b: Request, r: Request)
    requires a == Request(0, true, 10, 5, [1, 1, 1, 1, 1]) && b == Request(1, true, 15, 5, [2, 2, 2, 2, 2])
    requires r == Request(2, true, 5, 6, [3, 3, 3, 3, 3, 3])
    ensures var e := NewMerge(b, a); var e' := ModifyMerged(r, e);
            && Mergeable(b, Single(a), 64) && Mergeable(r, e, 64)
            && e'.Position() == 5 && e'.End() == 15 && b in e'.Members() && b.position + b.count == 20
  {
    assert ModifyMerged(r, NewMerge(b, a)).Members()[1] == b;
  }

  /** Two neighbouring requests of 2^31 blocks pass any limit, and their merge is empty. */
  lemma WideMergeLoses(a: Request, b: Request, limit: nat)
    requires a == Request(0, false, 0, 0x8000_0000, []) && b == Request(1, false, 0x8000_0000, 0x8000_0000, [])
    ensures Mergeable(b, Single(a), limit) && NewMerge(b, a).Count() == 0 && Hull(b, Single(a)) == TWO_32
  {
  }
}
