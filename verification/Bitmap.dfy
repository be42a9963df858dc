/** The bitmap allocator: two word maps and a hint stand for a set of live extents. */
module BitmapAllocator {
  import opened Base
  import opened Words
  import opened Extents
  import opened Arith

  const MAX_ALLOC_SIZE: nat := 16 * 1024
  const CACHELINE_SIZE: nat := 64

  datatype MemoryError = ViolateConstraint | InvalidSize(size: nat) | OutOfMemory | InvalidAllocationOffset(offset: nat)
  datatype Result<T> = Ok(value: T) | Err(error: MemoryError)

  function NextMultiple(a: nat, b: nat): nat
    requires b > 0
  {
    DivCeil(a, b) * b
  }

  function WordCount(bits: nat): nat { DivCeil(bits, WORD_BITS) }

  /** The bits of a map, unit by unit. */
  ghost function Flat(ws: seq<Word>): (bits: seq<bool>)
    ensures |bits| == WORD_BITS * |ws|
    ensures forall p: nat :: p < |bits| ==> bits[p] == ws[p / WORD_BITS][p % WORD_BITS]
  {
    seq(WORD_BITS * |ws|, p requires 0 <= p < WORD_BITS * |ws| => ws[p / WORD_BITS][p % WORD_BITS])
  }

  /** `Test`: no unit of the range is allocated. */
  method Test(map0: array<Word>, start: nat, len: nat) returns (free: bool)
    requires 0 < len && start + len <= WORD_BITS * map0.Length
    ensures free <==> forall p: nat :: start <= p < start + len ==> !Flat(map0[..])[p]
  {
    var remaining, bit, index := len, start % WORD_BITS, start / WORD_BITS;
    while remaining > 0
      invariant 0 <= remaining <= len && 0 <= bit < WORD_BITS
      invariant remaining > 0 ==> index * WORD_BITS + bit == start + len - remaining
      invariant forall p: nat :: start <= p < start + len - remaining ==> !Flat(map0[..])[p]
    {
      var n := Min(remaining, WORD_BITS - bit);
      var mask := Mask(n, bit);
      NonZero(And(map0[index], mask));
      if And(map0[index], mask) != ZERO {
        ghost var i :| 0 <= i < WORD_BITS && And(map0[index], mask)[i];
        assert Flat(map0[..])[index * WORD_BITS + i];
        return false;
      }
      forall p: nat | start + len - remaining <= p < start + len - remaining + n ensures !Flat(map0[..])[p] {
        assert p / WORD_BITS == index && !And(map0[index], mask)[p % WORD_BITS];
      }
      remaining := remaining - n;
      index := index + 1;
      bit := 0;
    }
    return true;
  }

  ghost predicate Within(start: nat, end: nat, p: nat) { start <= p < end }

  /** One word of a map changes: only its own 64 units change. */
  lemma FlatUpdate(ws: seq<Word>, index: nat, w: Word)
    requires index < |ws|
    ensures forall p: nat :: p < WORD_BITS * |ws| ==>
              Flat(ws[index := w])[p] == if p / WORD_BITS == index then w[p % WORD_BITS] else Flat(ws)[p]
  {
  }

  /** `mark_allocated`: set the range in one map, clear it in the other, then mark both its ends. */
  method MarkAllocated(allocMap: array<Word>, boundMap: array<Word>, start: nat, len: nat)
    requires allocMap != boundMap && allocMap.Length == boundMap.Length
    requires 0 < len && start + len < WORD_BITS * allocMap.Length
    modifies allocMap, boundMap
    ensures forall p: nat :: p < WORD_BITS * allocMap.Length ==>
              Flat(allocMap[..])[p] == (old(Flat(allocMap[..])[p]) || Within(start, start + len, p))
    ensures forall p: nat :: p < WORD_BITS * allocMap.Length ==>
              Flat(boundMap[..])[p] ==
              (p == start || p == start + len || (old(Flat(boundMap[..])[p]) && !Within(start, start + len, p)))
  {
    MarkRange(allocMap, boundMap, start, len);
    SetBit(boundMap, start / WORD_BITS, start % WORD_BITS);
    var end := start % WORD_BITS + len;
    SetBit(boundMap, start / WORD_BITS + end / WORD_BITS, end % WORD_BITS);
    assert (start / WORD_BITS + end / WORD_BITS) * WORD_BITS + end % WORD_BITS == start + len;
  }

  method SetBit(bits: array<Word>, index: nat, bit: nat)
    requires index < bits.Length && bit < WORD_BITS
    modifies bits
    ensures forall p: nat :: p < WORD_BITS * bits.Length ==>
              Flat(bits[..])[p] == (old(Flat(bits[..])[p]) || p == index * WORD_BITS + bit)
  {
    ghost var before := bits[..];
    bits[index] := Or(bits[index], Single(bit));
    assert bits[..] == before[index := Or(before[index], Single(bit))];
    FlatUpdate(before, index, Or(before[index], Single(bit)));
  }

  /** The loop of `mark_allocated`. */
  method MarkRange(allocMap: array<Word>, boundMap: array<Word>, start: nat, len: nat)
    requires allocMap != boundMap && allocMap.Length == boundMap.Length
    requires 0 < len && start + len <= WORD_BITS * allocMap.Length
    modifies allocMap, boundMap
    ensures forall p: nat :: p < WORD_BITS * allocMap.Length ==>
              Flat(allocMap[..])[p] == (old(Flat(allocMap[..])[p]) || Within(start, start + len, p))
    ensures forall p: nat :: p < WORD_BITS * allocMap.Length ==>
              Flat(boundMap[..])[p] == (old(Flat(boundMap[..])[p]) && !Within(start, start + len, p))
  {
    ghost var a, b := Flat(allocMap[..]), Flat(boundMap[..]);
    var remaining, bit, index := len, start % WORD_BITS, start / WORD_BITS;
    while remaining > 0
      invariant 0 <= remaining <= len && 0 <= bit < WORD_BITS
      invariant remaining > 0 ==> index * WORD_BITS + bit == start + len - remaining
      invariant forall p: nat :: p < |a| ==>
                  Flat(allocMap[..])[p] == (a[p] || Within(start, start + len - remaining, p))
      invariant forall p: nat :: p < |b| ==>
                  Flat(boundMap[..])[p] == (b[p] && !Within(start, start + len - remaining, p))
    {
      var n := Min(remaining, WORD_BITS - bit);
      var mask := Mask(n, bit);
      ghost var a1, b1 := allocMap[..], boundMap[..];
      allocMap[index] := Or(allocMap[index], mask);
      boundMap[index] := And(boundMap[index], Not(mask));
      assert allocMap[..] == a1[index := Or(a1[index], mask)] && boundMap[..] == b1[index := And(b1[index], Not(mask))];
      FlatUpdate(a1, index, Or(a1[index], mask));
      FlatUpdate(b1, index, And(b1[index], Not(mask)));
      remaining := remaining - n;
      index := index + 1;
      bit := 0;
    }
  }

  /** `mark_free`: clear the range of a freed extent; its boundary marks stay. */
  method MarkFree(allocMap: array<Word>, start: nat, end: nat)
    requires start <= end <= WORD_BITS * allocMap.Length
    modifies allocMap
    ensures forall p: nat :: p < WORD_BITS * allocMap.Length ==>
              Flat(allocMap[..])[p] == (old(Flat(allocMap[..])[p]) && !Within(start, end, p))
  {
    ghost var a := Flat(allocMap[..]);
    var remaining, bit, index := end - start, start % WORD_BITS, start / WORD_BITS;
    while remaining > 0
      invariant 0 <= remaining <= end - start && 0 <= bit < WORD_BITS
      invariant remaining > 0 ==> index * WORD_BITS + bit == end - remaining
      invariant forall p: nat :: p < |a| ==> Flat(allocMap[..])[p] == (a[p] && !Within(start, end - remaining, p))
    {
      var n := Min(remaining, WORD_BITS - bit);
      var mask := Mask(n, bit);
      ghost var a1 := allocMap[..];
      allocMap[index] := And(allocMap[index], Not(mask));
      assert allocMap[..] == a1[index := And(a1[index], Not(mask))];
      FlatUpdate(a1, index, And(a1[index], Not(mask)));
      remaining := remaining - n;
      index := index + 1;
      bit := 0;
    }
  }

  method FirstWord(boundMap: array<Word>, start: nat) returns (index: nat, word: Word)
    requires start + 1 < WORD_BITS * boundMap.Length
    ensures index * WORD_BITS <= start + 1 < index * WORD_BITS + WORD_BITS && index < boundMap.Length
    ensures Shows(Flat(boundMap[..]), word, index, start)
  {
    var bit := (start % WORD_BITS + 1) % WORD_BITS;
    index := start / WORD_BITS + (start % WORD_BITS + 1) / WORD_BITS;
    assert index * WORD_BITS + bit == start + 1;
    word := And(boundMap[index], Shl(ONES, bit));
  }

  /** `find_boundary`: the first boundary mark after `start`; the caller knows there is one. */
  method FindBoundary(boundMap: array<Word>, start: nat, ghost mark: nat) returns (end: nat)
    requires start < mark < WORD_BITS * boundMap.Length && Flat(boundMap[..])[mark]
    ensures start < end <= mark && Flat(boundMap[..])[end]
    ensures forall p: nat :: start < p < end ==> !Flat(boundMap[..])[p]
  {
    ghost var ws := boundMap[..];
    var index, word := FirstWord(boundMap, start);
    while word == ZERO
      invariant Seeking(ws, word, index, start, mark) && start < index * WORD_BITS + WORD_BITS
      decreases boundMap.Length - index
    {
      Advance(ws, word, index, start, mark);
      index := index + 1;
      word := boundMap[index];
    }
    var low := LowestOne(word);
    end := index * WORD_BITS + low.value;
    FirstMark(Flat(ws), word, index, start, mark, low.value);
  }

  /** The search is at word `index`, shown in `word`, and has passed no mark. */
  ghost predicate Seeking(ws: seq<Word>, word: Word, index: nat, start: nat, mark: nat) {
    && index < |ws| && index * WORD_BITS <= mark
    && Shows(Flat(ws), word, index, start)
    && forall p: nat :: start < p < index * WORD_BITS ==> !Flat(ws)[p]
  }

  lemma Advance(ws: seq<Word>, word: Word, index: nat, start: nat, mark: nat)
    requires Seeking(ws, word, index, start, mark) && word == ZERO
    requires start < mark < WORD_BITS * |ws| && Flat(ws)[mark] && start < index * WORD_BITS + WORD_BITS
    ensures index + 1 < |ws| && Seeking(ws, ws[index + 1], index + 1, start, mark)
  {
    SkipWord(Flat(ws), word, index, start, mark);
  }

  /** `word` shows the marks of map word `index` that lie after `start`. */
  ghost predicate Shows(b: seq<bool>, word: Word, index: nat, start: nat)
    requires index * WORD_BITS + WORD_BITS <= |b|
  {
    forall i :: 0 <= i < WORD_BITS ==> word[i] == (b[index * WORD_BITS + i] && start < index * WORD_BITS + i)
  }

  lemma FirstMark(b: seq<bool>, word: Word, index: nat, start: nat, mark: nat, low: nat)
    requires index * WORD_BITS + WORD_BITS <= |b| && Shows(b, word, index, start)
    requires low < WORD_BITS && word[low] && forall i :: 0 <= i < low ==> !word[i]
    requires start < mark < |b| && b[mark] && index * WORD_BITS <= mark
    requires forall p: nat :: start < p < index * WORD_BITS ==> !b[p]
    ensures var end := index * WORD_BITS + low;
            start < end <= mark && b[end] && forall p: nat :: start < p < end ==> !b[p]
  {
    var end := index * WORD_BITS + low;
    forall p: nat | start < p < end ensures !b[p] {
      if index * WORD_BITS <= p { assert !word[p - index * WORD_BITS]; }
    }
  }

  lemma SkipWord(b: seq<bool>, word: Word, index: nat, start: nat, mark: nat)
    requires word == ZERO && mark < |b| && b[mark] && start < mark && index * WORD_BITS <= mark
    requires index * WORD_BITS + WORD_BITS <= |b| && |b| % WORD_BITS == 0 && Shows(b, word, index, start)
    ensures (index + 1) * WORD_BITS <= mark && (index + 2) * WORD_BITS <= |b|
    ensures forall p: nat :: start < p && index * WORD_BITS <= p < (index + 1) * WORD_BITS ==> !b[p]
  {
    forall p: nat | start < p && index * WORD_BITS <= p < (index + 1) * WORD_BITS ensures !b[p] {
      assert word[p - index * WORD_BITS] == b[index * WORD_BITS + (p - index * WORD_BITS)];
    }
  }

  /** A caller's request; the alignment is a power of two. */
  datatype Layout = Layout(size: nat, align: nat)

  /** The k-th place a request may go: `k` times its own length, rounded up to its alignment, above the first. */
  ghost function Try(first: nat, units: nat, unitAlign: nat, k: nat): nat
    requires unitAlign > 0
  {
    first + k * NextMultiple(units, unitAlign)
  }

  ghost predicate Fits(a: seq<bool>, capacity: nat, start: nat, units: nat)
    requires capacity <= |a|
  {
    start + units <= capacity && FreeRange(a, start, units)
  }

  /** No place the scan looks at fits the request. */
  ghost predicate NoTryFits(a: seq<bool>, firstFree: nat, capacity: nat, units: nat, unitAlign: nat)
    requires capacity <= |a| && unitAlign > 0
  {
    forall j: nat :: !Fits(a, capacity, Try(NextMultiple(firstFree, unitAlign), units, unitAlign, j), units)
  }

  ghost predicate FreeRange(a: seq<bool>, start: nat, len: nat)
    requires start + len <= |a|
  {
    forall p: nat :: start <= p < start + len ==> !a[p]
  }

  lemma NextMultipleUp(x: nat, b: nat)
    requires b > 0
    ensures x <= NextMultiple(x, b) < x + b && NextMultiple(x, b) % b == 0
    ensures x % b == 0 ==> NextMultiple(x, b) == x
  {
    var y := x + b - 1;
    assert y == (y / b) * b + y % b;
    MulMod(y / b, b);
    if x % b == 0 { DivUnique(y, b, x / b, b - 1); }
  }

  lemma TriesGrow(first: nat, units: nat, unitAlign: nat, j: nat, k: nat)
    requires unitAlign > 0 && j <= k
    ensures Try(first, units, unitAlign, j) <= Try(first, units, unitAlign, k)
  {
    if j < k { MulGap(j, k, NextMultiple(units, unitAlign)); }
  }

  /** The least multiple above is unique. */
  lemma NextMultipleIs(x: nat, b: nat, y: nat)
    requires b > 0 && y % b == 0 && x <= y < x + b
    ensures NextMultiple(x, b) == y
  {
    var q := y / b;
    QuotientRemainder(y, b);
    DivUnique(x + b - 1, b, q, x + b - 1 - y);
  }

  /** From an aligned place, the next aligned one beyond the request is one rounded length further on. */
  lemma NextTry(start: nat, units: nat, unitAlign: nat)
    requires unitAlign > 0 && start % unitAlign == 0
    ensures NextMultiple(start + units, unitAlign) == start + NextMultiple(units, unitAlign)
    ensures (start + NextMultiple(units, unitAlign)) % unitAlign == 0
  {
    var d := NextMultiple(units, unitAlign);
    NextMultipleUp(units, unitAlign);
    SumAligned(start, d, unitAlign);
    NextMultipleIs(start + units, unitAlign, start + d);
  }

  lemma SumAligned(x: nat, y: nat, b: nat)
    requires b > 0 && x % b == 0 && y % b == 0
    ensures (x + y) % b == 0
  {
    QuotientRemainder(x, b);
    QuotientRemainder(y, b);
    assert x + y == (x / b + y / b) * b;
    MulMod(x / b + y / b, b);
  }

  /** `start` is the k-th place the scan looks at and no earlier one fits. */
  ghost predicate FirstFit(a: seq<bool>, firstFree: nat, capacity: nat, units: nat, unitAlign: nat, start: nat, k: nat)
    requires capacity <= |a| && unitAlign > 0
  {
    var first := NextMultiple(firstFree, unitAlign);
    && start == Try(first, units, unitAlign, k)
    && forall j: nat :: j < k ==> !Fits(a, capacity, Try(first, units, unitAlign, j), units)
  }

  /** The loop of `allocate`: the first of its tries that fits and is free. */
  method Scan(allocMap: array<Word>, firstFree: nat, capacity: nat, units: nat, unitAlign: nat)
    returns (found: Option<nat>)
    requires 0 < units && 0 < unitAlign && capacity <= WORD_BITS * allocMap.Length
    ensures found.Some? ==>
              && Fits(Flat(allocMap[..]), capacity, found.value, units)
              && found.value % unitAlign == 0 && firstFree <= found.value
              && exists k :: FirstFit(Flat(allocMap[..]), firstFree, capacity, units, unitAlign, found.value, k)
    ensures found.None? ==> NoTryFits(Flat(allocMap[..]), firstFree, capacity, units, unitAlign)
  {
    var start := NextMultiple(firstFree, unitAlign);
    ghost var first, k: nat := start, 0;
    NextMultipleUp(firstFree, unitAlign);
    while start + units <= capacity
      invariant FirstFit(Flat(allocMap[..]), firstFree, capacity, units, unitAlign, start, k)
      invariant start % unitAlign == 0 && firstFree <= start
      decreases capacity + units - start
    {
      var free := Test(allocMap, start, units);
      if free { return Some(start); }
      NextTry(start, units, unitAlign);
      NextMultipleUp(units, unitAlign);
      start := NextMultiple(start + units, unitAlign);
      k := k + 1;
    }
    found := None;
    forall j: nat ensures !Fits(Flat(allocMap[..]), capacity, Try(first, units, unitAlign, j), units) {
      if k <= j { TriesGrow(first, units, unitAlign, k, j); }
    }
  }

  predicate IsUnit(n: nat) { n in {1, 2, 4, 8, 16, 32, 64} }

  lemma SmallPow2(n: nat)
    requires IsPow2(n) && n <= CACHELINE_SIZE
    ensures IsUnit(n)
  {
  }

  lemma UnitDivides(a: nat, b: nat)
    requires IsUnit(a) && IsUnit(b) && a <= b
    ensures b % a == 0 && IsUnit(b / a) && (b / a) * a == b
  {
  }

  /** An aligned unit index gives an aligned byte offset. */
  lemma OffsetAligned(start: nat, unit: nat, align: nat, asked: nat)
    requires IsUnit(unit) && IsUnit(align) && IsUnit(asked) && unit <= align && asked <= align
    requires start % (align / unit) == 0
    ensures (start * unit) % asked == 0 && (start * unit) % unit == 0 && (start * unit) / unit == start
  {
    UnitDivides(unit, align);
    UnitDivides(asked, align);
    var m := start / (align / unit);
    assert start * unit == m * align by {
      assert start == m * (align / unit);
      assert (m * (align / unit)) * unit == m * ((align / unit) * unit);
    }
    MulMod(m, align);
    MultipleOf(start * unit, align, asked);
    MulMod(start, unit);
  }

  /** Testing one bit of a map through its word. */
  lemma TestBit(ws: seq<Word>, p: nat)
    requires p < WORD_BITS * |ws|
    ensures And(ws[p / WORD_BITS], Single(p % WORD_BITS)) != ZERO <==> Flat(ws)[p]
  {
    NonZero(And(ws[p / WORD_BITS], Single(p % WORD_BITS)));
    if Flat(ws)[p] { assert And(ws[p / WORD_BITS], Single(p % WORD_BITS))[p % WORD_BITS]; }
  }

  /** The hint after taking a run. */
  function Hint(firstFree: nat, start: nat, units: nat): nat {
    if start == firstFree then start + units else firstFree
  }

  class Bitmap {
    const unit: nat
    var allocMap: array<Word>
    var boundMap: array<Word>
    var size: nat
    var firstFree: nat
    ghost var live: set<Extent>

    ghost predicate Valid()
      reads this, allocMap, boundMap
    {
      && IsUnit(unit) && size > 0 && size % unit == 0
      && allocMap != boundMap && allocMap.Length == boundMap.Length == WordCount(size / unit + 1)
      && Represents(Flat(allocMap[..]), Flat(boundMap[..]), live, size / unit)
      && firstFree <= size / unit
      && forall p: nat :: p < firstFree ==> Flat(allocMap[..])[p]
    }

    /** Two zeroed maps of `words` words. */
    constructor (unit: nat, size: nat, words: nat)
      ensures this.unit == unit && this.size == size && live == {} && firstFree == 0
      ensures fresh(allocMap) && fresh(boundMap) && allocMap != boundMap
      ensures allocMap.Length == boundMap.Length == words
      ensures forall i :: 0 <= i < words ==> allocMap[i] == ZERO && boundMap[i] == ZERO
    {
      this.unit, this.size, firstFree, live := unit, size, 0, {};
      allocMap := new Word[words](_ => ZERO);
      boundMap := new Word[words](_ => ZERO);
    }

    /** Mark the extent and record it. */
    method Take(start: nat, units: nat)
      requires Valid() && 0 < units && start + units <= size / unit && FreeRange(Flat(allocMap[..]), start, units)
      modifies this`firstFree, this`live, allocMap, boundMap
      ensures Valid() && Extent(start, units) !in old(live) && live == old(live) + {Extent(start, units)}
      ensures firstFree == Hint(old(firstFree), start, units)
    {
      ghost var e := Extent(start, units);
      ghost var a, b := Flat(allocMap[..]), Flat(boundMap[..]);
      MarkAllocated(allocMap, boundMap, start, units);
      Allocated(a, b, live, size / unit, e, Flat(allocMap[..]), Flat(boundMap[..]));
      live := live + {e};
      if start == firstFree { firstFree := start + units; }
    }

    /** `allocate`: the first of its tries that fits. A failure means no aligned run is free at all whenever the
        request is no longer than its alignment. */
    method Allocate(layout: Layout) returns (r: Result<nat>)
      requires Valid() && IsPow2(layout.align)
      modifies this`firstFree, this`live, allocMap, boundMap
      ensures Valid()
      ensures layout.size == 0 || layout.size > MAX_ALLOC_SIZE ==> r == Err(InvalidSize(layout.size))
      ensures 0 < layout.size <= MAX_ALLOC_SIZE && layout.align > CACHELINE_SIZE ==> r == Err(ViolateConstraint)
      ensures 0 < layout.size <= MAX_ALLOC_SIZE && layout.align <= CACHELINE_SIZE ==>
                Placed(old(Flat(allocMap[..])), old(firstFree), layout, r)
      ensures r.Ok? ==>
                && r.value % layout.align == 0 && r.value % unit == 0
                && var e := Extent(r.value / unit, DivCeil(layout.size, unit));
                   && e !in old(live) && live == old(live) + {e}
                   && firstFree == Hint(old(firstFree), e.start, e.len)
      ensures r == Err(OutOfMemory) && DivCeil(layout.size, unit) <= UnitAlign(layout.align) ==>
                NoRun(Flat(allocMap[..]), size / unit, DivCeil(layout.size, unit), UnitAlign(layout.align))
      ensures r.Err? ==> live == old(live) && firstFree == old(firstFree)
                         && allocMap[..] == old(allocMap[..]) && boundMap[..] == old(boundMap[..])
    {
      if layout.size == 0 || layout.size > MAX_ALLOC_SIZE { return Err(InvalidSize(layout.size)); }
      var units := DivCeil(layout.size, unit);
      var align := Max(layout.align, unit);
      if align > CACHELINE_SIZE { return Err(ViolateConstraint); }
      SmallPow2(layout.align);
      UnitDivides(unit, align);
      var found := FindAndTake(units, align, layout.align);
      if found.None? && units <= align / unit {
        ScanComplete(Flat(allocMap[..]), firstFree, size / unit, units, align / unit);
      }
      return if found.None? then Err(OutOfMemory) else Ok(found.value);
    }

    /** Where a request of acceptable size and alignment goes on this map: to the first try that fits, or nowhere. */
    ghost predicate Placed(a: seq<bool>, firstFree: nat, layout: Layout, r: Result<nat>)
      requires IsUnit(unit) && layout.align <= CACHELINE_SIZE && size / unit <= |a|
      reads `size
    {
      var units, unitAlign := DivCeil(layout.size, unit), UnitAlign(layout.align);
      match r
      case Ok(offset) =>
        && Fits(a, size / unit, offset / unit, units)
        && exists k :: FirstFit(a, firstFree, size / unit, units, unitAlign, offset / unit, k)
      case Err(e) => e == OutOfMemory && NoTryFits(a, firstFree, size / unit, units, unitAlign)
    }

    /** The scan of `allocate`: take the first free run it meets and give its byte offset. */
    method FindAndTake(units: nat, align: nat, asked: nat) returns (r: Option<nat>)
      requires Valid() && 0 < units && IsUnit(align) && IsUnit(asked) && unit <= align && asked <= align
      requires align / unit > 0
      modifies this`firstFree, this`live, allocMap, boundMap
      ensures Valid()
      ensures r.Some? ==>
                && r.value % asked == 0 && r.value % unit == 0
                && Extent(r.value / unit, units) !in old(live) && live == old(live) + {Extent(r.value / unit, units)}
                && firstFree == Hint(old(firstFree), r.value / unit, units)
                && Fits(old(Flat(allocMap[..])), size / unit, r.value / unit, units)
                && exists k :: FirstFit(old(Flat(allocMap[..])), old(firstFree), size / unit, units, align / unit,
                                        r.value / unit, k)
      ensures r.None? ==> NoTryFits(Flat(allocMap[..]), firstFree, size / unit, units, align / unit)
      ensures r.None? ==> live == old(live) && firstFree == old(firstFree)
                          && allocMap[..] == old(allocMap[..]) && boundMap[..] == old(boundMap[..])
    {
      var found := Scan(allocMap, firstFree, size / unit, units, align / unit);
      if found.None? { return None; }
      var start := found.value;
      OffsetAligned(start, unit, align, asked);
      Take(start, units);
      return Some(start * unit);
    }

    /** The alignment of a request in units. */
    ghost function UnitAlign(align: nat): nat
      requires IsUnit(unit) && align <= CACHELINE_SIZE
      ensures UnitAlign(align) > 0
    {
      Max(align, unit) / unit
    }

    /** `deallocate`: succeeds exactly on the start of a live extent and frees exactly that extent. */
    method Deallocate(offset: nat) returns (r: Result<()>)
      requires Valid()
      modifies this`firstFree, this`live, allocMap
      ensures Valid()
      ensures r.Ok? <==> offset % unit == 0 && exists e :: e in old(live) && e.start == offset / unit
      ensures r.Ok? ==> exists e :: e in old(live) && e.start == offset / unit && live == old(live) - {e}
      ensures r.Ok? ==> firstFree == Min(old(firstFree), offset / unit)
      ensures r.Err? ==> r == Err(InvalidAllocationOffset(offset)) && live == old(live) && firstFree == old(firstFree)
                         && allocMap[..] == old(allocMap[..])
    {
      if offset >= size || offset % unit != 0 {
        return Err(InvalidAllocationOffset(offset));
      }
      var p := offset / unit;
      StartOf(Flat(allocMap[..]), Flat(boundMap[..]), live, size / unit, p);
      TestBit(allocMap[..], p);
      TestBit(boundMap[..], p);
      var word, bit := p / WORD_BITS, Single(p % WORD_BITS);
      if And(allocMap[word], bit) == ZERO || And(boundMap[word], bit) == ZERO {
        return Err(InvalidAllocationOffset(p * unit));
      }
      Release(p);
      return Ok(());
    }

    method Release(p: nat)
      requires Valid() && exists e :: e in live && e.start == p
      modifies this`firstFree, this`live, allocMap
      ensures Valid() && exists e :: e in old(live) && e.start == p && live == old(live) - {e}
      ensures firstFree == Min(old(firstFree), p)
    {
      ghost var e :| e in live && e.start == p;
      ghost var a, b := Flat(allocMap[..]), Flat(boundMap[..]);
      assert Delimited(b, e);
      var end := FindBoundary(boundMap, p, p + e.len);
      assert end == p + e.len;
      MarkFree(allocMap, p, end);
      Freed(a, b, live, size / unit, e, Flat(allocMap[..]));
      live := live - {e};
      firstFree := Min(firstFree, p);
    }
  }

  /** `try_new`, for a backing allocation that succeeds or not. The word count is cut to 16 bits, so the
      allocator works exactly when it fits. */
  method TryNew(unit: nat, size: nat, memory: bool) returns (r: Result<Bitmap>)
    requires size < TWO_32
    ensures r.Ok? <==> memory && IsPow2(unit) && unit <= CACHELINE_SIZE && size > 0 && size % unit == 0
    ensures !IsPow2(unit) || unit > CACHELINE_SIZE ==> r == Err(ViolateConstraint)
    ensures IsPow2(unit) && unit <= CACHELINE_SIZE && (size == 0 || size % unit != 0) ==> r == Err(InvalidSize(size))
    ensures r.Ok? ==> fresh(r.value) && fresh(r.value.allocMap) && fresh(r.value.boundMap)
    ensures r.Ok? ==> r.value.unit == unit && r.value.size == size && r.value.live == {} && r.value.firstFree == 0
    ensures r.Ok? ==> IsUnit(unit) && (r.value.Valid() <==> WordCount(size / unit + 1) < 0x1_0000)
    ensures r.Err? && r.error == OutOfMemory ==> !memory
  {
    if !IsPow2(unit) || unit > CACHELINE_SIZE { return Err(ViolateConstraint); }
    if size == 0 || size % unit != 0 { return Err(InvalidSize(size)); }
    SmallPow2(unit);
    var units := size / unit;
    var allocWords := CutWords(units);
    if !memory { return Err(OutOfMemory); }
    WordsFit(units);
    var map0 := new Bitmap(unit, size, allocWords);
    return Ok(map0);
  }

  /** The word count of a map in the code's widths: u32 units, u16 words. */
  function CutWords(units: nat): nat { WordCount((units + 1) % TWO_32) % 0x1_0000 }

  /** It is the right one exactly while it fits 16 bits. */
  lemma WordsFit(units: nat)
    requires units < TWO_32
    ensures CutWords(units) == WordCount(units + 1) <==> WordCount(units + 1) < 0x1_0000
  {
    if units + 1 == TWO_32 { assert WordCount(TWO_32) == 0x400_0000 && WordCount(0) == 0; }
  }

  /** A map of 4194240 units needs 65536 words, which are cut to none. */
  lemma WordCountCut()
    ensures WordCount(4194240 + 1) == 0x1_0000 && CutWords(4194240) == 0
  {
  }

  /** No aligned run of `units` free units. */
  ghost predicate NoRun(a: seq<bool>, capacity: nat, units: nat, unitAlign: nat)
    requires capacity <= |a| && unitAlign > 0
  {
    forall p: nat :: p % unitAlign == 0 ==> !Fits(a, capacity, p, units)
  }

  /** A request no longer than its alignment is refused only if no aligned run is free. */
  lemma ScanComplete(a: seq<bool>, firstFree: nat, capacity: nat, units: nat, unitAlign: nat)
    requires capacity <= |a| && 0 < units <= unitAlign && NoTryFits(a, firstFree, capacity, units, unitAlign)
    requires forall q: nat :: q < firstFree && q < capacity ==> a[q]
    ensures NoRun(a, capacity, units, unitAlign)
  {
    forall p: nat | p % unitAlign == 0 ensures !Fits(a, capacity, p, units) {
      if firstFree <= p {
        TriedAt(firstFree, units, unitAlign, p);
        var k := TryIndex(firstFree, unitAlign, p);
        assert !Fits(a, capacity, Try(NextMultiple(firstFree, unitAlign), units, unitAlign, k), units);
      } else {
        assert p + units <= capacity ==> a[p];
      }
    }
  }

  ghost function TryIndex(firstFree: nat, unitAlign: nat, p: nat): nat
    requires unitAlign > 0
  {
    var first := NextMultiple(firstFree, unitAlign);
    if first <= p then (p - first) / unitAlign else 0
  }

  /** Every aligned place from `firstFree` on is tried. */
  lemma TriedAt(firstFree: nat, units: nat, unitAlign: nat, p: nat)
    requires 0 < units <= unitAlign && firstFree <= p && p % unitAlign == 0
    ensures Try(NextMultiple(firstFree, unitAlign), units, unitAlign, TryIndex(firstFree, unitAlign, p)) == p
  {
    var first := NextMultiple(firstFree, unitAlign);
    NextMultipleUp(firstFree, unitAlign);
    AlignedAbove(first, p, unitAlign);
    CloseTry(first, units, unitAlign, TryIndex(firstFree, unitAlign, p));
  }

  /** An aligned unit at or above `firstFree` is a whole number of alignments above the first try. */
  lemma AlignedAbove(first: nat, p: nat, b: nat)
    requires b > 0 && first % b == 0 && p % b == 0 && p + b > first
    ensures p >= first && p == first + ((p - first) / b) * b
  {
    var m, k := first / b, p / b;
    assert first == m * b && p == k * b;
    if k < m { MulGap(k, m, b); }
    assert p - first == (k - m) * b;
    MulMod(k - m, b);
  }

  /** Up to the alignment, consecutive tries are one alignment apart. */
  lemma CloseTry(first: nat, units: nat, b: nat, k: nat)
    requires 0 < units <= b
    ensures Try(first, units, b, k) == first + k * b
  {
    MulMod(1, b);
    NextMultipleIs(units, b, b);
  }

  /** On every map whose units below `firstFree` are taken, a refusal means no aligned run is free. */
  ghost predicate FindsAll(units: nat, unitAlign: nat)
    requires unitAlign > 0
  {
    forall a: seq<bool>, firstFree: nat, capacity: nat :: Sound(a, firstFree, capacity, units, unitAlign)
  }

  ghost predicate Sound(a: seq<bool>, firstFree: nat, capacity: nat, units: nat, unitAlign: nat)
    requires unitAlign > 0
  {
    (&& capacity <= |a| && (forall q: nat :: q < firstFree && q < capacity ==> a[q])
     && NoTryFits(a, firstFree, capacity, units, unitAlign)) ==> NoRun(a, capacity, units, unitAlign)
  }

  /** The scan finds every aligned free run exactly if the request is no longer than its alignment. */
  lemma CompleteIff(units: nat, unitAlign: nat)
    requires units > 0 && unitAlign > 0
    ensures FindsAll(units, unitAlign) <==> units <= unitAlign
  {
    if units <= unitAlign {
      forall a: seq<bool>, firstFree: nat, capacity: nat ensures Sound(a, firstFree, capacity, units, unitAlign) {
        if capacity <= |a| && (forall q: nat :: q < firstFree && q < capacity ==> a[q])
           && NoTryFits(a, firstFree, capacity, units, unitAlign) {
          ScanComplete(a, firstFree, capacity, units, unitAlign);
        }
      }
    } else {
      var a := Taken(unitAlign + 1, 2 * unitAlign + units);
      MissesRun(a, units, unitAlign);
      assert !Sound(a, unitAlign, |a|, units, unitAlign);
    }
  }

  /** The first `n` of `size` units taken. */
  ghost function Taken(n: nat, size: nat): (a: seq<bool>)
    ensures |a| == size && forall p: nat :: p < size ==> (a[p] <==> p < n)
  {
    seq(size, i => i < n)
  }

  /** Beyond the first, the tries of a longer request are more than one alignment away. */
  lemma FarTries(units: nat, unitAlign: nat, j: nat)
    requires 0 < unitAlign < units
    ensures var p := Try(unitAlign, units, unitAlign, j); if j == 0 then p == unitAlign else p > 2 * unitAlign
  {
    NextMultipleUp(units, unitAlign);
    if j > 0 { MulGap(0, j, NextMultiple(units, unitAlign)); }
  }

  /** With the scan starting at a taken unit, a longer request passes over the run one alignment further on. */
  lemma MissesRun(a: seq<bool>, units: nat, unitAlign: nat)
    requires 0 < unitAlign < units && |a| >= 2 * unitAlign + units && a[unitAlign]
    requires FreeRange(a, 2 * unitAlign, units)
    ensures NoTryFits(a, unitAlign, 2 * unitAlign + units, units, unitAlign)
    ensures !NoRun(a, 2 * unitAlign + units, units, unitAlign)
  {
    var capacity := 2 * unitAlign + units;
    MulMod(1, unitAlign);
    MulMod(2, unitAlign);
    NextMultipleUp(unitAlign, unitAlign);
    forall j: nat ensures !Fits(a, capacity, Try(unitAlign, units, unitAlign, j), units) {
      FarTries(units, unitAlign, j);
    }
    assert Fits(a, capacity, 2 * unitAlign, units);
  }

  /** A request of `units` units with no alignment of its own, where the units from `firstFree` on are free. */
  method AllocateFirst(b: Bitmap, units: nat) returns (r: Result<nat>)
    requires b.Valid() && 0 < units && units * b.unit <= MAX_ALLOC_SIZE && b.firstFree + units <= b.size / b.unit
    requires forall e, p: nat :: e in b.live && b.firstFree <= p < b.firstFree + units ==> !Covers(e, p)
    modifies b`firstFree, b`live, b.allocMap, b.boundMap
    ensures b.Valid() && r.Ok? && b.firstFree == old(b.firstFree) + units
    ensures b.live == old(b.live) + {Extent(old(b.firstFree), units)}
  {
    ghost var a, first, capacity := Flat(b.allocMap[..]), b.firstFree, b.size / b.unit;
    WholeUnits(units, b.unit);
    assert IsPow2(1);
    NextMultipleUp(first, 1);
    assert Fits(a, capacity, first, units);
    FirstTryFits(a, first, capacity, units, 1);
    r := b.Allocate(Layout(units * b.unit, 1));
    DivUnique(b.unit, b.unit, 1, 0);
    assert b.UnitAlign(1) == 1;
  }

  /** When the first place fits, it is the one. */
  lemma FirstTryFits(a: seq<bool>, firstFree: nat, capacity: nat, units: nat, unitAlign: nat)
    requires capacity <= |a| && unitAlign > 0 && Fits(a, capacity, NextMultiple(firstFree, unitAlign), units)
    ensures !NoTryFits(a, firstFree, capacity, units, unitAlign)
    ensures forall start: nat, k: nat :: FirstFit(a, firstFree, capacity, units, unitAlign, start, k) ==>
                                           start == NextMultiple(firstFree, unitAlign)
  {
    var first := NextMultiple(firstFree, unitAlign);
    assert Try(first, units, unitAlign, 0) == first;
    forall start: nat, k: nat | FirstFit(a, firstFree, capacity, units, unitAlign, start, k) ensures start == first {
      assert k == 0;
    }
  }

  lemma WholeUnits(units: nat, unit: nat)
    requires 0 < units && IsUnit(unit)
    ensures DivCeil(units * unit, unit) == units && units * unit > 0
  {
    DivUnique(units * unit + unit - 1, unit, units, unit - 1);
    if units > 1 { MulGap(1, units, unit); }
  }

  lemma RoomFor(unit: nat, unitAlign: nat, units: nat, capacity: nat)
    requires IsUnit(unit) && IsUnit(unitAlign * unit) && unitAlign < units && units * unit <= MAX_ALLOC_SIZE
    requires capacity == 2 * unitAlign + units
    ensures (capacity * unit) % unit == 0 && (capacity * unit) / unit == capacity && capacity * unit < TWO_32
    ensures 0 < capacity * unit && 0 < unitAlign && (unitAlign * unit) / unit == unitAlign
    ensures WordCount(capacity + 1) < 0x1_0000
  {
    MulMod(capacity, unit);
    MulMod(unitAlign, unit);
    assert capacity * unit == 2 * (unitAlign * unit) + units * unit;
    assert capacity <= capacity * unit by { if unit > 1 { MulGap(1, unit, capacity); } }
  }

  lemma UnitIsPow2(n: nat)
    requires IsUnit(n)
    ensures IsPow2(n)
  {
    assert IsPow2(1) && IsPow2(2) && IsPow2(4) && IsPow2(8) && IsPow2(16) && IsPow2(32) && IsPow2(64);
  }

  /** The first `n` units and the next one are taken; `n` is the hint again after the first run is freed and retaken. */
  method TakeTwo(b: Bitmap, n: nat)
    requires b.Valid() && b.live == {} && b.firstFree == 0 && 0 < n && n + 1 <= b.size / b.unit
    requires n * b.unit <= MAX_ALLOC_SIZE
    modifies b`firstFree, b`live, b.allocMap, b.boundMap
    ensures b.Valid() && b.firstFree == n && b.live == {Extent(0, n), Extent(n, 1)}
  {
    var r := AllocateFirst(b, n);
    r := AllocateFirst(b, 1);
    assert b.live == {Extent(0, n), Extent(n, 1)};
    FreeAtZero(b, n);
    r := AllocateFirst(b, n);
  }

  method FreeAtZero(b: Bitmap, n: nat)
    requires b.Valid() && b.live == {Extent(0, n), Extent(n, 1)} && n > 0
    modifies b`firstFree, b`live, b.allocMap
    ensures b.Valid() && b.firstFree == 0 && b.live == {Extent(n, 1)}
  {
    assert Extent(0, n) in b.live;
    var d := b.Deallocate(0);
  }

  /** For every request longer than its alignment there is a bitmap, made by allocating and freeing, that refuses it
      although an aligned run is free. */
  method RefusedBesideRun(unit: nat, unitAlign: nat, units: nat) returns (b: Bitmap, r: Result<nat>)
    requires IsUnit(unit) && IsUnit(unitAlign * unit) && unitAlign < units && units * unit <= MAX_ALLOC_SIZE
    ensures b.Valid() && r == Err(OutOfMemory) && b.unit == unit
    ensures unitAlign > 0 && !NoRun(Flat(b.allocMap[..]), b.size / unit, units, unitAlign)
  {
    var capacity := 2 * unitAlign + units;
    RoomFor(unit, unitAlign, units, capacity);
    UnitIsPow2(unit);
    var made := TryNew(unit, capacity * unit, true);
    b := made.value;
    TakeTwo(b, unitAlign);
    r := Refused(b, unitAlign, units);
  }

  lemma MissesLive(a: seq<bool>, b: seq<bool>, live: set<Extent>, units: nat, unitAlign: nat)
    requires Represents(a, b, live, 2 * unitAlign + units) && live == {Extent(0, unitAlign), Extent(unitAlign, 1)}
    requires 0 < unitAlign < units
    ensures NoTryFits(a, unitAlign, 2 * unitAlign + units, units, unitAlign)
    ensures !NoRun(a, 2 * unitAlign + units, units, unitAlign)
  {
    assert Extent(unitAlign, 1) in live && Covers(Extent(unitAlign, 1), unitAlign);
    MissesRun(a, units, unitAlign);
  }

  method Refused(b: Bitmap, unitAlign: nat, units: nat) returns (r: Result<nat>)
    requires b.Valid() && b.live == {Extent(0, unitAlign), Extent(unitAlign, 1)} && b.firstFree == unitAlign
    requires 0 < unitAlign < units && b.size / b.unit == 2 * unitAlign + units
    requires IsUnit(unitAlign * b.unit) && (unitAlign * b.unit) / b.unit == unitAlign
    requires units * b.unit <= MAX_ALLOC_SIZE
    modifies b`firstFree, b`live, b.allocMap, b.boundMap
    ensures b.Valid() && r == Err(OutOfMemory) && !NoRun(Flat(b.allocMap[..]), b.size / b.unit, units, unitAlign)
  {
    MissesLive(Flat(b.allocMap[..]), Flat(b.boundMap[..]), b.live, units, unitAlign);
    UnitIsPow2(unitAlign * b.unit);
    WholeUnits(units, b.unit);
    AtLeastUnit(unitAlign, b.unit);
    r := b.Allocate(Layout(units * b.unit, unitAlign * b.unit));
  }

  lemma AtLeastUnit(n: nat, unit: nat)
    requires n > 0
    ensures Max(n * unit, unit) == n * unit
  {
    if n > 1 { MulGap(1, n, unit); }
  }
}
