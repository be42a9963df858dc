/** How a cache chooses object alignment, object size, frame order and object count. */
module SlabSizes {
  import opened Base
  import opened Arith

  const PAGE_SIZE: nat := 4096
  const MAX_FRAME_ORDER: nat := 3
  const MIN_OBJECT_SIZE: nat := 8
  const MAX_OBJECT_SIZE: nat := 4096
  const MIN_ALIGN: nat := 16
  const CACHELINE_SIZE: nat := 64

  datatype OrderResult = Order(order: nat) | TooMuchWaste(waste: int, size: int) | TooLargeSize(size: int)

  function Clamp(x: nat, lo: nat, hi: nat): nat { if x < lo then lo else if x > hi then hi else x }

  function RoundUp(x: nat, a: nat): (r: nat)
    requires a > 0
    ensures r % a == 0 && x <= r < x + a
  {
    var r := if x % a == 0 then x else (x / a + 1) * a;
    MulMod(x / a + 1, a);
    assert x == x / a * a + x % a;
    r
  }

  function Shifted(order: nat): nat { if order == 0 then PAGE_SIZE else 2 * Shifted(order - 1) }

  /** Slabs of this order waste less than one part in `fraction` on objects of this size. */
  predicate Tight(size: nat, order: nat, fraction: nat)
    requires size > 0 && fraction > 0
  {
    Shifted(order) % size < Shifted(order) / fraction
  }

  predicate Rejected(size: nat, fraction: nat)
    requires size > 0 && fraction > 0
  {
    !Tight(size, 0, fraction) && !Tight(size, 1, fraction) && !Tight(size, 2, fraction)
  }

  /** `order` is the smallest order tight for `fraction`. */
  predicate Smallest(size: nat, order: nat, fraction: nat)
    requires size > 0 && fraction > 0
  {
    Tight(size, order, fraction) && forall o: nat :: o < order ==> !Tight(size, o, fraction)
  }

  /** The order the search is meant to find: the tightest fraction any allowed order meets, then the smallest order. */
  predicate Chosen(size: nat, order: nat)
    requires size > 0
  {
    || Smallest(size, order, 16)
    || (Rejected(size, 16) && Smallest(size, order, 8))
    || (Rejected(size, 16) && Rejected(size, 8) && Smallest(size, order, 4))
    || (Rejected(size, 16) && Rejected(size, 8) && Rejected(size, 4) && Smallest(size, order, 2))
  }

  /** One page always wastes less than half of itself on objects up to a page. */
  lemma HalfAlwaysFits(size: nat)
    requires 0 < size <= PAGE_SIZE
    ensures Tight(size, 0, 2)
  {
    if size > PAGE_SIZE / 2 { DivUnique(PAGE_SIZE, size, 1, PAGE_SIZE - size); }
  }

  function Usable(size: nat): (s: nat)
    requires size > 0
    ensures MIN_OBJECT_SIZE <= s <= MAX_OBJECT_SIZE && s % 8 == 0
    ensures size % 8 == 0 && size <= MAX_OBJECT_SIZE ==> s == size
  {
    Clamp(RoundUp(size, 8), MIN_OBJECT_SIZE, MAX_OBJECT_SIZE)
  }

  const FRACTIONS: seq<nat> := [16, 8, 4, 2]

  /** calculate_order: the intended order, or an error when no allowed order wastes less than half. */
  method CalculateOrder(size: nat) returns (r: OrderResult)
    requires 0 < size <= 0xFFF8
    ensures r.Order? ==> r.order < MAX_FRAME_ORDER && Chosen(Usable(size), r.order)
    ensures !r.Order? ==> r.TooMuchWaste? && Rejected(Usable(size), 2)
  {
    var s := Usable(size);
    var order := MAX_FRAME_ORDER;
    var waste := Shifted(order) % s;
    var i := 0;
    while i < 4
      invariant 0 <= i <= 4 && order == MAX_FRAME_ORDER
      invariant i >= 1 ==> Rejected(s, 16)
      invariant i >= 2 ==> Rejected(s, 8)
      invariant i >= 3 ==> Rejected(s, 4)
      invariant i >= 4 ==> Rejected(s, 2)
    {
      var fraction := FRACTIONS[i];
      i := i + 1;
      var o := 0;
      while o < MAX_FRAME_ORDER
        invariant 0 <= o <= MAX_FRAME_ORDER && order == MAX_FRAME_ORDER
        invariant forall p: nat :: p < o ==> !Tight(s, p, fraction)
      {
        if Shifted(o) % s < Shifted(o) / fraction {
          order := o;
          break;
        }
        o := o + 1;
      }
      if order < MAX_FRAME_ORDER {
        return Order(order);
      }
      assert Rejected(s, fraction);
    }
    r := if s <= MAX_OBJECT_SIZE then TooMuchWaste(waste, s) else TooLargeSize(s);
  }

  /** No size is ever rejected: some allowed order wastes less than half, so neither error is returned. */
  lemma OrderExists(size: nat)
    requires size > 0
    ensures !Rejected(Usable(size), 2)
  {
    HalfAlwaysFits(Usable(size));
  }

  function NextPow2From(p: nat, n: nat): (r: nat)
    requires p > 0
    ensures r >= n && r >= p && (r == p || r < 2 * n)
    decreases if p < n then n - p else 0
  {
    if p >= n then p else NextPow2From(2 * p, n)
  }

  /** next_power_of_two of a usize: the power above 2^63 does not fit and becomes 0. */
  function NextPow2(n: nat): nat { if n > 0x8000_0000_0000_0000 then 0 else NextPow2From(1, n) }

  function LowBit(n: nat): (r: nat)
    requires n > 0
    ensures r > 0
  {
    if n % 2 == 1 then 1 else 2 * LowBit(n / 2)
  }

  /** calculate_alignment. */
  function Alignment(size: nat, align: nat): (r: nat)
    requires size > 0 && align > 0
  {
    Clamp(Max(NextPow2(align - 1), LowBit(size)), MIN_ALIGN, CACHELINE_SIZE)
  }

  lemma {:induction false} LowBitIsPow2(n: nat)
    requires n > 0
    ensures IsPow2(LowBit(n))
  {
    if n % 2 == 0 { LowBitIsPow2(n / 2); }
  }

  lemma DoubleMod(m: nat, q: nat)
    requires q > 0
    ensures (2 * m) % (2 * q) == 0 <==> m % q == 0
  {
    var d, r := m / q, m % q;
    assert m == d * q + r;
    assert d * (2 * q) == 2 * (d * q);
    DivUnique(2 * m, 2 * q, d, 2 * r);
  }

  /** LowBit(n) is the largest power of two that divides n. */
  lemma {:induction false} LowBitAtLeast(n: nat, p: nat)
    requires n > 0 && IsPow2(p)
    ensures LowBit(n) >= p <==> n % p == 0
    decreases p
  {
    if p > 1 {
      var q := p / 2;
      if n % 2 == 0 {
        LowBitAtLeast(n / 2, q);
        DoubleMod(n / 2, q);
      } else if n % p == 0 {
        MultipleOf(n, p, 2);
      }
    }
  }

  lemma {:induction false} NextIsPow2(p: nat, n: nat)
    requires IsPow2(p) && p > 0
    ensures IsPow2(NextPow2From(p, n))
    decreases if p < n then n - p else 0
  {
    if p < n { NextIsPow2(2 * p, n); }
  }

  lemma {:induction false} Pow2Values(n: nat)
    requires IsPow2(n)
    ensures n == 1 || n == 2 || n == 4 || n == 8 || n == 16 || n == 32 || n % 64 == 0
  {
    if n > 1 {
      var h := n / 2;
      Pow2Values(h);
      if h % 64 == 0 { assert n == 64 * (2 * (h / 64)); }
    }
  }

  /** Requests that `calculate_alignment` does not meet: one above 16 or 32, or beyond the last power of two of a
      usize, unless the size makes up for it. */
  predicate Missed(size: nat, align: nat)
    requires size > 0
  {
    || (align == 17 && size % 32 != 0) || (align == 33 && size % 64 != 0)
    || (align > 0x8000_0000_0000_0001 && size % 64 != 0)
  }

  /** The result is one of 16, 32 and 64, and meets the requested alignment, up to a cache line, exactly otherwise. */
  lemma AlignmentMet(size: nat, align: nat)
    requires size > 0 && align > 0
    ensures Alignment(size, align) in {16, 32, 64}
    ensures Alignment(size, align) >= Min(align, CACHELINE_SIZE) <==> !Missed(size, align)
  {
    LowBitIsPow2(size);
    Pow2Values(LowBit(size));
    assert IsPow2(2) && IsPow2(4) && IsPow2(8) && IsPow2(16) && IsPow2(32) && IsPow2(64);
    LowBitAtLeast(size, 32);
    LowBitAtLeast(size, 64);
    if align <= 0x8000_0000_0000_0001 {
      NextIsPow2(1, align - 1);
      Pow2Values(NextPow2From(1, align - 1));
      assert align == 17 || align == 33 || NextPow2From(1, align - 1) >= Min(align, 64) || align <= 16;
    }
  }

  /** The bounds on an alignment: no power of two between it and the request less one, and the size is no multiple of
      more than it; a cache line always does. */
  predicate Suffices(size: nat, align: nat, a: nat)
    requires size > 0 && align > 0 && a > 0
  {
    a == CACHELINE_SIZE || ((align - 1 <= a || align > 0x8000_0000_0000_0001) && size % (2 * a) != 0)
  }

  /** The alignment is the least of 16, 32 and 64 within its bounds. */
  lemma AlignmentLeast(size: nat, align: nat)
    requires size > 0 && align > 0
    ensures var a := Alignment(size, align);
            a in {16, 32, 64} && Suffices(size, align, a)
            && forall b :: b in {16, 32, 64} && b < a ==> !Suffices(size, align, b)
  {
    AskedWithin(align, 16);
    AskedWithin(align, 32);
    SizeWithin(size, 16);
    SizeWithin(size, 32);
    AlignmentMet(size, align);
  }

  /** The power of two for a request is within 16 or 32 exactly if the request less one is. */
  lemma AskedWithin(align: nat, a: nat)
    requires align > 0 && (a == 16 || a == 32)
    ensures NextPow2(align - 1) <= a <==> align - 1 <= a || align > 0x8000_0000_0000_0001
  {
    if align <= 0x8000_0000_0000_0001 {
      NextIsPow2(1, align - 1);
      Pow2Values(NextPow2From(1, align - 1));
    }
  }

  /** The power of two in a size is within 16 or 32 exactly if the size is no multiple of the next one. */
  lemma SizeWithin(size: nat, a: nat)
    requires size > 0 && (a == 16 || a == 32)
    ensures LowBit(size) <= a <==> size % (2 * a) != 0
  {
    LowBitIsPow2(size);
    Pow2Values(LowBit(size));
    assert IsPow2(2) && IsPow2(4) && IsPow2(8) && IsPow2(16) && IsPow2(32) && IsPow2(64);
    LowBitAtLeast(size, 2 * a);
  }

  /** A request for 17 gets 16. */
  lemma SeventeenGetsSixteen()
    ensures Alignment(1, 17) == 16
  {
    assert NextPow2From(8, 16) == 16;
    assert NextPow2From(2, 16) == 16;
  }

  /** Objects of 4112 bytes get slabs of one page, which holds none. */
  lemma NoneInAPage()
    ensures Usable(4112) == 4096 && Chosen(4096, 0) && Shifted(0) / 4112 == 0
  {
    assert Tight(4096, 0, 16);
  }

  /** Rounding up to 16, 32 or 64 keeps a size on its side of the page size. */
  lemma RoundedBounds(size: nat, a: nat)
    requires 0 < size <= 0xFFFF && (a == 16 || a == 32 || a == 64)
    ensures var n := RoundUp(size, a);
            && (size <= MAX_OBJECT_SIZE ==> n <= MAX_OBJECT_SIZE && Truncate16(n) == n)
            && (size > MAX_OBJECT_SIZE ==> Truncate16(n) == 0 || MAX_OBJECT_SIZE < Truncate16(n))
            && Truncate16(n) % 8 == 0 && Truncate16(n) <= 0xFFF0
  {
    var n := RoundUp(size, a);
    var q, b := n / a, a / 16;
    QuotientRemainder(n, a);
    assert n == 16 * (q * b) by { assert q * (16 * b) == 16 * (q * b); }
    if size <= MAX_OBJECT_SIZE { NotAcross(size, a, q, MAX_OBJECT_SIZE / a); }
    NotAcross(size, a, q, 0x10000 / a);
    TruncatedBounds(size, n, q * b);
  }

  lemma TruncatedBounds(size: nat, n: nat, m: nat)
    requires n == 16 * m && 0 < size <= n <= 0x10000
    ensures size > MAX_OBJECT_SIZE ==> Truncate16(n) == 0 || MAX_OBJECT_SIZE < Truncate16(n)
    ensures n <= MAX_OBJECT_SIZE ==> Truncate16(n) == n
    ensures Truncate16(n) % 8 == 0 && Truncate16(n) <= 0xFFF0
  {
    if n < 0x10000 {
      assert Truncate16(n) == n;
      MulMod(2 * m, 8);
    }
  }

  /** Rounding up never passes a multiple of the alignment that was not below the size. */
  lemma NotAcross(size: nat, a: nat, q: nat, p: nat)
    requires q * a < size + a && size <= p * a
    ensures q * a <= p * a
  {
    if p < q { MulGap(p, q, a); }
  }

  lemma QuotientBounds(x: nat, a: nat)
    requires 0 < a <= x && x % a < x / 2
    ensures 0 < x / a <= x && x / 2 < x / a * a <= x
  {
    var q := x / a;
    assert x == q * a + x % a;
    assert q * a >= q by { if q > 0 { MulGap(0, a, q); } }
  }

  /** Objects of an accepted size fill more than half of a slab of the chosen order. */
  lemma FillsHalf(size: nat, order: nat)
    requires 0 < size <= MAX_OBJECT_SIZE && order < MAX_FRAME_ORDER && Tight(size, order, 2)
    ensures var slab := Shifted(order); var num := slab / size;
            0 < num < 0x10000 && slab / 2 < num * size <= slab
  {
    QuotientBounds(Shifted(order), size);
  }

  function Truncate16(x: nat): (r: nat)
    ensures x < 0x10000 ==> r == x
  {
    x % 0x10000
  }

  datatype Sizes = Sizes(objectSize: nat, objectNum: nat, order: nat, align: nat)

  lemma ChosenFills(n: nat, order: nat)
    requires 0 < n && n % 8 == 0 && order < MAX_FRAME_ORDER && Chosen(Usable(n), order)
    ensures HalfFull(n, Truncate16(Shifted(order) / n), order) <==> n <= MAX_OBJECT_SIZE
    ensures Truncate16(Shifted(order) / n) > 0 <==> n <= MAX_OBJECT_SIZE
    ensures n <= MAX_OBJECT_SIZE ==> Truncate16(Shifted(order) / n) == Shifted(order) / n
  {
    if n <= MAX_OBJECT_SIZE {
      FillsHalf(n, order);
    } else {
      assert Usable(n) == MAX_OBJECT_SIZE && Tight(MAX_OBJECT_SIZE, 0, 16);
      assert order == 0;
      DivUnique(PAGE_SIZE, n, 0, PAGE_SIZE);
    }
  }

  /** The order and object count of slabs for objects of `n` bytes. */
  method OrderAndCount(n: nat) returns (order: nat, num: nat)
    requires 0 < n <= 0xFFF0 && n % 8 == 0
    ensures num > 0 <==> n <= MAX_OBJECT_SIZE
    ensures num > 0 ==> HalfFull(n, num, order) && Chosen(n, order) && num == Shifted(order) / n
  {
    var r := CalculateOrder(n);
    OrderExists(n);
    order := r.order;
    ChosenFills(n, order);
    num := Truncate16(Shifted(order) / n);
  }

  /** calculate_sizes; None is a failed `expect`. */
  method CalculateSizes(size: nat, align: nat) returns (r: Option<Sizes>)
    requires 0 < size <= 0xFFFF && align > 0
    ensures r.Some? <==> size <= MAX_OBJECT_SIZE
    ensures r.Some? ==> Fitting(size, r.value) && r.value.align == Alignment(size, align)
  {
    var a := Alignment(size, align);
    AlignmentMet(size, align);
    RoundedBounds(size, a);
    var objectSize := Truncate16(RoundUp(size, a));
    if objectSize == 0 {
      return None;
    }
    var order, num := OrderAndCount(objectSize);
    return if num == 0 then None else Some(Sizes(objectSize, num, order, a));
  }

  /** The objects fit a slab and leave less than half of it over. */
  predicate HalfFull(n: nat, num: nat, order: nat) {
    n > 0 && num > 0 && Shifted(order) / 2 < num * n <= Shifted(order)
  }

  /** Every object is large and aligned enough for the request and no larger than that takes, the order is the one the
      search is meant to find, and a slab holds as many objects as fit. */
  predicate Fitting(size: nat, s: Sizes) {
    && s.align > 0 && size <= s.objectSize < size + s.align && s.objectSize % s.align == 0
    && HalfFull(s.objectSize, s.objectNum, s.order)
    && Chosen(s.objectSize, s.order) && s.objectNum == Shifted(s.order) / s.objectSize
  }
}
