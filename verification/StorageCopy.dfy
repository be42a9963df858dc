/** Gathering a merged write and scattering a merged read, byte by byte. */
module StorageCopy {
  import opened Arith
  import opened Base
  import opened StorageMerge

  /** The device as the content of each byte. */
  type Device = nat -> Byte

  ghost function Store(d: Device, at: nat, data: seq<Byte>): Device {
    (x: nat) => if at <= x < at + |data| then data[x - at] else d(x)
  }

  /** `size` bytes read from `at`. */
  ghost function Load(d: Device, at: nat, size: nat): seq<Byte> { seq(size, (i: nat) => d(at + i)) }

  /** The members written one by one, in arrival order. */
  ghost function StoreAll(d: Device, bs: nat, ms: seq<Request>): Device {
    if ms == [] then d
    else Store(StoreAll(d, bs, ms[..|ms| - 1]), ms[|ms| - 1].position * bs, ms[|ms| - 1].data)
  }

  /** Where block `position` begins in a buffer that begins at block `start`. */
  function Offset(position: nat, start: nat, bs: nat): nat
    requires start <= position
  {
    var gap: nat := position - start;
    gap * bs
  }

  /** The member's blocks, with their bytes, lie in a buffer of `size` bytes that begins at block `start`. */
  ghost predicate Lies(m: Request, start: nat, bs: nat, size: nat) {
    start <= m.position && Offset(m.position, start, bs) + m.count * bs <= size
  }

  ghost predicate Filled(m: Request, bs: nat) { |m.data| == m.count * bs }

  /** storage_solve_write_request on values: each member's data laid over the buffer in turn. */
  ghost function Gather(buf: seq<Byte>, start: nat, bs: nat, ms: seq<Request>): (r: seq<Byte>)
    requires forall m :: m in ms ==> Lies(m, start, bs, |buf|) && Filled(m, bs)
    ensures |r| == |buf|
  {
    if ms == [] then buf
    else
      var m := ms[|ms| - 1];
      assert m in ms && Lies(m, start, bs, |buf|) && Filled(m, bs);
      Overlay(Gather(buf, start, bs, ms[..|ms| - 1]), Offset(m.position, start, bs), m.data)
  }

  ghost function Overlay(buf: seq<Byte>, at: nat, data: seq<Byte>): (r: seq<Byte>)
    requires at + |data| <= |buf|
    ensures |r| == |buf|
    ensures forall i :: 0 <= i < |buf| ==> r[i] == if at <= i < at + |data| then data[i - at] else buf[i]
  {
    buf[..at] + data + buf[at + |data|..]
  }

  /** The bytes of a range of blocks. */
  lemma InBytes(position: nat, count: nat, bs: nat, x: nat)
    requires bs > 0
    ensures InRange(position, count, x / bs) <==> position * bs <= x < position * bs + count * bs
  {
    var q := x / bs;
    QuotientRemainder(x, bs);
    assert (position + count) * bs == position * bs + count * bs;
    if position < q { MulGap(position, q, bs); }
    if q < position { MulGap(q, position, bs); }
    if q < position + count { MulGap(q, position + count, bs); }
    if position + count < q { MulGap(position + count, q, bs); }
  }

  lemma Distance(position: nat, start: nat, bs: nat)
    requires start <= position
    ensures Offset(position, start, bs) == position * bs - start * bs
  {
  }

  /** Byte by byte, the gathered buffer holds what writing the members one by one would leave. */
  lemma {:induction false} GatherByte(d: Device, buf: seq<Byte>, start: nat, bs: nat, ms: seq<Request>, x: nat)
    requires bs > 0 && forall m :: m in ms ==> Lies(m, start, bs, |buf|) && Filled(m, bs)
    requires start * bs <= x < start * bs + |buf|
    ensures SomeCovers(ms, x / bs) ==> Gather(buf, start, bs, ms)[x - start * bs] == StoreAll(d, bs, ms)(x)
  {
    if ms != [] {
      var init, m := ms[..|ms| - 1], ms[|ms| - 1];
      assert ms == init + [m] && m in ms;
      assert forall y :: y in init ==> y in ms;
      CoversAppend(init, m, x / bs);
      InBytes(m.position, m.count, bs, x);
      Distance(m.position, start, bs);
      GatherByte(d, buf, start, bs, init, x);
    }
  }

  /** Writing the members touches only the covered blocks. */
  lemma {:induction false} StoreAllFrame(d: Device, bs: nat, ms: seq<Request>, x: nat)
    requires bs > 0 && forall m :: m in ms ==> Filled(m, bs)
    ensures !SomeCovers(ms, x / bs) ==> StoreAll(d, bs, ms)(x) == d(x)
  {
    if ms != [] {
      var init, m := ms[..|ms| - 1], ms[|ms| - 1];
      assert ms == init + [m] && m in ms;
      assert forall y :: y in init ==> y in ms;
      CoversAppend(init, m, x / bs);
      InBytes(m.position, m.count, bs, x);
      StoreAllFrame(d, bs, init, x);
    }
  }

  /** A member of a range lies in a buffer for the whole of it. */
  lemma MemberLies(e: Element, m: Request, bs: nat)
    requires Coherent(e) && m in e.Members()
    ensures Lies(m, e.Position(), bs, e.Count() * bs)
  {
    var gap := e.End() - (m.position + m.count);
    assert e.Count() == (m.position - e.Position()) + m.count + gap;
    assert e.Count() * bs == Offset(m.position, e.Position(), bs) + m.count * bs + gap * bs;
  }

  /** Merging preserves meaning for writes: storing the gathered buffer, whatever it held before, leaves every
      byte of the device as if the members had been written one by one in arrival order. */
  lemma MergedWrite(d: Device, e: Element, bs: nat, garbage: seq<Byte>, x: nat)
    requires bs > 0 && Coherent(e) && |garbage| == e.Count() * bs && forall m :: m in e.Members() ==> Filled(m, bs)
    ensures forall m :: m in e.Members() ==> Lies(m, e.Position(), bs, |garbage|)
    ensures Store(d, e.Position() * bs, Gather(garbage, e.Position(), bs, e.Members()))(x) ==
            StoreAll(d, bs, e.Members())(x)
  {
    forall m | m in e.Members() ensures Lies(m, e.Position(), bs, |garbage|) { MemberLies(e, m, bs); }
    StoreAllFrame(d, bs, e.Members(), x);
    InBytes(e.Position(), e.Count(), bs, x);
    if InRange(e.Position(), e.Count(), x / bs) { GatherByte(d, garbage, e.Position(), bs, e.Members(), x); }
  }

  /** The part of a buffer from block `start` that belongs to a member. */
  ghost function Slice(buf: seq<Byte>, start: nat, bs: nat, m: Request): seq<Byte>
    requires Lies(m, start, bs, |buf|)
  {
    buf[Offset(m.position, start, bs)..Offset(m.position, start, bs) + m.count * bs]
  }

  /** Merging preserves meaning for reads: each member's slice of the merged buffer is its own bytes. */
  lemma MergedRead(d: Device, e: Element, bs: nat, m: Request)
    requires Coherent(e) && m in e.Members()
    ensures Lies(m, e.Position(), bs, e.Count() * bs)
    ensures Slice(Load(d, e.Position() * bs, e.Count() * bs), e.Position(), bs, m) ==
            Load(d, m.position * bs, m.count * bs)
  {
    MemberLies(e, m, bs);
    Distance(m.position, e.Position(), bs);
    PartOfLoad(d, e.Position() * bs, e.Count() * bs, Offset(m.position, e.Position(), bs), m.count * bs);
  }

  lemma PartOfLoad(d: Device, base: nat, total: nat, at: nat, size: nat)
    requires at + size <= total
    ensures Load(d, base, total)[at..at + size] == Load(d, base + at, size)
  {
    var part := Load(d, base, total)[at..at + size];
    forall i | 0 <= i < size ensures part[i] == Load(d, base + at, size)[i] {
      assert part[i] == d(base + (at + i));
    }
  }

  // ---------------------------------------------------------------- the buffer and the offsets, in 32 bits

  /** storage_submit_request: the size of the buffer allocated for a merged range. */
  function BufferSize(e: Element, bs: nat): nat { (e.Count() * bs) % TWO_32 }

  /** The buffer holds every member exactly if the bytes of the range can be counted in 32 bits. */
  lemma BufferFits(e: Element, bs: nat)
    requires Coherent(e)
    ensures (forall m :: m in e.Members() ==> Lies(m, e.Position(), bs, BufferSize(e, bs))) <==> e.Count() * bs < TWO_32
  {
    if e.Count() * bs < TWO_32 {
      forall m | m in e.Members() ensures Lies(m, e.Position(), bs, BufferSize(e, bs)) { MemberLies(e, m, bs); }
    } else {
      var m := LastMember(e);
      assert Offset(m.position, e.Position(), bs) + m.count * bs == e.Count() * bs by {
        assert e.Count() == (m.position - e.Position()) + m.count;
      }
    }
  }

  /** The byte offset of a member, computed in 32 bits from a start cut to 32 bits. */
  function Offset32(position: nat, start: nat, bs: nat): nat
    requires start <= position
  {
    ((position - start % TWO_32) * bs) % TWO_32
  }

  /** Cutting the start does no harm: the offset is right exactly while it is below 4 GiB. */
  lemma OffsetExact(position: nat, start: nat, bs: nat)
    requires start <= position
    ensures Offset32(position, start, bs) == Offset(position, start, bs) <==> Offset(position, start, bs) < TWO_32
  {
    var high, delta := start / TWO_32, position - start;
    var k := high * bs;
    assert (position - start % TWO_32) * bs == delta * bs + k * TWO_32 by {
      assert position - start % TWO_32 == delta + high * TWO_32;
      assert (delta + high * TWO_32) * bs == delta * bs + (high * bs) * TWO_32;
    }
    var x := delta * bs;
    DivUnique(x + k * TWO_32, TWO_32, x / TWO_32 + k, x % TWO_32);
  }

  /** One block more than 4 GiB of 4096-byte blocks: the merge is within the limit, its buffer holds one block, and the
      last block goes to the place of the first. */
  lemma WideBufferWraps(a: Request, b: Request)
    requires a == Request(0, true, 0, 0x10_0000, []) && b == Request(1, true, 0x10_0000, 1, [])
    ensures var e := NewMerge(b, a);
            && Mergeable(b, Single(a), 0x10_0001) && Coherent(e) && e.Count() == 0x10_0001
            && BufferSize(e, 4096) == 4096 && Offset32(b.position, e.Position(), 4096) == 0
  {
    FirstMergeUnion(b, a, 0x10_0001);
  }

  /** In a buffer whose size was counted in 32 bits, the offset and the size of every copy are right. */
  lemma CopyExact(m: Request, start: nat, bs: nat, size: nat)
    requires Lies(m, start, bs, size) && size < TWO_32
    ensures Offset32(m.position, start, bs) == Offset(m.position, start, bs)
    ensures (m.count * bs) % TWO_32 == m.count * bs
  {
    OffsetExact(m.position, start, bs);
  }

  /** storage_solve_write_request: memcpy each member into the merged buffer, in place. */
  method SolveWrite(buf: array<Byte>, start: nat, bs: nat, ms: seq<Request>)
    requires buf.Length < TWO_32 && forall m :: m in ms ==> Lies(m, start, bs, buf.Length) && Filled(m, bs)
    modifies buf
    ensures buf[..] == Gather(old(buf[..]), start, bs, ms)
  {
    ghost var before := buf[..];
    var i := 0;
    while i < |ms|
      invariant 0 <= i <= |ms|
      invariant forall m :: m in ms[..i] ==> m in ms
      invariant buf[..] == Gather(before, start, bs, ms[..i])
    {
      var m := ms[i];
      assert ms[..i + 1][..i] == ms[..i] && m in ms;
      CopyExact(m, start, bs, buf.Length);
      CopyInto(buf, Offset32(m.position, start, bs), m.data, (m.count * bs) % TWO_32);
      i := i + 1;
    }
    assert ms[..i] == ms;
  }

  method CopyInto(buf: array<Byte>, at: nat, data: seq<Byte>, size: nat)
    requires at + size <= buf.Length && size == |data|
    modifies buf
    ensures buf[..] == Overlay(old(buf[..]), at, data)
  {
    var j := 0;
    while j < size
      invariant 0 <= j <= size
      invariant forall i :: 0 <= i < buf.Length ==> buf[i] == if at <= i < at + j then data[i - at] else old(buf[i])
    {
      buf[at + j] := data[j];
      j := j + 1;
    }
  }

  /** No member from `i` up to `n` uses the buffer of member `i` again. */
  ghost predicate LastUse(bufs: seq<array<Byte>>, i: nat, n: nat)
    requires i < n <= |bufs|
  {
    forall j :: i < j < n ==> bufs[j] != bufs[i]
  }

  /** Buffer `b` holds the member's slice of the merged data. */
  ghost predicate Served(merged: seq<Byte>, start: nat, bs: nat, m: Request, b: array<Byte>)
    requires Lies(m, start, bs, |merged|) && m.count * bs <= b.Length
    reads b
  {
    b[..m.count * bs] == Slice(merged, start, bs, m)
  }

  ghost predicate Servable(size: nat, start: nat, bs: nat, ms: seq<Request>, bufs: seq<array<Byte>>) {
    && |bufs| == |ms|
    && forall i :: 0 <= i < |ms| ==> Lies(ms[i], start, bs, size) && ms[i].count * bs <= bufs[i].Length
  }

  /** storage_solve_read_request: each member's buffer receives its slice of the merged one; where members share a
      buffer the last one counts. */
  method SolveRead(buf: array<Byte>, start: nat, bs: nat, ms: seq<Request>, bufs: seq<array<Byte>>)
    requires buf.Length < TWO_32 && Servable(buf.Length, start, bs, ms, bufs) && buf !in bufs
    modifies set b | b in bufs
    ensures forall i :: 0 <= i < |ms| && LastUse(bufs, i, |ms|) ==> Served(buf[..], start, bs, ms[i], bufs[i])
  {
    ghost var merged := buf[..];
    var i := 0;
    while i < |ms|
      invariant 0 <= i <= |ms| && buf[..] == merged
      invariant forall j :: 0 <= j < i && LastUse(bufs, j, i) ==> Served(merged, start, bs, ms[j], bufs[j])
    {
      ServeOne(buf, start, bs, ms[i], bufs[i]);
      forall j | 0 <= j < i && LastUse(bufs, j, i + 1) ensures Served(merged, start, bs, ms[j], bufs[j]) {
        assert bufs[j] != bufs[i] && LastUse(bufs, j, i);
      }
      i := i + 1;
    }
  }

  method ServeOne(buf: array<Byte>, start: nat, bs: nat, m: Request, dst: array<Byte>)
    requires dst != buf && buf.Length < TWO_32 && Lies(m, start, bs, buf.Length) && m.count * bs <= dst.Length
    modifies dst
    ensures Served(buf[..], start, bs, m, dst)
  {
    CopyExact(m, start, bs, buf.Length);
    var at, size := Offset32(m.position, start, bs), (m.count * bs) % TWO_32;
    CopyOut(buf, at, dst, size);
  }

  method CopyOut(buf: array<Byte>, at: nat, dst: array<Byte>, size: nat)
    requires dst != buf && at + size <= buf.Length && size <= dst.Length
    modifies dst
    ensures dst[..size] == buf[..][at..at + size]
  {
    var j := 0;
    while j < size
      invariant 0 <= j <= size && dst[..j] == buf[at..at + j]
    {
      dst[j] := buf[at + j];
      j := j + 1;
    }
    assert buf[..][at..at + size] == buf[at..at + size];
  }
}
