/** A whole transfer: split it, and hand the pieces to the device's queue. */
module StorageTransfer {
  import opened Arith
  import opened Base
  import opened StorageCopy
  import opened StorageMerge
  import opened StorageQueue
  import Split = StorageSplit

  /** The request made of the i-th piece. */
  function ToRequest(p: Split.Piece, i: nat, isWrite: bool, data: seq<Byte>): Request
    requires p.position < TWO_64 && p.count < TWO_32
  {
    Request(i, isWrite, p.position, p.count, data)
  }

  /** The bytes of the caller's buffer that a piece covers. */
  function Bytes(p: Split.Piece, blockSize: nat, buf: seq<Byte>): seq<Byte> {
    if p.offset + p.count * blockSize <= |buf| then buf[p.offset..p.offset + p.count * blockSize] else []
  }

  function Batch(ps: seq<Split.Piece>, blockSize: nat, isWrite: bool, buf: seq<Byte>): (rs: seq<Request>)
    requires forall i :: 0 <= i < |ps| ==> ps[i].position < TWO_64 && ps[i].count < TWO_32
    ensures |rs| == |ps|
    ensures forall i :: 0 <= i < |ps| ==> rs[i] == ToRequest(ps[i], i, isWrite, Bytes(ps[i], blockSize, buf))
  {
    seq(|ps|, i requires 0 <= i < |ps| => ToRequest(ps[i], i, isWrite, Bytes(ps[i], blockSize, buf)))
  }

  /** The bytes that reading the requests one after the other brings. */
  ghost function LoadAll(d: Device, bs: nat, rs: seq<Request>): seq<Byte> {
    if rs == [] then []
    else LoadAll(d, bs, rs[..|rs| - 1]) + Load(d, rs[|rs| - 1].position * bs, rs[|rs| - 1].count * bs)
  }

  /** The requests do together what the whole transfer is to do: in its direction, storing its buffer on the device,
      and reading its blocks in order. */
  ghost predicate Carries(rs: seq<Request>, position: nat, count: nat, bs: nat, isWrite: bool, buf: seq<Byte>) {
    && (forall r :: r in rs ==> r.isWrite == isWrite && Filled(r, bs))
    && (forall d: Device, x: nat :: StoreAll(d, bs, rs)(x) == Store(d, position * bs, buf)(x))
    && (forall d: Device :: LoadAll(d, bs, rs) == Load(d, position * bs, count * bs))
  }

  /** Where `e` holds `a` stored on `d` and `b` follows it, it then holds both. */
  lemma StoreMore(e: Device, d: Device, base: nat, a: seq<Byte>, at: nat, b: seq<Byte>, x: nat)
    requires e(x) == Store(d, base, a)(x) && at == base + |a|
    ensures Store(e, at, b)(x) == Store(d, base, a + b)(x)
  {
  }

  lemma LoadMore(d: Device, at: nat, m: nat, n: nat)
    ensures Load(d, at, m) + Load(d, at + m, n) == Load(d, at, m + n)
  {
    var all := Load(d, at, m + n);
    forall i | 0 <= i < m + n ensures (Load(d, at, m) + Load(d, at + m, n))[i] == all[i] {
      if i >= m { assert at + m + (i - m) == at + i; }
    }
  }

  /** How many bytes the first `n` pieces have. */
  ghost function Before(count: nat, max: nat, bs: nat, n: nat): nat {
    var blocks: nat := Min(n * max, count);
    blocks * bs
  }

  /** The n-th piece begins where those before it end, on the device and in the buffer. */
  lemma NextPiece(position: nat, count: nat, max: nat, bs: nat, n: nat)
    requires max > 0 && n < DivCeil(count, max)
    ensures var p := Split.IdealAt(position, count, max, bs, n);
            && p.position * bs == position * bs + Before(count, max, bs, n) && p.offset == Before(count, max, bs, n)
            && p.count * bs + Before(count, max, bs, n) == Before(count, max, bs, n + 1) <= count * bs
  {
    Split.Last(count, max, n);
    var p := Split.IdealAt(position, count, max, bs, n);
    assert (n + 1) * max == n * max + max;
    Distribute(position, n * max, bs);
    Distribute(p.count, n * max, bs);
    var rest := count - (n * max + p.count);
    Distribute(n * max + p.count, rest, bs);
  }

  lemma Distribute(a: nat, b: nat, bs: nat)
    ensures (a + b) * bs == a * bs + b * bs
  {
  }

  /** The requests follow each other on the device from byte `base` on and in the buffer, with `ends` between them. */
  ghost predicate Chain(rs: seq<Request>, bs: nat, base: nat, isWrite: bool, buf: seq<Byte>, ends: seq<nat>) {
    && |ends| == |rs| + 1 && ends[0] == 0 && ends[|rs|] == |buf|
    && forall i: nat :: i < |rs| ==> Link(rs[i], bs, base, isWrite, buf, ends[i], ends[i + 1])
  }

  ghost predicate Link(r: Request, bs: nat, base: nat, isWrite: bool, buf: seq<Byte>, from: nat, to: nat) {
    && r.isWrite == isWrite && r.position * bs == base + from && r.count * bs == to - from
    && from <= to <= |buf| && r.data == buf[from..to]
  }

  lemma {:induction false} StoresPrefix(d: Device, rs: seq<Request>, bs: nat, base: nat, isWrite: bool, buf: seq<Byte>,
                                        ends: seq<nat>, n: nat, x: nat)
    requires Chain(rs, bs, base, isWrite, buf, ends) && n <= |rs|
    ensures ends[n] <= |buf| && StoreAll(d, bs, rs[..n])(x) == Store(d, base, buf[..ends[n]])(x)
  {
    if n > 0 {
      StoresPrefix(d, rs, bs, base, isWrite, buf, ends, n - 1, x);
      var r, at, a := rs[n - 1], rs[n - 1].position * bs, buf[..ends[n - 1]];
      assert Link(r, bs, base, isWrite, buf, ends[n - 1], ends[n]);
      assert rs[..n][..n - 1] == rs[..n - 1];
      assert a + r.data == buf[..ends[n]];
      StoreMore(StoreAll(d, bs, rs[..n - 1]), d, base, a, at, r.data, x);
    }
  }

  lemma {:induction false} LoadsPrefix(d: Device, rs: seq<Request>, bs: nat, base: nat, isWrite: bool, buf: seq<Byte>,
                                       ends: seq<nat>, n: nat)
    requires Chain(rs, bs, base, isWrite, buf, ends) && n <= |rs|
    ensures LoadAll(d, bs, rs[..n]) == Load(d, base, ends[n])
  {
    if n > 0 {
      LoadsPrefix(d, rs, bs, base, isWrite, buf, ends, n - 1);
      assert Link(rs[n - 1], bs, base, isWrite, buf, ends[n - 1], ends[n]);
      assert rs[..n][..n - 1] == rs[..n - 1];
      LoadMore(d, base, ends[n - 1], ends[n] - ends[n - 1]);
    }
  }

  lemma ChainCarries(rs: seq<Request>, bs: nat, base: nat, isWrite: bool, buf: seq<Byte>, ends: seq<nat>)
    requires Chain(rs, bs, base, isWrite, buf, ends)
    ensures forall d: Device, x: nat :: StoreAll(d, bs, rs)(x) == Store(d, base, buf)(x)
    ensures forall d: Device :: LoadAll(d, bs, rs) == Load(d, base, |buf|)
    ensures forall r :: r in rs ==> r.isWrite == isWrite && Filled(r, bs)
  {
    forall r | r in rs ensures r.isWrite == isWrite && Filled(r, bs) {
      var i: nat :| i < |rs| && rs[i] == r;
      assert Link(rs[i], bs, base, isWrite, buf, ends[i], ends[i + 1]);
    }
    assert rs[..|rs|] == rs && buf[..|buf|] == buf;
    forall d: Device, x: nat ensures StoreAll(d, bs, rs)(x) == Store(d, base, buf)(x) {
      StoresPrefix(d, rs, bs, base, isWrite, buf, ends, |rs|, x);
    }
    forall d: Device ensures LoadAll(d, bs, rs) == Load(d, base, |buf|) {
      LoadsPrefix(d, rs, bs, base, isWrite, buf, ends, |rs|);
    }
  }

  lemma AllBefore(count: nat, max: nat, bs: nat)
    requires max > 0
    ensures Before(count, max, bs, DivCeil(count, max)) == count * bs && Before(count, max, bs, 0) == 0
  {
    Split.Last(count, max, DivCeil(count, max));
  }

  /** The request made of the wanted i-th piece is the i-th link. */
  lemma PieceLinks(r: Request, position: nat, count: nat, max: nat, bs: nat, isWrite: bool, buf: seq<Byte>, i: nat)
    requires max > 0 && |buf| == count * bs && i < DivCeil(count, max)
    requires var p := Split.IdealAt(position, count, max, bs, i);
             p.position < TWO_64 && p.count < TWO_32 && r == ToRequest(p, i, isWrite, Bytes(p, bs, buf))
    ensures Link(r, bs, position * bs, isWrite, buf, Before(count, max, bs, i), Before(count, max, bs, i + 1))
  {
    NextPiece(position, count, max, bs, i);
  }

  /** While the 32-bit counters suffice, the batch is a chain from the first byte of the transfer to the last. */
  lemma BatchLinks(ps: seq<Split.Piece>, position: nat, count: nat, max: nat, bs: nat, isWrite: bool, buf: seq<Byte>)
    requires max > 0 && Split.IsMade(ps, position, count, max, bs) && Split.Fits(position, count, max)
    requires |buf| == count * bs && forall i :: 0 <= i < |ps| ==> ps[i].position < TWO_64 && ps[i].count < TWO_32
    ensures |ps| == DivCeil(count, max)
    ensures forall i: nat :: i < |ps| ==>
              Link(Batch(ps, bs, isWrite, buf)[i], bs, position * bs, isWrite, buf, Before(count, max, bs, i),
                   Before(count, max, bs, i + 1))
  {
    Split.SplitExact(ps, position, count, max, bs);
    forall i: nat | i < |ps|
      ensures Link(Batch(ps, bs, isWrite, buf)[i], bs, position * bs, isWrite, buf, Before(count, max, bs, i),
                   Before(count, max, bs, i + 1))
    {
      assert ps[i] == Split.Ideal(position, count, max, bs)[i];
      PieceLinks(Batch(ps, bs, isWrite, buf)[i], position, count, max, bs, isWrite, buf, i);
    }
  }

  lemma LinksChain(rs: seq<Request>, count: nat, max: nat, bs: nat, base: nat, isWrite: bool, buf: seq<Byte>)
    returns (ends: seq<nat>)
    requires max > 0 && |buf| == count * bs && |rs| == DivCeil(count, max)
    requires forall i: nat :: i < |rs| ==>
               Link(rs[i], bs, base, isWrite, buf, Before(count, max, bs, i), Before(count, max, bs, i + 1))
    ensures Chain(rs, bs, base, isWrite, buf, ends)
  {
    ends := seq(|rs| + 1, (n: nat) => Before(count, max, bs, n));
    AllBefore(count, max, bs);
  }

  /** The pieces of the wanted split carry the whole transfer. */
  lemma BatchCarries(ps: seq<Split.Piece>, position: nat, count: nat, max: nat, bs: nat, isWrite: bool, buf: seq<Byte>)
    requires max > 0 && Split.IsMade(ps, position, count, max, bs) && Split.Fits(position, count, max)
    requires |buf| == count * bs && forall i :: 0 <= i < |ps| ==> ps[i].position < TWO_64 && ps[i].count < TWO_32
    ensures Carries(Batch(ps, bs, isWrite, buf), position, count, bs, isWrite, buf)
  {
    var rs := Batch(ps, bs, isWrite, buf);
    BatchLinks(ps, position, count, max, bs, isWrite, buf);
    var ends := LinksChain(rs, count, max, bs, position * bs, isWrite, buf);
    ChainCarries(rs, bs, position * bs, isWrite, buf, ends);
  }

  /** storage_generate_request: nothing reaches the queue unless every piece could be made, and then all do; while the
      32-bit counters suffice, what reaches it is the whole transfer. */
  method Transfer(q: IoQueue, position: nat, count: nat, max: nat, blockSize: nat, isWrite: bool, buf: seq<Byte>,
                  alloc: nat -> bool, busy: nat -> bool, merges: nat -> nat -> bool)
    returns (r: Split.Result, ghost rs: seq<Request>)
    requires max > 0
    modifies q
    ensures r.OutOfMemory? <==> !forall i: nat :: i < DivCeil(count, max) % TWO_32 ==> alloc(i)
    ensures r.OutOfMemory? ==> q.Now() == old(q.Now())
    ensures r.Submitted? ==> Split.IsMade(r.pieces, position, count, max, blockSize) && |rs| == |r.pieces|
    ensures r.Submitted? ==> Everything(q.Now()) == old(Everything(q.Now())) + multiset(rs)
    ensures r.Submitted? && Split.Fits(position, count, max) && |buf| == count * blockSize ==>
              Carries(rs, position, count, blockSize, isWrite, buf)
    ensures old(Sorted(q.queue)) ==> Sorted(q.queue)
  {
    r := Split.Generate(position, count, max, blockSize, alloc);
    rs := [];
    if r.OutOfMemory? {
      return;
    }
    Split.MadeCounts(r.pieces, position, count, max, blockSize);
    rs := Batch(r.pieces, blockSize, isWrite, buf);
    AddBatch(q, Batch(r.pieces, blockSize, isWrite, buf), busy, merges);
    if Split.Fits(position, count, max) && |buf| == count * blockSize {
      BatchCarries(r.pieces, position, count, max, blockSize, isWrite, buf);
    }
  }

  lemma OneMore(first: multiset<Request>, before: multiset<Request>, after: multiset<Request>, rs: seq<Request>, i: nat)
    requires i < |rs| && before == first + multiset(rs[..i]) && after == before + multiset{rs[i]}
    ensures after == first + multiset(rs[..i + 1])
  {
    assert rs[..i + 1] == rs[..i] + [rs[i]];
  }

  /** The submitting loop. */
  method AddBatch(q: IoQueue, rs: seq<Request>, busy: nat -> bool, merges: nat -> nat -> bool)
    modifies q
    ensures Everything(q.Now()) == old(Everything(q.Now())) + multiset(rs)
    ensures old(Sorted(q.queue)) ==> Sorted(q.queue)
  {
    var i := 0;
    while i < |rs|
      invariant 0 <= i <= |rs|
      invariant Everything(q.Now()) == old(Everything(q.Now())) + multiset(rs[..i])
      invariant old(Sorted(q.queue)) ==> Sorted(q.queue)
    {
      ghost var before := Everything(q.Now());
      AddRequest(q, rs[i], busy(i), merges(i));
      OneMore(old(Everything(q.Now())), before, Everything(q.Now()), rs, i);
      i := i + 1;
    }
    assert rs[..i] == rs;
  }

  /** storage_add_request. */
  method AddRequest(q: IoQueue, r: Request, busy: bool, merges: nat -> bool)
    modifies q
    ensures Everything(q.Now()) == old(Everything(q.Now())) + multiset{r}
    ensures old(Sorted(q.queue)) ==> Sorted(q.queue)
  {
    ghost var s := q.Now();
    StepConserves(s, TrySubmit(r, busy), q.limit);
    var taken := q.TrySubmit(r, busy);
    if !taken {
      StepConserves(q.Now(), Op.Add(r, merges), q.limit);
      if Sorted(q.queue) { StepSorted(q.Now(), Op.Add(r, merges), q.limit); }
      q.Add(r, merges);
    }
  }
}
