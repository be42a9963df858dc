/** Splitting one transfer into requests no larger than the device accepts. */
module StorageSplit {
  import opened Base
  import opened Arith

  /** One request of a batch: where it is on the device, how long, and where its data lies in the caller's buffer. */
  datatype Piece = Piece(position: nat, count: nat, offset: nat)

  datatype Result = Submitted(pieces: seq<Piece>) | OutOfMemory

  /** The split the caller wants, in unbounded arithmetic. */
  function Ideal(position: nat, count: nat, max: nat, blockSize: nat): seq<Piece>
    requires max > 0
  {
    seq(DivCeil(count, max), i requires 0 <= i < DivCeil(count, max) =>
      IdealAt(position, count, max, blockSize, i))
  }

  function IdealAt(position: nat, count: nat, max: nat, blockSize: nat, i: nat): Piece
    requires max > 0 && i < DivCeil(count, max)
  {
    Last(count, max, i);
    Piece(position + i * max, Min(count - i * max, max), i * max * blockSize)
  }

  /** The i-th piece the loop produces: counters are 32 bits wide. */
  function Made(position: nat, count: nat, max: nat, blockSize: nat, i: nat): Piece
    requires max > 0
  {
    var done := Min(i * max, count % TWO_32);
    Piece((position % TWO_32 + done) % TWO_32, Min(count % TWO_32 - done, max), i * max * blockSize)
  }

  /** The number of pieces is right: all but the last are full and the last is not empty. */
  lemma Last(count: nat, max: nat, i: nat)
    requires max > 0
    ensures i < DivCeil(count, max) <==> i * max < count
  {
    var n := DivCeil(count, max);
    assert count + max - 1 == n * max + (count + max - 1) % max;
    if i < n { MulGap(i, n, max); }
    if n < i { MulGap(n, i, max); }
  }

  /** `storage_generate_request`; `alloc` says whether the i-th request and its completion can be made. */
  method Generate(position: nat, count: nat, max: nat, blockSize: nat, alloc: nat -> bool) returns (r: Result)
    requires max > 0
    ensures r.Submitted? <==> forall i: nat :: i < DivCeil(count, max) % TWO_32 ==> alloc(i)
    ensures r.Submitted? ==> |r.pieces| == DivCeil(count, max) % TWO_32
    ensures r.Submitted? ==> forall i: nat :: i < |r.pieces| ==> r.pieces[i] == Made(position, count, max, blockSize, i)
  {
    var n := DivCeil(count, max) % TWO_32;
    var remaining, current := count % TWO_32, position % TWO_32;
    var pieces: seq<Piece> := [];
    var i := 0;
    while i < n
      invariant 0 <= i <= n && |pieces| == i
      invariant remaining == count % TWO_32 - Min(i * max, count % TWO_32)
      invariant current == (position % TWO_32 + Min(i * max, count % TWO_32)) % TWO_32
      invariant forall j: nat :: j < i ==> pieces[j] == Made(position, count, max, blockSize, j) && alloc(j)
    {
      var size := Min(remaining, max);
      if !alloc(i) { return OutOfMemory; }
      pieces := pieces + [Piece(current, size, i * max * blockSize)];
      Advance(position % TWO_32, count % TWO_32, max, i);
      remaining := remaining - size;
      current := (current + size) % TWO_32;
      i := i + 1;
    }
    return Submitted(pieces);
  }

  lemma Advance(position: nat, count: nat, max: nat, i: nat)
    ensures var done, done' := Min(i * max, count), Min((i + 1) * max, count);
            done' == done + Min(count - done, max)
            && (position + done') % TWO_32 == ((position + done) % TWO_32 + Min(count - done, max)) % TWO_32
  {
    assert (i + 1) * max == i * max + max;
  }

  /** The 32-bit counters hold every value the split needs. */
  predicate Fits(position: nat, count: nat, max: nat)
    requires max > 0
  {
    count == 0 || (count < TWO_32 && position + ((count - 1) / max) * max < TWO_32)
  }

  ghost predicate IsMade(pieces: seq<Piece>, position: nat, count: nat, max: nat, blockSize: nat)
    requires max > 0
  {
    && |pieces| == DivCeil(count, max) % TWO_32
    && forall i: nat :: i < |pieces| ==> pieces[i] == Made(position, count, max, blockSize, i)
  }

  /** The batch is the wanted split exactly when the 32-bit counters suffice. */
  lemma SplitExact(pieces: seq<Piece>, position: nat, count: nat, max: nat, blockSize: nat)
    requires max > 0 && IsMade(pieces, position, count, max, blockSize)
    ensures pieces == Ideal(position, count, max, blockSize) <==> Fits(position, count, max)
  {
    var n := DivCeil(count, max);
    Last(count, max, 0);
    if count > 0 {
      LastIndex(count, max);
      if Fits(position, count, max) {
        QuotientSmall(count - 1, max);
        forall i: nat | i < n ensures pieces[i] == IdealAt(position, count, max, blockSize, i) {
          MadeFits(position, count, max, blockSize, i);
        }
      }
      if pieces == Ideal(position, count, max, blockSize) {
        assert pieces[n - 1] == IdealAt(position, count, max, blockSize, n - 1);
        LastFits(position, count, max, blockSize);
      }
    }
  }

  lemma QuotientSmall(x: nat, max: nat)
    requires max > 0
    ensures x / max <= x
  {
    ProductBig(x / max, max);
  }

  lemma ProductBig(q: nat, max: nat)
    requires max > 0
    ensures q <= q * max
  {
    assert q * max == q + q * (max - 1);
  }

  lemma MadeFits(position: nat, count: nat, max: nat, blockSize: nat, i: nat)
    requires max > 0 && count > 0 && Fits(position, count, max) && i < DivCeil(count, max)
    ensures Made(position, count, max, blockSize, i) == IdealAt(position, count, max, blockSize, i)
  {
    Last(count, max, i);
    FitsAt(position, count, max, i);
    Unwrapped(position, count, max, i * max);
  }

  lemma Unwrapped(position: nat, count: nat, max: nat, done: nat)
    requires done < count < TWO_32 && position + done < TWO_32
    ensures (position % TWO_32 + Min(done, count % TWO_32)) % TWO_32 == position + done
    ensures Min(count % TWO_32 - Min(done, count % TWO_32), max) == Min(count - done, max)
  {
  }

  /** If the last piece is right, nothing has wrapped. */
  lemma LastFits(position: nat, count: nat, max: nat, blockSize: nat)
    requires max > 0 && count > 0 && DivCeil(count, max) > 0
    requires var i := DivCeil(count, max) - 1;
             Made(position, count, max, blockSize, i) == IdealAt(position, count, max, blockSize, i)
    ensures Fits(position, count, max)
  {
    var i := DivCeil(count, max) - 1;
    LastIndex(count, max);
    Last(count, max, i);
    Last(count, max, i + 1);
    assert (i + 1) * max == i * max + max;
  }

  lemma LastIndex(count: nat, max: nat)
    requires max > 0 && count > 0
    ensures DivCeil(count, max) - 1 == (count - 1) / max
  {
    var q, r := (count - 1) / max, (count - 1) % max;
    assert count - 1 == q * max + r;
    DivUnique(count + max - 1, max, q + 1, r);
  }

  lemma FitsAt(position: nat, count: nat, max: nat, i: nat)
    requires max > 0 && count > 0 && Fits(position, count, max) && i < DivCeil(count, max)
    ensures position + i * max < TWO_32
  {
    LastIndex(count, max);
    if i < (count - 1) / max { MulGap(i, (count - 1) / max, max); }
  }

  /** The wanted split is contiguous, has no empty piece and none above the limit, and each block of the
      transfer lies in exactly the piece its distance says, at the matching buffer offset. */
  lemma IdealCovers(position: nat, count: nat, max: nat, blockSize: nat, b: nat)
    requires max > 0
    ensures forall i: nat :: i < |Ideal(position, count, max, blockSize)| ==>
              var p := Ideal(position, count, max, blockSize)[i];
              && 0 < p.count <= max
              && (p.position <= b < p.position + p.count <==>
                    position <= b < position + count && i == (b - position) / max)
              && p.offset == (p.position - position) * blockSize
    ensures position <= b < position + count ==> (b - position) / max < |Ideal(position, count, max, blockSize)|
  {
    forall i: nat | i < DivCeil(count, max)
      ensures var p := IdealAt(position, count, max, blockSize, i);
              && 0 < p.count <= max
              && (p.position <= b < p.position + p.count <==>
                    position <= b < position + count && i == (b - position) / max)
    {
      Last(count, max, i);
      if position <= b { InPiece(b - position, max, i); }
    }
    if position <= b < position + count {
      InPiece(b - position, max, (b - position) / max);
      Last(count, max, (b - position) / max);
    }
  }

  lemma InPiece(x: nat, max: nat, i: nat)
    requires max > 0
    ensures i * max <= x < i * max + max <==> i == x / max
  {
    if i * max <= x < i * max + max { DivUnique(x, max, i, x - i * max); }
  }

  /** Two blocks at the end of the 32-bit range: the second piece starts over at block 0. */
  lemma SplitWraps()
    ensures var position, count, max := TWO_32 - 1, 2, 1;
            && !Fits(position, count, max)
            && Made(position, count, max, 512, 1).position == 0
            && IdealAt(position, count, max, 512, 1).position == TWO_32
  {
  }

  /** Every piece's count and position fit their fields. */
  lemma MadeCounts(pieces: seq<Piece>, position: nat, count: nat, max: nat, blockSize: nat)
    requires max > 0 && IsMade(pieces, position, count, max, blockSize)
    ensures forall i :: 0 <= i < |pieces| ==> pieces[i].position < TWO_64 && pieces[i].count < TWO_32
  {
  }
}
