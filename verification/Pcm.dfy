/** Sample layout of PCM periods: frame by frame, or channel by channel. */
module Pcm {
  import opened Arith
  import opened Base

  /** Channels, bytes per sample and frames per period. */
  datatype Layout = Layout(channels: nat, width: nat, period: nat) {
    predicate Ok() { channels > 0 && width > 0 }
    /** Bytes between the blocks of two channels. */
    function Offset(): nat { period * width }
    function Bytes(): nat { channels * Offset() }
    /** Byte `k` of channel `j` in frame `i`, frame by frame. */
    function Interleaved(i: nat, j: nat, k: nat): nat { Sample(i, j) * width + k }
    function Sample(i: nat, j: nat): nat { i * channels + j }
    /** The same byte, channel by channel. */
    function Planar(i: nat, j: nat, k: nat): nat { j * Offset() + i * width + k }
    predicate Within(n: nat, i: nat, j: nat, k: nat) { i < n && j < channels && k < width }
  }

  // ---------------------------------------------------------------- slots

  lemma BlockBound(i: nat, k: nat, n: nat, w: nat)
    requires i < n && k < w
    ensures i * w + k < n * w
  {
    MulGap(i, n, w);
  }

  lemma PlanarBound(l: Layout, n: nat, i: nat, j: nat, k: nat)
    requires l.Ok() && n <= l.period && l.Within(n, i, j, k)
    ensures l.Planar(i, j, k) < l.Bytes() && i * l.width + k < l.Offset()
  {
    BlockBound(i, k, l.period, l.width);
    BlockBound(j, i * l.width + k, l.channels, l.Offset());
  }

  lemma InterleavedBound(l: Layout, n: nat, i: nat, j: nat, k: nat)
    requires l.Ok() && l.Within(n, i, j, k)
    ensures l.Interleaved(i, j, k) < n * l.channels * l.width
  {
    BlockBound(i, j, n, l.channels);
    BlockBound(i * l.channels + j, k, n * l.channels, l.width);
  }

  /** Within one period every sample byte has its own planar slot. */
  lemma PlanarInjective(l: Layout, i: nat, j: nat, k: nat, i': nat, j': nat, k': nat)
    requires l.Ok() && l.Within(l.period, i, j, k) && l.Within(l.period, i', j', k')
    ensures l.Planar(i, j, k) == l.Planar(i', j', k') <==> i == i' && j == j' && k == k'
  {
    if l.Planar(i, j, k) == l.Planar(i', j', k') {
      PlanarBound(l, l.period, i, j, k);
      PlanarBound(l, l.period, i', j', k');
      SplitUnique(l.Offset(), j, i * l.width + k, j', i' * l.width + k');
      SplitUnique(l.width, i, k, i', k');
    }
  }

  lemma SampleUnique(c: nat, i: nat, j: nat, i': nat, j': nat)
    requires j < c && j' < c && i * c + j == i' * c + j'
    ensures i == i' && j == j'
  {
    SplitUnique(c, i, j, i', j');
  }

  lemma InterleavedInjective(l: Layout, n: nat, i: nat, j: nat, k: nat, i': nat, j': nat, k': nat)
    requires l.Ok() && l.Within(n, i, j, k) && l.Within(n, i', j', k')
    ensures l.Interleaved(i, j, k) == l.Interleaved(i', j', k') <==> i == i' && j == j' && k == k'
  {
    if l.Interleaved(i, j, k) == l.Interleaved(i', j', k') {
      var a, b := l.Sample(i, j), l.Sample(i', j');
      assert a == b && k == k' by { SplitUnique(l.width, a, k, b, k'); }
      SampleUnique(l.channels, i, j, i', j');
    }
  }

  ghost predicate DistinctSlots(l: Layout, n: nat) {
    forall i: nat, j: nat, k: nat, i': nat, j': nat, k': nat ::
      l.Within(n, i, j, k) && l.Within(n, i', j', k') && l.Planar(i, j, k) == l.Planar(i', j', k') ==>
        i == i' && j == j' && k == k'
  }

  /** Planar slots of `n` frames are distinct exactly up to one period: one frame more and, with two channels,
      channel 0 runs into channel 1. */
  lemma DistinctIff(l: Layout, n: nat)
    requires l.Ok() && l.channels > 1
    ensures DistinctSlots(l, n) <==> n <= l.period
  {
    if n <= l.period {
      forall i: nat, j: nat, k: nat, i': nat, j': nat, k': nat
        | l.Within(n, i, j, k) && l.Within(n, i', j', k') && l.Planar(i, j, k) == l.Planar(i', j', k')
        ensures i == i' && j == j' && k == k'
      {
        PlanarInjective(l, i, j, k, i', j', k');
      }
    } else {
      assert l.Within(n, l.period, 0, 0) && l.Within(n, 0, 1, 0);
    }
  }

  /** Every byte of `n` interleaved frames is some sample's byte. */
  lemma InterleavedCovers(l: Layout, n: nat, x: nat) returns (i: nat, j: nat, k: nat)
    requires l.Ok() && x < n * l.channels * l.width
    ensures l.Within(n, i, j, k) && l.Interleaved(i, j, k) == x
  {
    var m, s := n * l.channels, x / l.width;
    DivSplit(x, l.width, m);
    DivSplit(s, l.channels, n);
    i, j, k := s / l.channels, s % l.channels, x % l.width;
  }

  lemma DivSplit(x: nat, w: nat, m: nat)
    requires w > 0 && x < m * w
    ensures x / w < m && x == x / w * w + x % w && x % w < w
  {
    if m < x / w { MulGap(m, x / w, w); }
  }

  lemma DivExact(c: nat, x: nat)
    requires c > 0
    ensures (c * x) / c == x
  {
    DivUnique(c * x, c, x, 0);
  }

  // ---------------------------------------------------------------- conversions

  /** The planar buffer holds the first `n` interleaved frames. */
  ghost predicate Same(l: Layout, n: nat, inter: seq<Byte>, planar: seq<Byte>) {
    forall i: nat, j: nat, k: nat :: l.Within(n, i, j, k) ==> SameAt(l, inter, planar, i, j, k)
  }

  ghost predicate SameAt(l: Layout, inter: seq<Byte>, planar: seq<Byte>, i: nat, j: nat, k: nat) {
    && l.Interleaved(i, j, k) < |inter| && l.Planar(i, j, k) < |planar|
    && inter[l.Interleaved(i, j, k)] == planar[l.Planar(i, j, k)]
  }

  /** There and back: whatever the planar buffer held before, the frames come back unchanged. */
  lemma RoundTrip(l: Layout, n: nat, first: seq<Byte>, planar: seq<Byte>, last: seq<Byte>)
    requires l.Ok() && Same(l, n, first, planar) && Same(l, n, last, planar)
    requires n * l.channels * l.width <= |first| && n * l.channels * l.width <= |last|
    ensures first[..n * l.channels * l.width] == last[..n * l.channels * l.width]
  {
    forall x: nat | x < n * l.channels * l.width ensures first[x] == last[x] {
      var i, j, k := InterleavedCovers(l, n, x);
      assert SameAt(l, first, planar, i, j, k) && SameAt(l, last, planar, i, j, k);
    }
  }

  /** The samples of channel `j` in the first `n` frames, one after the other. */
  ghost function Track(l: Layout, inter: seq<Byte>, j: nat, n: nat): seq<Byte>
    requires l.Ok() && j < l.channels && n * l.channels * l.width <= |inter|
  {
    if n == 0 then []
    else
      TrackBound(l, n, j);
      Track(l, inter, j, n - 1) + inter[((n - 1) * l.channels + j) * l.width..][..l.width]
  }

  lemma TrackBound(l: Layout, n: nat, j: nat)
    requires n > 0 && j < l.channels
    ensures (n - 1) * l.channels * l.width <= n * l.channels * l.width
    ensures ((n - 1) * l.channels + j) * l.width + l.width <= n * l.channels * l.width
  {
    BlockBound(n - 1, j, n, l.channels);
    MulGap((n - 1) * l.channels + j, n * l.channels, l.width);
    MulGap(n - 1, n, l.channels);
    MulMore((n - 1) * l.channels, n * l.channels, l.width);
  }

  lemma MulMore(a: nat, b: nat, w: nat)
    requires a <= b
    ensures a * w <= b * w
  {
    if a < b { MulGap(a, b, w); }
  }

  /** In planar order the j-th block begins with the samples of channel `j`, in the order of the frames. */
  lemma {:induction false} PlanarIsTracks(l: Layout, n: nat, inter: seq<Byte>, planar: seq<Byte>, j: nat)
    requires l.Ok() && j < l.channels && n <= l.period && Same(l, n, inter, planar)
    requires n * l.channels * l.width <= |inter| && l.Bytes() <= |planar|
    ensures j * l.Offset() + n * l.width <= |planar|
    ensures planar[j * l.Offset()..][..n * l.width] == Track(l, inter, j, n)
  {
    MulMore(n, l.period, l.width);
    MulGap(j, l.channels, l.Offset());
    if n > 0 {
      TrackBound(l, n, j);
      forall i: nat, j: nat, k: nat | l.Within(n - 1, i, j, k) ensures SameAt(l, inter, planar, i, j, k) {
        assert l.Within(n, i, j, k);
      }
      PlanarIsTracks(l, n - 1, inter, planar, j);
      TrackStep(l, n, inter, planar, j);
    }
  }

  lemma SampleAppended(s: seq<Byte>, at: nat, done: nat, width: nat, sample: seq<Byte>)
    requires at + done + width <= |s| && s[at + done..at + done + width] == sample
    ensures s[at..][..done + width] == s[at..][..done] + sample
  {
  }

  lemma SampleIs(l: Layout, n: nat, inter: seq<Byte>, planar: seq<Byte>, i: nat, j: nat)
    requires l.Ok() && i < n && j < l.channels && Same(l, n, inter, planar)
    requires l.Interleaved(i, j, 0) + l.width <= |inter| && l.Planar(i, j, 0) + l.width <= |planar|
    ensures planar[l.Planar(i, j, 0)..l.Planar(i, j, 0) + l.width] == inter[l.Interleaved(i, j, 0)..][..l.width]
  {
    var at, from := l.Planar(i, j, 0), l.Interleaved(i, j, 0);
    forall k: nat | k < l.width ensures planar[at..at + l.width][k] == inter[from..][..l.width][k] {
      assert l.Within(n, i, j, k) && SameAt(l, inter, planar, i, j, k);
    }
  }

  lemma TrackStep(l: Layout, n: nat, inter: seq<Byte>, planar: seq<Byte>, j: nat)
    requires l.Ok() && 0 < n && j < l.channels && Same(l, n, inter, planar)
    requires ((n - 1) * l.channels + j) * l.width + l.width <= |inter| && j * l.Offset() + n * l.width <= |planar|
    ensures planar[j * l.Offset()..][..n * l.width] ==
            planar[j * l.Offset()..][..(n - 1) * l.width] + inter[((n - 1) * l.channels + j) * l.width..][..l.width]
  {
    assert n * l.width == (n - 1) * l.width + l.width;
    SampleIs(l, n, inter, planar, n - 1, j);
    SampleAppended(planar, j * l.Offset(), (n - 1) * l.width, l.width, inter[l.Interleaved(n - 1, j, 0)..][..l.width]);
  }

  /** Pointer arithmetic: the next channel, and the next frame. */
  lemma Advance(l: Layout, i: nat, j: nat)
    ensures l.Interleaved(i, j, 0) + l.width == l.Interleaved(i, j + 1, 0)
    ensures l.Planar(i, j, 0) + l.Offset() == l.Planar(i, j + 1, 0)
    ensures l.Interleaved(i, l.channels, 0) == l.Interleaved(i + 1, 0, 0)
    ensures l.Planar(i, 0, 0) + l.width == l.Planar(i + 1, 0, 0)
  {
    var s := l.Sample(i, j);
    assert (s + 1) * l.width == s * l.width + l.width;
    assert (j + 1) * l.Offset() == j * l.Offset() + l.Offset();
    assert (i + 1) * l.channels == i * l.channels + l.channels;
    assert (i + 1) * l.width == i * l.width + l.width;
  }

  /** Samples before channel `j` of frame `i`. */
  predicate Before(i: nat, j: nat, i': nat, j': nat) { i' < i || (i' == i && j' < j) }

  ghost predicate SameBefore(l: Layout, i: nat, j: nat, inter: seq<Byte>, planar: seq<Byte>) {
    forall i': nat, j': nat, k: nat :: Before(i, j, i', j') && l.Within(i' + 1, i', j', k) ==>
                                         SameAt(l, inter, planar, i', j', k)
  }

  /** `now` is `was` with `width` bytes of `src` from `from` copied to `at`. */
  ghost predicate Copied(was: seq<Byte>, now: seq<Byte>, src: seq<Byte>, from: nat, at: nat, width: nat) {
    && |now| == |was| && from + width <= |src| && at + width <= |was|
    && (forall x :: at <= x < at + width ==> now[x] == src[from + x - at])
    && (forall x :: 0 <= x < |was| && !(at <= x < at + width) ==> now[x] == was[x])
  }

  /** Copying one sample to its planar slot extends the agreement and disturbs no other sample. */
  lemma PlanarStep(l: Layout, i: nat, j: nat, inter: seq<Byte>, was: seq<Byte>, now: seq<Byte>)
    requires l.Ok() && i < l.period && j < l.channels && SameBefore(l, i, j, inter, was)
    requires Copied(was, now, inter, l.Interleaved(i, j, 0), l.Planar(i, j, 0), l.width)
    ensures SameBefore(l, i, j + 1, inter, now)
  {
    forall i': nat, j': nat, k: nat | Before(i, j + 1, i', j') && l.Within(i' + 1, i', j', k)
      ensures SameAt(l, inter, now, i', j', k)
    {
      var x := l.Planar(i', j', k);
      if Before(i, j, i', j') {
        assert SameAt(l, inter, was, i', j', k);
        if l.Planar(i, j, 0) <= x < l.Planar(i, j, 0) + l.width {
          PlanarInjective(l, i, j, x - l.Planar(i, j, 0), i', j', k);
        }
      }
    }
  }

  lemma InterleavedStep(l: Layout, i: nat, j: nat, planar: seq<Byte>, was: seq<Byte>, now: seq<Byte>)
    requires l.Ok() && j < l.channels && SameBefore(l, i, j, was, planar)
    requires Copied(was, now, planar, l.Planar(i, j, 0), l.Interleaved(i, j, 0), l.width)
    ensures SameBefore(l, i, j + 1, now, planar)
  {
    forall i': nat, j': nat, k: nat | Before(i, j + 1, i', j') && l.Within(i' + 1, i', j', k)
      ensures SameAt(l, now, planar, i', j', k)
    {
      var x := l.Interleaved(i', j', k);
      if Before(i, j, i', j') {
        assert SameAt(l, was, planar, i', j', k);
        if l.Interleaved(i, j, 0) <= x < l.Interleaved(i, j, 0) + l.width {
          InterleavedInjective(l, i + 1, i, j, x - l.Interleaved(i, j, 0), i', j', k);
        }
      }
    }
  }

  lemma FrameDone(l: Layout, i: nat, inter: seq<Byte>, planar: seq<Byte>)
    requires SameBefore(l, i, l.channels, inter, planar)
    ensures SameBefore(l, i + 1, 0, inter, planar)
  {
    forall i': nat, j': nat, k: nat | Before(i + 1, 0, i', j') && l.Within(i' + 1, i', j', k)
      ensures SameAt(l, inter, planar, i', j', k)
    {
      assert Before(i, l.channels, i', j');
    }
  }

  lemma AllDone(l: Layout, n: nat, inter: seq<Byte>, planar: seq<Byte>)
    requires SameBefore(l, n, 0, inter, planar)
    ensures Same(l, n, inter, planar)
  {
    forall i: nat, j: nat, k: nat | l.Within(n, i, j, k) ensures SameAt(l, inter, planar, i, j, k) {
      assert Before(n, 0, i, j);
    }
  }

  lemma SampleFits(l: Layout, n: nat, i: nat, j: nat)
    requires l.Ok() && n <= l.period && i < n && j < l.channels
    ensures l.Planar(i, j, 0) + l.width <= l.Bytes() && l.Interleaved(i, j, 0) + l.width <= n * l.channels * l.width
  {
    PlanarBound(l, n, i, j, l.width - 1);
    InterleavedBound(l, n, i, j, l.width - 1);
  }

  /** The innermost loop: one sample. */
  method CopySample(src: array<Byte>, from: nat, dst: array<Byte>, to: nat, width: nat)
    requires src != dst && from + width <= src.Length && to + width <= dst.Length
    modifies dst
    ensures Copied(old(dst[..]), dst[..], src[..], from, to, width)
  {
    for k := 0 to width
      invariant forall x :: to <= x < to + k ==> dst[x] == src[from + x - to]
      invariant forall x :: 0 <= x < dst.Length && !(to <= x < to + k) ==> dst[x] == old(dst[x])
    {
      dst[to + k] := src[from + k];
    }
  }

  class PcmStream {
    var channel: nat
    var dataBytes: nat
    var framePerPeriod: nat
    var frameBytes: nat
    var periodBytes: nat

    ghost function Shape(): Layout
      reads this
    {
      Layout(channel, dataBytes, framePerPeriod)
    }

    ghost predicate Valid()
      reads this
    {
      Shape().Ok() && periodBytes == Shape().Bytes()
    }

    method SetFrameCount(count: nat)
      modifies this
      ensures Shape() == Layout(old(channel), old(dataBytes), count) && periodBytes == Shape().Bytes()
      ensures Valid() <==> channel > 0 && dataBytes > 0
    {
      framePerPeriod := count;
      frameBytes := channel * dataBytes;
      periodBytes := framePerPeriod * frameBytes;
      assert count * (channel * dataBytes) == channel * (count * dataBytes);
    }

    /** period_bytes / channel. */
    method ChannelOffset() returns (offset: nat)
      requires Valid()
      ensures offset == Shape().Offset()
    {
      DivExact(channel, Shape().Offset());
      offset := periodBytes / channel;
    }

    /** pcm_interleaved2noninterleaved. */
    method ToPlanar(src: array<Byte>, out: array<Byte>, frameCount: nat)
      requires Valid() && src != out && frameCount <= framePerPeriod
      requires frameCount * channel * dataBytes <= src.Length && Shape().Bytes() <= out.Length
      modifies out
      ensures Same(Shape(), frameCount, src[..], out[..])
    {
      ghost var l := Shape();
      var offset := ChannelOffset();
      var from, to := 0, 0;
      for i := 0 to frameCount
        invariant from == l.Interleaved(i, 0, 0) && to == l.Planar(i, 0, 0)
        invariant SameBefore(l, i, 0, src[..], out[..])
      {
        var at := to;
        for j := 0 to channel
          invariant from == l.Interleaved(i, j, 0) && at == l.Planar(i, j, 0)
          invariant SameBefore(l, i, j, src[..], out[..])
        {
          SampleFits(l, frameCount, i, j);
          ghost var was := out[..];
          CopySample(src, from, out, at, dataBytes);
          PlanarStep(l, i, j, src[..], was, out[..]);
          Advance(l, i, j);
          at := at + offset;
          from := from + dataBytes;
        }
        Advance(l, i, 0);
        FrameDone(l, i, src[..], out[..]);
        to := to + dataBytes;
      }
      AllDone(l, frameCount, src[..], out[..]);
    }

    /** pcm_noninterleaved2interleaved. */
    method ToInterleaved(src: array<Byte>, out: array<Byte>, frameCount: nat)
      requires Valid() && src != out && frameCount <= framePerPeriod
      requires frameCount * channel * dataBytes <= out.Length && Shape().Bytes() <= src.Length
      modifies out
      ensures Same(Shape(), frameCount, out[..], src[..])
    {
      ghost var l := Shape();
      var offset := ChannelOffset();
      var from, to := 0, 0;
      for i := 0 to frameCount
        invariant to == l.Interleaved(i, 0, 0) && from == l.Planar(i, 0, 0)
        invariant SameBefore(l, i, 0, out[..], src[..])
      {
        var at := from;
        for j := 0 to channel
          invariant to == l.Interleaved(i, j, 0) && at == l.Planar(i, j, 0)
          invariant SameBefore(l, i, j, out[..], src[..])
        {
          SampleFits(l, frameCount, i, j);
          ghost var was := out[..];
          CopySample(src, at, out, to, dataBytes);
          InterleavedStep(l, i, j, src[..], was, out[..]);
          Advance(l, i, j);
          at := at + offset;
          to := to + dataBytes;
        }
        Advance(l, i, 0);
        FrameDone(l, i, out[..], src[..]);
        from := from + dataBytes;
      }
      AllDone(l, frameCount, out[..], src[..]);
    }

    /** Into planar order and back again is the identity on the frames. */
    method ThereAndBack(src: array<Byte>, mid: array<Byte>, out: array<Byte>, frameCount: nat)
      requires Valid() && src != mid && mid != out && src != out && frameCount <= framePerPeriod
      requires frameCount * channel * dataBytes <= src.Length && frameCount * channel * dataBytes <= out.Length
      requires Shape().Bytes() <= mid.Length
      modifies mid, out
      ensures out[..frameCount * channel * dataBytes] == src[..frameCount * channel * dataBytes]
    {
      ToPlanar(src, mid, frameCount);
      ToInterleaved(mid, out, frameCount);
      RoundTrip(Shape(), frameCount, src[..], mid[..], out[..]);
      assert src[..][..frameCount * channel * dataBytes] == src[..frameCount * channel * dataBytes];
      assert out[..][..frameCount * channel * dataBytes] == out[..frameCount * channel * dataBytes];
    }
  }
}
