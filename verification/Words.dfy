/** Machine words as their bits, lowest first, with the shift and mask operations of `usize`. */
module Words {
  import opened Base

  const WORD_BITS: nat := 64

  function Fill(v: bool): (w: seq<bool>)
    ensures |w| == WORD_BITS && forall i :: 0 <= i < WORD_BITS ==> w[i] == v
  {
    seq(WORD_BITS, i => v)
  }

  type Word = w: seq<bool> | |w| == WORD_BITS witness Fill(false)

  const ZERO: Word := Fill(false)
  const ONES: Word := Fill(true)
  const ONE: Word := Fill(false)[0 := true]

  function And(v: Word, w: Word): Word { seq(WORD_BITS, i requires 0 <= i < WORD_BITS => v[i] && w[i]) }
  function Or(v: Word, w: Word): Word { seq(WORD_BITS, i requires 0 <= i < WORD_BITS => v[i] || w[i]) }
  function Not(w: Word): Word { seq(WORD_BITS, i requires 0 <= i < WORD_BITS => !w[i]) }

  function Shl(w: Word, n: nat): Word
    requires n < WORD_BITS
  {
    seq(WORD_BITS, i requires 0 <= i < WORD_BITS => i >= n && w[i - n])
  }

  function Shr(w: Word, n: nat): Word
    requires n < WORD_BITS
  {
    seq(WORD_BITS, i requires 0 <= i < WORD_BITS => i + n < WORD_BITS && w[i + n])
  }

  /** (usize::MAX >> (WORD_BITS - len)) << bit: exactly the bits bit..bit+len. */
  function Mask(len: nat, bit: nat): (m: Word)
    requires 0 < len && bit + len <= WORD_BITS
    ensures forall i :: 0 <= i < WORD_BITS ==> (m[i] <==> bit <= i < bit + len)
  {
    Shl(Shr(ONES, WORD_BITS - len), bit)
  }

  /** 1 << bit. */
  function Single(bit: nat): (m: Word)
    requires bit < WORD_BITS
    ensures forall i :: 0 <= i < WORD_BITS ==> (m[i] <==> i == bit)
  {
    Shl(ONE, bit)
  }

  /** The word is nonzero exactly when some bit is set. */
  lemma NonZero(w: Word)
    ensures w != ZERO <==> exists i :: 0 <= i < WORD_BITS && w[i]
  {
    if forall i :: 0 <= i < WORD_BITS ==> !w[i] { assert w == ZERO; }
  }

  /** trailing position of the lowest set bit, if any. */
  method LowestOne(w: Word) returns (r: Option<nat>)
    ensures r.None? <==> w == ZERO
    ensures r.Some? ==> r.value < WORD_BITS && w[r.value] && forall i :: 0 <= i < r.value ==> !w[i]
  {
    NonZero(w);
    var i := 0;
    while i < WORD_BITS
      invariant i <= WORD_BITS && forall j :: 0 <= j < i ==> !w[j]
    {
      if w[i] { return Some(i); }
      i := i + 1;
    }
    return None;
  }
}
