/** What the two bit maps of the bitmap allocator stand for: a set of disjoint extents. */
module Extents {
  datatype Extent = Extent(start: nat, len: nat)

  ghost predicate Covers(e: Extent, p: nat) { e.start <= p < e.start + e.len }

  ghost predicate Covered(xs: set<Extent>, p: nat) { exists e :: e in xs && Covers(e, p) }

  ghost predicate Delimited(b: seq<bool>, e: Extent)
    requires e.start + e.len < |b|
  {
    b[e.start] && b[e.start + e.len] && forall p :: e.start < p < e.start + e.len ==> !b[p]
  }

  /** `a` marks exactly the union of the extents; each has boundary marks in `b` at its two ends and none inside. */
  ghost predicate Represents(a: seq<bool>, b: seq<bool>, xs: set<Extent>, units: nat) {
    && |a| == |b| && units < |a|
    && (forall e :: e in xs ==> 0 < e.len && e.start + e.len <= units)
    && (forall e, f, p: nat :: e in xs && f in xs && Covers(e, p) && Covers(f, p) ==> e == f)
    && (forall p: nat :: p < |a| ==> (a[p] <==> Covered(xs, p)))
    && (forall e :: e in xs ==> Delimited(b, e))
  }

  /** Marking a free range as allocated adds one extent disjoint from all live ones. */
  lemma Allocated(a: seq<bool>, b: seq<bool>, xs: set<Extent>, units: nat, e: Extent, a': seq<bool>, b': seq<bool>)
    requires Represents(a, b, xs, units) && 0 < e.len && e.start + e.len <= units
    requires forall p: nat :: Covers(e, p) ==> !a[p]
    requires |a'| == |a| && |b'| == |b|
    requires forall p: nat :: p < |a| ==> a'[p] == (a[p] || Covers(e, p))
    requires forall p: nat :: p < |b| ==>
               b'[p] == (p == e.start || p == e.start + e.len || (b[p] && !Covers(e, p)))
    ensures e !in xs && Represents(a', b', xs + {e}, units)
  {
    assert Covers(e, e.start);
    forall f, p: nat | f in xs && Covers(f, p) ensures a[p] && !Covers(e, p) { assert Covered(xs, p); }
    forall f | f in xs ensures Delimited(b', f) {
      assert Delimited(b, f) && Covers(f, f.start) && Covers(f, f.start + f.len - 1);
      forall p: nat | f.start < p < f.start + f.len ensures !b'[p] {
        assert Covers(f, p) && Covers(f, p - 1);
      }
    }
    forall p: nat | p < |a| ensures a'[p] <==> Covered(xs + {e}, p) {
      if Covered(xs, p) { var f :| f in xs && Covers(f, p); assert f in xs + {e}; }
      if Covers(e, p) { assert e in xs + {e}; }
    }
  }

  /** An allocated unit with a boundary mark is exactly the start of a live extent. */
  lemma StartOf(a: seq<bool>, b: seq<bool>, xs: set<Extent>, units: nat, p: nat)
    requires Represents(a, b, xs, units) && p < |a|
    ensures a[p] && b[p] <==> exists e :: e in xs && e.start == p
  {
    if a[p] && b[p] {
      var e :| e in xs && Covers(e, p);
      assert Delimited(b, e);
    }
    if e :| e in xs && e.start == p {
      assert Covers(e, p) && Delimited(b, e);
    }
  }

  /** Clearing a live extent removes exactly it. */
  lemma Freed(a: seq<bool>, b: seq<bool>, xs: set<Extent>, units: nat, e: Extent, a': seq<bool>)
    requires Represents(a, b, xs, units) && e in xs && |a'| == |a|
    requires forall p: nat :: p < |a| ==> a'[p] == (a[p] && !Covers(e, p))
    ensures Represents(a', b, xs - {e}, units)
  {
    forall p: nat | p < |a| ensures a'[p] <==> Covered(xs - {e}, p) {
      if a'[p] { var f :| f in xs && Covers(f, p); assert f in xs - {e}; }
      if Covered(xs - {e}, p) { var f :| f in xs - {e} && Covers(f, p); assert Covered(xs, p); }
    }
  }

  /** The live extents are determined by the maps: no length needs storing. */
  lemma Unique(a: seq<bool>, b: seq<bool>, xs: set<Extent>, ys: set<Extent>, units: nat)
    requires Represents(a, b, xs, units) && Represents(a, b, ys, units)
    ensures xs == ys
  {
    forall e | e in xs ensures e in ys { Same(a, b, xs, ys, units, e); }
    forall e | e in ys ensures e in xs { Same(a, b, ys, xs, units, e); }
  }

  lemma Same(a: seq<bool>, b: seq<bool>, xs: set<Extent>, ys: set<Extent>, units: nat, e: Extent)
    requires Represents(a, b, xs, units) && Represents(a, b, ys, units) && e in xs
    ensures e in ys
  {
    StartOf(a, b, xs, units, e.start);
    StartOf(a, b, ys, units, e.start);
    var f :| f in ys && f.start == e.start;
    assert Delimited(b, e) && Delimited(b, f);
  }
}
