/** How the dynamic part of the heap is divided: blocks of an 8-byte header and a
    payload, some of them free, and what claiming and freeing do to the division. */
module HeapLayout {

  /** Payload sizes by header address; `free` are the blocks in the free indexes. */
  datatype Layout = Layout(base: nat, top: nat, size: map<nat, nat>, free: set<nat>)

  function End(l: Layout, a: nat): nat
    requires a in l.size
  {
    a + 8 + l.size[a]
  }

  predicate IsLive(l: Layout, a: nat) {
    a in l.size && a !in l.free
  }

  /** The blocks tile [base, top) on 8-byte boundaries. */
  predicate Tiled(l: Layout) {
    l.base % 8 == 0 && l.top % 8 == 0 && l.base <= l.top && l.free <= l.size.Keys &&
    (l.base == l.top || l.base in l.size) &&
    (forall a :: a in l.size ==> Fits(l, a)) &&
    (forall a, b :: a in l.size && b in l.size && a < b ==> End(l, a) <= b)
  }

  predicate Fits(l: Layout, a: nat)
    requires a in l.size
  {
    a % 8 == 0 && l.base <= a && l.size[a] >= 8 && l.size[a] % 8 == 0 && End(l, a) <= l.top &&
    (End(l, a) == l.top || End(l, a) in l.size)
  }

  /** No two free blocks touch, and none ends at the top. */
  predicate Settled(l: Layout) {
    forall a :: a in l.free && a in l.size ==> End(l, a) != l.top && End(l, a) !in l.free
  }

  /** Settled but for the block at h. */
  predicate Unsettled(l: Layout, h: nat) {
    h in l.free &&
    forall a :: a in l.free && a in l.size && a != h ==> End(l, a) != l.top && (End(l, a) in l.free ==> End(l, a) == h)
  }

  // --------------------------------------------------------------- tiling, pointwise

  /** Every address below the top lies in exactly one block. */
  lemma {:induction false} InOneBlock(l: Layout, x: nat)
    requires Tiled(l) && l.base <= x < l.top
    ensures exists a :: a in l.size && a <= x < End(l, a) && forall b :: b in l.size && b <= x < End(l, b) ==> b == a
  {
    hide Fits;
    var a := BlockFrom(l, l.base, x);
  }

  lemma {:induction false} BlockFrom(l: Layout, from: nat, x: nat) returns (a: nat)
    requires Tiled(l) && from in l.size && from <= x < l.top
    ensures a in l.size && a <= x < End(l, a)
    decreases l.top - from
  {
    hide Fits;
    FitsFacts(l, from);
    if x < End(l, from) {
      a := from;
    } else {
      a := BlockFrom(l, End(l, from), x);
    }
  }

  lemma FitsFacts(l: Layout, a: nat)
    requires a in l.size && Fits(l, a)
    ensures a % 8 == 0 && l.base <= a && l.size[a] >= 8 && l.size[a] % 8 == 0 && End(l, a) <= l.top
    ensures End(l, a) == l.top || End(l, a) in l.size
  {
  }

  lemma TiledFacts(l: Layout, a: nat)
    requires Tiled(l) && a in l.size
    ensures a % 8 == 0 && l.base <= a && l.size[a] >= 8 && l.size[a] % 8 == 0 && End(l, a) <= l.top
    ensures End(l, a) == l.top || End(l, a) in l.size
    ensures l.free <= l.size.Keys
  {
    hide Fits;
    FitsFacts(l, a);
  }

  lemma Ordered(l: Layout, a: nat, b: nat)
    requires Tiled(l) && a in l.size && b in l.size
    ensures a < b ==> End(l, a) <= b
  {
  }

  // ------------------------------------------------------------------------- claiming

  /** Give out a free block as it is. */
  function Taken(l: Layout, h: nat): Layout {
    l.(free := l.free - {h})
  }

  /** Give out the front of a free block and keep the rest free. */
  function Split(l: Layout, h: nat, p: nat): Layout
    requires h in l.size && l.size[h] >= p + 16
  {
    l.(size := l.size[h := p][h + 8 + p := l.size[h] - p - 8], free := l.free - {h} + {h + 8 + p})
  }

  /** Give out space above the top. */
  function Raised(l: Layout, p: nat): Layout {
    l.(top := l.top + 8 + p, size := l.size[l.top := p])
  }

  lemma TakenOk(l: Layout, h: nat)
    requires Tiled(l) && Settled(l) && h in l.free
    ensures Tiled(Taken(l, h)) && Settled(Taken(l, h))
  {
    hide Fits;
    var l1 := Taken(l, h);
    forall a | a in l1.size ensures Fits(l1, a) { FitsFacts(l, a); SameFits(l, l1, a); }
  }

  /** A block still fits when its end is still the top or a block. */
  lemma SameFits(l: Layout, l1: Layout, a: nat)
    requires a in l.size && a in l1.size && l1.size[a] == l.size[a] && l1.base == l.base && Fits(l, a)
    requires End(l, a) <= l1.top && (End(l, a) == l1.top || End(l, a) in l1.size)
    ensures Fits(l1, a)
  {
  }

  lemma SplitOk(l: Layout, h: nat, p: nat)
    requires Tiled(l) && Settled(l) && h in l.free && p >= 8 && p % 8 == 0 && l.size[h] >= p + 16
    ensures Tiled(Split(l, h, p)) && Settled(Split(l, h, p)) && h + 8 + p !in l.size
  {
    hide Fits, Tiled, Settled;
    FreeInside(l, h);
    RestIsNoBlock(l, h, p);
    SplitTiled(l, h, p);
    SplitSettled(l, h, p);
  }

  lemma FreeInside(l: Layout, h: nat)
    requires Tiled(l) && h in l.free
    ensures h in l.size
  {
    hide Fits;
  }

  lemma RestIsNoBlock(l: Layout, h: nat, p: nat)
    requires Tiled(l) && h in l.size && p >= 8 && l.size[h] >= p + 16
    ensures h + 8 + p !in l.size
  {
    hide Fits;
    if h + 8 + p in l.size { Ordered(l, h, h + 8 + p); }
  }

  lemma SplitTiled(l: Layout, h: nat, p: nat)
    requires Tiled(l) && h in l.free && p >= 8 && p % 8 == 0 && l.size[h] >= p + 16 && h + 8 + p !in l.size
    ensures Tiled(Split(l, h, p))
  {
    hide Fits;
    var l1 := Split(l, h, p);
    forall a | a in l1.size ensures Fits(l1, a) { SplitFit(l, h, p, a); }
    forall a, b | a in l1.size && b in l1.size && a < b ensures End(l1, a) <= b { SplitOrdered(l, h, p, a, b); }
  }

  lemma SplitFit(l: Layout, h: nat, p: nat, a: nat)
    requires Tiled(l) && h in l.size && p >= 8 && p % 8 == 0 && l.size[h] >= p + 16 && h + 8 + p !in l.size && a in Split(l, h, p).size
    ensures Fits(Split(l, h, p), a)
  {
    hide Fits;
    FitsFacts(l, h);
    if a == h || a == h + 8 + p {
      SplitFits(l, h, p);
    } else {
      FitsFacts(l, a);
      SameFits(l, Split(l, h, p), a);
    }
  }

  lemma SplitOrdered(l: Layout, h: nat, p: nat, a: nat, b: nat)
    requires Tiled(l) && h in l.size && p >= 8 && l.size[h] >= p + 16 && h + 8 + p !in l.size
    requires a in Split(l, h, p).size && b in Split(l, h, p).size && a < b
    ensures End(Split(l, h, p), a) <= b
  {
    hide Fits;
    var rest := h + 8 + p;
    assert a in l.size && b in l.size ==> End(l, a) <= b;
    assert a in l.size && a < h ==> End(l, a) <= h;
    assert b in l.size && h < b ==> End(l, h) <= b;
  }

  lemma SplitSettled(l: Layout, h: nat, p: nat)
    requires Tiled(l) && Settled(l) && h in l.free && p >= 8 && l.size[h] >= p + 16 && h + 8 + p !in l.size
    ensures Settled(Split(l, h, p))
  {
    hide Fits;
    var l1 := Split(l, h, p);
    forall a | a in l1.free && a in l1.size ensures End(l1, a) != l1.top && End(l1, a) !in l1.free {
      EndsApart(l, h, p, a);
    }
  }

  /** No free block ends where the rest of a split one begins. */
  lemma EndsApart(l: Layout, h: nat, p: nat, a: nat)
    requires Tiled(l) && Settled(l) && h in l.free && p >= 8 && l.size[h] >= p + 16 && h + 8 + p !in l.size
    requires a in Split(l, h, p).free && a in Split(l, h, p).size
    ensures var l1 := Split(l, h, p); End(l1, a) != l1.top && End(l1, a) !in l1.free
  {
    hide Fits, Tiled;
    FreeInside(l, h);
    TiledFacts(l, h);
    if a != h + 8 + p { TiledFacts(l, a); }
  }

  lemma SplitFits(l: Layout, h: nat, p: nat)
    requires h in l.size && Fits(l, h) && p >= 8 && p % 8 == 0 && l.size[h] >= p + 16
    ensures Fits(Split(l, h, p), h) && Fits(Split(l, h, p), h + 8 + p)
  {
  }

  lemma RaisedOk(l: Layout, p: nat)
    requires Tiled(l) && Settled(l) && p >= 8 && p % 8 == 0
    ensures Tiled(Raised(l, p)) && Settled(Raised(l, p)) && l.top !in l.size
  {
    hide Fits, Tiled, Settled;
    var l1 := Raised(l, p);
    TopIsNoBlock(l);
    RaisedTiled(l, p);
    RaisedSettled(l, p);
  }

  lemma TopIsNoBlock(l: Layout)
    requires Tiled(l)
    ensures l.top !in l.size && l.top % 8 == 0 && l.free <= l.size.Keys
    ensures forall a :: a in l.size ==> a < l.top && End(l, a) <= l.top
  {
    hide Fits;
    forall a | a in l.size ensures a < l.top && End(l, a) <= l.top { FitsFacts(l, a); }
  }

  lemma RaisedTiled(l: Layout, p: nat)
    requires Tiled(l) && p >= 8 && p % 8 == 0
    ensures Tiled(Raised(l, p))
  {
    hide Fits;
    var l1 := Raised(l, p);
    TopIsNoBlock(l);
    forall a | a in l1.size ensures Fits(l1, a) {
      if a == l.top { RaisedFits(l, p); } else { FitsFacts(l, a); SameFits(l, l1, a); }
    }
  }

  lemma RaisedSettled(l: Layout, p: nat)
    requires Tiled(l) && Settled(l)
    ensures Settled(Raised(l, p))
  {
    hide Fits;
    TopIsNoBlock(l);
  }

  lemma RaisedFits(l: Layout, p: nat)
    requires l.base <= l.top && l.top % 8 == 0 && p >= 8 && p % 8 == 0
    ensures Fits(Raised(l, p), l.top)
  {
  }

  // -------------------------------------------------------------------------- freeing

  function Freed(l: Layout, h: nat): Layout {
    l.(free := l.free + {h})
  }

  /** Join a block with the one behind it. */
  function Joined(l: Layout, a: nat): Layout
    requires a in l.size && End(l, a) in l.size
  {
    l.(size := l.size[a := l.size[a] + 8 + l.size[End(l, a)]] - {End(l, a)}, free := l.free - {End(l, a)})
  }

  function Lowered(l: Layout, h: nat): Layout {
    l.(top := h, size := l.size - {h}, free := l.free - {h})
  }

  lemma FreedOk(l: Layout, h: nat)
    requires Tiled(l) && Settled(l) && IsLive(l, h)
    ensures Tiled(Freed(l, h)) && Unsettled(Freed(l, h), h)
  {
    hide Fits;
    var l1 := Freed(l, h);
    forall a | a in l1.size ensures Fits(l1, a) { FitsFacts(l, a); SameFits(l, l1, a); }
  }

  lemma JoinedTiled(l: Layout, a: nat)
    requires Tiled(l) && a in l.free && End(l, a) in l.free
    ensures Tiled(Joined(l, a)) && End(Joined(l, a), a) == End(l, End(l, a))
  {
    hide Fits;
    var n := End(l, a);
    var l1 := Joined(l, a);
    FitsFacts(l, a);
    FitsFacts(l, n);
    assert End(l1, a) == End(l, n);
    forall b | b in l1.size ensures Fits(l1, b) {
      FitsFacts(l, b);
      if b == a { JoinedFits(l, a); } else { SameFits(l, l1, b); }
    }
    forall b, c | b in l1.size && c in l1.size && b < c ensures End(l1, b) <= c {
      assert End(l, b) <= c;
      if b == a { assert n < c; }
    }
  }

  lemma JoinedFits(l: Layout, a: nat)
    requires a in l.size && End(l, a) in l.size && Fits(l, a) && Fits(l, End(l, a)) && End(l, End(l, a)) > a
    ensures Fits(Joined(l, a), a)
  {
  }

  lemma JoinNextOk(l: Layout, h: nat)
    requires Tiled(l) && Unsettled(l, h) && h in l.size && End(l, h) in l.free && End(l, h) in l.size
    ensures Tiled(Joined(l, h)) && Unsettled(Joined(l, h), h) && End(Joined(l, h), h) !in Joined(l, h).free
    ensures End(Joined(l, h), h) != l.top
  {
    hide Tiled;
    JoinedTiled(l, h);
    var n := End(l, h);
    TiledFacts(l, n);
  }

  lemma JoinPreviousOk(l: Layout, p: nat, h: nat)
    requires Tiled(l) && Unsettled(l, h) && h in l.size && p in l.size && End(l, h) !in l.free && p in l.free && End(l, p) == h
    ensures Tiled(Joined(l, p)) && Unsettled(Joined(l, p), p) && Alone(Joined(l, p), p)
    ensures End(Joined(l, p), p) == End(l, h)
  {
    hide Tiled;
    JoinedTiled(l, p);
    TiledFacts(l, h);
    var l1 := Joined(l, p);
    forall a | a in l1.free && a != p ensures End(l1, a) != p {
      assert End(l, a) == End(l1, a);
    }
  }

  /** No free block touches h. */
  predicate Alone(l: Layout, h: nat)
    requires h in l.size
  {
    End(l, h) !in l.free && forall a :: a in l.free && a in l.size && a != h ==> End(l, a) != h
  }

  /** When the nearest free block below does not end at h, none does. */
  lemma NothingBefore(l: Layout, h: nat, p: nat)
    requires Tiled(l) && Unsettled(l, h) && End(l, h) !in l.free
    requires forall a :: a in l.free && a < h ==> a <= p < h && p in l.free && p in l.size && End(l, p) != h
    ensures Alone(l, h)
  {
    hide Fits;
    forall a | a in l.free && a != h ensures End(l, a) != h {
      FitsFacts(l, a);
      assert a < h && a != p ==> End(l, a) <= p;
    }
  }

  lemma LoweredOk(l: Layout, h: nat)
    requires Tiled(l) && Unsettled(l, h) && Alone(l, h) && End(l, h) == l.top
    ensures Tiled(Lowered(l, h)) && Settled(Lowered(l, h))
  {
    hide Fits;
    var l1 := Lowered(l, h);
    FitsFacts(l, h);
    forall a | a in l1.size ensures a < h && Fits(l1, a) {
      FitsFacts(l, a);
      Ordered(l, h, a);
      SameFits(l, l1, a);
    }
  }

  lemma KeptOk(l: Layout, h: nat)
    requires Tiled(l) && Unsettled(l, h) && Alone(l, h) && End(l, h) != l.top
    ensures Settled(l)
  {
    hide Fits;
  }

  // ---------------------------------------------------------------------- consequences

  /** With nothing live, everything has been given back. */
  lemma DrainedCompletely(l: Layout)
    requires Tiled(l) && Settled(l) && forall a :: a in l.size ==> a in l.free
    ensures l.top == l.base && l.size == map[] && l.free == {}
  {
    hide Fits, Tiled, Settled;
    forall a ensures a !in l.size { NoFreeBlockAlone(l, a); }
    OnlyBlocksSeparate(l);
  }

  lemma NoFreeBlockAlone(l: Layout, a: nat)
    requires Tiled(l) && Settled(l) && forall a :: a in l.size ==> a in l.free
    ensures a !in l.size
  {
    hide Fits;
    if a in l.size { FitsFacts(l, a); }
  }

  lemma OnlyBlocksSeparate(l: Layout)
    requires Tiled(l) && forall a :: a !in l.size
    ensures l.top == l.base && l.size == map[] && l.free == {}
  {
    assert l.size.Keys == {};
  }

  // ------------------------------------------------------------- what stays as it was

  /** Apart from h, the same blocks are live, with the same sizes. */
  ghost predicate SameLiveBut(l: Layout, l1: Layout, h: nat) {
    forall a :: a != h ==> (IsLive(l, a) <==> IsLive(l1, a)) && (IsLive(l, a) ==> l1.size[a] == l.size[a])
  }

  ghost predicate SameLive(l: Layout, l1: Layout) {
    forall a :: (IsLive(l, a) <==> IsLive(l1, a)) && (IsLive(l, a) ==> l1.size[a] == l.size[a])
  }

  lemma SplitLive(l: Layout, h: nat, p: nat)
    requires h in l.free && h in l.size && l.size[h] >= p + 16 && h + 8 + p !in l.size
    ensures SameLiveBut(l, Split(l, h, p), h) && IsLive(Split(l, h, p), h)
  {
  }

  lemma JoinedLive(l: Layout, a: nat)
    requires a in l.size && a in l.free && End(l, a) in l.size && End(l, a) in l.free
    ensures SameLive(l, Joined(l, a))
  {
  }

  // ------------------------------------------------------------------------- accounting

  /** Header and payload of a live block, in words. */
  function WordsAt(l: Layout, a: nat): nat {
    if IsLive(l, a) then (8 + l.size[a]) / 8 else 0
  }

  function Used(l: Layout, limit: nat): nat {
    if limit == 0 then 0 else Used(l, limit - 1) + WordsAt(l, limit - 1)
  }

  function LiveWords(l: Layout): nat {
    Used(l, l.top)
  }

  function LiveCount(l: Layout): nat {
    |l.size.Keys - l.free|
  }

  lemma {:induction false} UsedDiffers(l: Layout, l1: Layout, h: nat, limit: nat)
    requires forall a :: a != h ==> WordsAt(l, a) == WordsAt(l1, a)
    ensures Used(l1, limit) == Used(l, limit) + (if h < limit then WordsAt(l1, h) - WordsAt(l, h) else 0)
  {
    if limit != 0 { UsedDiffers(l, l1, h, limit - 1); }
  }

  lemma {:induction false} NothingAbove(l: Layout, limit: nat)
    requires Tiled(l) && l.top <= limit
    ensures Used(l, limit) == Used(l, l.top)
  {
    hide Fits;
    if l.top < limit {
      NothingAbove(l, limit - 1);
      if IsLive(l, limit - 1) { FitsFacts(l, limit - 1); }
    }
  }

  /** The extents of all blocks together make up the dynamic heap. */
  function Extents(l: Layout, limit: nat): nat {
    if limit == 0 then 0 else Extents(l, limit - 1) + (if limit - 1 in l.size then 8 + l.size[limit - 1] else 0)
  }

  lemma {:induction false} ExtentsFrom(l: Layout, a: nat, x: nat)
    requires Tiled(l) && a in l.size && a < x <= End(l, a)
    ensures Extents(l, x) == Extents(l, a) + 8 + l.size[a]
  {
    hide Fits;
    if x - 1 > a {
      ExtentsFrom(l, a, x - 1);
    }
  }

  lemma {:induction false} TilesExactly(l: Layout)
    requires Tiled(l)
    ensures Extents(l, l.top) == l.top - l.base
  {
    hide Fits;
    NothingBelow(l, l.base);
    if l.base != l.top { TilesFrom(l, l.base); }
  }

  lemma {:induction false} NothingBelow(l: Layout, x: nat)
    requires Tiled(l) && x <= l.base
    ensures Extents(l, x) == 0
  {
    hide Fits;
    if x != 0 {
      NothingBelow(l, x - 1);
      if x - 1 in l.size { FitsFacts(l, x - 1); }
    }
  }

  lemma {:induction false} TilesFrom(l: Layout, a: nat)
    requires Tiled(l) && a in l.size && Extents(l, a) == a - l.base
    ensures Extents(l, l.top) == l.top - l.base
    decreases l.top - a
  {
    hide Fits;
    FitsFacts(l, a);
    ExtentsFrom(l, a, End(l, a));
    if End(l, a) != l.top { TilesFrom(l, End(l, a)); }
  }
}
