/** What a release leaves alone: the blocks it cannot lead to, the blocks that other
    references hold up, and whatever is being destroyed at the time. */
module Pacts {
  import opened RefCounts

  /** What the caller of a release may count on: blocks that it cannot reach (`fence`)
      and blocks (`roots`) that references which stay (`base`) lead to.  The roots are
      kept as long as no destructor takes a reference out of a field of another
      object (`tame`). */
  datatype Pact = Pact(fence: set<Block>, base: multiset<Block>, roots: set<Block>, tame: bool)

  /** Slots lead behind the fence only from behind it. */
  ghost predicate Fenced(h: Heap, fence: set<Block>)
    requires Shaped(h)
  {
    fence <= h.kind.Keys &&
    forall c, i :: c in h.strong && c !in fence && 0 <= i < |h.strong[c]| ==> h.strong[c][i] !in fence
  }

  /** The roots are held by the base or by one another. */
  ghost predicate Rooted(h: Heap, base: multiset<Block>, roots: set<Block>)
    requires Shaped(h)
  {
    base <= h.holds && roots <= h.kind.Keys && forall c :: c in roots ==> c in base || HeldWithin(h, roots, c)
  }

  ghost predicate HeldWithin(h: Heap, roots: set<Block>, c: Block) {
    exists d, i :: d in roots && d in h.strong && 0 <= i < |h.strong[d]| && h.strong[d][i] == c
  }

  ghost predicate Honoured(h: Heap, p: Pact)
    requires Shaped(h)
  {
    Fenced(h, p.fence) && Rooted(h, p.base, p.roots) && (p.tame || p.roots == {})
  }

  /** From h0 to h nothing outside `dying` goes wrong. */
  ghost predicate Calm(h0: Heap, h: Heap, dying: set<Block>, p: Pact)
    requires Shaped(h0) && Shaped(h)
  {
    h.active == h0.active && (NoDestructors(h0) ==> NoDestructors(h)) &&
    (forall c :: c in h0.kind && c !in dying ==> Safe(h0, h, p, c)) &&
    (forall c :: c in h.kind && c !in dying ==> Sound(h0, h, c))
  }

  /** What is being torn down stays as it is, as does everything behind the fence;
      running objects and roots stay live and keep their references. */
  ghost predicate Safe(h0: Heap, h: Heap, p: Pact, c: Block)
    requires Shaped(h0) && Shaped(h) && c in h0.kind
  {
    (h0.count[c] == 0 || c in p.fence ==> Frozen(h0, h, c)) &&
    (c in h0.active || c in p.roots ==> Stays(h0, h, p.tame, c))
  }

  /** No block is left behind with count zero, and without destructors nothing that is
      left has changed. */
  ghost predicate Sound(h0: Heap, h: Heap, c: Block)
    requires Shaped(h0) && Shaped(h) && c in h.kind
  {
    (h.count[c] == 0 ==> c in h0.kind && h0.count[c] == 0) && (NoDestructors(h0) ==> Unchanged(h0, h, c))
  }

  ghost predicate Frozen(h0: Heap, h: Heap, c: Block)
    requires Shaped(h0) && Shaped(h) && c in h0.kind
  {
    Unmoved(h0, h, c) && h.count[c] == h0.count[c]
  }

  ghost predicate Unmoved(h0: Heap, h: Heap, c: Block)
    requires Shaped(h0) && Shaped(h) && c in h0.kind
  {
    c in h.kind && h.kind[c] == h0.kind[c] && h.slots[c] == h0.slots[c] && h.strong[c] == h0.strong[c]
  }

  ghost predicate Unchanged(h0: Heap, h: Heap, c: Block)
    requires Shaped(h0) && Shaped(h) && c in h.kind
  {
    c in h0.kind && Unmoved(h0, h, c)
  }

  /** Live and of the same shape; with every reference it held, when destructors are tame. */
  ghost predicate Stays(h0: Heap, h: Heap, tame: bool, c: Block)
    requires Shaped(h0) && Shaped(h) && c in h0.kind
  {
    c in h.kind && h.kind[c] == h0.kind[c] && h.count[c] > 0 &&
    |h.slots[c]| == |h0.slots[c]| && |h.strong[c]| == |h0.strong[c]| &&
    (tame ==> Filled(h0.slots[c], h.slots[c]) && Filled(h0.strong[c], h.strong[c]))
  }

  /** The same slots, some empty ones filled. */
  predicate Filled(a: seq<Block>, b: seq<Block>)
    requires |a| == |b|
  {
    forall i :: 0 <= i < |a| && a[i] != 0 ==> b[i] == a[i]
  }

  predicate NoDestructors(h: Heap) {
    forall c :: c in h.kind ==> !HasDestructor(h.kind[c])
  }

  /** A destructor's body takes references only out of its own object's fields. */
  predicate Tame(body: seq<Action>) {
    forall k :: 0 <= k < |body| && body[k].Take? ==> body[k].name.This?
  }

  /** A body keeps within the pact. */
  ghost predicate Fits(body: seq<Action>, p: Pact) {
    (p.tame ==> Tame(body)) && forall k :: 0 <= k < |body| && body[k].Static? ==> body[k].x !in p.fence
  }

  ghost predicate AllFit(script: nat -> seq<Action>, p: Pact) {
    forall n: nat :: Fits(script(n), p)
  }

  // ------------------------------------------------------------ composing calm stretches

  lemma CalmSelf(h: Heap, dying: set<Block>, p: Pact)
    requires Ok(h) && Honoured(h, p)
    ensures Calm(h, h, dying, p)
  {
    hide Incoming, Counted, Closed, CountedAt, NoDestructors, Honoured, Exact, Pinned;
    forall c | c in h.kind ensures Safe(h, h, p, c) {
      if c in h.active || c in p.roots { SolidRoots(h, p, c); }
    }
  }

  lemma CalmStep(h0: Heap, h1: Heap, h2: Heap, dying: set<Block>, p: Pact)
    requires Shaped(h0) && Shaped(h1) && Shaped(h2) && Calm(h0, h1, dying, p) && Calm(h1, h2, dying, p)
    ensures Calm(h0, h2, dying, p)
  {
    hide Shaped, Safe, Sound, NoDestructors;
    forall c | c in h0.kind && c !in dying ensures Safe(h0, h2, p, c) { SafeStep(h0, h1, h2, dying, p, c); }
    forall c | c in h2.kind && c !in dying ensures Sound(h0, h2, c) { SoundStep(h0, h1, h2, dying, p, c); }
  }

  lemma SafeStep(h0: Heap, h1: Heap, h2: Heap, dying: set<Block>, p: Pact, c: Block)
    requires Shaped(h0) && Shaped(h1) && Shaped(h2) && Calm(h0, h1, dying, p) && Calm(h1, h2, dying, p) && c in h0.kind && c !in dying
    ensures Safe(h0, h2, p, c)
  {
    hide Sound, NoDestructors;
    assert Safe(h0, h1, p, c);
    assert c in h1.kind ==> Safe(h1, h2, p, c);
  }

  lemma SoundStep(h0: Heap, h1: Heap, h2: Heap, dying: set<Block>, p: Pact, c: Block)
    requires Shaped(h0) && Shaped(h1) && Shaped(h2) && Calm(h0, h1, dying, p) && Calm(h1, h2, dying, p) && c in h2.kind && c !in dying
    ensures Sound(h0, h2, c)
  {
    hide Safe, NoDestructors;
    assert Sound(h1, h2, c);
    assert c in h1.kind ==> Sound(h0, h1, c);
  }

  lemma CalmWidens(h0: Heap, h1: Heap, small: set<Block>, large: set<Block>, p: Pact)
    requires Shaped(h0) && Shaped(h1) && Calm(h0, h1, small, p) && small <= large
    ensures Calm(h0, h1, large, p)
  {
    hide Safe, Sound, Shaped, NoDestructors;
  }

  /** Counts of running objects and of roots are positive. */
  lemma SolidRoots(h: Heap, p: Pact, c: Block)
    requires Ok(h) && Honoured(h, p) && (c in h.active || c in p.roots)
    ensures c in h.kind && h.count[c] > 0
  {
    hide Incoming, Counted, Closed, CountedAt, Fenced;
    if c in p.roots && c !in p.base {
      assert HeldWithin(h, p.roots, c);
      var d, i :| d in p.roots && d in h.strong && 0 <= i < |h.strong[d]| && h.strong[d][i] == c;
      IncomingHas(h.strong, d, i);
    } else {
      assert c in h.holds;
    }
  }

  /** Links among the roots stay, as long as their slots are only filled. */
  lemma StillRooted(h: Heap, h1: Heap, p: Pact)
    requires Shaped(h) && Shaped(h1) && Rooted(h, p.base, p.roots) && p.base <= h1.holds && 0 !in p.roots
    requires forall c :: c in p.roots ==> c in h1.kind && |h1.strong[c]| == |h.strong[c]| && Filled(h.strong[c], h1.strong[c])
    ensures Rooted(h1, p.base, p.roots)
  {
    hide Incoming;
    forall c | c in p.roots && c !in p.base ensures HeldWithin(h1, p.roots, c) {
      assert HeldWithin(h, p.roots, c);
      var d, i :| d in p.roots && d in h.strong && 0 <= i < |h.strong[d]| && h.strong[d][i] == c;
      assert h1.strong[d][i] == c;
    }
  }

  // ------------------------------------------------------- the elementary updates are calm

  lemma RetainCalm(h: Heap, b: Block, dying: set<Block>, p: Pact)
    requires Ok(h) && Honoured(h, p) && b in h.kind && h.count[b] > 0 && b !in p.fence && Shaped(Retain(h, b))
    ensures Calm(h, Retain(h, b), dying, p) && Honoured(Retain(h, b), p)
  {
    hide Incoming, Counted, Closed, CountedAt, Exact, Pinned, NoDestructors, Fenced, HeldWithin, Safe;
    var h1 := Retain(h, b);
    forall c | c in h.kind ensures Safe(h, h1, p, c) { SafeCount(h, h1, p, b, c); }
    SameKinds(h, h1);
    SameSlotsHonoured(h, h1, p);
  }

  lemma ReleaseCalm(h: Heap, b: Block, dying: set<Block>, p: Pact)
    requires Ok(h) && Honoured(h, p) && b in h.kind && h.count[b] > 1 && b !in p.fence && Shaped(Release(h, b))
    requires p.base <= Release(h, b).holds
    ensures Calm(h, Release(h, b), dying, p) && Honoured(Release(h, b), p)
  {
    hide Incoming, Counted, Closed, CountedAt, Exact, Pinned, NoDestructors, Honoured, Safe;
    var h1 := Release(h, b);
    forall c | c in h.kind ensures Safe(h, h1, p, c) { SafeCount(h, h1, p, b, c); }
    SameKinds(h, h1);
    SameSlotsHonoured(h, h1, p);
  }

  /** One count changes, and does not become zero. */
  lemma SafeCount(h: Heap, h1: Heap, p: Pact, b: Block, c: Block)
    requires Ok(h) && Honoured(h, p) && Shaped(h1) && h1 == h.(count := h1.count, holds := h1.holds) && c in h.kind && b in h.kind
    requires b !in p.fence && h.count[b] > 0 && h1.count[b] > 0 && (c != b ==> h1.count[c] == h.count[c])
    ensures Safe(h, h1, p, c)
  {
    hide Incoming, Counted, Closed, CountedAt, Exact, Pinned, NoDestructors, Honoured;
    if c in h.active || c in p.roots { SolidRoots(h, p, c); }
  }

  lemma SameSlotsHonoured(h: Heap, h1: Heap, p: Pact)
    requires Shaped(h) && Shaped(h1) && Honoured(h, p) && h1.kind == h.kind && h1.strong == h.strong && p.base <= h1.holds
    ensures Honoured(h1, p)
  {
    hide Incoming;
    StillRooted(h, h1, p);
  }

  lemma UnslotCalm(h: Heap, b: Block, i: nat, keepStored: bool, dying: set<Block>, p: Pact)
    requires Ok(h) && Honoured(h, p) && b in h.kind && b !in p.fence && b !in p.roots
    requires i < |h.slots[b]| && i < |h.strong[b]| && Shaped(Unslot(h, b, i, keepStored))
    requires b in dying || (!p.tame && h.count[b] > 0 && !NoDestructors(h))
    ensures Calm(h, Unslot(h, b, i, keepStored), dying, p) && Honoured(Unslot(h, b, i, keepStored), p)
  {
    hide Incoming, Counted, Closed, CountedAt, Exact, Pinned, NoDestructors, Honoured, Safe, Sound;
    var h1 := Unslot(h, b, i, keepStored);
    forall c | c in h.kind && c !in dying ensures Safe(h, h1, p, c) { SafeUnslot(h, b, i, keepStored, p, c); }
    forall c | c in h.kind && c !in dying ensures Sound(h, h1, c) { SoundUnslot(h, b, i, keepStored, c); }
    SameKinds(h, h1);
    UnslotHonoured(h, b, i, keepStored, p);
  }

  lemma SameKinds(h: Heap, h1: Heap)
    requires h1.kind == h.kind
    ensures NoDestructors(h) == NoDestructors(h1)
  {
  }

  lemma SafeUnslot(h: Heap, b: Block, i: nat, keepStored: bool, p: Pact, c: Block)
    requires Ok(h) && Honoured(h, p) && b in h.kind && b !in p.fence && b !in p.roots && c in h.kind
    requires i < |h.slots[b]| && i < |h.strong[b]| && Shaped(Unslot(h, b, i, keepStored)) && (c == b ==> !p.tame && h.count[b] > 0)
    ensures Safe(h, Unslot(h, b, i, keepStored), p, c)
  {
    hide Incoming, Counted, Closed, CountedAt, Exact, Pinned, NoDestructors, Honoured;
    if c in h.active || c in p.roots { SolidRoots(h, p, c); }
  }

  lemma SoundUnslot(h: Heap, b: Block, i: nat, keepStored: bool, c: Block)
    requires Shaped(h) && b in h.kind && c in h.kind && (c == b ==> !NoDestructors(h))
    requires i < |h.slots[b]| && i < |h.strong[b]| && Shaped(Unslot(h, b, i, keepStored))
    ensures Sound(h, Unslot(h, b, i, keepStored), c)
  {
    hide Incoming, NoDestructors;
  }

  lemma UnslotHonoured(h: Heap, b: Block, i: nat, keepStored: bool, p: Pact)
    requires Shaped(h) && Honoured(h, p) && b in h.kind && b !in p.roots
    requires i < |h.slots[b]| && i < |h.strong[b]| && Shaped(Unslot(h, b, i, keepStored))
    ensures Honoured(Unslot(h, b, i, keepStored), p)
  {
    hide Incoming;
    var h1 := Unslot(h, b, i, keepStored);
    forall c, j | c in h1.strong && c !in p.fence && 0 <= j < |h1.strong[c]| ensures h1.strong[c][j] !in p.fence {
      assert h1.strong[c][j] == 0 || h1.strong[c][j] == h.strong[c][j];
    }
    StillRooted(h, h1, p);
  }

  lemma FreeHonoured(h: Heap, b: Block, p: Pact)
    requires Shaped(h) && Honoured(h, p) && b in h.kind && b !in p.fence && b !in p.roots && Shaped(Free(h, b))
    ensures Honoured(Free(h, b), p)
  {
    hide Incoming;
    StillRooted(h, Free(h, b), p);
  }

  lemma FreshCalm(h: Heap, x: Block, k: Kind, n: nat, dying: set<Block>, p: Pact)
    requires Ok(h) && Honoured(h, p) && x != 0 && x !in h.kind && !NoDestructors(h) && Shaped(Fresh(h, x, k, n))
    ensures Calm(h, Fresh(h, x, k, n), dying, p) && Honoured(Fresh(h, x, k, n), p)
  {
    hide Incoming, Counted, Closed, CountedAt, Exact, Pinned, NoDestructors, Honoured, Safe;
    var h1 := Fresh(h, x, k, n);
    forall c | c in h.kind ensures Safe(h, h1, p, c) { SafeFresh(h, x, k, n, p, c); }
    FreshHonoured(h, x, k, n, p);
  }

  lemma SafeFresh(h: Heap, x: Block, k: Kind, n: nat, p: Pact, c: Block)
    requires Ok(h) && Honoured(h, p) && x !in h.kind && c in h.kind && Shaped(Fresh(h, x, k, n))
    ensures Safe(h, Fresh(h, x, k, n), p, c)
  {
    hide Incoming, Counted, Closed, CountedAt, Exact, Pinned, NoDestructors, Honoured;
    if c in h.active || c in p.roots { SolidRoots(h, p, c); }
  }

  lemma FreshHonoured(h: Heap, x: Block, k: Kind, n: nat, p: Pact)
    requires Shaped(h) && Honoured(h, p) && x !in h.kind && Shaped(Fresh(h, x, k, n))
    ensures Honoured(Fresh(h, x, k, n), p)
  {
    hide Incoming;
    StillRooted(h, Fresh(h, x, k, n), p);
  }

  lemma StoredCalm(h: Heap, c: Block, i: nat, x: Block, dying: set<Block>, p: Pact)
    requires Ok(h) && Honoured(h, p) && c in h.kind && h.count[c] > 0 && i < |h.slots[c]| && h.slots[c][i] == 0 && i < |h.strong[c]| && h.strong[c][i] == 0
    requires c !in p.fence && x !in p.fence && p.base <= h.holds - multiset{x} && !NoDestructors(h) && Shaped(Stored(h, c, i, x))
    ensures Calm(h, Stored(h, c, i, x), dying, p) && Honoured(Stored(h, c, i, x), p)
  {
    hide Incoming, Counted, Closed, CountedAt, Exact, Pinned, NoDestructors, Honoured, Safe;
    var h1 := Stored(h, c, i, x);
    forall d | d in h.kind ensures Safe(h, h1, p, d) { SafeStored(h, c, i, x, p, d); }
    SameKinds(h, h1);
    StoredHonoured(h, c, i, x, p);
  }

  lemma SafeStored(h: Heap, c: Block, i: nat, x: Block, p: Pact, d: Block)
    requires Ok(h) && Honoured(h, p) && c in h.kind && d in h.kind && h.count[c] > 0 && c !in p.fence
    requires i < |h.slots[c]| && h.slots[c][i] == 0 && i < |h.strong[c]| && h.strong[c][i] == 0 && Shaped(Stored(h, c, i, x))
    ensures Safe(h, Stored(h, c, i, x), p, d)
  {
    hide Incoming, Counted, Closed, CountedAt, Exact, Pinned, NoDestructors, Honoured;
    if d in h.active || d in p.roots { SolidRoots(h, p, d); }
  }

  lemma StoredHonoured(h: Heap, c: Block, i: nat, x: Block, p: Pact)
    requires Shaped(h) && Honoured(h, p) && c in h.kind && i < |h.slots[c]| && i < |h.strong[c]| && h.strong[c][i] == 0
    requires c !in p.fence && x !in p.fence && p.base <= h.holds - multiset{x} && Shaped(Stored(h, c, i, x))
    ensures Honoured(Stored(h, c, i, x), p)
  {
    hide Incoming;
    var h1 := Stored(h, c, i, x);
    forall d, j | d in h1.strong && d !in p.fence && 0 <= j < |h1.strong[d]| ensures h1.strong[d][j] !in p.fence {
      assert h1.strong[d][j] == x || h1.strong[d][j] == h.strong[d][j];
    }
    StillRooted(h, h1, p);
  }
}
