/** Reference counting at the level of blocks: what a count means, and what each
    elementary update does to it. */
module RefCounts {
  type Block = nat     // an address; 0 is null

  datatype Kind =
    | Plain                         // no strong slots are looked at
    | Object(hasDestructor: bool)   // strong fields
    | RefArray
    | Closure                       // captured references, selected by the masks

  /** A block that a destructor's body can name: its object, or one it keeps. */
  datatype Name = This | Kept(k: nat)

  /** What a destructor's body does with references, step by step. */
  datatype Action =
    | Hold(name: Name)                  // keep one more reference to a block
    | Load(name: Name, i: nat)          // keep a reference to what a field holds
    | Static(x: Block)                  // keep a reference to a block known from elsewhere
    | New(kind: Kind, n: nat)           // create a block and keep it
    | Drop(k: nat)                      // drop a kept reference
    | Put(into: Name, i: nat, k: nat)   // move a kept reference into an empty field
    | Take(name: Name, i: nat)          // move a reference out of a field, leaving null

  /** The heap: strong slots as stored (`slots`) and as still counted (`strong`: a
      closure's slots are dropped without being overwritten); `holds` are the
      references from outside, `active` the running destructors. */
  datatype Heap = Heap(
    kind: map<Block, Kind>,
    slots: map<Block, seq<Block>>,
    count: map<Block, nat>,
    active: set<Block>,
    strong: map<Block, seq<Block>>,
    holds: multiset<Block>)

  predicate HasDestructor(k: Kind) {
    k.Object? && k.hasDestructor
  }

  /** The strong slots that hold b. */
  function Incoming(strong: map<Block, seq<Block>>, b: Block): set<(Block, nat)> {
    set c, i: nat | c in strong && i < |strong[c]| && strong[c][i] == b :: (c, i)
  }

  predicate Shaped(h: Heap) {
    h.kind.Keys == h.slots.Keys == h.count.Keys == h.strong.Keys && 0 !in h.kind &&
    h.active <= h.kind.Keys && (forall b :: b in h.holds ==> b in h.kind)
  }

  /** Slots are counted as stored, except a dying closure's. */
  predicate Counted(h: Heap)
    requires Shaped(h)
  {
    forall c :: c in h.kind ==> CountedAt(h, c)
  }

  predicate CountedAt(h: Heap, c: Block)
    requires Shaped(h) && c in h.kind
  {
    |h.strong[c]| == |h.slots[c]| &&
    forall i :: 0 <= i < |h.slots[c]| ==>
      h.strong[c][i] == h.slots[c][i] || (h.strong[c][i] == 0 && h.kind[c].Closure? && h.count[c] == 0)
  }

  /** No strong slot of a live block holds a freed one. */
  predicate Closed(h: Heap)
    requires Shaped(h)
  {
    forall c, i :: c in h.strong && 0 <= i < |h.strong[c]| && h.strong[c][i] != 0 ==> h.strong[c][i] in h.kind
  }

  /** Every count is the number of strong slots and outside references. */
  predicate Exact(h: Heap)
    requires Shaped(h)
  {
    forall b :: b in h.kind ==> h.count[b] == |Incoming(h.strong, b)| + h.holds[b]
  }

  /** A running destructor holds its object. */
  predicate Pinned(h: Heap) {
    forall b :: b in h.active ==> b in h.holds
  }

  predicate Ok(h: Heap) {
    Shaped(h) && Counted(h) && Closed(h) && Exact(h) && Pinned(h)
  }

  /** An outside reference to b that is not a running destructor's own. */
  predicate Droppable(h: Heap, b: Block) {
    h.holds[b] >= (if b in h.active then 2 else 1)
  }

  /** The blocks being torn down or running their destructor. */
  function Busy(h: Heap): set<Block>
    requires Shaped(h)
  {
    set c | c in h.kind && (h.count[c] == 0 || c in h.active)
  }

  // ---------------------------------------------------------- elementary updates

  function Retain(h: Heap, b: Block): Heap
    requires b in h.count
  {
    h.(count := h.count[b := h.count[b] + 1], holds := h.holds + multiset{b})
  }

  function Release(h: Heap, b: Block): Heap
    requires b in h.count && h.count[b] > 0
  {
    h.(count := h.count[b := h.count[b] - 1], holds := h.holds - multiset{b})
  }

  /** Turn the reference in a slot into an outside one; keepStored leaves the stored
      value in place, as for closures. */
  function Unslot(h: Heap, c: Block, i: nat, keepStored: bool): Heap
    requires c in h.slots && c in h.strong && i < |h.slots[c]| && i < |h.strong[c]|
  {
    var s := if keepStored then h.slots else h.slots[c := h.slots[c][i := 0]];
    h.(slots := s, strong := h.strong[c := h.strong[c][i := 0]], holds := h.holds + multiset{h.strong[c][i]})
  }

  function Free(h: Heap, b: Block): Heap {
    h.(kind := h.kind - {b}, slots := h.slots - {b}, count := h.count - {b}, strong := h.strong - {b})
  }

  /** A destructor holds its object while it runs. */
  function Begin(h: Heap, b: Block): Heap
    requires b in h.count
  {
    Retain(h, b).(active := h.active + {b})
  }

  function End(h: Heap, b: Block): Heap
    requires b in h.count && h.count[b] > 0
  {
    Release(h, b).(active := h.active - {b})
  }

  lemma RetainOk(h: Heap, b: Block)
    requires Ok(h) && b in h.kind && h.count[b] > 0
    ensures Ok(Retain(h, b)) && Droppable(Retain(h, b), b)
  {
    hide Incoming;
    var h1 := Retain(h, b);
    forall c | c in h1.kind ensures CountedAt(h1, c) { assert CountedAt(h, c); }
  }

  lemma ReleaseOk(h: Heap, b: Block)
    requires Ok(h) && Droppable(h, b)
    ensures b in h.kind && h.count[b] > 0 && Ok(Release(h, b))
    ensures h.count[b] == 1 ==> b !in h.active && h.holds[b] == 1 && Incoming(h.strong, b) == {}
  {
    hide Incoming, CountedAt;
    assert b in h.holds;
    var h1 := Release(h, b);
    forall c | c in h1.kind ensures CountedAt(h1, c) { ReleaseCounted(h, b, c); }
    forall c | c in h1.active ensures c in h1.holds { assert c in h.holds; }
  }

  lemma ReleaseCounted(h: Heap, b: Block, c: Block)
    requires Shaped(h) && Counted(h) && c in h.kind && b in h.count && h.count[b] > 0 && b in h.holds && Shaped(Release(h, b))
    ensures CountedAt(Release(h, b), c)
  {
    hide Incoming;
    assert CountedAt(h, c);
  }

  lemma UnslotIncoming(strong: map<Block, seq<Block>>, c: Block, i: nat, b: Block)
    requires c in strong && i < |strong[c]| && b != 0
    ensures var s1 := strong[c := strong[c][i := 0]];
            |Incoming(strong, b)| == |Incoming(s1, b)| + (if strong[c][i] == b then 1 else 0)
  {
    hide Incoming;
    var s1 := strong[c := strong[c][i := 0]];
    forall p: (Block, nat) ensures p in Incoming(strong, b) <==> p in Incoming(s1, b) || (p == (c, i) && strong[c][i] == b) {
      UnslotMember(strong, c, i, b, p.0, p.1);
    }
    UnslotMember(strong, c, i, b, c, i);
    OneApart(Incoming(strong, b), Incoming(s1, b), (c, i), strong[c][i] == b);
  }

  lemma UnslotMember(strong: map<Block, seq<Block>>, c: Block, i: nat, b: Block, d: Block, j: nat)
    requires c in strong && i < |strong[c]| && b != 0
    ensures var s1 := strong[c := strong[c][i := 0]];
            ((d, j) in Incoming(strong, b) <==> (d, j) in Incoming(s1, b) || ((d, j) == (c, i) && strong[c][i] == b)) &&
            (c, i) !in Incoming(s1, b)
  {
  }

  lemma OneApart<T>(s: set<T>, s1: set<T>, x: T, more: bool)
    requires x !in s1 && forall p :: p in s <==> p in s1 || (p == x && more)
    ensures |s| == |s1| + (if more then 1 else 0)
  {
    if more {
      assert s == s1 + {x};
    } else {
      assert s == s1;
    }
  }

  lemma UnslotCounted(h: Heap, c: Block, i: nat, keepStored: bool, d: Block)
    requires Shaped(h) && Counted(h) && c in h.kind && d in h.kind && i < |h.slots[c]| && i < |h.strong[c]| && h.slots[c][i] != 0
    requires Shaped(Unslot(h, c, i, keepStored)) && (keepStored ==> h.kind[c].Closure? && h.count[c] == 0)
    ensures CountedAt(Unslot(h, c, i, keepStored), d)
  {
    hide Incoming;
    assert CountedAt(h, d);
  }

  lemma UnslotOk(h: Heap, c: Block, i: nat, keepStored: bool)
    requires Ok(h) && c in h.kind && i < |h.slots[c]| && i < |h.strong[c]|
    requires h.slots[c][i] != 0 && h.strong[c][i] == h.slots[c][i]
    requires keepStored ==> h.kind[c].Closure? && h.count[c] == 0
    ensures Ok(Unslot(h, c, i, keepStored)) && Droppable(Unslot(h, c, i, keepStored), h.slots[c][i])
  {
    hide Incoming, CountedAt;
    var h1 := Unslot(h, c, i, keepStored);
    var x := h.slots[c][i];
    assert x in h.kind;
    forall d | d in h1.kind ensures CountedAt(h1, d) { UnslotCounted(h, c, i, keepStored, d); }
    forall b | b in h1.kind ensures h1.count[b] == |Incoming(h1.strong, b)| + h1.holds[b] {
      UnslotIncoming(h.strong, c, i, b);
    }
    forall d, j | d in h1.strong && 0 <= j < |h1.strong[d]| && h1.strong[d][j] != 0 ensures h1.strong[d][j] in h1.kind {
      assert h1.strong[d][j] == h.strong[d][j];
    }
  }

  function Fresh(h: Heap, b: Block, k: Kind, n: nat): Heap {
    h.(kind := h.kind[b := k], slots := h.slots[b := seq(n, _ => 0)], count := h.count[b := 1],
       strong := h.strong[b := seq(n, _ => 0)], holds := h.holds + multiset{b})
  }

  function Stored(h: Heap, c: Block, i: nat, x: Block): Heap
    requires c in h.slots && c in h.strong && i < |h.slots[c]| && i < |h.strong[c]|
  {
    var stored: seq<Block> := h.slots[c][i := x];
    var counted: seq<Block> := h.strong[c][i := x];
    h.(slots := h.slots[c := stored], strong := h.strong[c := counted], holds := h.holds - multiset{x})
  }

  lemma AllocateOk(h: Heap, b: Block, k: Kind, n: nat)
    requires Ok(h) && b != 0 && b !in h.kind && b !in h.holds
    ensures Ok(Fresh(h, b, k, n))
  {
    hide CountedAt, Incoming, Exact;
    var h1 := Fresh(h, b, k, n);
    forall d | d in h1.kind ensures CountedAt(h1, d) { FreshCounted(h, b, k, n, d); }
    FreshExact(h, b, k, n);
  }

  lemma FreshExact(h: Heap, b: Block, k: Kind, n: nat)
    requires Shaped(h) && Closed(h) && Exact(h) && b != 0 && b !in h.kind && b !in h.holds && Shaped(Fresh(h, b, k, n))
    ensures Exact(Fresh(h, b, k, n))
  {
    hide CountedAt, Incoming, Closed;
    var h1 := Fresh(h, b, k, n);
    NothingLeadsOut(h, b);
    forall d | d in h1.kind ensures h1.count[d] == |Incoming(h1.strong, d)| + h1.holds[d] {
      FreshIncoming(h.strong, b, n, d);
    }
  }

  lemma FreshIncoming(strong: map<Block, seq<Block>>, b: Block, n: nat, d: Block)
    requires b !in strong && d != 0
    ensures Incoming(strong[b := seq(n, _ => 0)], d) == Incoming(strong, d)
  {
  }

  lemma NothingLeadsOut(h: Heap, b: Block)
    requires Shaped(h) && Closed(h) && b !in h.kind && b != 0
    ensures Incoming(h.strong, b) == {}
  {
    assert forall c, i :: c in h.strong && 0 <= i < |h.strong[c]| ==> h.strong[c][i] != b;
  }

  lemma FreshCounted(h: Heap, b: Block, k: Kind, n: nat, d: Block)
    requires Shaped(h) && Counted(h) && b !in h.kind && Shaped(Fresh(h, b, k, n)) && d in Fresh(h, b, k, n).kind
    ensures CountedAt(Fresh(h, b, k, n), d)
  {
    if d != b { assert CountedAt(h, d); }
  }

  lemma StoreOk(h: Heap, c: Block, i: nat, x: Block)
    requires Ok(h) && c in h.kind && h.count[c] > 0 && i < |h.slots[c]| && h.slots[c][i] == 0 && x != 0 && Droppable(h, x)
    ensures i < |h.strong[c]| && Ok(Stored(h, c, i, x))
  {
    hide CountedAt, Incoming, Exact;
    StoredSlot(h, c, i);
    var h1 := Stored(h, c, i, x);
    assert x in h.holds;
    StoreExact(h, c, i, x);
    forall d | d in h1.kind ensures CountedAt(h1, d) { StoredCounted(h, c, i, x, d); }
    forall d | d in h1.active ensures d in h1.holds { assert d in h.holds; }
  }

  lemma StoreExact(h: Heap, c: Block, i: nat, x: Block)
    requires Shaped(h) && Exact(h) && c in h.kind && i < |h.slots[c]| && i < |h.strong[c]| && h.strong[c][i] == 0
    requires x in h.holds && Shaped(Stored(h, c, i, x))
    ensures Exact(Stored(h, c, i, x))
  {
    hide Incoming;
    var h1 := Stored(h, c, i, x);
    forall d | d in h1.kind ensures h1.count[d] == |Incoming(h1.strong, d)| + h1.holds[d] {
      StoredIncoming(h.strong, h1.strong, c, i, x, d);
    }
  }

  lemma StoredIncoming(strong: map<Block, seq<Block>>, s1: map<Block, seq<Block>>, c: Block, i: nat, x: Block, d: Block)
    requires c in strong && i < |strong[c]| && strong[c][i] == 0 && d != 0
    requires c in s1 && s1 == strong[c := s1[c]] && s1[c] == strong[c][i := x]
    ensures |Incoming(s1, d)| == |Incoming(strong, d)| + (if x == d then 1 else 0)
  {
    hide Incoming;
    assert s1[c][i := 0] == strong[c];
    assert s1[c := s1[c][i := 0]] == strong;
    UnslotIncoming(s1, c, i, d);
  }

  lemma StoredSlot(h: Heap, c: Block, i: nat)
    requires Shaped(h) && Counted(h) && c in h.kind && i < |h.slots[c]| && h.slots[c][i] == 0
    ensures i < |h.strong[c]| && h.strong[c][i] == 0
  {
    assert CountedAt(h, c);
  }

  lemma StoredCounted(h: Heap, c: Block, i: nat, x: Block, d: Block)
    requires Shaped(h) && Counted(h) && c in h.kind && d in h.kind && i < |h.slots[c]| && i < |h.strong[c]|
    requires Shaped(Stored(h, c, i, x))
    ensures CountedAt(Stored(h, c, i, x), d)
  {
    hide Incoming;
    assert CountedAt(h, d);
  }

  lemma FreeCounted(h: Heap, b: Block, d: Block)
    requires Shaped(h) && Counted(h) && b in h.kind && d in h.kind && d != b && Shaped(Free(h, b))
    ensures CountedAt(Free(h, b), d)
  {
    hide Incoming;
    assert CountedAt(h, d);
  }

  lemma FreeIncoming(strong: map<Block, seq<Block>>, b: Block, d: Block)
    requires d != 0 && b in strong && forall i :: 0 <= i < |strong[b]| ==> strong[b][i] == 0
    ensures Incoming(strong - {b}, d) == Incoming(strong, d)
  {
    forall p | p in Incoming(strong, d) ensures p in Incoming(strong - {b}, d) {
      assert p.0 != b;
    }
  }

  lemma IncomingHas(strong: map<Block, seq<Block>>, c: Block, i: nat)
    requires c in strong && i < |strong[c]|
    ensures (c, i) in Incoming(strong, strong[c][i])
  {
  }

  lemma FreeOk(h: Heap, b: Block)
    requires Ok(h) && b in h.kind && h.count[b] == 0 && forall i :: 0 <= i < |h.strong[b]| ==> h.strong[b][i] == 0
    ensures Ok(Free(h, b)) && b !in h.active
  {
    hide Incoming, CountedAt;
    var h1 := Free(h, b);
    assert b !in h.holds;
    assert Incoming(h.strong, b) == {};
    forall d | d in h1.kind ensures CountedAt(h1, d) { FreeCounted(h, b, d); }
    forall d | d in h1.kind ensures h1.count[d] == |Incoming(h1.strong, d)| + h1.holds[d] {
      FreeIncoming(h.strong, b, d);
    }
    forall c, i | c in h1.strong && 0 <= i < |h1.strong[c]| && h1.strong[c][i] != 0 ensures h1.strong[c][i] in h1.kind {
      IncomingHas(h.strong, c, i);
    }
  }

  lemma BeginOk(h: Heap, b: Block)
    requires Ok(h) && b in h.kind && h.count[b] == 0 && b !in h.active && HasDestructor(h.kind[b])
    ensures Ok(Retain(h, b).(active := h.active + {b}))
  {
    hide Incoming;
    var h1 := Retain(h, b).(active := h.active + {b});
    forall c | c in h1.kind ensures CountedAt(h1, c) { assert CountedAt(h, c); }
  }

  lemma EndOk(h: Heap, b: Block)
    requires Ok(h) && b in h.active
    ensures b in h.kind && h.count[b] > 0 && Ok(Release(h, b).(active := h.active - {b}))
  {
    hide Incoming;
    assert b in h.holds;
    var h1 := Release(h, b).(active := h.active - {b});
    forall c | c in h1.kind ensures CountedAt(h1, c) { assert CountedAt(h, c); }
    forall c | c in h1.active ensures c in h1.holds { assert c in h.holds; }
  }
}
