/** What releasing one reference collects and what it leaves alone, in terms of
    reachability. */
module Reachability {
  import opened RefCounts
  import opened Pacts
  import opened Fates

  ghost predicate Link(h: Heap, c: Block, d: Block) {
    c in h.strong && d in h.strong[c] && d != 0
  }

  /** A walk along strong slots. */
  ghost predicate Trail(h: Heap, p: seq<Block>) {
    p != [] && forall i :: 0 < i < |p| ==> Link(h, p[i - 1], p[i])
  }

  ghost predicate Leads(h: Heap, b: Block, c: Block) {
    exists p :: Trail(h, p) && p[0] == b && p[|p| - 1] == c
  }

  /** Reachable from these references. */
  ghost predicate Reaches(h: Heap, from: multiset<Block>, c: Block) {
    exists b :: b in from && Leads(h, b, c)
  }

  ghost predicate Reachable(h: Heap, c: Block) {
    Reaches(h, h.holds, c)
  }

  ghost predicate EveryBlockCounts(h: Heap) {
    forall b :: b in h.count ==> h.count[b] > 0
  }

  /** Slots lead from lower to higher ranks. */
  ghost predicate Acyclic(h: Heap, rank: map<Block, nat>) {
    forall c, i :: c in h.strong && 0 <= i < |h.strong[c]| && h.strong[c][i] != 0 ==>
      c in rank && h.strong[c][i] in rank && rank[c] < rank[h.strong[c][i]]
  }

  ghost predicate AllTame(script: nat -> seq<Action>) {
    forall n: nat :: Tame(script(n))
  }

  /** Some destructor may find c without following its own object. */
  ghost predicate FromStatics(h: Heap, script: nat -> seq<Action>, c: Block) {
    exists n: nat, k: nat :: k < |script(n)| && script(n)[k].Static? && Leads(h, script(n)[k].x, c)
  }

  /** What dropping a reference to b may not disturb: what neither b nor a static leads
      to, and what the other references reach. */
  ghost function DropPact(h: Heap, b: Block, script: nat -> seq<Action>): Pact {
    var rest := h.holds - multiset{b};
    var fence := set c | c in h.kind && !Leads(h, b, c) && !FromStatics(h, script, c);
    var roots := set c | c in h.kind && AllTame(script) && Reaches(h, rest, c);
    Pact(fence, rest, roots, AllTame(script))
  }

  /** A release of a reference to b leaves alone what it may not disturb, and leaves
      the references it found, less one and with those that bodies still kept. */
  ghost predicate CalmRelease(h0: Heap, h1: Heap, b: Block, kept: multiset<Block>, script: nat -> seq<Action>) {
    Ok(h0) && Ok(h1) && Shaped(h0) && Shaped(h1) && Calm(h0, h1, {}, DropPact(h0, b, script)) &&
    h1.holds == h0.holds - multiset{b} + kept && (NoDestructors(h0) ==> kept == multiset{})
  }

  /** What one release of a reference to b guarantees: it goes by the machine's rules
      and is calm. */
  ghost predicate HasReleased(w0: World, w1: World, b: Block, f: Fate, script: nat -> seq<Action>) {
    Dropping(script, w0, b, f, w1) && CalmRelease(w0.heap, w1.heap, b, KeptBy(f), script)
  }

  /** Bodies that take references only out of their own object's fields, put none into
      fields and drop all they keep. */
  ghost predicate AllTidy(script: nat -> seq<Action>) {
    AllTame(script) && AllPutNothing(script) && AllEmptyHanded(script)
  }

  // ---------------------------------------------------------------------- walking along

  lemma LeadsSelf(h: Heap, b: Block)
    ensures Leads(h, b, b)
  {
    assert Trail(h, [b]);
  }

  lemma LeadsOn(h: Heap, b: Block, c: Block, d: Block)
    requires Leads(h, b, c) && Link(h, c, d)
    ensures Leads(h, b, d)
  {
    hide Link;
    var p :| Trail(h, p) && p[0] == b && p[|p| - 1] == c;
    var q := p + [d];
    forall i | 0 < i < |q| ensures Link(h, q[i - 1], q[i]) {
      if i < |p| { assert Link(h, p[i - 1], p[i]); }
    }
    assert Trail(h, q);
  }

  /** The last step of a walk. */
  lemma LastStep(h: Heap, b: Block, c: Block) returns (d: Block)
    requires Leads(h, b, c) && b != c
    ensures Leads(h, b, d) && Link(h, d, c)
  {
    hide Link;
    var p :| Trail(h, p) && p[0] == b && p[|p| - 1] == c;
    var q := p[..|p| - 1];
    assert Link(h, p[|p| - 2], p[|p| - 1]);
    forall i | 0 < i < |q| ensures Link(h, q[i - 1], q[i]) { assert Link(h, p[i - 1], p[i]); }
    assert Trail(h, q);
    d := q[|q| - 1];
  }

  lemma LinkAt(h: Heap, c: Block, d: Block) returns (i: nat)
    requires Link(h, c, d)
    ensures c in h.strong && i < |h.strong[c]| && h.strong[c][i] == d && d != 0
  {
    i :| i < |h.strong[c]| && h.strong[c][i] == d;
  }

  // ----------------------------------------------------------- the pact of a release

  /** A release can begin with this pact. */
  lemma DropHonoured(h: Heap, b: Block, script: nat -> seq<Action>)
    requires Ok(h) && Shaped(h)
    ensures var p := DropPact(h, b, script);
            Honoured(h, p) && AllFit(script, p) && (b in h.kind ==> b !in p.fence) && p.base <= h.holds - multiset{b}
  {
    hide Ok, Leads, FromStatics, Fenced, Rooted, Reaches, AllTame, Fits;
    LeadsSelf(h, b);
    DropFenced(h, b, script);
    DropRooted(h, h.holds - multiset{b}, AllTame(script));
    forall n: nat ensures Fits(script(n), DropPact(h, b, script)) { DropFits(h, b, script, n); }
  }

  lemma DropFits(h: Heap, b: Block, script: nat -> seq<Action>, n: nat)
    ensures Fits(script(n), DropPact(h, b, script))
  {
    hide Leads, Reaches, Tame;
    forall k | 0 <= k < |script(n)| && script(n)[k].Static? ensures script(n)[k].x !in DropPact(h, b, script).fence {
      LeadsSelf(h, script(n)[k].x);
    }
  }

  lemma DropFenced(h: Heap, b: Block, script: nat -> seq<Action>)
    requires Shaped(h)
    ensures Fenced(h, DropPact(h, b, script).fence)
  {
    hide Leads, FromStatics, Reaches, AllTame;
    var fence := DropPact(h, b, script).fence;
    forall c, i | c in h.strong && c !in fence && 0 <= i < |h.strong[c]| ensures h.strong[c][i] !in fence {
      var d := h.strong[c][i];
      if d != 0 {
        assert Link(h, c, d);
        if Leads(h, b, c) {
          LeadsOn(h, b, c, d);
        } else {
          StaticsOn(h, script, c, d);
        }
      }
    }
  }

  lemma StaticsOn(h: Heap, script: nat -> seq<Action>, c: Block, d: Block)
    requires FromStatics(h, script, c) && Link(h, c, d)
    ensures FromStatics(h, script, d)
  {
    hide Leads, Link;
    var n: nat, k: nat :| k < |script(n)| && script(n)[k].Static? && Leads(h, script(n)[k].x, c);
    LeadsOn(h, script(n)[k].x, c, d);
  }

  lemma DropRooted(h: Heap, base: multiset<Block>, tame: bool)
    requires Shaped(h) && base <= h.holds
    ensures Rooted(h, base, set c | c in h.kind && tame && Reaches(h, base, c))
  {
    hide Leads, Link;
    var roots := set c | c in h.kind && tame && Reaches(h, base, c);
    forall c | c in roots && c !in base ensures HeldWithin(h, roots, c) {
      var b :| b in base && Leads(h, b, c);
      var d := LastStep(h, b, c);
      var i := LinkAt(h, d, c);
      assert Reaches(h, base, d);
    }
  }

  // -------------------------------------------------------------------- what is collected

  /** Nothing reachable is ever missing. */
  lemma ReachableIsLive(h: Heap, c: Block)
    requires Ok(h) && Reachable(h, c)
    ensures c in h.kind
  {
    hide Incoming, Exact, Counted, CountedAt, Leads;
    var b :| b in h.holds && Leads(h, b, c);
    if b != c {
      var d := LastStep(h, b, c);
      var i := LinkAt(h, d, c);
    }
  }

  /** Whatever a release frees was out of reach of the references that remain: what
      they reach stays, with all its references, and stays in their reach, whichever
      destructors run. */
  lemma FreesOnlyUnreachable(h0: Heap, h1: Heap, b: Block, kept: multiset<Block>, script: nat -> seq<Action>, c: Block)
    requires CalmRelease(h0, h1, b, kept, script) && AllTame(script) && Reaches(h0, h0.holds - multiset{b}, c)
    ensures c in h0.kind && Stays(h0, h1, true, c) && Reaches(h1, h0.holds - multiset{b}, c)
  {
    hide Ok, Calm, NoDestructors, Stays, DropPact, Leads, AllTame;
    var rest := h0.holds - multiset{b};
    var x :| x in rest && Leads(h0, x, c);
    LeadsTrail(h0, x, c);
    var p :| Trail(h0, p) && p[0] == x && p[|p| - 1] == c;
    forall i | 0 <= i < |p| ensures p[i] in h0.kind && Stays(h0, h1, true, p[i]) { OnTrailStays(h0, h1, b, kept, script, p, i); }
    forall i | 0 < i < |p| ensures Link(h1, p[i - 1], p[i]) { LinkStays(h0, h1, p[i - 1], p[i]); }
    assert Trail(h1, p);
    TrailLeads(h1, p);
  }

  lemma LeadsTrail(h: Heap, b: Block, c: Block)
    requires Leads(h, b, c)
    ensures exists p :: Trail(h, p) && p[0] == b && p[|p| - 1] == c
  {
  }

  lemma TrailLeads(h: Heap, p: seq<Block>)
    requires Trail(h, p)
    ensures Leads(h, p[0], p[|p| - 1])
  {
  }

  lemma OnTrailStays(h0: Heap, h1: Heap, b: Block, kept: multiset<Block>, script: nat -> seq<Action>, p: seq<Block>, i: nat)
    requires CalmRelease(h0, h1, b, kept, script) && AllTame(script) && Trail(h0, p) && p[0] in h0.holds - multiset{b} && i < |p|
    ensures p[i] in h0.kind && Stays(h0, h1, true, p[i])
  {
    hide Ok, NoDestructors, Stays, AllTame, Frozen, Leads, FromStatics, Sound;
    var q := p[..i + 1];
    forall j | 0 < j < |q| ensures Link(h0, q[j - 1], q[j]) { assert Link(h0, p[j - 1], p[j]); }
    assert Trail(h0, q);
    TrailLeads(h0, q);
    assert Reaches(h0, h0.holds - multiset{b}, p[i]);
    assert Reachable(h0, p[i]);
    ReachableIsLive(h0, p[i]);
    assert Safe(h0, h1, DropPact(h0, b, script), p[i]);
  }

  lemma LinkStays(h0: Heap, h1: Heap, c: Block, d: Block)
    requires Shaped(h0) && Shaped(h1) && c in h0.kind && Stays(h0, h1, true, c) && Link(h0, c, d)
    ensures Link(h1, c, d)
  {
    var i := LinkAt(h0, c, d);
    assert h1.strong[c][i] == d;
  }

  /** What b does not lead to, nor any block that a destructor names, is not touched. */
  lemma RestUntouched(h0: Heap, h1: Heap, b: Block, kept: multiset<Block>, script: nat -> seq<Action>, c: Block)
    requires CalmRelease(h0, h1, b, kept, script) && c in h0.kind && !Leads(h0, b, c) && !FromStatics(h0, script, c)
    ensures Frozen(h0, h1, c)
  {
    hide Ok, NoDestructors, Stays, AllTame, Frozen, Leads, FromStatics, Sound;
    assert Safe(h0, h1, DropPact(h0, b, script), c);
  }

  /** On a heap without cycles every block is reachable. */
  lemma {:induction false} LiveIsReachable(h: Heap, rank: map<Block, nat>, b: Block)
    requires Ok(h) && EveryBlockCounts(h) && Acyclic(h, rank) && b in h.kind
    ensures Reachable(h, b)
    decreases if b in rank then rank[b] else 0
  {
    hide Leads;
    if b in h.holds {
      LeadsSelf(h, b);
    } else {
      assert Incoming(h.strong, b) != {};
      var s :| s in Incoming(h.strong, b);
      var c := s.0;
      assert h.strong[c][s.1] == b;
      LiveIsReachable(h, rank, c);
      var x :| x in h.holds && Leads(h, x, c);
      LeadsOn(h, x, c, b);
    }
  }

  /** A release leaves no block with count zero; as long as what it leaves has no
      cycles, exactly the blocks are left that the other references reach, and those
      which bodies still kept when they ended, whichever destructors ran. */
  lemma LeavesExactlyTheReachable(w0: World, w1: World, b: Block, f: Fate, script: nat -> seq<Action>, rank: map<Block, nat>, c: Block)
    requires HasReleased(w0, w1, b, f, script) && EveryBlockCounts(w0.heap) && Acyclic(w1.heap, rank)
    ensures EveryBlockCounts(w1.heap)
    ensures c in w1.heap.kind <==> Reaches(w1.heap, w0.heap.holds - multiset{b}, c) || Reaches(w1.heap, KeptBy(f), c)
  {
    hide Ok, Calm, NoDestructors, Leads, DropPact, Dropping, Acyclic;
    LeavesTheReachable(w0.heap, w1.heap, b, KeptBy(f), script, rank, c);
  }

  lemma LeavesTheReachable(h0: Heap, h1: Heap, b: Block, kept: multiset<Block>, script: nat -> seq<Action>, rank: map<Block, nat>, c: Block)
    requires CalmRelease(h0, h1, b, kept, script) && EveryBlockCounts(h0) && Acyclic(h1, rank)
    ensures EveryBlockCounts(h1) && (c in h1.kind <==> Reachable(h1, c))
  {
    hide Ok, Calm, NoDestructors, Reachable;
    StillCounts(h0, h1, b, kept, script);
    if c in h1.kind { LiveIsReachable(h1, rank, c); }
    if Reachable(h1, c) { ReachableIsLive(h1, c); }
  }

  lemma StillCounts(h0: Heap, h1: Heap, b: Block, kept: multiset<Block>, script: nat -> seq<Action>)
    requires CalmRelease(h0, h1, b, kept, script) && EveryBlockCounts(h0)
    ensures EveryBlockCounts(h1)
  {
    hide Ok, NoDestructors, Safe, DropPact, Unchanged;
    forall c | c in h1.count ensures h1.count[c] > 0 { assert Sound(h0, h1, c); }
  }

  /** With tidy destructors, or none, and without cycles a release keeps exactly what
      the remaining references reach. */
  lemma KeepsExactlyTheReachable(w0: World, w1: World, b: Block, f: Fate, script: nat -> seq<Action>, rank: map<Block, nat>, c: Block)
    requires HasReleased(w0, w1, b, f, script) && (NoDestructors(w0.heap) || AllTidy(script))
    requires EveryBlockCounts(w0.heap) && Acyclic(w0.heap, rank)
    ensures c in w1.heap.kind <==> Reaches(w0.heap, w0.heap.holds - multiset{b}, c)
    ensures EveryBlockCounts(w1.heap) && Acyclic(w1.heap, rank)
  {
    hide Ok, Calm, NoDestructors, Leads, DropPact, Dropping, Shrunk, AllTame, AllEmptyHanded, AllPutNothing, Acyclic;
    var h0, h1 := w0.heap, w1.heap;
    DropShrinks(script, w0, b, f, w1);
    if AllTidy(script) { NothingKept(script, w0, b, f, w1); }
    StillAcyclic(h0, h1, rank);
    LeavesTheReachable(h0, h1, b, multiset{}, script, rank, c);
    if Reachable(h1, c) {
      var x :| x in h1.holds && Leads(h1, x, c);
      LeadsBefore(h0, h1, x, c);
    }
    if Reaches(h0, h0.holds - multiset{b}, c) { StillThere(h0, h1, b, script, c); }
  }

  lemma StillThere(h0: Heap, h1: Heap, b: Block, script: nat -> seq<Action>, c: Block)
    requires CalmRelease(h0, h1, b, multiset{}, script) && (NoDestructors(h0) || AllTame(script)) && Reaches(h0, h0.holds - multiset{b}, c)
    ensures Reachable(h1, c)
  {
    hide Ok, Calm, NoDestructors, Leads, DropPact, AllTame, Stays;
    if AllTame(script) {
      FreesOnlyUnreachable(h0, h1, b, multiset{}, script, c);
    } else {
      var x :| x in h0.holds - multiset{b} && Leads(h0, x, c);
      LeadsAfter(h0, h1, b, script, x, c);
    }
  }

  lemma StillAcyclic(h0: Heap, h1: Heap, rank: map<Block, nat>)
    requires Shrunk(h0, h1) && Acyclic(h0, rank)
    ensures Acyclic(h1, rank)
  {
    forall d, i | d in h1.strong && 0 <= i < |h1.strong[d]| && h1.strong[d][i] != 0
      ensures d in rank && h1.strong[d][i] in rank && rank[d] < rank[h1.strong[d][i]]
    {
      assert WasThere(h0, d, i, h1.strong[d][i]);
    }
  }

  lemma AsWas(h0: Heap, h1: Heap, b: Block, script: nat -> seq<Action>, c: Block)
    requires CalmRelease(h0, h1, b, multiset{}, script) && NoDestructors(h0) && c in h1.kind
    ensures c in h0.strong && h1.strong[c] == h0.strong[c]
  {
    hide Incoming, Exact, Counted, CountedAt, Closed, Safe, DropPact, NoDestructors;
    assert Sound(h0, h1, c);
  }

  lemma LeadsBefore(h0: Heap, h1: Heap, x: Block, c: Block)
    requires Shrunk(h0, h1) && Leads(h1, x, c)
    ensures Leads(h0, x, c)
  {
    hide Leads;
    LeadsTrail(h1, x, c);
    var p :| Trail(h1, p) && p[0] == x && p[|p| - 1] == c;
    forall i | 0 < i < |p| ensures Link(h0, p[i - 1], p[i]) {
      assert Link(h1, p[i - 1], p[i]);
      var j := LinkAt(h1, p[i - 1], p[i]);
      assert WasThere(h0, p[i - 1], j, p[i]);
    }
    assert Trail(h0, p);
    TrailLeads(h0, p);
  }

  /** From a remaining reference, what could be reached can be reached: every block on
      the way is still there, held by the one before. */
  lemma LeadsAfter(h0: Heap, h1: Heap, b: Block, script: nat -> seq<Action>, x: Block, c: Block)
    requires CalmRelease(h0, h1, b, multiset{}, script) && NoDestructors(h0) && x in h1.holds && Leads(h0, x, c)
    ensures Leads(h1, x, c)
  {
    hide Ok, Calm, NoDestructors, DropPact, Leads;
    LeadsTrail(h0, x, c);
    var p :| Trail(h0, p) && p[0] == x && p[|p| - 1] == c;
    TrailAfter(h0, h1, b, script, p);
    TrailLeads(h1, p);
  }

  lemma {:induction false} TrailAfter(h0: Heap, h1: Heap, b: Block, script: nat -> seq<Action>, p: seq<Block>)
    requires CalmRelease(h0, h1, b, multiset{}, script) && NoDestructors(h0) && Trail(h0, p) && p[0] in h1.holds
    ensures Trail(h1, p) && p[|p| - 1] in h1.kind
  {
    hide Incoming, Exact, Counted, CountedAt, Calm, NoDestructors, DropPact;
    if |p| > 1 {
      var q := p[..|p| - 1];
      forall i | 0 < i < |q| ensures Link(h0, q[i - 1], q[i]) { assert Link(h0, p[i - 1], p[i]); }
      TrailAfter(h0, h1, b, script, q);
      var d := q[|q| - 1];
      assert Link(h0, d, p[|p| - 1]);
      AsWas(h0, h1, b, script, d);
      var i := LinkAt(h1, d, p[|p| - 1]);
      forall j | 0 < j < |p| ensures Link(h1, p[j - 1], p[j]) {
        if j < |q| { assert Link(h1, q[j - 1], q[j]); }
      }
    }
  }

  // ------------------------------------------------------------------------------ cycles

  /** With cycles more may be kept: two objects that hold each other stay when the last
      outside reference to them goes. */
  lemma CyclesStay(script: nat -> seq<Action>, n: nat)
    ensures exists w0: World, w1: World, f: Fate ::
              HasReleased(w0, w1, 8, f, script) && w0.runs == n && EveryBlockCounts(w0.heap) && 8 in w1.heap.kind && !Reachable(w1.heap, 8)
  {
    hide Ok, Calm, DropPact, Honoured, Leads, Dropping;
    var h0 := Pair();
    PairOk();
    DropHonoured(h0, 8, script);
    ReleaseOk(h0, 8);
    ReleasedPair();
    ReleaseCalm(h0, 8, {}, DropPact(h0, 8, script));
    DropsShared(script, World(h0, n), 8);
    assert HasReleased(World(h0, n), Released(World(h0, n), 8), 8, Shared, script);
  }

  function Pair(): Heap {
    var slots: map<Block, seq<Block>> := map[8 := [24], 24 := [8]];
    Heap(map[8 := Object(false), 24 := Object(false)], slots, map[8 := 2, 24 := 1], {}, slots, multiset{8})
  }

  lemma PairOk()
    ensures Ok(Pair()) && Droppable(Pair(), 8) && Shaped(Pair())
  {
    hide Incoming;
    var h := Pair();
    PairIncoming(h.strong);
    assert CountedAt(h, 8) && CountedAt(h, 24);
  }

  lemma PairIncoming(strong: map<Block, seq<Block>>)
    requires strong == map[8 := [24], 24 := [8]]
    ensures |Incoming(strong, 8)| == |Incoming(strong, 24)| == 1
  {
    assert Incoming(strong, 8) == {(24, 0)};
    assert Incoming(strong, 24) == {(8, 0)};
  }

  lemma ReleasedPair()
    ensures Shaped(Pair()) && Shaped(Release(Pair(), 8)) && EveryBlockCounts(Pair()) && 8 in Release(Pair(), 8).kind
    ensures Release(Pair(), 8).holds == multiset{} && Pair().count[8] == 2
  {
    hide Incoming;
  }
}
