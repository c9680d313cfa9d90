/** What a destructor can do that takes references out of other objects' fields. */
module Untame {
  import opened RefCounts
  import opened Pacts
  import opened Fates
  import opened Reachability

  /** 8, about to go, leads to 24, which another reference holds and which leads to 40. */
  function Wild(): Heap {
    var slots: map<Block, seq<Block>> := map[8 := [24], 24 := [40], 40 := []];
    Heap(map[8 := Object(true), 24 := Object(false), 40 := Object(false)], slots, map[8 := 1, 24 := 2, 40 := 1], {}, slots, multiset{8, 24})
  }

  /** The destructor of 8 takes the reference out of the field of 24 and drops it. */
  const WILD_BODY: seq<Action> := [Load(This, 0), Take(Kept(0), 0), Drop(1), Drop(0)]

  function WildScript(): nat -> seq<Action> {
    n => WILD_BODY
  }

  /** A body that empties fields of other objects is no mere technicality: it frees what
      a remaining reference has reached. */
  lemma WildDestructorFreesTheReachable()
    ensures Ok(Wild()) && Droppable(Wild(), 8) && !Tame(WILD_BODY)
    ensures Reaches(Wild(), Wild().holds - multiset{8}, 40)
    ensures exists f: Fate, w1: World :: Dropping(WildScript(), World(Wild(), 0), 8, f, w1) && 40 !in w1.heap.kind
  {
    hide Ok, Droppable, Tame, Reaches, Wild, Dropping;
    WildOk();
    WildReaches();
    WildFrees();
  }

  lemma WildOk()
    ensures Ok(Wild()) && Droppable(Wild(), 8) && 24 in Wild().holds - multiset{8}
  {
    hide Incoming, Exact;
    var h := Wild();
    assert CountedAt(h, 8) && CountedAt(h, 24) && CountedAt(h, 40);
    WildExact();
  }

  lemma WildExact()
    ensures Shaped(Wild()) && Exact(Wild())
  {
    hide Incoming;
    WildIncoming(Wild().strong);
  }

  lemma WildReaches()
    ensures Reaches(Wild(), Wild().holds - multiset{8}, 40)
  {
    hide Leads;
    var h := Wild();
    assert Link(h, 24, 40);
    LeadsSelf(h, 24);
    LeadsOn(h, 24, 24, 40);
    assert 24 in h.holds - multiset{8};
  }

  /** The heap on the way: the field of 24 and block 40 go first. */
  function WildAt(left: seq<Block>, counts: map<Block, nat>, holds: multiset<Block>, gone: bool): Heap {
    var slots: map<Block, seq<Block>> := if gone then map[8 := [24], 24 := left] else map[8 := [24], 24 := left, 40 := []];
    Heap(if gone then map[8 := Object(true), 24 := Object(false)] else Wild().kind, slots, counts, {8}, slots, holds)
  }

  const WILD_1 := World(WildAt([40], map[8 := 1, 24 := 2, 40 := 1], multiset{8, 24}, false), 1)
  const WILD_2 := World(WildAt([40], map[8 := 1, 24 := 3, 40 := 1], multiset{8, 24, 24}, false), 1)
  const WILD_3 := World(WildAt([0], map[8 := 1, 24 := 3, 40 := 1], multiset{8, 24, 24, 40}, false), 1)
  const WILD_4 := World(WildAt([0], map[8 := 1, 24 := 3], multiset{8, 24, 24}, true), 1)
  const WILD_5 := World(WildAt([0], map[8 := 1, 24 := 2], multiset{8, 24}, true), 1)

  lemma WildFrees()
    ensures !Tame(WILD_BODY)
    ensures exists f: Fate, w1: World :: Dropping(WildScript(), World(Wild(), 0), 8, f, w1) && 40 !in w1.heap.kind
  {
    hide Dropping, Torn, Destructed;
    assert WILD_BODY[1].Take? && !WILD_BODY[1].name.This?;
    var w0 := Released(World(Wild(), 0), 8);
    var run := WildRuns();
    var w1 := Ended(run.end, 8);
    var s, w2 := WildEmptied(w1);
    TornByRun(WildScript(), w0, 8, run, w1, s, w2);
    DropsLast(WildScript(), World(Wild(), 0), 8, Destroyed(run, s, w2), w2);
  }

  lemma WildRuns() returns (run: Run)
    ensures 8 in Wild().count && Wild().count[8] > 0 && Destructed(WildScript(), Released(World(Wild(), 0), 8), 8, run) && run.end == WILD_5
  {
    hide Performed, Acted;
    var w0 := Released(World(Wild(), 0), 8);
    assert WILD_1 == World(Begin(w0.heap, 8), 1);
    assert Performed(WildScript(), WILD_BODY, WILD_1, 8, 0, NoSteps, WILD_1, []) by { PerformingStarts(WildScript(), WILD_BODY, WILD_1, 8); }
    WildLoads();
    PerformsOn(WildScript(), WILD_BODY, WILD_1, 8, 0, NoSteps, WILD_1, [], Missing, WILD_2, [24]);
    var s1 := Step(NoSteps, WILD_1, [], Missing);
    PerformsOn(WildScript(), WILD_BODY, WILD_1, 8, 1, s1, WILD_2, [24], Missing, WILD_3, [24, 40]);
    var s2 := Step(s1, WILD_2, [24], Missing);
    var f := WildDrops();
    PerformsOn(WildScript(), WILD_BODY, WILD_1, 8, 2, s2, WILD_3, [24, 40], f, WILD_4, [24]);
    var s3 := Step(s2, WILD_3, [24, 40], f);
    PerformsOn(WildScript(), WILD_BODY, WILD_1, 8, 3, s3, WILD_4, [24], Shared, WILD_5, []);
    run := Run(Step(s3, WILD_4, [24], Shared), WILD_5, []);
    RunsWhole(WildScript(), w0, 8, WILD_1, run);
  }

  lemma WildTakes()
    ensures WILD_3.heap == Unslot(WILD_2.heap, 24, 0, false)
  {
    var h := Unslot(WILD_2.heap, 24, 0, false);
    assert h.slots[24] == [0];
    assert h.slots == WILD_3.heap.slots;
    assert h.strong == WILD_3.heap.strong;
    assert h.holds == WILD_3.heap.holds;
  }

  lemma WildLoses()
    ensures Free(Release(WILD_3.heap, 40), 40) == WILD_4.heap
  {
    var h := Free(Release(WILD_3.heap, 40), 40);
    assert h.kind == WILD_4.heap.kind;
    assert h.slots == WILD_4.heap.slots;
    assert h.count == WILD_4.heap.count;
    assert h.holds == WILD_4.heap.holds;
  }

  lemma WildLoads()
    ensures Acted(WildScript(), WILD_1, 8, [], Load(This, 0), Missing, WILD_2, [24])
    ensures Acted(WildScript(), WILD_2, 8, [24], Take(Kept(0), 0), Missing, WILD_3, [24, 40])
  {
    hide Dropping;
    var h := WILD_1.heap;
    assert WILD_2.heap == Retain(h, 24);
    HoldsOne(h, 8, [], Load(This, 0), 24, WILD_2.heap, [24]);
    ActsQuietly(WildScript(), WILD_1, 8, [], Load(This, 0), WILD_2, [24]);
    WildTakes();
    TakesOne(WILD_2.heap, 8, [24], Kept(0), 0, 24, WILD_3.heap, [24, 40]);
    ActsQuietly(WildScript(), WILD_2, 8, [24], Take(Kept(0), 0), WILD_3, [24, 40]);
  }

  lemma WildDrops() returns (f: Fate)
    ensures Acted(WildScript(), WILD_3, 8, [24, 40], Drop(1), f, WILD_4, [24])
    ensures Acted(WildScript(), WILD_4, 8, [24], Drop(0), Shared, WILD_5, [])
  {
    hide Dropping, Acted;
    f := WildDropsLast();
    assert Without([24, 40], 1) == [24] && Without([24], 0) == [];
    ActsByDropping(WildScript(), WILD_3, 8, [24, 40], 1, f, WILD_4);
    DropsShared(WildScript(), WILD_4, 24);
    WildReleases();
    ActsByDropping(WildScript(), WILD_4, 8, [24], 0, Shared, WILD_5);
  }

  lemma WildDropsLast() returns (f: Fate)
    ensures Dropping(WildScript(), WILD_3, 40, f, WILD_4)
  {
    hide Dropping, Torn;
    var w := Released(WILD_3, 40);
    assert EmptiedAll(WildScript(), w, 40, NoSlots, w);
    TornByNone(WildScript(), w, 40, NoSlots, w);
    f := Collected(NoSlots, w);
    DropsLast(WildScript(), WILD_3, 40, f, w);
    WildLoses();
  }

  lemma WildReleases()
    ensures Release(WILD_4.heap, 24) == WILD_5.heap
  {
    var h := Release(WILD_4.heap, 24);
    assert h.count == WILD_5.heap.count;
    assert h.holds == WILD_5.heap.holds;
  }

  lemma WildEmptied(w: World) returns (s: Slots, w1: World)
    requires w == Ended(WILD_5, 8)
    ensures EmptiedAll(WildScript(), w, 8, s, w1) && 40 !in w1.heap.kind
  {
    hide Dropping, SlotDropped;
    var h := Unslot(w.heap, 8, 0, false);
    var w2 := World(h, w.runs);
    DropsShared(WildScript(), w2, 24);
    w1 := Released(w2, 24);
    FullSlot(WildScript(), w, 8, 0, false, h, Shared, w1);
    s := Slot(NoSlots, w, Shared);
    EmptyingStarted(WildScript(), w, 8);
    EmptiesOn(WildScript(), w, 8, 0, NoSlots, w, Shared, w1);
  }

  lemma WildIncoming(strong: map<Block, seq<Block>>)
    requires strong == map[8 := [24], 24 := [40], 40 := []]
    ensures |Incoming(strong, 8)| == 0 && |Incoming(strong, 24)| == |Incoming(strong, 40)| == 1
  {
    assert Incoming(strong, 8) == {};
    assert Incoming(strong, 24) == {(8, 0)};
    assert Incoming(strong, 40) == {(24, 0)};
  }
}
