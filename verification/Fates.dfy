/** How a release runs: the releases, teardowns and destructor bodies that it sets off,
    as a tree whose every step is the machine's. */
module Fates {
  import opened RefCounts
  import opened Pacts

  /** A heap, and how many destructors have begun so far. */
  datatype World = World(heap: Heap, runs: nat)

  /** What becomes of a block when a reference to it is dropped. */
  datatype Fate =
    | Missing                                        // there is no block
    | Shared                                         // other references remain
    | Collected(slots: Slots, torn: World)           // it goes, with what its slots hold
    | Destroyed(run: Run, slots: Slots, torn: World) // its destructor runs, then it goes
    | Saved(run: Run)                                // its destructor runs and keeps it

  /** What becomes of a block's slots, one after the other. */
  datatype Slots = NoSlots | Slot(before: Slots, at: World, fate: Fate)

  /** A destructor's run, and the references that its body still keeps at the end. */
  datatype Run = Run(steps: Steps, end: World, regs: seq<Block>)

  datatype Steps = NoSteps | Step(before: Steps, at: World, regs: seq<Block>, fate: Fate)

  // ------------------------------------------------------------------------- the rules

  /** Dropping a reference to b leads from w to w1. */
  ghost predicate Dropping(script: nat -> seq<Action>, w: World, b: Block, f: Fate, w1: World)
    decreases f, 1
  {
    match f
    case Missing => b !in w.heap.kind && w1 == w
    case Shared => b in w.heap.kind && b in w.heap.count && w.heap.count[b] > 1 && w1 == Released(w, b)
    case Saved(_) => IsLast(w, b) && Torn(script, Released(w, b), b, f, w1)
    case _ => IsLast(w, b) && Torn(script, Released(w, b), b, f, f.torn) && w1 == Freed(f.torn, b)
  }

  /** The destructor of b, if it has one, runs and, unless that has kept b, its slots
      are dropped. */
  ghost predicate Torn(script: nat -> seq<Action>, w: World, b: Block, f: Fate, w1: World)
    decreases f, 0
  {
    match f
    case Collected(slots, torn) => b in w.heap.kind && !HasDestructor(w.heap.kind[b]) && EmptiedAll(script, w, b, slots, torn) && w1 == torn
    case Destroyed(run, slots, torn) =>
      Destructed(script, w, b, run) && run.end.heap.count[b] == 1 && EmptiedAll(script, Ended(run.end, b), b, slots, torn) && w1 == torn
    case Saved(run) => Destructed(script, w, b, run) && run.end.heap.count[b] > 1 && w1 == Ended(run.end, b)
    case _ => false
  }

  /** The first n slots of b are dropped; a closure's keep their stored values. */
  ghost predicate Emptied(script: nat -> seq<Action>, w: World, b: Block, n: nat, s: Slots, w1: World)
    decreases s, 0
  {
    if n == 0 then s.NoSlots? && w1 == w
    else s.Slot? && Emptied(script, w, b, n - 1, s.before, s.at) && SlotDropped(script, s.at, b, n - 1, s.fate, w1)
  }

  ghost predicate EmptiedAll(script: nat -> seq<Action>, w: World, b: Block, s: Slots, w1: World)
    decreases s, 1
  {
    b in w.heap.slots && Emptied(script, w, b, |w.heap.slots[b]|, s, w1)
  }

  ghost predicate SlotDropped(script: nat -> seq<Action>, w: World, b: Block, i: nat, f: Fate, w1: World)
    decreases f, 2
  {
    HasSlot(w.heap, b, i) &&
    if w.heap.slots[b][i] == 0 then f.Missing? && w1 == w
    else Dropping(script, w.(heap := Unslot(w.heap, b, i, w.heap.kind[b].Closure?)), w.heap.slots[b][i], f, w1)
  }

  /** b's destructor runs, up to the end of its body. */
  ghost predicate Destructed(script: nat -> seq<Action>, w: World, b: Block, run: Run)
    decreases run
  {
    b in w.heap.kind && HasDestructor(w.heap.kind[b]) && b in w.heap.count && b in run.end.heap.count && run.end.heap.count[b] > 0 &&
    Performed(script, script(w.runs), World(Begin(w.heap, b), w.runs + 1), b, |script(w.runs)|, run.steps, run.end, run.regs)
  }

  /** The first k actions of a body are performed. */
  ghost predicate Performed(script: nat -> seq<Action>, body: seq<Action>, w: World, b: Block, k: nat, s: Steps, w1: World, regs: seq<Block>)
    decreases s, 0
  {
    if k == 0 then s.NoSteps? && w1 == w && regs == []
    else
      k <= |body| && s.Step? && Performed(script, body, w, b, k - 1, s.before, s.at, s.regs) &&
      Acted(script, s.at, b, s.regs, body[k - 1], s.fate, w1, regs)
  }

  /** One action of a body that keeps `regs`; only drops can set off more. */
  ghost predicate Acted(script: nat -> seq<Action>, w: World, b: Block, regs: seq<Block>, a: Action, f: Fate, w1: World, regs1: seq<Block>)
    decreases f, 2
  {
    if a.Drop? && a.k < |regs| then regs1 == Without(regs, a.k) && Dropping(script, w, regs[a.k], f, w1)
    else f.Missing? && w1.runs == w.runs && Updated(w.heap, b, regs, a, w1.heap, regs1)
  }

  ghost predicate Updated(h: Heap, b: Block, regs: seq<Block>, a: Action, h1: Heap, regs1: seq<Block>) {
    match a
    case Hold(name) => Held(h, regs, Resolve(name, b, regs), h1, regs1)
    case Load(name, i) => Held(h, regs, Content(h, Resolve(name, b, regs), i), h1, regs1)
    case Static(x) => Held(h, regs, if x in h.kind && x in h.count && h.count[x] > 0 then x else 0, h1, regs1)
    case New(k, n) =>
      exists x :: x != 0 && x !in h.kind && h1 == Fresh(h, x, k, if k.Plain? then 0 else n) && regs1 == regs + [x]
    case Drop(_) => h1 == h && regs1 == regs
    case Put(into, i, j) =>
      var x := Resolve(into, b, regs);
      if CanPut(h, x, i) && j < |regs| then h1 == Stored(h, x, i, regs[j]) && regs1 == Without(regs, j)
      else h1 == h && regs1 == regs
    case Take(name, i) =>
      var x := Resolve(name, b, regs);
      if Content(h, x, i) != 0 then h1 == Unslot(h, x, i, false) && regs1 == regs + [h.slots[x][i]]
      else h1 == h && regs1 == regs
  }

  /** One more reference to x is kept, if there is such a block. */
  ghost predicate Held(h: Heap, regs: seq<Block>, x: Block, h1: Heap, regs1: seq<Block>) {
    if x == 0 then h1 == h && regs1 == regs
    else x in h.count && h1 == Retain(h, x) && regs1 == regs + [x]
  }

  function Resolve(name: Name, b: Block, regs: seq<Block>): Block {
    match name
    case This => b
    case Kept(k) => if k < |regs| then regs[k] else 0
  }

  /** The others keep their order. */
  function Without(regs: seq<Block>, j: nat): (r: seq<Block>)
    requires j < |regs|
    ensures |r| == |regs| - 1 && forall k :: 0 <= k < |r| ==> r[k] == regs[if k < j then k else k + 1]
  {
    regs[..j] + regs[j + 1..]
  }

  predicate HasSlot(h: Heap, x: Block, i: nat) {
    x in h.kind && x in h.slots && x in h.strong && i < |h.slots[x]| && i < |h.strong[x]|
  }

  predicate CanPut(h: Heap, x: Block, i: nat) {
    x != 0 && HasSlot(h, x, i) && h.slots[x][i] == 0
  }

  /** What a slot holds; 0 when there is none. */
  function Content(h: Heap, x: Block, i: nat): Block {
    if x != 0 && HasSlot(h, x, i) then h.slots[x][i] else 0
  }

  predicate IsLast(w: World, b: Block) {
    b in w.heap.kind && b in w.heap.count && w.heap.count[b] == 1
  }

  function Released(w: World, b: Block): World
    requires b in w.heap.count && w.heap.count[b] > 0
  {
    w.(heap := Release(w.heap, b))
  }

  function Freed(w: World, b: Block): World {
    w.(heap := Free(w.heap, b))
  }

  function Ended(w: World, b: Block): World
    requires b in w.heap.count && w.heap.count[b] > 0
  {
    w.(heap := End(w.heap, b))
  }

  // --------------------------------------------------------------- what is kept in the end

  /** The references that bodies still keep when they end. */
  function KeptBy(f: Fate): multiset<Block> {
    match f
    case Missing => multiset{}
    case Shared => multiset{}
    case Collected(slots, _) => KeptBySlots(slots)
    case Destroyed(run, slots, _) => KeptByRun(run) + KeptBySlots(slots)
    case Saved(run) => KeptByRun(run)
  }

  function KeptBySlots(s: Slots): multiset<Block> {
    match s
    case NoSlots => multiset{}
    case Slot(before, _, fate) => KeptBySlots(before) + KeptBy(fate)
  }

  function KeptByRun(run: Run): multiset<Block> {
    multiset(run.regs) + KeptBySteps(run.steps)
  }

  function KeptBySteps(s: Steps): multiset<Block> {
    match s
    case NoSteps => multiset{}
    case Step(before, _, _, fate) => KeptBySteps(before) + KeptBy(fate)
  }

  /** How many references a body can keep after its first k actions. */
  function Most(body: seq<Action>, k: nat): nat
    requires k <= |body|
  {
    if k == 0 then 0
    else
      var most := Most(body, k - 1);
      match body[k - 1]
      case Hold(_) => most + 1
      case Load(_, _) => most + 1
      case Static(_) => most + 1
      case New(_, _) => most + 1
      case Take(_, _) => most + 1
      case Put(_, _, _) => most
      case Drop(j) => if j == 0 && most > 0 then most - 1 else most
  }

  /** A body that drops all it has kept. */
  predicate EmptyHanded(body: seq<Action>) {
    Most(body, |body|) == 0
  }

  predicate PutsNothing(body: seq<Action>) {
    forall k :: 0 <= k < |body| ==> !body[k].Put?
  }

  predicate Creates(body: seq<Action>) {
    exists k :: 0 <= k < |body| && body[k].New?
  }

  ghost predicate AllEmptyHanded(script: nat -> seq<Action>) {
    forall n: nat :: EmptyHanded(script(n))
  }

  ghost predicate AllPutNothing(script: nat -> seq<Action>) {
    forall n: nat :: PutsNothing(script(n))
  }

  lemma {:induction false} HoldsAtMost(script: nat -> seq<Action>, body: seq<Action>, w: World, b: Block, k: nat, s: Steps, w1: World, regs: seq<Block>)
    requires Performed(script, body, w, b, k, s, w1, regs) && k <= |body|
    ensures |regs| <= Most(body, k)
    decreases k
  {
    hide Dropping;
    if k > 0 { HoldsAtMost(script, body, w, b, k - 1, s.before, s.at, s.regs); }
  }

  /** When all bodies end empty-handed, a release leaves no new references behind. */
  lemma {:induction false} NothingKept(script: nat -> seq<Action>, w: World, b: Block, f: Fate, w1: World)
    requires AllEmptyHanded(script) && Dropping(script, w, b, f, w1)
    ensures KeptBy(f) == multiset{}
    decreases f, 1
  {
    hide AllEmptyHanded, Torn;
    if !f.Missing? && !f.Shared? { NothingKeptTorn(script, Released(w, b), b, f, if f.Saved? then w1 else f.torn); }
  }

  lemma {:induction false} NothingKeptTorn(script: nat -> seq<Action>, w: World, b: Block, f: Fate, w1: World)
    requires AllEmptyHanded(script) && Torn(script, w, b, f, w1)
    ensures KeptBy(f) == multiset{}
    decreases f, 0
  {
    hide AllEmptyHanded, Emptied, Performed;
    if f.Collected? {
      NothingKeptBySlots(script, w, b, |w.heap.slots[b]|, f.slots, w1);
    } else {
      NothingKeptByRun(script, w, b, f.run);
      if f.Destroyed? {
        var w0 := Ended(f.run.end, b);
        NothingKeptBySlots(script, w0, b, |w0.heap.slots[b]|, f.slots, w1);
      }
    }
  }

  lemma {:induction false} NothingKeptBySlots(script: nat -> seq<Action>, w: World, b: Block, n: nat, s: Slots, w1: World)
    requires AllEmptyHanded(script) && Emptied(script, w, b, n, s, w1)
    ensures KeptBySlots(s) == multiset{}
    decreases s
  {
    hide AllEmptyHanded;
    if n > 0 {
      NothingKeptBySlots(script, w, b, n - 1, s.before, s.at);
      if !s.fate.Missing? {
        var h := s.at.heap;
        NothingKept(script, s.at.(heap := Unslot(h, b, n - 1, h.kind[b].Closure?)), h.slots[b][n - 1], s.fate, w1);
      }
    }
  }

  lemma {:induction false} NothingKeptByRun(script: nat -> seq<Action>, w: World, b: Block, run: Run)
    requires AllEmptyHanded(script) && Destructed(script, w, b, run)
    ensures KeptByRun(run) == multiset{}
    decreases run
  {
    var body := script(w.runs);
    assert EmptyHanded(body);
    NothingKeptBySteps(script, body, World(Begin(w.heap, b), w.runs + 1), b, |body|, run.steps, run.end, run.regs);
    HoldsAtMost(script, body, World(Begin(w.heap, b), w.runs + 1), b, |body|, run.steps, run.end, run.regs);
  }

  lemma {:induction false} NothingKeptBySteps(script: nat -> seq<Action>, body: seq<Action>, w: World, b: Block, k: nat, s: Steps, w1: World, regs: seq<Block>)
    requires AllEmptyHanded(script) && Performed(script, body, w, b, k, s, w1, regs)
    ensures KeptBySteps(s) == multiset{}
    decreases s
  {
    hide AllEmptyHanded, Updated;
    if k > 0 {
      NothingKeptBySteps(script, body, w, b, k - 1, s.before, s.at, s.regs);
      if !s.fate.Missing? { NothingKept(script, s.at, s.regs[body[k - 1].k], s.fate, w1); }
    }
  }

  // -------------------------------------------------------------------- applying the rules

  lemma DropsNothing(script: nat -> seq<Action>, w: World, b: Block)
    requires b !in w.heap.kind
    ensures Dropping(script, w, b, Missing, w) && KeptBy(Missing) == multiset{}
  {
  }

  lemma DropsShared(script: nat -> seq<Action>, w: World, b: Block)
    requires b in w.heap.kind && b in w.heap.count && w.heap.count[b] > 1
    ensures Dropping(script, w, b, Shared, Released(w, b)) && KeptBy(Shared) == multiset{}
  {
  }

  lemma DropsLast(script: nat -> seq<Action>, w: World, b: Block, f: Fate, w1: World)
    requires IsLast(w, b) && Torn(script, Released(w, b), b, f, w1)
    ensures Dropping(script, w, b, f, if f.Saved? then w1 else Freed(w1, b))
  {
  }

  lemma RunsWhole(script: nat -> seq<Action>, w: World, b: Block, w1: World, run: Run)
    requires b in w.heap.kind && HasDestructor(w.heap.kind[b]) && b in w.heap.count && w1 == World(Begin(w.heap, b), w.runs + 1)
    requires Performed(script, script(w.runs), w1, b, |script(w.runs)|, run.steps, run.end, run.regs)
    requires b in run.end.heap.count && run.end.heap.count[b] > 0
    ensures Destructed(script, w, b, run)
  {
    hide Performed;
  }

  lemma TornByNone(script: nat -> seq<Action>, w: World, b: Block, s: Slots, w1: World)
    requires b in w.heap.kind && !HasDestructor(w.heap.kind[b]) && EmptiedAll(script, w, b, s, w1)
    ensures Torn(script, w, b, Collected(s, w1), w1) && KeptBy(Collected(s, w1)) == KeptBySlots(s)
  {
    hide EmptiedAll;
  }

  lemma TornByRun(script: nat -> seq<Action>, w: World, b: Block, run: Run, w1: World, s: Slots, w2: World)
    requires Destructed(script, w, b, run) && w1 == Ended(run.end, b) && w1.heap.count[b] == 0 && EmptiedAll(script, w1, b, s, w2)
    ensures Torn(script, w, b, Destroyed(run, s, w2), w2) && KeptBy(Destroyed(run, s, w2)) == KeptByRun(run) + KeptBySlots(s)
  {
    hide EmptiedAll, Performed;
  }

  lemma KeptByOwnRun(script: nat -> seq<Action>, w: World, b: Block, run: Run, w1: World)
    requires Destructed(script, w, b, run) && w1 == Ended(run.end, b) && w1.heap.count[b] > 0
    ensures Torn(script, w, b, Saved(run), w1) && KeptBy(Saved(run)) == KeptByRun(run)
  {
    hide Performed;
  }

  lemma EmptyingStarted(script: nat -> seq<Action>, w: World, b: Block)
    ensures Emptied(script, w, b, 0, NoSlots, w) && KeptBySlots(NoSlots) == multiset{}
  {
  }

  lemma PerformingStarts(script: nat -> seq<Action>, body: seq<Action>, w: World, b: Block)
    ensures Performed(script, body, w, b, 0, NoSteps, w, []) && KeptBySteps(NoSteps) == multiset{}
  {
  }

  lemma EmptiesOn(script: nat -> seq<Action>, w: World, b: Block, n: nat, s: Slots, at: World, f: Fate, w1: World)
    requires Emptied(script, w, b, n, s, at) && SlotDropped(script, at, b, n, f, w1)
    ensures Emptied(script, w, b, n + 1, Slot(s, at, f), w1) && KeptBySlots(Slot(s, at, f)) == KeptBySlots(s) + KeptBy(f)
  {
    hide SlotDropped;
  }

  lemma EmptySlot(script: nat -> seq<Action>, w: World, b: Block, i: nat)
    requires HasSlot(w.heap, b, i) && w.heap.slots[b][i] == 0
    ensures SlotDropped(script, w, b, i, Missing, w) && KeptBy(Missing) == multiset{}
  {
  }

  lemma FullSlot(script: nat -> seq<Action>, w: World, b: Block, i: nat, keepStored: bool, h: Heap, f: Fate, w1: World)
    requires HasSlot(w.heap, b, i) && w.heap.slots[b][i] != 0 && keepStored == w.heap.kind[b].Closure? && h == Unslot(w.heap, b, i, keepStored)
    requires Dropping(script, World(h, w.runs), w.heap.slots[b][i], f, w1)
    ensures SlotDropped(script, w, b, i, f, w1)
  {
    hide Dropping;
  }

  lemma PerformsOn(script: nat -> seq<Action>, body: seq<Action>, w: World, b: Block, k: nat, s: Steps, at: World, regs: seq<Block>, f: Fate, w1: World, regs1: seq<Block>)
    requires k < |body| && Performed(script, body, w, b, k, s, at, regs) && Acted(script, at, b, regs, body[k], f, w1, regs1)
    ensures Performed(script, body, w, b, k + 1, Step(s, at, regs, f), w1, regs1)
    ensures KeptBySteps(Step(s, at, regs, f)) == KeptBySteps(s) + KeptBy(f)
  {
    hide Acted;
  }

  lemma ActsQuietly(script: nat -> seq<Action>, w: World, b: Block, regs: seq<Block>, a: Action, w1: World, regs1: seq<Block>)
    requires !(a.Drop? && a.k < |regs|) && w1.runs == w.runs && Updated(w.heap, b, regs, a, w1.heap, regs1)
    ensures Acted(script, w, b, regs, a, Missing, w1, regs1) && KeptBy(Missing) == multiset{}
  {
    hide Updated;
  }

  lemma HoldsOne(h: Heap, b: Block, regs: seq<Block>, a: Action, x: Block, h1: Heap, regs1: seq<Block>)
    requires Held(h, regs, x, h1, regs1)
    requires match a
             case Hold(name) => x == Resolve(name, b, regs)
             case Load(name, i) => x == Content(h, Resolve(name, b, regs), i)
             case Static(y) => x == if y in h.kind && y in h.count && h.count[y] > 0 then y else 0
             case _ => false
    ensures Updated(h, b, regs, a, h1, regs1)
  {
    hide Held, Resolve, Content;
  }

  lemma CreatesOne(h: Heap, b: Block, regs: seq<Block>, k: Kind, n: nat, x: Block, h1: Heap)
    requires x != 0 && x !in h.kind && h1 == Fresh(h, x, k, if k.Plain? then 0 else n)
    ensures Updated(h, b, regs, New(k, n), h1, regs + [x])
  {
  }

  lemma PutsOne(h: Heap, b: Block, regs: seq<Block>, into: Name, i: nat, j: nat, x: Block, h1: Heap, regs1: seq<Block>)
    requires x == Resolve(into, b, regs)
    requires if CanPut(h, x, i) && j < |regs| then h1 == Stored(h, x, i, regs[j]) && regs1 == Without(regs, j) else h1 == h && regs1 == regs
    ensures Updated(h, b, regs, Put(into, i, j), h1, regs1)
  {
    hide Resolve;
  }

  lemma TakesOne(h: Heap, b: Block, regs: seq<Block>, name: Name, i: nat, x: Block, h1: Heap, regs1: seq<Block>)
    requires x == Resolve(name, b, regs)
    requires if Content(h, x, i) != 0 then h1 == Unslot(h, x, i, false) && regs1 == regs + [h.slots[x][i]] else h1 == h && regs1 == regs
    ensures Updated(h, b, regs, Take(name, i), h1, regs1)
  {
    hide Resolve;
  }

  lemma DropsOutside(h: Heap, b: Block, regs: seq<Block>, j: nat)
    ensures Updated(h, b, regs, Drop(j), h, regs)
  {
  }

  lemma ActsByDropping(script: nat -> seq<Action>, w: World, b: Block, regs: seq<Block>, j: nat, f: Fate, w1: World)
    requires j < |regs| && Dropping(script, w, regs[j], f, w1)
    ensures Acted(script, w, b, regs, Drop(j), f, w1, Without(regs, j))
  {
    hide Dropping;
  }

  // ----------------------------------------------------------------------- links shrink

  /** Every reference in a slot was in that slot before. */
  ghost predicate Shrunk(h: Heap, h1: Heap) {
    forall c, i :: c in h1.strong && 0 <= i < |h1.strong[c]| && h1.strong[c][i] != 0 ==> WasThere(h, c, i, h1.strong[c][i])
  }

  predicate WasThere(h: Heap, c: Block, i: int, x: Block) {
    c in h.strong && 0 <= i < |h.strong[c]| && h.strong[c][i] == x
  }

  lemma ShrunkOn(h: Heap, h1: Heap, h2: Heap)
    requires Shrunk(h, h1) && Shrunk(h1, h2)
    ensures Shrunk(h, h2)
  {
    forall c, i | c in h2.strong && 0 <= i < |h2.strong[c]| && h2.strong[c][i] != 0 ensures WasThere(h, c, i, h2.strong[c][i]) {
      assert WasThere(h1, c, i, h2.strong[c][i]);
    }
  }

  /** As long as bodies put nothing into fields, or none runs, a release only takes
      references out of slots. */
  lemma {:induction false} DropShrinks(script: nat -> seq<Action>, w: World, b: Block, f: Fate, w1: World)
    requires (AllPutNothing(script) || NoDestructors(w.heap)) && Dropping(script, w, b, f, w1)
    ensures Shrunk(w.heap, w1.heap) && (NoDestructors(w.heap) ==> NoDestructors(w1.heap))
    decreases f, 1
  {
    hide AllPutNothing, NoDestructors, Shrunk, Torn;
    if f.Missing? || f.Shared? {
      SameShrinks(w.heap, w1.heap);
    } else {
      var w0 := Released(w, b);
      var w2 := if f.Saved? then w1 else f.torn;
      SameShrinks(w.heap, w0.heap);
      TornShrinks(script, w0, b, f, w2);
      ShrunkOn(w.heap, w0.heap, w2.heap);
      if !f.Saved? {
        FreeShrinks(w2.heap, b);
        ShrunkOn(w.heap, w2.heap, w1.heap);
      }
    }
  }

  lemma {:induction false} TornShrinks(script: nat -> seq<Action>, w: World, b: Block, f: Fate, w1: World)
    requires (AllPutNothing(script) || NoDestructors(w.heap)) && Torn(script, w, b, f, w1)
    ensures Shrunk(w.heap, w1.heap) && (NoDestructors(w.heap) ==> NoDestructors(w1.heap))
    decreases f, 0
  {
    hide AllPutNothing, NoDestructors, Shrunk, Performed, Emptied;
    if f.Collected? {
      SlotsShrink(script, w, b, |w.heap.slots[b]|, f.slots, w1);
    } else {
      RunShrinks(script, w, b, f.run);
      var w0 := Ended(f.run.end, b);
      if f.Destroyed? {
        SlotsShrink(script, w0, b, |w0.heap.slots[b]|, f.slots, w1);
        ShrunkOn(w.heap, w0.heap, w1.heap);
      }
    }
  }

  lemma SameShrinks(h: Heap, h1: Heap)
    requires h1.kind == h.kind && h1.strong == h.strong
    ensures Shrunk(h, h1) && NoDestructors(h) == NoDestructors(h1)
  {
  }

  lemma FreeShrinks(h: Heap, b: Block)
    ensures Shrunk(h, Free(h, b)) && (NoDestructors(h) ==> NoDestructors(Free(h, b)))
  {
  }

  lemma UnslotShrinks(h: Heap, c: Block, i: nat, keepStored: bool)
    requires HasSlot(h, c, i)
    ensures Shrunk(h, Unslot(h, c, i, keepStored)) && NoDestructors(h) == NoDestructors(Unslot(h, c, i, keepStored))
  {
  }

  lemma {:induction false} SlotsShrink(script: nat -> seq<Action>, w: World, b: Block, n: nat, s: Slots, w1: World)
    requires (AllPutNothing(script) || NoDestructors(w.heap)) && Emptied(script, w, b, n, s, w1)
    ensures Shrunk(w.heap, w1.heap) && (NoDestructors(w.heap) ==> NoDestructors(w1.heap))
    decreases s, 0
  {
    hide AllPutNothing, NoDestructors, Shrunk, SlotDropped;
    if n == 0 {
      SameShrinks(w.heap, w1.heap);
    } else {
      SlotsShrink(script, w, b, n - 1, s.before, s.at);
      SlotShrinks(script, s.at, b, n - 1, s.fate, w1);
      ShrunkOn(w.heap, s.at.heap, w1.heap);
    }
  }

  lemma {:induction false} SlotShrinks(script: nat -> seq<Action>, w: World, b: Block, i: nat, f: Fate, w1: World)
    requires (AllPutNothing(script) || NoDestructors(w.heap)) && SlotDropped(script, w, b, i, f, w1)
    ensures Shrunk(w.heap, w1.heap) && (NoDestructors(w.heap) ==> NoDestructors(w1.heap))
    decreases f, 2
  {
    hide AllPutNothing, NoDestructors, Shrunk, Dropping;
    var h := w.heap;
    if h.slots[b][i] == 0 {
      SameShrinks(h, w1.heap);
    } else {
      var w2 := w.(heap := Unslot(h, b, i, h.kind[b].Closure?));
      UnslotShrinks(h, b, i, h.kind[b].Closure?);
      DropShrinks(script, w2, h.slots[b][i], f, w1);
      ShrunkOn(h, w2.heap, w1.heap);
    }
  }

  lemma {:induction false} RunShrinks(script: nat -> seq<Action>, w: World, b: Block, run: Run)
    requires (AllPutNothing(script) || NoDestructors(w.heap)) && Destructed(script, w, b, run)
    ensures Shrunk(w.heap, Ended(run.end, b).heap) && !NoDestructors(w.heap)
    decreases run
  {
    hide Shrunk;
    var body := script(w.runs);
    assert HasDestructor(w.heap.kind[b]);
    assert PutsNothing(body);
    var w0 := World(Begin(w.heap, b), w.runs + 1);
    SameShrinks(w.heap, w0.heap);
    StepsShrink(script, body, w0, b, |body|, run.steps, run.end, run.regs);
    SameShrinks(run.end.heap, Ended(run.end, b).heap);
    ShrunkOn(w.heap, w0.heap, run.end.heap);
    ShrunkOn(w.heap, run.end.heap, Ended(run.end, b).heap);
  }

  lemma {:induction false} StepsShrink(script: nat -> seq<Action>, body: seq<Action>, w: World, b: Block, k: nat, s: Steps, w1: World, regs: seq<Block>)
    requires AllPutNothing(script) && PutsNothing(body) && Performed(script, body, w, b, k, s, w1, regs)
    ensures Shrunk(w.heap, w1.heap)
    decreases s
  {
    hide AllPutNothing, NoDestructors, Shrunk, Updated;
    if k == 0 {
      SameShrinks(w.heap, w1.heap);
    } else {
      StepsShrink(script, body, w, b, k - 1, s.before, s.at, s.regs);
      var a := body[k - 1];
      if a.Drop? && a.k < |s.regs| {
        DropShrinks(script, s.at, s.regs[a.k], s.fate, w1);
      } else {
        UpdateShrinks(s.at.heap, b, s.regs, a, w1.heap, regs);
      }
      ShrunkOn(w.heap, s.at.heap, w1.heap);
    }
  }

  lemma UpdateShrinks(h: Heap, b: Block, regs: seq<Block>, a: Action, h1: Heap, regs1: seq<Block>)
    requires Updated(h, b, regs, a, h1, regs1) && !a.Put?
    ensures Shrunk(h, h1)
  {
    match a {
      case Take(name, i) =>
        var x := Resolve(name, b, regs);
        if Content(h, x, i) != 0 { UnslotShrinks(h, x, i, false); }
      case _ =>
    }
  }
}
