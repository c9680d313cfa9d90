/** The reference methods of the VM's memory, over blocks: recursive release of
    objects, arrays and closures, with destructors that run re-entrantly and may
    keep their object alive. */
module Arc {
  import opened RefCounts
  import opened Pacts
  import opened Fates
  import opened Reachability

  class Memory {
    const space: set<Block>              // the addresses of the heap
    const script: nat -> seq<Action>     // what the body of the n-th destructor run does
    var runs: nat
    var kind: map<Block, Kind>
    var slots: map<Block, seq<Block>>
    var count: map<Block, nat>
    var activeDestructors: set<Block>
    ghost var strong: map<Block, seq<Block>>
    ghost var holds: multiset<Block>

    ghost function State(): Heap
      reads this
    {
      Heap(kind, slots, count, activeDestructors, strong, holds)
    }

    ghost function Now(): World
      reads this
    {
      World(State(), runs)
    }

    /** The heap is full, and some destructor creates blocks. */
    ghost predicate Exhausted()
      reads this
    {
      space <= kind.Keys && exists n: nat :: Creates(script(n))
    }

    ghost predicate Valid()
      reads this
    {
      Ok(State()) && Shaped(State()) && kind.Keys <= space && 0 !in space
    }

    constructor (space: set<Block>, script: nat -> seq<Action>)
      requires 0 !in space
      ensures Valid() && kind == map[] && holds == multiset{} && this.script == script && this.space == space
    {
      this.space, this.script, runs := space, script, 0;
      kind, slots, count, activeDestructors := map[], map[], map[], {};
      strong, holds := map[], multiset{};
      new;
      EmptyOk(State());
    }

    /** A fresh block, referred to by its allocation alone, unless the heap is full. */
    method Allocate(k: Kind, n: nat) returns (b: Block)
      requires Valid() && (k.Plain? ==> n == 0)
      modifies this
      ensures Valid() && (b == 0 <==> old(kind).Keys == space)
      ensures b == 0 ==> State() == old(State())
      ensures runs == old(runs)
      ensures b != 0 ==> b !in old(kind) && State() == Fresh(old(State()), b, k, n)
    {
      if kind.Keys == space { return 0; }
      b :| b in space && b !in kind;
      AllocateOk(State(), b, k, n);
      kind, slots, count := kind[b := k], slots[b := seq(n, _ => 0)], count[b := 1];
      strong, holds := strong[b := seq(n, _ => 0)], holds + multiset{b};
      assert State() == Fresh(old(State()), b, k, n);
    }

    /** Store a reference one holds into an empty slot of a live block. */
    method Store(c: Block, i: nat, x: Block)
      requires Valid() && c in kind && count[c] > 0 && i < |slots[c]| && slots[c][i] == 0 && x != 0 && Droppable(State(), x)
      modifies this
      ensures i < |old(strong)[c]| && Valid() && runs == old(runs) && State() == Stored(old(State()), c, i, x)
    {
      hide Counted, Closed, Exact, Pinned, Incoming, CountedAt, Droppable;
      StoreOk(State(), c, i, x);
      var stored: seq<Block> := slots[c][i := x];
      ghost var counted: seq<Block> := strong[c][i := x];
      slots := slots[c := stored];
      strong, holds := strong[c := counted], holds - multiset{x};
      assert State() == Stored(old(State()), c, i, x);
    }

    /** Take the reference out of a slot of a live block, leaving null. */
    method Unstore(c: Block, i: nat)
      requires Valid() && c in kind && count[c] > 0 && i < |slots[c]| && slots[c][i] != 0
      modifies this
      ensures i < |old(strong)[c]| && Valid() && runs == old(runs) && State() == Unslot(old(State()), c, i, false)
      ensures Droppable(State(), old(slots[c][i]))
    {
      hide Counted, Closed, Exact, Pinned, Incoming, CountedAt, Droppable;
      StoredAsCounted(State(), c);
      UnslotOk(State(), c, i, false);
      Null(c, i);
    }

    method IncreaseReference(b: Block)
      requires Valid() && (b in kind ==> count[b] > 0)
      modifies this
      ensures Valid() && runs == old(runs) && State() == (if b in old(kind) then Retain(old(State()), b) else old(State()))
    {
      hide Ok;
      if b !in kind { return; }
      RetainOk(State(), b);
      count := count[b := count[b] + 1];
      holds := holds + multiset{b};
    }

    /** Drop one outside reference, with all that follows.  Not ok: a destructor found
        the heap full. */
    method DecreaseReference(b: Block, ghost p: Pact) returns (ok: bool, ghost f: Fate)
      requires Valid() && Honoured(State(), p) && AllFit(script, p)
      requires b in kind ==> Droppable(State(), b) && b !in p.fence && p.base <= holds - multiset{b}
      modifies this
      ensures ok ==> Valid() && Calm(old(State()), State(), {}, p) && Honoured(State(), p) && holds == old(holds) - multiset{b} + KeptBy(f)
      ensures ok ==> Dropping(script, old(Now()), b, f, Now())
      ensures !ok ==> Exhausted()
      ensures NoDestructors(old(State())) ==> ok && KeptBy(f) == multiset{}
      decreases space - Busy(State()), 0
    {
      hide Ok, Calm, Busy, Droppable, Honoured, AllFit, NoDestructors, Dropping, Torn, EmptiedAll, KeptBy, Exhausted, TornDown;
      ghost var h0, w0 := State(), Now();
      ok, f := true, Missing;
      if b !in kind {
        NothingDropped(h0, b, p);
        DropsNothing(script, w0, b);
        return;
      }
      Drops(h0, b, p);
      count := count[b := count[b] - 1];
      holds := holds - multiset{b};
      ghost var h1 := State();
      ghost var w1 := Released(w0, b);
      assert h1 == w1.heap;
      f := Shared;
      if count[b] > 0 { DropsShared(script, w0, b); }
      if count[b] == 0 {
        BusierBy(h0, h1, b, space);
        ok, f := TearDown(b, p);
        if !ok { return; }
        ghost var h2 := State();
        DropsLast(script, w0, b, f, Now());
        if count[b] == 0 {
          Dies(h0, h1, h2, b, p);
          Deallocate(b);
        } else {
          Revives(h0, h1, h2, b, p);
        }
      }
    }

    /** What happens to a block that nothing refers to any more, up to its removal. */
    method TearDown(b: Block, ghost p: Pact) returns (ok: bool, ghost f: Fate)
      requires Valid() && Honoured(State(), p) && AllFit(script, p) && b in kind
      requires count[b] == 0 && strong[b] == slots[b] && b !in activeDestructors && b !in p.fence
      modifies this
      ensures ok ==> Valid() && Calm(old(State()), State(), {b}, p) && Honoured(State(), p) && holds == old(holds) + KeptBy(f) && b in kind
      ensures ok ==> Torn(script, old(Now()), b, f, Now()) && (count[b] > 0 <==> f.Saved?)
      ensures ok ==> if f.Saved? then HasDestructor(old(kind[b])) else TornDown(State(), b)
      ensures !ok ==> Exhausted()
      ensures NoDestructors(old(State())) ==> ok && KeptBy(f) == multiset{}
      decreases space - Busy(State()), 6
    {
      hide Ok, Calm, Busy, Droppable, Honoured, AllFit, NoDestructors, TornDown, TakenOnly, Incoming, Torn, KeptBy, KeptBySlots, EmptiedAll, Exhausted;
      if kind[b].Closure? {
        ghost var s;
        ok, s := ReleaseCaptured(b, p);
        f := Collected(s, Now());
        if ok {
          TornByNone(script, old(Now()), b, s, Now());
          TornDownFacts(State(), b);
        }
      } else {
        ok, f := ObjectDestructor(b, p);
      }
    }

    /** DEC_REF: drop a reference to b, with what it leads to on one side and what the
        other references lead to on the other. */
    method DecRef(b: Block) returns (ok: bool, ghost f: Fate)
      requires Valid() && (b in kind ==> Droppable(State(), b))
      modifies this
      ensures ok ==> Valid() && HasReleased(old(Now()), Now(), b, f, script)
      ensures !ok ==> Exhausted()
      ensures NoDestructors(old(State())) ==> ok
    {
      hide Ok, Calm, Busy, Droppable, Honoured, AllFit, NoDestructors, DropPact, Dropping;
      ghost var p := DropPact(State(), b, script);
      DropHonoured(State(), b, script);
      ok, f := DecreaseReference(b, p);
    }

    /** As above, for a captured callable's environment, a closure; the block goes
        without another look at its count. */
    method DecreaseReferenceCallable(b: Block, ghost p: Pact) returns (ok: bool, ghost f: Fate)
      requires Valid() && Honoured(State(), p) && AllFit(script, p)
      requires b in kind ==> Droppable(State(), b) && b !in p.fence && p.base <= holds - multiset{b} && kind[b].Closure?
      modifies this
      ensures ok ==> Valid() && Calm(old(State()), State(), {}, p) && Honoured(State(), p) && holds == old(holds) - multiset{b} + KeptBy(f)
      ensures ok ==> Dropping(script, old(Now()), b, f, Now())
      ensures !ok ==> Exhausted()
      ensures NoDestructors(old(State())) ==> ok && KeptBy(f) == multiset{}
      decreases space - Busy(State()), 0
    {
      hide Ok, Calm, Busy, Droppable, Honoured, AllFit, NoDestructors, Dropping, Torn, EmptiedAll, KeptBy, Exhausted, TornDown;
      ghost var h0, w0 := State(), Now();
      ok, f := true, Missing;
      if b !in kind {
        NothingDropped(h0, b, p);
        DropsNothing(script, w0, b);
        return;
      }
      Drops(h0, b, p);
      count := count[b := count[b] - 1];
      holds := holds - multiset{b};
      ghost var h1 := State();
      ghost var w1 := Released(w0, b);
      assert h1 == w1.heap;
      f := Shared;
      if count[b] > 0 { DropsShared(script, w0, b); }
      if count[b] == 0 {
        BusierBy(h0, h1, b, space);
        ghost var s;
        ok, s := ReleaseCaptured(b, p);
        f := Collected(s, Now());
        if !ok { return; }
        TornDownFacts(State(), b);
        TornByNone(script, w1, b, s, Now());
        DropsLast(script, w0, b, f, Now());
        Dies(h0, h1, State(), b, p);
        Deallocate(b);
      }
    }

    method Deallocate(b: Block)
      requires b in kind
      modifies this
      ensures Now() == Freed(old(Now()), b)
    {
      kind := kind - {b};
      slots := slots - {b};
      count := count - {b};
      strong := strong - {b};
    }

    /** Drop what a closure has captured; its slots keep their stored values. */
    method ReleaseCaptured(b: Block, ghost p: Pact) returns (ok: bool, ghost s: Slots)
      requires Valid() && Honoured(State(), p) && AllFit(script, p)
      requires b in kind && count[b] == 0 && kind[b].Closure? && strong[b] == slots[b] && b !in p.fence
      modifies this
      ensures ok ==> Valid() && Calm(old(State()), State(), {b}, p) && Honoured(State(), p) && TornDown(State(), b) && holds == old(holds) + KeptBySlots(s)
      ensures ok ==> EmptiedAll(script, old(Now()), b, s, Now())
      ensures !ok ==> Exhausted()
      ensures NoDestructors(old(State())) ==> ok && KeptBySlots(s) == multiset{}
      decreases space - Busy(State()), 2
    {
      hide Ok, Calm, Busy, Honoured, AllFit, NoDestructors, Emptying, TornDown, SlotDropped, Emptied, KeptBySlots, Exhausted;
      ghost var h0 := State();
      ok, s := true, NoSlots;
      var n := |slots[b]|;
      var i := 0;
      EmptyingStarts(h0, b, p);
      EmptyingStarted(script, Now(), b);
      while i < n
        invariant 0 <= i <= n && ok && Valid() && Emptying(h0, State(), b, i, KeptBySlots(s), p) && b in kind && |slots[b]| == n && kind[b].Closure?
        invariant Emptied(script, World(h0, old(runs)), b, i, s, Now())
      {
        ghost var at := Now();
        ghost var f;
        ok, f := DropCapture(b, i, h0, KeptBySlots(s), p);
        if ok { EmptiesOn(script, World(h0, old(runs)), b, i, s, at, f, Now()); }
        s := Slot(s, at, f);
        if !ok { return; }
        i := i + 1;
        EmptyingFacts(h0, State(), b, i, KeptBySlots(s), p);
      }
      EmptyingEnds(h0, State(), b, KeptBySlots(s), p);
    }

    /** Null the strong slots of a dying object or array, dropping what they held. */
    method ReleaseFields(b: Block, ghost p: Pact) returns (ok: bool, ghost s: Slots)
      requires Valid() && Honoured(State(), p) && AllFit(script, p)
      requires b in kind && count[b] == 0 && !kind[b].Closure? && strong[b] == slots[b] && b !in p.fence
      modifies this
      ensures ok ==> Valid() && Calm(old(State()), State(), {b}, p) && Honoured(State(), p) && TornDown(State(), b) && holds == old(holds) + KeptBySlots(s)
      ensures ok ==> EmptiedAll(script, old(Now()), b, s, Now())
      ensures !ok ==> Exhausted()
      ensures NoDestructors(old(State())) ==> ok && KeptBySlots(s) == multiset{}
      decreases space - Busy(State()), 2
    {
      hide Ok, Calm, Busy, Honoured, AllFit, NoDestructors, Emptying, TornDown, SlotDropped, Emptied, KeptBySlots, Exhausted;
      ghost var h0 := State();
      ok, s := true, NoSlots;
      var n := |slots[b]|;
      var i := 0;
      EmptyingStarts(h0, b, p);
      EmptyingStarted(script, Now(), b);
      while i < n
        invariant 0 <= i <= n && ok && Valid() && Emptying(h0, State(), b, i, KeptBySlots(s), p) && b in kind && |slots[b]| == n && !kind[b].Closure?
        invariant Emptied(script, World(h0, old(runs)), b, i, s, Now())
      {
        ghost var at := Now();
        ghost var f;
        ok, f := NullSlot(b, i, h0, KeptBySlots(s), p);
        if ok { EmptiesOn(script, World(h0, old(runs)), b, i, s, at, f, Now()); }
        s := Slot(s, at, f);
        if !ok { return; }
        i := i + 1;
        EmptyingFacts(h0, State(), b, i, KeptBySlots(s), p);
      }
      EmptyingEnds(h0, State(), b, KeptBySlots(s), p);
    }

    /** Drop one captured reference. */
    method DropCapture(b: Block, i: nat, ghost h0: Heap, ghost before: multiset<Block>, ghost p: Pact)
        returns (ok: bool, ghost f: Fate)
      requires Valid() && Shaped(h0) && AllFit(script, p) && Emptying(h0, State(), b, i, before, p)
      requires b in kind && i < |slots[b]| && kind[b].Closure?
      modifies this
      ensures ok ==> Valid() && Emptying(h0, State(), b, i + 1, before + KeptBy(f), p)
      ensures ok ==> SlotDropped(script, old(Now()), b, i, f, Now())
      ensures !ok ==> Exhausted()
      ensures NoDestructors(h0) ==> ok
      decreases space - Busy(h0), 1
    {
      hide Ok, Calm, Busy, Droppable, Honoured, AllFit, NoDestructors, Emptying, Dropping, SlotDropped, KeptBy, Exhausted, HasSlot;
      ghost var h1, w1 := State(), Now();
      EmptyingFacts(h0, h1, b, i, before, p);
      ok, f := true, Missing;
      var child := slots[b][i];
      SlotIsThere(h1, b, i);
      if child == 0 {
        EmptySlot(script, w1, b, i);
        assert before + multiset{} == before;
        return;
      }
      Unslots(h0, h1, b, i, true, before, p);
      holds := holds + multiset{child};
      strong := strong[b := strong[b][i := 0]];
      ghost var h2 := State();
      assert h2 == Unslot(h1, b, i, true);
      if kind[child].Closure? {
        ok, f := DecreaseReferenceCallable(child, p);
      } else {
        ok, f := DecreaseReference(child, p);
      }
      if ok { SlotGone(script, h0, w1, h2, Now(), b, i, true, before, f, p); }
    }

    /** Null one slot and drop what it held. */
    method NullSlot(b: Block, i: nat, ghost h0: Heap, ghost before: multiset<Block>, ghost p: Pact)
        returns (ok: bool, ghost f: Fate)
      requires Valid() && Shaped(h0) && AllFit(script, p) && Emptying(h0, State(), b, i, before, p)
      requires b in kind && i < |slots[b]| && !kind[b].Closure?
      modifies this
      ensures ok ==> Valid() && Emptying(h0, State(), b, i + 1, before + KeptBy(f), p)
      ensures ok ==> SlotDropped(script, old(Now()), b, i, f, Now())
      ensures !ok ==> Exhausted()
      ensures NoDestructors(h0) ==> ok
      decreases space - Busy(h0), 1
    {
      hide Ok, Calm, Busy, Droppable, Honoured, AllFit, NoDestructors, Emptying, Dropping, SlotDropped, KeptBy, Exhausted, HasSlot;
      ghost var h1, w1 := State(), Now();
      EmptyingFacts(h0, h1, b, i, before, p);
      ok, f := true, Missing;
      var child := slots[b][i];
      SlotIsThere(h1, b, i);
      if child == 0 {
        EmptySlot(script, w1, b, i);
        assert before + multiset{} == before;
        return;
      }
      Unslots(h0, h1, b, i, false, before, p);
      Null(b, i);
      ghost var h2 := State();
      ok, f := DecreaseReference(child, p);
      if ok { SlotGone(script, h0, w1, h2, Now(), b, i, false, before, f, p); }
    }

    method Null(b: Block, i: nat)
      requires b in slots && i < |slots[b]| && b in strong && i < |strong[b]| && strong[b][i] == slots[b][i]
      modifies this`slots, this`strong, this`holds
      ensures State() == Unslot(old(State()), b, i, false)
    {
      holds := holds + multiset{slots[b][i]};
      slots := slots[b := slots[b][i := 0]];
      strong := strong[b := strong[b][i := 0]];
    }

    /** Run the destructor, if there is one; unless its body kept the object alive,
        release the fields.  A destructor never starts while it is running.  An object
        kept alive counts the references kept to it, inside and outside the heap. */
    method ObjectDestructor(b: Block, ghost p: Pact) returns (ok: bool, ghost f: Fate)
      requires Valid() && Honoured(State(), p) && AllFit(script, p) && b in kind && !kind[b].Closure?
      requires count[b] == 0 && strong[b] == slots[b] && b !in activeDestructors && b !in p.fence
      modifies this
      ensures ok ==> Valid() && Calm(old(State()), State(), {b}, p) && Honoured(State(), p) && holds == old(holds) + KeptBy(f) && b in kind
      ensures ok ==> Torn(script, old(Now()), b, f, Now()) && (count[b] > 0 <==> f.Saved?)
      ensures ok && count[b] == 0 ==> TornDown(State(), b)
      ensures ok && count[b] > 0 ==> HasDestructor(old(kind[b])) && kind[b] == old(kind[b]) && count[b] == |Incoming(strong, b)| + KeptBy(f)[b]
      ensures ok && count[b] > 0 ==> |slots[b]| == |old(slots[b])| && (p.tame ==> TakenOnly(script(old(runs)), old(slots[b]), slots[b]))
      ensures ok && AllEmptyHanded(script) && AllPutNothing(script) ==> count[b] == 0
      ensures !ok ==> Exhausted()
      ensures NoDestructors(old(State())) ==> ok && KeptBy(f) == multiset{}
      decreases space - Busy(State()), 5
    {
      hide Ok, Calm, Busy, Droppable, Honoured, AllFit, NoDestructors, TornDown, TakenOnly, Incoming, EmptiedAll, Destructed, AllEmptyHanded,
           AllPutNothing, Torn, KeptBy, KeptBySlots, KeptByRun, Exhausted;
      ghost var h0, w0 := State(), Now();
      ghost var run: Run, s: Slots;
      if HasDestructor(kind[b]) {
        ok, run := RunDestructor(b, p);
        if !ok { f := Missing; return; }
        if count[b] > 0 {
          f := Saved(run);
          KeptByOwnRun(script, w0, b, run, Now());
          Revived(h0, State(), b, KeptByRun(run));
          if AllEmptyHanded(script) && AllPutNothing(script) { NotSaved(script, w0, b, run, Now()); }
          return;
        }
        ghost var h1 := State();
        BusyStays(h0, h1, b, p);
        ghost var w1 := Now();
        ok, s := ReleaseFields(b, p);
        f := Destroyed(run, s, Now());
        if ok {
          CalmStep(h0, h1, State(), {b}, p);
          TornByRun(script, w0, b, run, w1, s, Now());
        }
      } else {
        ok, s := ReleaseFields(b, p);
        f := Collected(s, Now());
        if ok { TornByNone(script, w0, b, s, Now()); }
      }
      if ok { TornDownFacts(State(), b); }
    }

    /** The destructor's run, holding its object for as long as it lasts. */
    method RunDestructor(b: Block, ghost p: Pact) returns (ok: bool, ghost run: Run)
      requires Valid() && Honoured(State(), p) && AllFit(script, p) && b in kind && HasDestructor(kind[b])
      requires count[b] == 0 && strong[b] == slots[b] && b !in activeDestructors && b !in p.fence
      modifies this
      ensures ok ==> Valid() && Calm(old(State()), State(), {b}, p) && Honoured(State(), p) && holds == old(holds) + KeptByRun(run)
      ensures ok ==> Destructed(script, old(Now()), b, run) && Now() == Ended(run.end, b)
      ensures ok ==> b in kind && kind[b] == old(kind[b]) && strong[b] == slots[b] && |slots[b]| == |old(slots[b])|
      ensures ok && p.tame ==> TakenOnly(script(old(runs)), old(slots[b]), slots[b])
      ensures !ok ==> Exhausted()
      ensures !NoDestructors(old(State()))
      decreases space - Busy(State()), 4
    {
      hide Ok, Calm, Busy, Droppable, Honoured, AllFit, NoDestructors, TakenOnly, Performed, KeptByRun, Exhausted, Destructed, Ended;
      ghost var h0, w0 := State(), Now();
      Begins(h0, b, p);
      Enter(b);
      ghost var h1 := State();
      ok, run := InvokeDestructor(b, p);
      if !ok { return; }
      EndsWhole(script, w0, h1, b, run, p);
      Leave(b);
    }

    /** Mark the destructor as running, which counts as a reference. */
    method Enter(b: Block)
      requires b in count && count[b] == 0
      modifies this`activeDestructors, this`count, this`holds
      ensures State() == Begin(old(State()), b)
    {
      activeDestructors := activeDestructors + {b};
      count := count[b := 1];
      holds := holds + multiset{b};
    }

    method Leave(b: Block)
      requires b in count && count[b] > 0
      modifies this`activeDestructors, this`count, this`holds
      ensures Now() == Ended(old(Now()), b)
    {
      activeDestructors := activeDestructors - {b};
      count := count[b := count[b] - 1];
      holds := holds - multiset{b};
    }

    /** The destructor's body: any sequence of steps that keep references to blocks it
        knows, create blocks, move kept references into fields and references in
        fields out, and drop kept references, with whatever that destroys. */
    method InvokeDestructor(b: Block, ghost p: Pact) returns (ok: bool, ghost run: Run)
      requires Valid() && Honoured(State(), p) && AllFit(script, p)
      requires b in activeDestructors && b in kind && HasDestructor(kind[b]) && b !in p.fence && b !in p.roots
      modifies this
      ensures ok ==> Valid() && Calm(old(State()), State(), {b}, p) && Honoured(State(), p) && holds == old(holds) + KeptByRun(run)
      ensures ok ==> run.end == Now() && Performed(script, script(old(runs)), World(old(State()), old(runs) + 1), b, |script(old(runs))|, run.steps, Now(), run.regs)
      ensures ok ==> b in kind && kind[b] == old(kind[b]) && |slots[b]| == |old(slots[b])|
      ensures ok && p.tame ==> TakenOnly(script(old(runs)), old(slots[b]), slots[b])
      ensures !ok ==> Exhausted()
      decreases space - Busy(State()), 3
    {
      hide Ok, Calm, Busy, Honoured, Fits, AllFit, NoDestructors, Running, TakenOnly, Acted, Performed, KeptBy, KeptBySteps, KeptByRun, Exhausted;
      ghost var h0, n := State(), runs;
      var body := script(runs);
      runs := runs + 1;
      var regs: seq<Block> := [];
      ghost var w0, steps := Now(), NoSteps;
      ok := true;
      var k := 0;
      NthFits(script, n, p);
      RunningStarts(h0, b, body, p);
      PerformingStarts(script, body, w0, b);
      while k < |body|
        invariant 0 <= k <= |body| && ok && Valid() && Running(h0, State(), b, regs, KeptBySteps(steps), body, p)
        invariant Performed(script, body, w0, b, k, steps, Now(), regs)
      {
        ghost var at, before, f := Now(), regs, Missing;
        ok, regs, f := Perform(body, k, b, regs, KeptBySteps(steps), h0, n, p);
        if !ok { run := Run(steps, at, before); return; }
        PerformsOn(script, body, w0, b, k, steps, at, before, f, Now(), regs);
        steps := Step(steps, at, before, f);
        k := k + 1;
      }
      run := Run(steps, Now(), regs);
      assert KeptByRun(run) == multiset(regs) + KeptBySteps(steps) by { KeptInAll(run); }
      RunningEnds(h0, State(), b, regs, KeptBySteps(steps), body, p);
    }

    /** One step of a destructor's body. */
    method Perform(body: seq<Action>, k: nat, b: Block, regs: seq<Block>, ghost extra: multiset<Block>, ghost h0: Heap, ghost n: nat, ghost p: Pact)
        returns (ok: bool, left: seq<Block>, ghost f: Fate)
      requires Valid() && Shaped(h0) && AllFit(script, p) && Fits(body, p) && k < |body| && body == script(n)
      requires Running(h0, State(), b, regs, extra, body, p)
      modifies this
      ensures ok ==> Valid() && Running(h0, State(), b, left, extra + KeptBy(f), body, p)
      ensures ok ==> Acted(script, old(Now()), b, regs, body[k], f, Now(), left)
      ensures !ok ==> Exhausted()
      decreases space - Busy(h0), 2
    {
      hide Ok, Calm, Busy, Honoured, AllFit, NoDestructors, Running, Droppable, Dropping, Acted, Updated, KeptBy, Exhausted, Fits, Content, Resolve,
           Held, Known, CanPut;
      if body[k].Drop? && body[k].k < |regs| {
        ok, left, f := DropKept(body[k].k, body, b, regs, extra, h0, p);
        if ok { ActsByDropping(script, old(Now()), b, regs, body[k].k, f, Now()); }
        return;
      }
      f := Missing;
      assert extra + multiset{} == extra;
      ok, left := Update(body, k, b, regs, extra, h0, n, p);
      if ok { ActsQuietly(script, old(Now()), b, regs, body[k], Now(), left); }
    }

    /** A step that destroys nothing. */
    method Update(body: seq<Action>, k: nat, b: Block, regs: seq<Block>, ghost extra: multiset<Block>, ghost h0: Heap, ghost n: nat, ghost p: Pact)
        returns (ok: bool, left: seq<Block>)
      requires Valid() && Shaped(h0) && Fits(body, p) && k < |body| && body == script(n) && !(body[k].Drop? && body[k].k < |regs|)
      requires Running(h0, State(), b, regs, extra, body, p)
      modifies this
      ensures ok ==> Valid() && Running(h0, State(), b, left, extra, body, p)
      ensures ok ==> runs == old(runs) && Updated(old(State()), b, regs, body[k], State(), left)
      ensures !ok ==> Exhausted()
    {
      hide Ok, Calm, Busy, Honoured, NoDestructors, Running, Droppable, Fits, Content, Held, Known, CanPut, HasSlot, Updated, Exhausted, Resolve, Without;
      ok, left := true, regs;
      ghost var h := State();
      RunningKnows(h0, h, b, regs, extra, body, p);
      match body[k] {
        case Hold(name) =>
          ResolveKnown(h, name, b, regs, p);
          left := Keep(Resolve(name, b, regs), body, b, regs, extra, h0, p);
          HoldsOne(h, b, regs, body[k], Resolve(name, b, regs), State(), left);
        case Load(name, i) =>
          ResolveKnown(h, name, b, regs, p);
          var x := Read(Resolve(name, b, regs), i, p);
          left := Keep(x, body, b, regs, extra, h0, p);
          HoldsOne(h, b, regs, body[k], x, State(), left);
        case Static(x) =>
          if x in kind && count[x] > 0 { StaticKnown(h, body, k, p); }
          var y := if x in kind && count[x] > 0 then x else 0;
          left := Keep(y, body, b, regs, extra, h0, p);
          HoldsOne(h, b, regs, body[k], y, State(), left);
        case New(sort, size) =>
          var x;
          ok, x := Create(sort, if sort.Plain? then 0 else size, body, b, regs, extra, h0, p);
          if ok {
            left := regs + [x];
            CreatesOne(h, b, regs, sort, size, x, State());
          } else {
            IsExhausted(body, k, n);
          }
        case Drop(j) => DropsOutside(h, b, regs, j);
        case Put(into, i, j) =>
          ResolveKnown(h, into, b, regs, p);
          var x := Resolve(into, b, regs);
          PutWhere(h, x, i, p);
          if x != 0 && i < |slots[x]| && slots[x][i] == 0 && j < |regs| { left := PutKept(x, i, j, body, b, regs, extra, h0, p); }
          PutsOne(h, b, regs, into, i, j, x, State(), left);
        case Take(name, i) =>
          ResolveKnown(h, name, b, regs, p);
          var x := Resolve(name, b, regs);
          var y := Read(x, i, p);
          if y != 0 { left := TakeOut(x, i, k, body, b, regs, extra, h0, p); }
          TakesOne(h, b, regs, name, i, x, State(), left);
      }
    }

    /** What a field of a block that the body knows holds. */
    method Read(x: Block, i: nat, ghost p: Pact) returns (y: Block)
      requires Valid() && Honoured(State(), p) && (x == 0 || Known(State(), x, p))
      ensures y == Content(State(), x, i) && (y == 0 || Known(State(), y, p))
      ensures y != 0 ==> x != 0 && Known(State(), x, p) && i < |slots[x]| && y == slots[x][i]
    {
      hide Ok, Honoured;
      y := if x != 0 && i < |slots[x]| then slots[x][i] else 0;
      if x != 0 { KnownShape(State(), x, p); }
      if y != 0 { SlotKnown(State(), x, i, p); }
    }

    /** Keep one more reference to x, if it is a block. */
    method Keep(x: Block, body: seq<Action>, b: Block, regs: seq<Block>, ghost extra: multiset<Block>, ghost h0: Heap, ghost p: Pact)
        returns (left: seq<Block>)
      requires Valid() && Shaped(h0) && Running(h0, State(), b, regs, extra, body, p) && (x == 0 || Known(State(), x, p))
      modifies this
      ensures Valid() && Running(h0, State(), b, left, extra, body, p)
      ensures runs == old(runs) && Held(old(State()), regs, x, State(), left)
    {
      hide Ok, Calm, Honoured, Running, Droppable;
      if x == 0 { return regs; }
      ghost var h1 := State();
      RetainOk(h1, x);
      IncreaseReference(x);
      left := regs + [x];
      KeepRuns(h0, h1, x, b, regs, extra, body, p);
    }

    method Create(k: Kind, n: nat, body: seq<Action>, b: Block, regs: seq<Block>, ghost extra: multiset<Block>, ghost h0: Heap, ghost p: Pact)
        returns (ok: bool, x: Block)
      requires Valid() && Shaped(h0) && Running(h0, State(), b, regs, extra, body, p) && (k.Plain? ==> n == 0)
      modifies this
      ensures ok ==> Valid() && Running(h0, State(), b, regs + [x], extra, body, p)
      ensures ok ==> x != 0 && x !in old(kind) && State() == Fresh(old(State()), x, k, n)
      ensures runs == old(runs) && (!ok ==> kind.Keys == space)
    {
      hide Ok, Calm, Honoured, Running, Droppable;
      ghost var h1 := State();
      x := Allocate(k, n);
      ok := x != 0;
      if ok { CreateRuns(h0, h1, x, k, n, b, regs, extra, body, p); }
    }

    method DropKept(j: nat, body: seq<Action>, b: Block, regs: seq<Block>, ghost extra: multiset<Block>, ghost h0: Heap, ghost p: Pact)
        returns (ok: bool, left: seq<Block>, ghost f: Fate)
      requires Valid() && Shaped(h0) && AllFit(script, p) && Running(h0, State(), b, regs, extra, body, p) && j < |regs|
      modifies this
      ensures ok ==> Valid() && Running(h0, State(), b, left, extra + KeptBy(f), body, p)
      ensures ok ==> left == Without(regs, j) && Dropping(script, old(Now()), regs[j], f, Now())
      ensures !ok ==> Exhausted()
      decreases space - Busy(h0), 1
    {
      hide Ok, Calm, Busy, Honoured, AllFit, NoDestructors, Running, Droppable;
      ghost var h1 := State();
      RegDroppable(h0, h1, j, b, regs, extra, body, p);
      left := Without(regs, j);
      ok, f := DecreaseReference(regs[j], p);
      if ok { DropRuns(h0, h1, State(), j, b, regs, extra, KeptBy(f), body, p); }
    }

    method PutKept(c: Block, i: nat, j: nat, body: seq<Action>, b: Block, regs: seq<Block>, ghost extra: multiset<Block>, ghost h0: Heap, ghost p: Pact)
        returns (left: seq<Block>)
      requires Valid() && Shaped(h0) && Running(h0, State(), b, regs, extra, body, p) && j < |regs|
      requires Known(State(), c, p) && i < |slots[c]| && slots[c][i] == 0
      modifies this
      ensures Valid() && Running(h0, State(), b, left, extra, body, p)
      ensures left == Without(regs, j) && CanPut(old(State()), c, i) && runs == old(runs) && State() == Stored(old(State()), c, i, regs[j])
    {
      hide Ok, Calm, Honoured, Running, Droppable;
      ghost var h1 := State();
      RegDroppable(h0, h1, j, b, regs, extra, body, p);
      StoreOk(h1, c, i, regs[j]);
      Store(c, i, regs[j]);
      left := Without(regs, j);
      PutRuns(h0, h1, c, i, j, b, regs, extra, body, p);
    }

    method TakeOut(c: Block, i: nat, k: nat, body: seq<Action>, b: Block, regs: seq<Block>, ghost extra: multiset<Block>, ghost h0: Heap, ghost p: Pact)
        returns (left: seq<Block>)
      requires Valid() && Shaped(h0) && Running(h0, State(), b, regs, extra, body, p) && Fits(body, p) && k < |body|
      requires body[k].Take? && body[k].i == i && c == Resolve(body[k].name, b, regs) && Known(State(), c, p) && i < |slots[c]| && slots[c][i] != 0
      modifies this
      ensures Valid() && Running(h0, State(), b, left, extra, body, p)
      ensures HasSlot(old(State()), c, i) && left == regs + [old(slots[c][i])] && runs == old(runs) && State() == Unslot(old(State()), c, i, false)
    {
      hide Ok, Calm, Honoured, Running, Droppable;
      ghost var h1 := State();
      left := regs + [slots[c][i]];
      Unstore(c, i);
      TakeRuns(h0, h1, c, i, k, b, regs, extra, body, p);
    }

    lemma IsExhausted(body: seq<Action>, k: nat, n: nat)
      requires kind.Keys == space && body == script(n) && k < |body| && body[k].New?
      ensures Exhausted()
    {
      assert Creates(script(n));
    }
  }

  // ------------------------------------------------------------------ supporting facts

  lemma EmptyOk(h: Heap)
    requires h == Heap(map[], map[], map[], {}, map[], multiset{})
    ensures Ok(h)
  {
  }

  /** A body that drops all it keeps and puts nothing into fields cannot save its object. */
  lemma NotSaved(script: nat -> seq<Action>, w: World, b: Block, run: Run, w1: World)
    requires Ok(w.heap) && b in w.heap.kind && w.heap.count[b] == 0 && w.heap.strong[b] == w.heap.slots[b]
    requires AllEmptyHanded(script) && AllPutNothing(script) && Destructed(script, w, b, run)
    requires w1 == Ended(run.end, b) && Ok(w1.heap) && b in w1.heap.kind && w1.heap.holds == w.heap.holds + KeptByRun(run)
    ensures w1.heap.count[b] == 0
  {
    hide AllEmptyHanded, AllPutNothing, Destructed, Counted, Closed, Pinned, CountedAt, Incoming;
    NothingKeptByRun(script, w, b, run);
    RunShrinks(script, w, b, run);
    NoneComes(w.heap, w1.heap, b);
  }

  lemma NoneComes(h: Heap, h1: Heap, b: Block)
    requires Incoming(h.strong, b) == {} && Shrunk(h, h1) && b != 0
    ensures Incoming(h1.strong, b) == {}
  {
    if p :| p in Incoming(h1.strong, b) {
      assert WasThere(h, p.0, p.1, h1.strong[p.0][p.1]);
      IncomingHas(h.strong, p.0, p.1);
      assert false;
    }
  }

  lemma StoredAsCounted(h: Heap, b: Block)
    requires Ok(h) && b in h.kind && h.count[b] > 0
    ensures h.strong[b] == h.slots[b]
  {
    hide Incoming, Closed, Exact, Pinned;
    assert CountedAt(h, b);
  }

  lemma NothingDropped(h: Heap, b: Block, p: Pact)
    requires Ok(h) && Honoured(h, p) && b !in h.kind
    ensures Calm(h, h, {}, p) && h.holds == h.holds - multiset{b}
  {
    hide Incoming, Closed, Exact, Pinned, Counted, Honoured, Calm;
    CalmSelf(h, {}, p);
  }

  lemma NothingYet(h: Heap, b: Block, p: Pact)
    requires Ok(h) && Honoured(h, p)
    ensures Calm(h, h, {b}, p)
  {
    CalmSelf(h, {b}, p);
  }

  /** Dropping a reference; when it was the last one, the block is neither running
      nor a root. */
  lemma Drops(h: Heap, b: Block, p: Pact)
    requires Ok(h) && Honoured(h, p) && Droppable(h, b) && b !in p.fence && p.base <= h.holds - multiset{b}
    ensures b in h.kind && h.count[b] > 0 && Ok(Release(h, b)) && Shaped(Release(h, b)) && Honoured(Release(h, b), p)
    ensures h.count[b] > 1 ==> Calm(h, Release(h, b), {}, p)
    ensures h.count[b] == 1 ==> b !in h.active && h.strong[b] == h.slots[b] && b !in p.roots
    ensures NoDestructors(h) == NoDestructors(Release(h, b))
  {
    hide Incoming, CountedAt, Closed, Exact, Pinned, Calm, Counted, Fenced, Rooted, NoDestructors, Honoured;
    ReleaseOk(h, b);
    var h1 := Release(h, b);
    SameSlotsHonoured(h, h1, p);
    SameKinds(h, h1);
    if h.count[b] == 1 {
      StoredAsCounted(h, b);
      if b in p.roots { SolidRoots(h1, p, b); }
    } else {
      ReleaseCalm(h, b, {}, p);
    }
  }

  lemma BusierBy(h: Heap, h1: Heap, b: Block, space: set<Block>)
    requires Shaped(h) && b in h.kind && h.count[b] == 1 && b !in h.active && h1 == Release(h, b) && Shaped(h1) && b in space
    ensures space - Busy(h1) < space - Busy(h)
  {
    hide Incoming;
    assert b in Busy(h1) && b !in Busy(h);
    assert Busy(h) <= Busy(h1);
  }

  /** What was busy stays busy. */
  lemma BusyStays(h0: Heap, h: Heap, b: Block, p: Pact)
    requires Shaped(h0) && Shaped(h) && Calm(h0, h, {b}, p) && b in h.kind && (h.count[b] == 0 || b in h.active)
    ensures Busy(h0) <= Busy(h)
    ensures NoDestructors(h0) ==> NoDestructors(h)
  {
    hide Incoming, NoDestructors, Sound, Shaped;
    forall c | c in Busy(h0) ensures c in Busy(h) {
      if c != b { StillBusy(h0, h, b, p, c); }
    }
  }

  lemma StillBusy(h0: Heap, h: Heap, b: Block, p: Pact, c: Block)
    requires Shaped(h0) && Shaped(h) && Calm(h0, h, {b}, p) && c in Busy(h0) && c != b
    ensures c in Busy(h)
  {
    hide Incoming, NoDestructors, Sound;
    assert Safe(h0, h, p, c);
  }

  // --------------------------------------------------------------------- tearing down

  /** b is dying and its slots below i have been dropped. */
  predicate Dying(h0: Heap, h: Heap, b: Block, i: nat)
    requires Shaped(h0) && Shaped(h)
  {
    b in h0.kind && b in h.kind && h.count[b] == 0 && h.kind[b] == h0.kind[b] && |h.slots[b]| == |h0.slots[b]| == |h.strong[b]| &&
    i <= |h.slots[b]| && (forall k :: 0 <= k < i ==> h.strong[b][k] == 0) &&
    (forall k :: i <= k < |h.slots[b]| ==> h.strong[b][k] == h.slots[b][k])
  }

  predicate TornDown(h: Heap, b: Block)
    requires Shaped(h)
  {
    b in h.kind && h.count[b] == 0 && forall k :: 0 <= k < |h.strong[b]| ==> h.strong[b][k] == 0
  }

  /** b is being emptied, with `kept` made on the way. */
  ghost predicate Emptying(h0: Heap, h: Heap, b: Block, i: nat, kept: multiset<Block>, p: Pact)
    requires Shaped(h0) && Shaped(h)
  {
    Calm(h0, h, {b}, p) && Honoured(h, p) && Dying(h0, h, b, i) && h.holds == h0.holds + kept && b !in p.fence && b !in p.roots &&
    (NoDestructors(h0) ==> kept == multiset{})
  }

  lemma EmptyingStarts(h: Heap, b: Block, p: Pact)
    requires Ok(h) && Honoured(h, p) && b in h.kind && h.count[b] == 0 && h.strong[b] == h.slots[b] && b !in p.fence
    ensures Emptying(h, h, b, 0, multiset{}, p)
  {
    hide Incoming, Closed, Exact, Pinned, Counted, Honoured, Calm, NoDestructors;
    CalmSelf(h, {b}, p);
    if b in p.roots { SolidRoots(h, p, b); }
  }

  lemma EmptyingFacts(h0: Heap, h: Heap, b: Block, i: nat, kept: multiset<Block>, p: Pact)
    requires Shaped(h0) && Shaped(h) && Emptying(h0, h, b, i, kept, p)
    ensures b in h0.kind && b in h.kind && h.count[b] == 0 && h.kind[b] == h0.kind[b] && |h.slots[b]| == |h0.slots[b]| == |h.strong[b]|
    ensures NoDestructors(h0) ==> kept == multiset{}
    ensures i < |h.slots[b]| ==> h.strong[b][i] == h.slots[b][i] && (h.slots[b][i] == 0 ==> Emptying(h0, h, b, i + 1, kept, p))
  {
    hide Incoming, Calm, Honoured, NoDestructors;
  }

  lemma EmptyingEnds(h0: Heap, h: Heap, b: Block, kept: multiset<Block>, p: Pact)
    requires Shaped(h0) && Shaped(h) && b in h.kind && Emptying(h0, h, b, |h.slots[b]|, kept, p)
    ensures Calm(h0, h, {b}, p) && Honoured(h, p) && TornDown(h, b) && h.holds == h0.holds + kept && (NoDestructors(h0) ==> kept == multiset{})
  {
    hide Incoming, Calm, Honoured, NoDestructors;
  }

  lemma TornDownFacts(h: Heap, b: Block)
    requires Shaped(h) && TornDown(h, b)
    ensures b in h.kind && h.count[b] == 0
  {
  }

  lemma SlotIsThere(h: Heap, b: Block, i: nat)
    requires b in h.kind && b in h.slots && b in h.strong && i < |h.slots[b]| && i < |h.strong[b]|
    ensures HasSlot(h, b, i)
  {
  }

  /** Taking the next slot of a dying block. */
  lemma Unslots(h0: Heap, h: Heap, b: Block, i: nat, keepStored: bool, kept: multiset<Block>, p: Pact)
    requires Shaped(h0) && Ok(h) && Emptying(h0, h, b, i, kept, p) && b in h.kind && i < |h.slots[b]| && h.slots[b][i] != 0
    requires keepStored ==> h.kind[b].Closure?
    ensures i < |h.strong[b]|
    ensures var h1 := Unslot(h, b, i, keepStored);
            var x := h.slots[b][i];
            Ok(h1) && Shaped(h1) && Honoured(h1, p) && Droppable(h1, x) && x in h1.kind && x !in p.fence && p.base <= h1.holds - multiset{x} &&
            Busy(h0) <= Busy(h1) && (NoDestructors(h0) ==> NoDestructors(h1)) && Calm(h0, h1, {b}, p)
  {
    hide Incoming, CountedAt, Closed, Exact, Pinned, Calm, Counted, Fenced, HeldWithin, NoDestructors, Droppable, Honoured, Busy;
    UnslotOk(h, b, i, keepStored);
    var h1 := Unslot(h, b, i, keepStored);
    UnslotCalm(h, b, i, keepStored, {b}, p);
    CalmStep(h0, h, h1, {b}, p);
    BusyStays(h0, h1, b, p);
    SlotNotFenced(h, b, i, p);
    SlotLive(h1, h.slots[b][i]);
  }

  lemma SlotLive(h: Heap, x: Block)
    requires Ok(h) && Droppable(h, x)
    ensures x in h.kind
  {
    assert x in h.holds;
  }

  lemma SlotNotFenced(h: Heap, b: Block, i: nat, p: Pact)
    requires Shaped(h) && Honoured(h, p) && b in h.kind && b !in p.fence && i < |h.strong[b]|
    ensures h.strong[b][i] !in p.fence && p.base <= h.holds
  {
  }

  /** One slot further, after the release of what it held. */
  lemma Unslotted(h0: Heap, h: Heap, h1: Heap, h2: Heap, b: Block, i: nat, before: multiset<Block>, kept: multiset<Block>, p: Pact)
    requires Shaped(h0) && Shaped(h) && Shaped(h1) && Shaped(h2) && Emptying(h0, h, b, i, before, p)
    requires b in h.kind && i < |h.slots[b]| && i < |h.strong[b]| && h.strong[b][i] == h.slots[b][i]
    requires h1 == Unslot(h, b, i, true) || h1 == Unslot(h, b, i, false)
    requires Calm(h0, h1, {b}, p) && Calm(h1, h2, {}, p) && Honoured(h2, p) && h2.holds == h1.holds - multiset{h.slots[b][i]} + kept
    requires NoDestructors(h0) ==> kept == multiset{}
    ensures Emptying(h0, h2, b, i + 1, before + kept, p)
  {
    hide Incoming, Calm, Honoured, NoDestructors, Shaped;
    CalmWidens(h1, h2, {}, {b}, p);
    CalmStep(h0, h1, h2, {b}, p);
    StaysFrozen(h1, h2, b, p);
  }

  lemma SlotGone(script: nat -> seq<Action>, h0: Heap, w: World, h1: Heap, w1: World, b: Block, i: nat, keepStored: bool, before: multiset<Block>, f: Fate, p: Pact)
    requires Shaped(h0) && Shaped(w.heap) && Shaped(h1) && Shaped(w1.heap) && Emptying(h0, w.heap, b, i, before, p) && HasSlot(w.heap, b, i)
    requires w.heap.slots[b][i] != 0 && keepStored == w.heap.kind[b].Closure? && h1 == Unslot(w.heap, b, i, keepStored)
    requires Calm(h0, h1, {b}, p) && Calm(h1, w1.heap, {}, p) && Honoured(w1.heap, p)
    requires w1.heap.holds == h1.holds - multiset{w.heap.slots[b][i]} + KeptBy(f) && (NoDestructors(h0) ==> KeptBy(f) == multiset{})
    requires Dropping(script, World(h1, w.runs), w.heap.slots[b][i], f, w1)
    ensures Emptying(h0, w1.heap, b, i + 1, before + KeptBy(f), p) && SlotDropped(script, w, b, i, f, w1)
  {
    hide Calm, Honoured, NoDestructors, Shaped, Emptying, Dropping, SlotDropped, KeptBy;
    EmptyingFacts(h0, w.heap, b, i, before, p);
    Unslotted(h0, w.heap, h1, w1.heap, b, i, before, KeptBy(f), p);
    FullSlot(script, w, b, i, keepStored, h1, f, w1);
  }

  lemma StaysFrozen(h1: Heap, h2: Heap, b: Block, p: Pact)
    requires Shaped(h1) && Shaped(h2) && Calm(h1, h2, {}, p) && b in h1.kind && h1.count[b] == 0
    ensures Frozen(h1, h2, b)
  {
    hide Sound, NoDestructors, Frozen;
    assert Safe(h1, h2, p, b);
  }

  /** The death of a block, from the drop of its last reference to its removal. */
  lemma Dies(h0: Heap, h1: Heap, h2: Heap, b: Block, p: Pact)
    requires Ok(h0) && Shaped(h1) && Ok(h2) && b in h0.kind && h0.count[b] == 1 && b !in h0.active && b !in p.fence && b !in p.roots
    requires h1 == Release(h0, b) && Calm(h1, h2, {b}, p) && Honoured(h2, p) && TornDown(h2, b)
    ensures Ok(Free(h2, b)) && Shaped(Free(h2, b)) && Calm(h0, Free(h2, b), {}, p) && Honoured(Free(h2, b), p)
  {
    hide Incoming, Exact, Closed, Counted, Pinned, Safe, Sound, Honoured, NoDestructors;
    FreeOk(h2, b);
    FreeHonoured(h2, b, p);
    var h3 := Free(h2, b);
    forall c | c in h0.kind ensures Safe(h0, h3, p, c) { SafeAfterDeath(h0, h1, h2, b, p, c); }
    forall c | c in h3.kind ensures Sound(h0, h3, c) { SoundAfterDeath(h0, h1, h2, b, c); }
    FewerKinds(h0, h2, b);
  }

  lemma FewerKinds(h0: Heap, h2: Heap, b: Block)
    ensures NoDestructors(h2) ==> NoDestructors(Free(h2, b))
    ensures b in h0.count && h0.count[b] > 0 ==> NoDestructors(Release(h0, b)) == NoDestructors(h0)
  {
  }

  lemma SafeAfterDeath(h0: Heap, h1: Heap, h2: Heap, b: Block, p: Pact, c: Block)
    requires Shaped(h0) && Shaped(h1) && Shaped(h2) && b in h0.kind && h0.count[b] == 1 && b !in h0.active && b !in p.fence && b !in p.roots
    requires h1 == Release(h0, b) && Shaped(Free(h2, b)) && c in h0.kind && (c != b ==> Safe(h1, h2, p, c))
    ensures Safe(h0, Free(h2, b), p, c)
  {
    hide Incoming;
  }

  lemma SoundAfterDeath(h0: Heap, h1: Heap, h2: Heap, b: Block, c: Block)
    requires Shaped(h0) && Shaped(h1) && Shaped(h2) && b in h0.kind && h0.count[b] > 0 && h1 == Release(h0, b) && Shaped(Free(h2, b))
    requires c in h2.kind && c != b && Sound(h1, h2, c)
    ensures Sound(h0, Free(h2, b), c)
  {
    hide Incoming, NoDestructors;
    FewerKinds(h0, h2, b);
  }

  /** An object that its destructor kept alive. */
  lemma Revives(h0: Heap, h1: Heap, h2: Heap, b: Block, p: Pact)
    requires Shaped(h0) && Shaped(h1) && Shaped(h2) && b in h0.kind && h0.count[b] == 1 && b !in h0.active && b !in p.fence && b !in p.roots
    requires h1 == Release(h0, b) && Calm(h1, h2, {b}, p) && b in h2.kind && h2.count[b] > 0 && HasDestructor(h0.kind[b])
    ensures Calm(h0, h2, {}, p) && !NoDestructors(h0)
  {
    hide Incoming, Safe, Sound;
    forall c | c in h0.kind ensures Safe(h0, h2, p, c) { SafeAfterDrop(h0, h1, h2, b, p, c); }
    forall c | c in h2.kind ensures Sound(h0, h2, c) { SoundAfterDrop(h0, h1, h2, b, c); }
  }

  lemma SafeAfterDrop(h0: Heap, h1: Heap, h2: Heap, b: Block, p: Pact, c: Block)
    requires Shaped(h0) && Shaped(h1) && Shaped(h2) && b in h0.kind && h0.count[b] == 1 && b !in h0.active && b !in p.fence && b !in p.roots
    requires h1 == Release(h0, b) && c in h0.kind && (c != b ==> Safe(h1, h2, p, c))
    ensures Safe(h0, h2, p, c)
  {
    hide Incoming;
  }

  lemma SoundAfterDrop(h0: Heap, h1: Heap, h2: Heap, b: Block, c: Block)
    requires Shaped(h0) && Shaped(h1) && Shaped(h2) && b in h0.kind && h0.count[b] > 0 && h1 == Release(h0, b) && HasDestructor(h0.kind[b])
    requires c in h2.kind && (if c == b then h2.count[b] > 0 else Sound(h1, h2, c))
    ensures Sound(h0, h2, c)
  {
    hide Incoming;
  }

  // ------------------------------------------------------------------- destructor runs

  /** Only fields that the body takes a reference out of may lose one. */
  ghost predicate TakenOnly(body: seq<Action>, a: seq<Block>, b: seq<Block>)
    requires |a| == |b|
  {
    forall i :: 0 <= i < |a| && a[i] != 0 && b[i] != a[i] ==> Take(This, i) in body
  }

  /** A block that a body can use. */
  ghost predicate Known(h: Heap, x: Block, p: Pact)
    requires Shaped(h)
  {
    x in h.kind && h.count[x] > 0 && x !in p.fence
  }

  /** b's destructor is running: `regs` are the references its body keeps, `extra`
      those that destructors which ran meanwhile have kept. */
  ghost predicate Running(h0: Heap, h: Heap, b: Block, regs: seq<Block>, extra: multiset<Block>, body: seq<Action>, p: Pact)
    requires Shaped(h0) && Shaped(h)
  {
    Calm(h0, h, {b}, p) && Honoured(h, p) && p.base <= h0.holds && Pinned(h0) && !NoDestructors(h0) && !NoDestructors(h) &&
    b !in p.fence && b !in p.roots && b in h0.active && Shape(h0, h, b, body, p) &&
    h.holds == h0.holds + multiset(regs) + extra && forall x :: x in regs ==> x !in p.fence
  }

  ghost predicate Shape(h0: Heap, h: Heap, b: Block, body: seq<Action>, p: Pact)
    requires Shaped(h0) && Shaped(h)
  {
    b in h0.kind && b in h.kind && h.kind[b] == h0.kind[b] && HasDestructor(h.kind[b]) && |h.slots[b]| == |h0.slots[b]| &&
    (p.tame ==> TakenOnly(body, h0.slots[b], h.slots[b]))
  }

  lemma RunningStarts(h: Heap, b: Block, body: seq<Action>, p: Pact)
    requires Ok(h) && Honoured(h, p) && b in h.active && b in h.kind && HasDestructor(h.kind[b]) && b !in p.fence && b !in p.roots
    ensures Running(h, h, b, [], multiset{}, body, p)
  {
    hide Incoming, CountedAt, Closed, Exact, Calm, Counted, Fenced, HeldWithin;
    CalmSelf(h, {b}, p);
  }

  lemma RunningEnds(h0: Heap, h: Heap, b: Block, regs: seq<Block>, extra: multiset<Block>, body: seq<Action>, p: Pact)
    requires Shaped(h0) && Shaped(h) && Running(h0, h, b, regs, extra, body, p)
    ensures Calm(h0, h, {b}, p) && Honoured(h, p) && h.holds == h0.holds + (multiset(regs) + extra)
    ensures b in h0.kind && b in h.kind && h.kind[b] == h0.kind[b] && |h.slots[b]| == |h0.slots[b]|
    ensures p.tame ==> TakenOnly(body, h0.slots[b], h.slots[b])
  {
    hide Calm, Honoured, Shaped, TakenOnly, NoDestructors;
  }

  lemma NthFits(script: nat -> seq<Action>, n: nat, p: Pact)
    requires AllFit(script, p)
    ensures Fits(script(n), p)
  {
    hide Fits;
  }

  lemma KeptInAll(run: Run)
    ensures KeptByRun(run) == multiset(run.regs) + KeptBySteps(run.steps)
  {
  }

  /** Whatever the body can name is live and before the fence. */
  lemma RunningKnows(h0: Heap, h: Heap, b: Block, regs: seq<Block>, extra: multiset<Block>, body: seq<Action>, p: Pact)
    requires Shaped(h0) && Ok(h) && Running(h0, h, b, regs, extra, body, p)
    ensures Known(h, b, p) && Honoured(h, p) && forall k :: 0 <= k < |regs| ==> Known(h, regs[k], p)
  {
    hide Incoming, CountedAt, Closed, Counted, Honoured, NoDestructors, Safe, Sound, Shape;
    assert b in h.active && b in h.holds;
    forall k | 0 <= k < |regs| ensures Known(h, regs[k], p) {
      assert regs[k] in multiset(regs);
      assert regs[k] in h.holds;
    }
  }

  lemma ResolveKnown(h: Heap, name: Name, b: Block, regs: seq<Block>, p: Pact)
    requires Shaped(h) && Known(h, b, p) && forall k :: 0 <= k < |regs| ==> Known(h, regs[k], p)
    ensures Resolve(name, b, regs) == 0 || Known(h, Resolve(name, b, regs), p)
  {
    hide Known;
  }

  lemma StaticKnown(h: Heap, body: seq<Action>, k: nat, p: Pact)
    requires Shaped(h) && Fits(body, p) && k < |body| && body[k].Static? && body[k].x in h.kind && h.count[body[k].x] > 0
    ensures Known(h, body[k].x, p)
  {
  }

  /** As far as fields go, a known block is stored as it is counted. */
  lemma KnownShape(h: Heap, x: Block, p: Pact)
    requires Ok(h) && Known(h, x, p)
    ensures x != 0 && x in h.kind && |h.strong[x]| == |h.slots[x]| && forall i :: 0 <= i < |h.slots[x]| ==> HasSlot(h, x, i)
  {
    hide Incoming, Closed, Exact, Pinned;
    StoredAsCounted(h, x);
  }

  lemma PutWhere(h: Heap, x: Block, i: nat, p: Pact)
    requires Ok(h) && (x == 0 || Known(h, x, p))
    ensures x == 0 || x in h.slots
    ensures CanPut(h, x, i) <==> x != 0 && i < |h.slots[x]| && h.slots[x][i] == 0
  {
    hide Incoming, Closed, Exact, Pinned, Counted, CountedAt;
    if x != 0 { KnownShape(h, x, p); }
  }

  lemma SlotKnown(h: Heap, x: Block, i: nat, p: Pact)
    requires Ok(h) && Honoured(h, p) && Known(h, x, p) && i < |h.slots[x]| && h.slots[x][i] != 0
    ensures Known(h, h.slots[x][i], p)
  {
    hide Incoming, CountedAt, Counted, Pinned, Rooted;
    StoredAsCounted(h, x);
    IncomingHas(h.strong, x, i);
  }

  /** A step of the body that goes well. */
  lemma RunsOn(h0: Heap, h: Heap, h1: Heap, b: Block, regs: seq<Block>, regs1: seq<Block>, extra: multiset<Block>, extra1: multiset<Block>, body: seq<Action>, p: Pact)
    requires Shaped(h0) && Shaped(h) && Shaped(h1) && Running(h0, h, b, regs, extra, body, p)
    requires Calm(h, h1, {b}, p) && Honoured(h1, p) && Shape(h0, h1, b, body, p)
    requires h1.holds == h0.holds + multiset(regs1) + extra1 && forall x :: x in regs1 ==> x !in p.fence
    ensures Running(h0, h1, b, regs1, extra1, body, p)
  {
    hide Calm, Honoured, Shaped, TakenOnly, HasDestructor, Pinned;
    CalmStep(h0, h, h1, {b}, p);
    assert HasDestructor(h1.kind[b]);
  }

  lemma KeepRuns(h0: Heap, h: Heap, x: Block, b: Block, regs: seq<Block>, extra: multiset<Block>, body: seq<Action>, p: Pact)
    requires Shaped(h0) && Ok(h) && Running(h0, h, b, regs, extra, body, p) && Known(h, x, p) && Shaped(Retain(h, x))
    ensures Running(h0, Retain(h, x), b, regs + [x], extra, body, p)
  {
    hide Calm, Honoured, TakenOnly, HasDestructor, Pinned, NoDestructors, Incoming, Counted, Closed, Exact;
    RetainCalm(h, x, {b}, p);
    RunsOn(h0, h, Retain(h, x), b, regs, regs + [x], extra, extra, body, p);
  }

  lemma CreateRuns(h0: Heap, h: Heap, x: Block, k: Kind, n: nat, b: Block, regs: seq<Block>, extra: multiset<Block>, body: seq<Action>, p: Pact)
    requires Shaped(h0) && Ok(h) && Running(h0, h, b, regs, extra, body, p) && x != 0 && x !in h.kind && Shaped(Fresh(h, x, k, n))
    ensures Running(h0, Fresh(h, x, k, n), b, regs + [x], extra, body, p)
  {
    hide Calm, Honoured, TakenOnly, HasDestructor, Pinned, NoDestructors, Incoming, Counted, Closed, Exact;
    FreshCalm(h, x, k, n, {b}, p);
    FenceInside(h, p);
    RunsOn(h0, h, Fresh(h, x, k, n), b, regs, regs + [x], extra, extra, body, p);
  }

  lemma FenceInside(h: Heap, p: Pact)
    requires Shaped(h) && Honoured(h, p)
    ensures p.fence <= h.kind.Keys
  {
  }

  /** Without the j-th kept reference. */
  lemma RegsWithout(regs: seq<Block>, j: nat)
    requires j < |regs|
    ensures multiset(regs) == multiset(Without(regs, j)) + multiset{regs[j]}
    ensures forall x :: x in Without(regs, j) ==> x in regs
  {
    assert regs == regs[..j] + [regs[j]] + regs[j + 1..];
  }

  lemma RegDroppable(h0: Heap, h: Heap, j: nat, b: Block, regs: seq<Block>, extra: multiset<Block>, body: seq<Action>, p: Pact)
    requires Shaped(h0) && Ok(h) && Running(h0, h, b, regs, extra, body, p) && j < |regs|
    ensures var x := regs[j];
            Droppable(h, x) && x in h.kind && x != 0 && x !in p.fence && p.base <= h.holds - multiset{x}
    ensures Honoured(h, p) && Busy(h0) <= Busy(h)
  {
    hide Incoming, CountedAt, Closed, Counted, Exact, Honoured, NoDestructors, Safe, Sound, TakenOnly, Busy;
    RegsWithout(regs, j);
    var x := regs[j];
    assert x in h.holds;
    assert b in h.active;
    BusyStays(h0, h, b, p);
  }

  lemma DropRuns(h0: Heap, h: Heap, h1: Heap, j: nat, b: Block, regs: seq<Block>, extra: multiset<Block>, kept: multiset<Block>, body: seq<Action>, p: Pact)
    requires Shaped(h0) && Ok(h) && Shaped(h1) && Running(h0, h, b, regs, extra, body, p) && j < |regs|
    requires Calm(h, h1, {}, p) && Honoured(h1, p) && h1.holds == h.holds - multiset{regs[j]} + kept
    ensures Running(h0, h1, b, Without(regs, j), extra + kept, body, p)
  {
    hide Incoming, CountedAt, Closed, Counted, Exact, Honoured, NoDestructors, Calm, TakenOnly, Pinned;
    RegsWithout(regs, j);
    CalmWidens(h, h1, {}, {b}, p);
    ShapeStays(h0, h, h1, b, body, p);
    RunsOn(h0, h, h1, b, regs, Without(regs, j), extra, extra + kept, body, p);
  }

  lemma ShapeStays(h0: Heap, h: Heap, h1: Heap, b: Block, body: seq<Action>, p: Pact)
    requires Shaped(h0) && Shaped(h) && Shaped(h1) && Shape(h0, h, b, body, p) && Calm(h0, h, {b}, p) && Calm(h, h1, {}, p) && b in h0.active
    ensures Shape(h0, h1, b, body, p)
  {
    hide Incoming, Sound, NoDestructors;
    assert Safe(h, h1, p, b);
  }

  lemma PutRuns(h0: Heap, h: Heap, c: Block, i: nat, j: nat, b: Block, regs: seq<Block>, extra: multiset<Block>, body: seq<Action>, p: Pact)
    requires Shaped(h0) && Ok(h) && Running(h0, h, b, regs, extra, body, p) && j < |regs| && Known(h, c, p)
    requires i < |h.slots[c]| && h.slots[c][i] == 0 && i < |h.strong[c]| && Shaped(Stored(h, c, i, regs[j]))
    ensures Running(h0, Stored(h, c, i, regs[j]), b, Without(regs, j), extra, body, p)
  {
    hide Incoming, CountedAt, Closed, Counted, Exact, Honoured, NoDestructors, Calm, TakenOnly, Pinned, Busy, Droppable, Shape;
    RegsWithout(regs, j);
    RegDroppable(h0, h, j, b, regs, extra, body, p);
    StoredAsCounted(h, c);
    var h1 := Stored(h, c, i, regs[j]);
    StoredCalm(h, c, i, regs[j], {b}, p);
    ShapeFilled(h0, h, h1, b, body, p, c, i, regs[j]);
    RunsOn(h0, h, h1, b, regs, Without(regs, j), extra, extra, body, p);
  }

  lemma ShapeFilled(h0: Heap, h: Heap, h1: Heap, b: Block, body: seq<Action>, p: Pact, c: Block, i: nat, x: Block)
    requires Shaped(h0) && Shaped(h) && Shaped(h1) && Shape(h0, h, b, body, p)
    requires c in h.kind && i < |h.slots[c]| && h.slots[c][i] == 0 && i < |h.strong[c]| && h1 == Stored(h, c, i, x)
    ensures Shape(h0, h1, b, body, p)
  {
    hide Incoming;
  }

  lemma TakeRuns(h0: Heap, h: Heap, c: Block, i: nat, k: nat, b: Block, regs: seq<Block>, extra: multiset<Block>, body: seq<Action>, p: Pact)
    requires Shaped(h0) && Ok(h) && Running(h0, h, b, regs, extra, body, p) && Fits(body, p) && k < |body|
    requires body[k].Take? && body[k].i == i && c == Resolve(body[k].name, b, regs) && Known(h, c, p)
    requires i < |h.slots[c]| && h.slots[c][i] != 0 && i < |h.strong[c]| && Shaped(Unslot(h, c, i, false))
    ensures Running(h0, Unslot(h, c, i, false), b, regs + [h.slots[c][i]], extra, body, p)
  {
    hide Incoming, CountedAt, Closed, Counted, Exact, Honoured, NoDestructors, Calm, TakenOnly, Pinned, Shape;
    var h1 := Unslot(h, c, i, false);
    StoredAsCounted(h, c);
    SlotKnown(h, c, i, p);
    if !p.tame { NoRoots(h, p); }
    UnslotCalm(h, c, i, false, {b}, p);
    ShapeTaken(h0, h, c, i, k, b, body, p);
    RunsOn(h0, h, h1, b, regs, regs + [h.slots[c][i]], extra, extra, body, p);
  }

  lemma NoRoots(h: Heap, p: Pact)
    requires Shaped(h) && Honoured(h, p) && !p.tame
    ensures p.roots == {}
  {
  }

  lemma ShapeTaken(h0: Heap, h: Heap, c: Block, i: nat, k: nat, b: Block, body: seq<Action>, p: Pact)
    requires Shaped(h0) && Shaped(h) && Shape(h0, h, b, body, p) && Fits(body, p) && k < |body| && body[k].Take? && body[k].i == i
    requires (body[k].name.This? ==> c == b) && c in h.kind && i < |h.slots[c]| && i < |h.strong[c]| && Shaped(Unslot(h, c, i, false))
    ensures Shape(h0, Unslot(h, c, i, false), b, body, p)
  {
    hide Incoming;
    assert body[k] in body;
    if p.tame { assert body[k] == Take(This, i); }
  }

  /** Before the body runs. */
  lemma Begins(h: Heap, b: Block, p: Pact)
    requires Ok(h) && Honoured(h, p) && b in h.kind && h.count[b] == 0 && b !in h.active && HasDestructor(h.kind[b]) && b !in p.fence
    ensures Ok(Begin(h, b)) && Shaped(Begin(h, b)) && Honoured(Begin(h, b), p) && Busy(Begin(h, b)) == Busy(h) && !NoDestructors(h) && b !in p.roots
  {
    hide Incoming, Exact, Closed, Counted, Pinned, Honoured;
    BeginOk(h, b);
    var h1 := Begin(h, b);
    BaseHeld(h, p);
    SameSlotsHonoured(h, h1, p);
    if b in p.roots { SolidRoots(h, p, b); }
  }

  lemma BaseHeld(h: Heap, p: Pact)
    requires Shaped(h) && Honoured(h, p)
    ensures p.base <= h.holds
  {
  }

  /** A destructor's run, from the outside. */
  lemma Ends(h0: Heap, h1: Heap, h2: Heap, b: Block, kept: multiset<Block>, p: Pact)
    requires Ok(h0) && Honoured(h0, p) && b in h0.kind && h0.count[b] == 0 && b !in h0.active && b !in p.fence && b !in p.roots && HasDestructor(h0.kind[b])
    requires h1 == Begin(h0, b) && Shaped(h1) && Ok(h2) && Calm(h1, h2, {b}, p) && Honoured(h2, p) && h2.holds == h1.holds + kept
    ensures b in h2.kind && h2.count[b] > 0 && Ok(End(h2, b)) && Shaped(End(h2, b)) && Calm(h0, End(h2, b), {b}, p) && Honoured(End(h2, b), p)
    ensures End(h2, b).holds == h0.holds + kept && End(h2, b).strong[b] == End(h2, b).slots[b]
  {
    hide Incoming, Exact, Closed, Counted, Pinned, Honoured, Safe, Sound;
    assert b in h2.active;
    EndOk(h2, b);
    StoredAsCounted(h2, b);
    var h3 := End(h2, b);
    EndHonoured(h0, h2, b, kept, p);
    forall c | c in h0.kind && c != b ensures Safe(h0, h3, p, c) { SafeAfterRun(h0, h1, h2, b, p, c); }
    forall c | c in h3.kind && c != b ensures Sound(h0, h3, c) { SoundAfterRun(h0, h1, h2, b, c); }
  }

  lemma EndsWhole(script: nat -> seq<Action>, w0: World, h1: Heap, b: Block, run: Run, p: Pact)
    requires Ok(w0.heap) && Honoured(w0.heap, p) && b in w0.heap.kind && w0.heap.count[b] == 0 && b !in w0.heap.active && b !in p.fence && b !in p.roots
    requires HasDestructor(w0.heap.kind[b]) && h1 == Begin(w0.heap, b) && Shaped(h1) && Ok(run.end.heap) && Calm(h1, run.end.heap, {b}, p)
    requires Honoured(run.end.heap, p) && run.end.heap.holds == h1.holds + KeptByRun(run)
    requires Performed(script, script(w0.runs), World(h1, w0.runs + 1), b, |script(w0.runs)|, run.steps, run.end, run.regs)
    ensures b in run.end.heap.count && run.end.heap.count[b] > 0 && Destructed(script, w0, b, run)
    ensures var h3 := Ended(run.end, b).heap;
            Ok(h3) && Shaped(h3) && Calm(w0.heap, h3, {b}, p) && Honoured(h3, p) && b in h3.kind && h3.kind == run.end.heap.kind && h3.slots == run.end.heap.slots
    ensures var h3 := Ended(run.end, b).heap;
            h3.holds == w0.heap.holds + KeptByRun(run) && h3.strong[b] == h3.slots[b]
  {
    hide Calm, Honoured, Performed, KeptByRun, Destructed, Incoming, Exact, Closed, Counted, Pinned;
    Ends(w0.heap, h1, run.end.heap, b, KeptByRun(run), p);
    RunsWhole(script, w0, b, World(h1, w0.runs + 1), run);
  }

  lemma EndHonoured(h0: Heap, h2: Heap, b: Block, kept: multiset<Block>, p: Pact)
    requires Shaped(h0) && Honoured(h0, p) && Shaped(h2) && Honoured(h2, p) && h2.holds == h0.holds + multiset{b} + kept
    requires b in h2.count && h2.count[b] > 0 && Shaped(End(h2, b))
    ensures Honoured(End(h2, b), p) && End(h2, b).holds == h0.holds + kept
  {
    hide Incoming, Honoured;
    BaseHeld(h0, p);
    SameSlotsHonoured(h2, End(h2, b), p);
  }

  lemma SafeAfterRun(h0: Heap, h1: Heap, h2: Heap, b: Block, p: Pact, c: Block)
    requires Shaped(h0) && Shaped(h1) && Shaped(h2) && b in h0.kind && h1 == Begin(h0, b) && b in h2.kind && h2.count[b] > 0 && Shaped(End(h2, b))
    requires c in h0.kind && c != b && Safe(h1, h2, p, c)
    ensures Safe(h0, End(h2, b), p, c)
  {
    hide Incoming;
  }

  lemma SoundAfterRun(h0: Heap, h1: Heap, h2: Heap, b: Block, c: Block)
    requires Shaped(h0) && Shaped(h1) && Shaped(h2) && b in h0.kind && h1 == Begin(h0, b) && b in h2.kind && h2.count[b] > 0 && Shaped(End(h2, b))
    requires c in h2.kind && c != b && Sound(h1, h2, c) && HasDestructor(h0.kind[b])
    ensures Sound(h0, End(h2, b), c)
  {
    hide Incoming;
  }

  /** The references to an object that was kept alive: those its destructor's run made. */
  lemma Revived(h0: Heap, h: Heap, b: Block, kept: multiset<Block>)
    requires Ok(h0) && Ok(h) && b in h0.kind && h0.count[b] == 0 && b in h.kind && h.holds == h0.holds + kept
    ensures h.count[b] == |Incoming(h.strong, b)| + kept[b]
  {
    hide Incoming, Counted, Closed, Pinned;
  }
}
