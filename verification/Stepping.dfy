/** Single instructions, seen from inside one function activation.  Each comes in
    two halves: what the instruction does to a machine of the given shape, and
    the dispatch of that instruction from the code bytes. */
module Stepping {
  import opened Options
  import opened Words
  import opened Instructions
  import opened Syntax
  import opened Semantics
  import opened VirtualMachine
  import opened CodeLayout

  /** A linked program in place. */
  datatype Image = Image(w: World, code: seq<u8>, at: Listing, prog: Program, fns: seq<u32>)

  ghost predicate Linked(k: Image) {
    |k.code| < HOLE && Lists(k.code, k.at) && WfProgram(k.prog) && |k.fns| == |k.prog| &&
    forall i :: 0 <= i < |k.prog| ==> FunctionLinked(k, i)
  }

  ghost predicate FunctionLinked(k: Image, i: nat)
    requires i < |k.prog| && i < |k.fns|
  {
    k.fns[i] != 0 && k.fns[i] + SizeFunction(k.prog[i]) <= |k.code| && FunctionAt(k.at, k.fns[i], k.prog[i], k.fns)
  }

  /** What an activation keeps fixed: the stack under its locals, its frame and
      its callers', its closure environment. */
  datatype Activation = Activation(below: seq<u64>, frames: seq<Frame>, env: u32, entered: bool)

  predicate InFunction(c: Activation) {
    c.entered && c.frames != [] && c.frames[|c.frames| - 1].fp == |c.below|
  }

  /** The machine at address p with locals st and temporaries temps. */
  function Mk(c: Activation, p: nat, st: State, temps: seq<u64>, cm: map<u32, u32>): Machine {
    Machine(p, c.below + st.locals + temps, c.frames, st.exc, c.env, cm, c.entered, st.trace)
  }

  ghost predicate Gets(k: Image, m: Machine, r: Res) {
    Goes(k.w, k.code, m, r)
  }

  lemma Stay(k: Image, m: Machine)
    ensures Gets(k, m, Next(m))
  {
    GoesNowhere(k.w, k.code, m);
  }

  lemma Then(k: Image, m: Machine, m1: Machine, r: Res)
    requires Gets(k, m, Next(m1)) && Gets(k, m1, r)
    ensures Gets(k, m, r)
  {
    GoesOn(k.w, k.code, m, m1, r);
  }

  /** The instruction's effect, up to running out of room. */
  predicate Does(w: World, i: Instr, m: Machine, r: Res) {
    Do(w, i, m) == r || OutOfRoom(Do(w, i, m))
  }

  /** One listed instruction. */
  lemma Dispatch(k: Image, i: Instr, c: Activation, p: nat, st: State, temps: seq<u64>, cm: map<u32, u32>, r: Res)
    requires Linked(k) && InstrAt(k.at, p, i)
    requires Does(k.w, i, Mk(c, p + Width(i), st, temps, cm), r)
    ensures Gets(k, Mk(c, p, st, temps, cm), r)
  {
    hide FunctionLinked, WfProgram, Do, Encode, Width, Placed;
    var m := Mk(c, p, st, temps, cm);
    assert LookAt(p);
    FetchBack(k.code, p, i);
    assert m.(pc := p + Width(i)) == Mk(c, p + Width(i), st, temps, cm);
    GoesStep(k.w, k.code, m, r);
  }

  // --------------------------------------------------------------- stack shapes

  lemma TempTop(c: Activation, p: nat, st: State, temps: seq<u64>, v: u64, cm: map<u32, u32>)
    ensures var m := Mk(c, p, st, temps + [v], cm);
            m.stack != [] && Top(m) == v && Drop(m) == Mk(c, p, st, temps, cm) &&
            m.stack == Mk(c, p, st, temps, cm).stack + [v]
  {
    var m := Mk(c, p, st, temps + [v], cm);
    assert m.stack == c.below + st.locals + temps + [v];
    assert m.stack[..|m.stack| - 1] == c.below + st.locals + temps;
  }

  lemma LocalAt(c: Activation, p: nat, st: State, temps: seq<u64>, slot: u32, v: u64, cm: map<u32, u32>)
    requires slot < |st.locals|
    ensures var m := Mk(c, p, st, temps, cm);
            |c.below| + slot < |m.stack| && m.stack[|c.below| + slot] == st.locals[slot] &&
            m.(stack := m.stack[|c.below| + slot := v]) == Mk(c, p, SetSlot(st, slot, v), temps, cm)
  {
    var m := Mk(c, p, st, temps, cm);
    assert m.stack[|c.below| + slot := v] == c.below + st.locals[slot := v] + temps;
  }

  lemma PushIs(w: World, c: Activation, p: nat, st: State, temps: seq<u64>, v: u64, cm: map<u32, u32>)
    ensures var x := Push(w, Mk(c, p, st, temps, cm), v);
            x == Next(Mk(c, p, st, temps + [v], cm)) || OutOfRoom(x)
  {
    TempTop(c, p, st, temps, v, cm);
  }

  /** What a value-pushing instruction pushes. */
  function Pushed(i: Instr, st: State): Option<u64> {
    match i
    case PushI32(v) => Some(v)
    case PushI64(v) => Some(v)
    case PushTrue => Some(1)
    case PushFalse => Some(0)
    case PushNull => Some(0)
    case GetException => Some(st.exc)
    case GetLocal(slot) => if slot < |st.locals| then Some(st.locals[slot]) else None
    case _ => None
  }

  lemma PushInstrIs(w: World, i: Instr, v: u64, c: Activation, p: nat, st: State, temps: seq<u64>, cm: map<u32, u32>)
    requires InFunction(c) && Pushed(i, st) == Some(v)
    ensures Does(w, i, Mk(c, p, st, temps, cm), Next(Mk(c, p, st, temps + [v], cm)))
  {
    hide Push;
    PushIs(w, c, p, st, temps, v, cm);
    if i.GetLocal? { LocalAt(c, p, st, temps, i.slot, v, cm); }
  }

  lemma DoPush(k: Image, i: Instr, v: u64, c: Activation, p: nat, st: State, temps: seq<u64>, cm: map<u32, u32>)
    requires Linked(k) && InstrAt(k.at, p, i) && InFunction(c) && Pushed(i, st) == Some(v)
    ensures Gets(k, Mk(c, p, st, temps, cm), Next(Mk(c, p + Width(i), st, temps + [v], cm)))
  {
    hide Linked, Goes, Does, Mk, Width;
    PushInstrIs(k.w, i, v, c, p + Width(i), st, temps, cm);
    Dispatch(k, i, c, p, st, temps, cm, Next(Mk(c, p + Width(i), st, temps + [v], cm)));
  }

  lemma PopIs(w: World, c: Activation, p: nat, st: State, temps: seq<u64>, v: u64, cm: map<u32, u32>)
    ensures Does(w, Pop, Mk(c, p, st, temps + [v], cm), Next(Mk(c, p, st, temps, cm)))
  {
    TempTop(c, p, st, temps, v, cm);
  }

  lemma DoDrop(k: Image, c: Activation, p: nat, st: State, temps: seq<u64>, v: u64, cm: map<u32, u32>)
    requires Linked(k) && InstrAt(k.at, p, Pop)
    ensures Gets(k, Mk(c, p, st, temps + [v], cm), Next(Mk(c, p + 1, st, temps, cm)))
  {
    hide Linked, Goes, Does, Mk;
    PopIs(k.w, c, p + 1, st, temps, v, cm);
    Dispatch(k, Pop, c, p, st, temps + [v], cm, Next(Mk(c, p + 1, st, temps, cm)));
  }

  lemma DupIs(w: World, c: Activation, p: nat, st: State, temps: seq<u64>, v: u64, cm: map<u32, u32>)
    ensures Does(w, Dup, Mk(c, p, st, temps + [v], cm), Next(Mk(c, p, st, temps + [v] + [v], cm)))
  {
    hide Push;
    TempTop(c, p, st, temps, v, cm);
    PushIs(w, c, p, st, temps + [v], v, cm);
  }

  lemma DoDup(k: Image, c: Activation, p: nat, st: State, temps: seq<u64>, v: u64, cm: map<u32, u32>)
    requires Linked(k) && InstrAt(k.at, p, Dup)
    ensures Gets(k, Mk(c, p, st, temps + [v], cm), Next(Mk(c, p + 1, st, temps + [v] + [v], cm)))
  {
    hide Linked, Goes, Does, Mk;
    DupIs(k.w, c, p + 1, st, temps, v, cm);
    Dispatch(k, Dup, c, p, st, temps + [v], cm, Next(Mk(c, p + 1, st, temps + [v] + [v], cm)));
  }

  lemma MapIs(w: World, i: Instr, a: u64, c: Activation, p: nat, st: State, temps: seq<u64>, cm: map<u32, u32>)
    requires IsUnary(i)
    ensures Does(w, i, Mk(c, p, st, temps + [a], cm), Next(Mk(c, p, st, temps + [Mapped(w, i, a, st.trace)], cm)))
  {
    hide Mapped, Push;
    TempTop(c, p, st, temps, a, cm);
    PushIs(w, c, p, st, temps, Mapped(w, i, a, st.trace), cm);
  }

  lemma DoMap(k: Image, i: Instr, a: u64, v: u64, c: Activation, p: nat, st: State, temps: seq<u64>, cm: map<u32, u32>)
    requires Linked(k) && InstrAt(k.at, p, i) && IsUnary(i) && v == Mapped(k.w, i, a, st.trace)
    ensures Gets(k, Mk(c, p, st, temps + [a], cm), Next(Mk(c, p + Width(i), st, temps + [v], cm)))
  {
    hide Linked, Goes, Does, Mk, Mapped, Width;
    MapIs(k.w, i, a, c, p + Width(i), st, temps, cm);
    Dispatch(k, i, c, p, st, temps + [a], cm, Next(Mk(c, p + Width(i), st, temps + [v], cm)));
  }

  lemma ApplyIs(w: World, op: BinOp, a: u64, b: u64, c: Activation, p: nat, st: State, temps: seq<u64>, cm: map<u32, u32>)
    ensures DividesByZero(op, b) ==> Does(w, Binary(op), Mk(c, p, st, temps + [a] + [b], cm), Fault(DivisionByZero, st.trace))
    ensures !DividesByZero(op, b) ==>
            Does(w, Binary(op), Mk(c, p, st, temps + [a] + [b], cm), Next(Mk(c, p, st, temps + [Apply(op, a, b)], cm)))
  {
    hide Apply, Push;
    TempTop(c, p, st, temps + [a], b, cm);
    TempTop(c, p, st, temps, a, cm);
    if !DividesByZero(op, b) { PushIs(w, c, p, st, temps, Apply(op, a, b), cm); }
  }

  lemma DoApply(k: Image, op: BinOp, a: u64, b: u64, c: Activation, p: nat, st: State, temps: seq<u64>, cm: map<u32, u32>)
    requires Linked(k) && InstrAt(k.at, p, Binary(op))
    ensures !DividesByZero(op, b) ==>
            Gets(k, Mk(c, p, st, temps + [a] + [b], cm), Next(Mk(c, p + 1, st, temps + [Apply(op, a, b)], cm)))
    ensures DividesByZero(op, b) ==> Gets(k, Mk(c, p, st, temps + [a] + [b], cm), Fault(DivisionByZero, st.trace))
  {
    hide Linked, Goes, Does, Mk, Apply;
    ApplyIs(k.w, op, a, b, c, p + 1, st, temps, cm);
    Dispatch(k, Binary(op), c, p, st, temps + [a] + [b], cm,
             if DividesByZero(op, b) then Fault(DivisionByZero, st.trace)
             else Next(Mk(c, p + 1, st, temps + [Apply(op, a, b)], cm)));
  }

  lemma SetLocalIs(w: World, slot: u32, v: u64, c: Activation, p: nat, st: State, temps: seq<u64>, cm: map<u32, u32>)
    requires InFunction(c) && slot < |st.locals|
    ensures Does(w, SetLocal(slot), Mk(c, p, st, temps + [v], cm), Next(Mk(c, p, SetSlot(st, slot, v), temps, cm)))
  {
    TempTop(c, p, st, temps, v, cm);
    LocalAt(c, p, st, temps, slot, v, cm);
  }

  lemma DoSetLocal(k: Image, slot: u32, v: u64, c: Activation, p: nat, st: State, temps: seq<u64>, cm: map<u32, u32>)
    requires Linked(k) && InstrAt(k.at, p, SetLocal(slot)) && InFunction(c) && slot < |st.locals|
    ensures Gets(k, Mk(c, p, st, temps + [v], cm), Next(Mk(c, p + 5, SetSlot(st, slot, v), temps, cm)))
  {
    hide Linked, Goes, Does, Mk;
    SetLocalIs(k.w, slot, v, c, p + 5, st, temps, cm);
    Dispatch(k, SetLocal(slot), c, p, st, temps + [v], cm, Next(Mk(c, p + 5, SetSlot(st, slot, v), temps, cm)));
  }

  lemma DoJump(k: Image, t: u32, c: Activation, p: nat, st: State, temps: seq<u64>, cm: map<u32, u32>)
    requires Linked(k) && InstrAt(k.at, p, Jump(t))
    ensures Gets(k, Mk(c, p, st, temps, cm), Next(Mk(c, t, st, temps, cm)))
  {
    hide Linked, Goes;
    Dispatch(k, Jump(t), c, p, st, temps, cm, Next(Mk(c, t, st, temps, cm)));
  }

  lemma BranchIs(w: World, onZero: bool, t: u32, v: u64, c: Activation, p: nat, st: State, temps: seq<u64>, cm: map<u32, u32>)
    ensures Does(w, if onZero then JumpIfFalse(t) else JumpIfTrue(t), Mk(c, p, st, temps + [v], cm),
                 Next(Mk(c, if (v == 0) == onZero then t else p, st, temps, cm)))
  {
    TempTop(c, p, st, temps, v, cm);
  }

  /** A conditional jump pops its condition; onZero tells which one it is. */
  lemma DoBranch(k: Image, onZero: bool, t: u32, v: u64, c: Activation, p: nat, st: State, temps: seq<u64>, cm: map<u32, u32>)
    requires Linked(k) && InstrAt(k.at, p, if onZero then JumpIfFalse(t) else JumpIfTrue(t))
    ensures Gets(k, Mk(c, p, st, temps + [v], cm), Next(Mk(c, if (v == 0) == onZero then t else p + 5, st, temps, cm)))
  {
    hide Linked, Goes, Does, Mk;
    BranchIs(k.w, onZero, t, v, c, p + 5, st, temps, cm);
    Dispatch(k, if onZero then JumpIfFalse(t) else JumpIfTrue(t), c, p, st, temps + [v], cm,
             Next(Mk(c, if (v == 0) == onZero then t else p + 5, st, temps, cm)));
  }

  // ------------------------------------------------------------ heap operations

  lemma IncRefIs(w: World, v: u64, c: Activation, p: nat, st: State, temps: seq<u64>, cm: map<u32, u32>)
    ensures Does(w, IncRef, Mk(c, p, st, temps + [v], cm), Next(Mk(c, p, Log(st, Retained(Low32(v))), temps + [Low32(v) as u64], cm)))
  {
    hide Push, Low32;
    TempTop(c, p, st, temps, v, cm);
    PushIs(w, c, p, Log(st, Retained(Low32(v))), temps, Low32(v), cm);
  }

  lemma DoIncRef(k: Image, v: u64, c: Activation, p: nat, st: State, temps: seq<u64>, cm: map<u32, u32>)
    requires Linked(k) && InstrAt(k.at, p, IncRef)
    ensures Gets(k, Mk(c, p, st, temps + [v], cm),
                 Next(Mk(c, p + 1, Log(st, Retained(Low32(v))), temps + [Low32(v) as u64], cm)))
  {
    hide Linked, Goes, Does, Mk, Low32;
    IncRefIs(k.w, v, c, p + 1, st, temps, cm);
    Dispatch(k, IncRef, c, p, st, temps + [v], cm,
             Next(Mk(c, p + 1, Log(st, Retained(Low32(v))), temps + [Low32(v) as u64], cm)));
  }

  lemma DecRefIs(w: World, v: u64, c: Activation, p: nat, st: State, temps: seq<u64>, cm: map<u32, u32>)
    ensures Does(w, DecRef, Mk(c, p, st, temps + [v], cm), Next(Mk(c, p, Log(st, Released(Low32(v))), temps, cm)))
  {
    hide Low32;
    TempTop(c, p, st, temps, v, cm);
  }

  lemma DoDecRef(k: Image, v: u64, c: Activation, p: nat, st: State, temps: seq<u64>, cm: map<u32, u32>)
    requires Linked(k) && InstrAt(k.at, p, DecRef)
    ensures Gets(k, Mk(c, p, st, temps + [v], cm), Next(Mk(c, p + 1, Log(st, Released(Low32(v))), temps, cm)))
  {
    hide Linked, Goes, Does, Mk, Low32;
    DecRefIs(k.w, v, c, p + 1, st, temps, cm);
    Dispatch(k, DecRef, c, p, st, temps + [v], cm, Next(Mk(c, p + 1, Log(st, Released(Low32(v))), temps, cm)));
  }

  /** The assembler's mask always selects the slot it is paired with. */
  lemma MaskMatches(slot: u32)
    ensures MaskSelects(slot, SlotMask(slot))
  {
    hide Pow2;
    if slot < 64 {
      Pow2Fits(slot);
      SmallResidue(Pow2(slot));
      WholeQuotient(Pow2(slot));
    }
  }

  lemma SmallResidue(x: nat)
    requires x < M64
    ensures x % M64 == x
  {
  }

  lemma WholeQuotient(x: nat)
    requires x > 0
    ensures x / x == 1
  {
  }

  lemma Pow2Fits(n: nat)
    requires n < 64
    ensures Pow2(n) < M64
  {
    Pow2Sum(n, 64 - n);
    Pow2Of64();
    DoublesAtLeast(Pow2(n), Pow2(64 - n));
  }

  lemma DoublesAtLeast(x: nat, y: nat)
    requires x > 0 && y >= 2
    ensures x * y >= x + x
  {
    MulAtLeast(x, y - 1);
    assert x * y == x + x * (y - 1);
  }

  lemma Pow2Of64()
    ensures Pow2(64) == M64
  {
    assert Pow2(4) == 16;
    Pow2Sum(4, 4);
    Pow2Sum(8, 8);
    Pow2Sum(16, 16);
    Pow2Sum(32, 32);
  }

  lemma {:induction false} Pow2Sum(a: nat, b: nat)
    ensures Pow2(a + b) == Pow2(a) * Pow2(b)
  {
    if a > 0 { Pow2Sum(a - 1, b); }
  }

  /** A mask selects a slot below 64 by the slot's own bit. */
  lemma MaskBit(slot: u32, mask: u64, high: nat, bit: nat, low: nat)
    requires slot < 64 && bit < 2 && low < Pow2(slot) && mask as int == Pow2(slot) * (2 * high + bit) + low
    ensures MaskSelects(slot, mask) <==> bit == 1
  {
    hide Pow2;
    QuotientIs(mask, Pow2(slot), 2 * high + bit, low);
  }

  lemma QuotientIs(x: int, m: nat, q: int, r: nat)
    requires m > 0 && r < m && x == m * q + r
    ensures x / m == q
  {
    DivisionIsUnique(x, m, q, r);
    DivisionParts(x, m);
    ProductsApart(x / m, q, m);
    MulAtLeast(m, x / m - q);
  }

  /** Of the first 64 slots the assembler's mask selects no other. */
  lemma MaskSelectsOne(slot: u32, other: u32)
    requires slot < 64 && other < 64
    ensures MaskSelects(other, SlotMask(slot)) <==> other == slot
  {
    hide Pow2, MaskSelects;
    Pow2Fits(slot);
    SmallResidue(Pow2(slot));
    var p, q := Pow2(slot), Pow2(other);
    if other == slot {
      MaskMatches(slot);
    } else if other < slot {
      Pow2Sum(other, slot - other);
      Pow2Next(slot - other - 1);
      MaskBit(other, p, Pow2(slot - other - 1), 0, 0);
    } else {
      Pow2Sum(slot, other - slot);
      Pow2Next(other - slot - 1);
      DoublesAtLeast(p, Pow2(other - slot));
      MaskBit(other, p, 0, 0, p);
    }
  }

  lemma Pow2Next(n: nat)
    ensures Pow2(n + 1) == 2 * Pow2(n) && Pow2(n + 1) >= 2
  {
  }

  lemma ReleaseSlotIs(w: World, slot: u32, c: Activation, p: nat, st: State, temps: seq<u64>, cm: map<u32, u32>)
    requires InFunction(c) && slot < |st.locals|
    ensures Does(w, DecRefSlot(slot, SlotMask(slot)), Mk(c, p, st, temps, cm), Next(Mk(c, p, ReleaseSlot(st, slot), temps, cm)))
  {
    hide SlotMask, MaskSelects, Low32;
    MaskMatches(slot);
    LocalAt(c, p, st, temps, slot, 0, cm);
  }

  lemma DoReleaseSlot(k: Image, slot: u32, c: Activation, p: nat, st: State, temps: seq<u64>, cm: map<u32, u32>)
    requires Linked(k) && InstrAt(k.at, p, DecRefSlot(slot, SlotMask(slot)))
    requires InFunction(c) && slot < |st.locals|
    ensures Gets(k, Mk(c, p, st, temps, cm), Next(Mk(c, p + RELEASE_SIZE, ReleaseSlot(st, slot), temps, cm)))
  {
    hide Linked, Goes, Does, Mk, SlotMask, ReleaseSlot;
    ReleaseSlotIs(k.w, slot, c, p + RELEASE_SIZE, st, temps, cm);
    Dispatch(k, DecRefSlot(slot, SlotMask(slot)), c, p, st, temps, cm,
             Next(Mk(c, p + RELEASE_SIZE, ReleaseSlot(st, slot), temps, cm)));
  }

  lemma {:induction false} DoReleases(k: Image, slots: seq<u32>, c: Activation, p: nat, st: State, temps: seq<u64>, cm: map<u32, u32>)
    requires Linked(k) && ReleasesAt(k.at, p, slots) && InFunction(c) && InFrame(slots, |st.locals|)
    ensures Gets(k, Mk(c, p, st, temps, cm), Next(Mk(c, p + SizeReleases(slots), ReleaseAll(st, slots), temps, cm)))
    decreases |slots|
  {
    hide Linked, Goes, Mk, SlotMask;
    if slots == [] {
      Stay(k, Mk(c, p, st, temps, cm));
    } else {
      var st1 := ReleaseSlot(st, slots[0]);
      DoReleaseSlot(k, slots[0], c, p, st, temps, cm);
      DoReleases(k, slots[1..], c, p + RELEASE_SIZE, st1, temps, cm);
      Then(k, Mk(c, p, st, temps, cm), Mk(c, p + RELEASE_SIZE, st1, temps, cm),
           Next(Mk(c, p + SizeReleases(slots), ReleaseAll(st, slots), temps, cm)));
    }
  }

  // -------------------------------------------------- conditionally emitted ones

  lemma DoConv(k: Image, conv: Conv, v: u64, c: Activation, p: nat, st: State, temps: seq<u64>, cm: map<u32, u32>)
    requires Linked(k) && ConvAt(k.at, p, conv)
    ensures Gets(k, Mk(c, p, st, temps + [v], cm), Next(Mk(c, p + ConvSize(conv), st, temps + [Narrow(conv, v)], cm)))
  {
    hide Linked, Goes, Mk;
    if conv == Keep {
      Stay(k, Mk(c, p, st, temps + [v], cm));
    } else {
      DoMap(k, Convert(conv), v, Narrow(conv, v), c, p, st, temps, cm);
    }
  }

  lemma DoRetainIf(k: Image, retain: bool, v: u64, c: Activation, p: nat, st: State, temps: seq<u64>, cm: map<u32, u32>)
    requires Linked(k) && IncRefAt(k.at, p, retain)
    ensures Gets(k, Mk(c, p, st, temps + [v], cm),
                 Next(Mk(c, p + FlagSize(retain), LogRetain(retain, v, st), temps + [RetainIf(retain, v)], cm)))
  {
    hide Linked, Goes, Mk, Low32;
    if retain {
      DoIncRef(k, v, c, p, st, temps, cm);
    } else {
      Stay(k, Mk(c, p, st, temps + [v], cm));
    }
  }

  lemma SmallWord(x: u32)
    ensures Low32(x) == x
    ensures Signed(x) >= 0
    ensures (x as u64) / M32 == 0
  {
  }

  function AllocResult(w: World, size: u32, c: Activation, p: nat, st: State, temps: seq<u64>, cm: map<u32, u32>): Res {
    match w.alloc(st.trace, size)
    case None => Fault(HeapOverflow, st.trace)
    case Some(addr) => Next(Mk(c, p, Log(st, Allocated(size, OBJECT_TAG, addr)), temps + [addr as u64], cm))
  }

  lemma AllocIs(w: World, size: u32, c: Activation, p: nat, st: State, temps: seq<u64>, cm: map<u32, u32>)
    ensures Does(w, AllocDynamic(OBJECT_TAG), Mk(c, p, st, temps + [size as u64], cm), AllocResult(w, size, c, p, st, temps, cm))
  {
    hide Push, Low32, Signed;
    TempTop(c, p, st, temps, size, cm);
    SmallWord(size);
    match w.alloc(st.trace, size)
    case None =>
    case Some(addr) => PushIs(w, c, p, Log(st, Allocated(size, OBJECT_TAG, addr)), temps, addr, cm);
  }

  lemma DoAlloc(k: Image, size: u32, c: Activation, p: nat, st: State, temps: seq<u64>, cm: map<u32, u32>)
    requires Linked(k) && InstrAt(k.at, p, AllocDynamic(OBJECT_TAG))
    ensures Gets(k, Mk(c, p, st, temps + [size as u64], cm), AllocResult(k.w, size, c, p + 2, st, temps, cm))
  {
    hide Linked, Goes, Does, Mk, AllocResult;
    AllocIs(k.w, size, c, p + 2, st, temps, cm);
    Dispatch(k, AllocDynamic(OBJECT_TAG), c, p, st, temps + [size as u64], cm, AllocResult(k.w, size, c, p + 2, st, temps, cm));
  }

  lemma StampIs(w: World, id: u32, obj: u32, c: Activation, p: nat, st: State, temps: seq<u64>, cm: map<u32, u32>)
    ensures Does(w, SetVtable(id), Mk(c, p, st, temps + [obj as u64], cm), Next(Mk(c, p, Log(st, Stamped(obj, id)), temps + [obj as u64], cm)))
  {
    hide Low32;
    SmallWord(obj);
    TempTop(c, p, st, temps, obj, cm);
  }

  lemma DoStamp(k: Image, id: u32, obj: u32, c: Activation, p: nat, st: State, temps: seq<u64>, cm: map<u32, u32>)
    requires Linked(k) && InstrAt(k.at, p, SetVtable(id))
    ensures Gets(k, Mk(c, p, st, temps + [obj as u64], cm), Next(Mk(c, p + 5, Log(st, Stamped(obj, id)), temps + [obj as u64], cm)))
  {
    hide Linked, Goes, Does, Mk;
    StampIs(k.w, id, obj, c, p + 5, st, temps, cm);
    Dispatch(k, SetVtable(id), c, p, st, temps + [obj as u64], cm,
             Next(Mk(c, p + 5, Log(st, Stamped(obj, id)), temps + [obj as u64], cm)));
  }

  // ---------------------------------------------------------- calls and unwinding

  lemma DoRegister(k: Image, ret: u32, cleanup: u32, c: Activation, p: nat, st: State, temps: seq<u64>, cm: map<u32, u32>)
    requires Linked(k) && InstrAt(k.at, p, RegisterReturnCleanup(ret, cleanup))
    ensures Gets(k, Mk(c, p, st, temps, cm), Next(Mk(c, p + 9, st, temps, cm[ret := cleanup])))
  {
    hide Linked, Goes;
    Dispatch(k, RegisterReturnCleanup(ret, cleanup), c, p, st, temps, cm, Next(Mk(c, p + 9, st, temps, cm[ret := cleanup])));
  }

  /** The activation a call opens; its frame remembers where the caller resumes. */
  function Callee(c: Activation, st: State, temps: seq<u64>, ret: u32, argc: u32): Activation {
    var below := c.below + st.locals + temps;
    Activation(below, c.frames + [Frame(ret, |below|, argc, c.env)], 0, c.entered)
  }

  lemma CallIs(m: Machine, base: seq<u64>, vs: seq<u64>, target: u32, argc: u32)
    requires m.stack == base + vs + [target as u64] + [argc as u64]
    requires target != 0 && argc as int == |vs| && m.pc < M32 && m.entered
    ensures DoCall(m) == if |m.frames| >= MAX_CALL_DEPTH then Fault(CallDepthExceeded, m.trace) else
              Next(m.(stack := base + vs, frames := m.frames + [Frame(m.pc, |base|, argc, m.env)], env := 0, pc := target))
  {
    hide Low32;
    SmallWord(target);
    SmallWord(argc);
    assert Drop(m).stack == base + vs + [target as u64];
    assert Drop(Drop(m)).stack == base + vs;
  }

  lemma CallInstrIs(w: World, target: u32, vs: seq<u64>, argc: u32, c: Activation, p: nat, st: State, temps: seq<u64>, cm: map<u32, u32>)
    requires InFunction(c) && target != 0 && argc as int == |vs| && p < M32
    ensures Does(w, Instr.Call, Mk(c, p, st, temps + vs + [target as u64] + [argc as u64], cm),
                 Next(Mk(Callee(c, st, temps, p, argc), target, State(vs, st.exc, st.trace), [], cm)))
  {
    hide DoCall;
    var m := Mk(c, p, st, temps + vs + [target as u64] + [argc as u64], cm);
    var base := c.below + st.locals + temps;
    assert m.stack == base + vs + [target as u64] + [argc as u64];
    CallIs(m, base, vs, target, argc);
    assert base + vs == base + vs + [];
  }

  lemma DoCallInstr(k: Image, target: u32, vs: seq<u64>, argc: u32, c: Activation, p: nat, st: State, temps: seq<u64>, cm: map<u32, u32>)
    requires Linked(k) && InstrAt(k.at, p, Instr.Call) && InFunction(c)
    requires target != 0 && argc as int == |vs| && p + 1 < M32
    ensures Gets(k, Mk(c, p, st, temps + vs + [target as u64] + [argc as u64], cm),
                 Next(Mk(Callee(c, st, temps, p + 1, argc), target, State(vs, st.exc, st.trace), [], cm)))
  {
    hide Linked, Goes, Does, Mk, Callee;
    CallInstrIs(k.w, target, vs, argc, c, p + 1, st, temps, cm);
    Dispatch(k, Instr.Call, c, p, st, temps + vs + [target as u64] + [argc as u64], cm,
             Next(Mk(Callee(c, st, temps, p + 1, argc), target, State(vs, st.exc, st.trace), [], cm)));
  }

  lemma EnterIs(w: World, f: Function, vs: seq<u64>, st: State, c: Activation, p: nat, cm: map<u32, u32>)
    requires InFunction(c) && |vs| == c.frames[|c.frames| - 1].argc as int
    ensures Does(w, AllocFrame(f.frameSize), Mk(c, p, State(vs, st.exc, st.trace), [], cm), Next(Mk(c, p, Entered(f, vs, st), [], cm)))
  {
    var z := if |vs| < f.frameSize then Zeros(f.frameSize - |vs|) else [];
    assert c.below + vs + [] + z == c.below + (vs + z) + [];
    assert vs + [] == vs;
  }

  lemma DoEnter(k: Image, f: Function, vs: seq<u64>, st: State, c: Activation, p: nat, cm: map<u32, u32>)
    requires Linked(k) && InstrAt(k.at, p, AllocFrame(f.frameSize)) && InFunction(c)
    requires |vs| == c.frames[|c.frames| - 1].argc as int
    ensures Gets(k, Mk(c, p, State(vs, st.exc, st.trace), [], cm), Next(Mk(c, p + 5, Entered(f, vs, st), [], cm)))
  {
    hide Linked, Goes, Does, Mk, Entered;
    EnterIs(k.w, f, vs, st, c, p + 5, cm);
    Dispatch(k, AllocFrame(f.frameSize), c, p, State(vs, st.exc, st.trace), [], cm, Next(Mk(c, p + 5, Entered(f, vs, st), [], cm)));
  }

  lemma PoppedFrame(c: Activation, st: State, temps: seq<u64>, ret: u32, argc: u32, p: nat, st1: State, extra: seq<u64>, cm: map<u32, u32>)
    requires InFunction(c)
    ensures var m := Mk(Callee(c, st, temps, ret, argc), p, st1, extra, cm);
            |m.frames| > 1 && TopFrame(m) == Frame(ret, |c.below + st.locals + temps|, argc, c.env) &&
            TopFrame(m).fp <= |m.stack| && PopFrame(m) == Mk(c, p, st1.(locals := st.locals), temps, cm)
  {
    var m := Mk(Callee(c, st, temps, ret, argc), p, st1, extra, cm);
    assert m.frames[..|m.frames| - 1] == c.frames;
    assert m.stack[..|c.below + st.locals + temps|] == c.below + st.locals + temps;
  }

  lemma ReturnIs(w: World, v: u64, c: Activation, st: State, temps: seq<u64>, ret: u32, argc: u32,
                 p: nat, st1: State, extra: seq<u64>, cm: map<u32, u32>)
    requires InFunction(c)
    ensures Does(w, Instr.Return, Mk(Callee(c, st, temps, ret, argc), p, st1, extra + [v], cm),
                 Next(Mk(c, ret, st1.(locals := st.locals), temps + [v], cm)))
  {
    hide Push;
    var d := Callee(c, st, temps, ret, argc);
    PoppedFrame(c, st, temps, ret, argc, p, st1, extra + [v], cm);
    TempTop(d, p, st1, extra, v, cm);
    assert |Mk(d, p, st1, extra + [v], cm).stack| > |d.below|;
    PushIs(w, c, ret, st1.(locals := st.locals), temps, v, cm);
  }

  /** RETURN hands its value to the caller and restores the caller's view. */
  lemma DoReturnInstr(k: Image, v: u64, c: Activation, st: State, temps: seq<u64>, ret: u32, argc: u32,
                      p: nat, st1: State, extra: seq<u64>, cm: map<u32, u32>)
    requires Linked(k) && InstrAt(k.at, p, Instr.Return) && InFunction(c)
    ensures Gets(k, Mk(Callee(c, st, temps, ret, argc), p, st1, extra + [v], cm),
                 Next(Mk(c, ret, st1.(locals := st.locals), temps + [v], cm)))
  {
    hide Linked, Goes, Does, Mk, Callee;
    ReturnIs(k.w, v, c, st, temps, ret, argc, p + 1, st1, extra, cm);
    Dispatch(k, Instr.Return, Callee(c, st, temps, ret, argc), p, st1, extra + [v], cm,
             Next(Mk(c, ret, st1.(locals := st.locals), temps + [v], cm)));
  }

  lemma LeaveIs(w: World, c: Activation, st: State, temps: seq<u64>, ret: u32, argc: u32,
                p: nat, st1: State, extra: seq<u64>, cm: map<u32, u32>)
    requires InFunction(c) && ret in cm
    ensures Does(w, JmpToOuterCleanup, Mk(Callee(c, st, temps, ret, argc), p, st1, extra, cm),
                 Next(Mk(c, cm[ret], st1.(locals := st.locals), temps, cm)))
  {
    PoppedFrame(c, st, temps, ret, argc, p, st1, extra, cm);
  }

  /** JMP_TO_OUTER_CLEANUP drops the frame and enters the caller's registered cleanup. */
  lemma DoLeave(k: Image, c: Activation, st: State, temps: seq<u64>, ret: u32, argc: u32,
                p: nat, st1: State, extra: seq<u64>, cm: map<u32, u32>)
    requires Linked(k) && InstrAt(k.at, p, JmpToOuterCleanup) && InFunction(c) && ret in cm
    ensures Gets(k, Mk(Callee(c, st, temps, ret, argc), p, st1, extra, cm),
                 Next(Mk(c, cm[ret], st1.(locals := st.locals), temps, cm)))
  {
    hide Linked, Goes, Does, Mk, Callee;
    LeaveIs(k.w, c, st, temps, ret, argc, p + 1, st1, extra, cm);
    Dispatch(k, JmpToOuterCleanup, Callee(c, st, temps, ret, argc), p, st1, extra, cm,
             Next(Mk(c, cm[ret], st1.(locals := st.locals), temps, cm)));
  }

  /** The state once an exception is active and held. */
  function Thrown(st: State, v: u64): State {
    Log(st, Retained(Low32(v))).(exc := Low32(v))
  }

  lemma ThrowIs(w: World, cleanup: u32, v: u64, c: Activation, p: nat, st: State, temps: seq<u64>, cm: map<u32, u32>)
    requires cleanup != HOLE
    ensures Does(w, ThrowException(cleanup), Mk(c, p, st, temps + [v], cm),
                 if v == 0 then Fault(NullPointer, st.trace) else Next(Mk(c, cleanup, Thrown(st, v), temps, cm)))
  {
    hide Low32;
    TempTop(c, p, st, temps, v, cm);
  }

  lemma DoThrow(k: Image, cleanup: u32, v: u64, c: Activation, p: nat, st: State, temps: seq<u64>, cm: map<u32, u32>)
    requires Linked(k) && InstrAt(k.at, p, ThrowException(cleanup)) && cleanup != HOLE
    ensures Gets(k, Mk(c, p, st, temps + [v], cm),
                 if v == 0 then Fault(NullPointer, st.trace) else Next(Mk(c, cleanup, Thrown(st, v), temps, cm)))
  {
    hide Linked, Goes, Does, Mk, Thrown;
    ThrowIs(k.w, cleanup, v, c, p + 5, st, temps, cm);
    Dispatch(k, ThrowException(cleanup), c, p, st, temps + [v], cm,
             if v == 0 then Fault(NullPointer, st.trace) else Next(Mk(c, cleanup, Thrown(st, v), temps, cm)));
  }

  lemma DoClear(k: Image, c: Activation, p: nat, st: State, temps: seq<u64>, cm: map<u32, u32>)
    requires Linked(k) && InstrAt(k.at, p, ClearException) && st.exc != 0
    ensures Gets(k, Mk(c, p, st, temps, cm), Next(Mk(c, p + 1, Log(st, Released(st.exc)).(exc := 0), temps, cm)))
  {
    hide Linked, Goes;
    Dispatch(k, ClearException, c, p, st, temps, cm, Next(Mk(c, p + 1, Log(st, Released(st.exc)).(exc := 0), temps, cm)));
  }
}
