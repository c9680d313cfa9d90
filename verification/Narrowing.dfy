/** Narrow integer types are computed in 64 bits and narrowed once, at the store.
    When that equals narrowing after every operation, and where it does not. */
module Narrowing {
  import opened Options
  import opened Words
  import opened Instructions
  import opened Syntax
  import opened Semantics

  /** Trees of +, - and * over locals and literals. */
  predicate RingTree(e: Expr, n: nat) {
    match e
    case IntLit(_) => true
    case Local(slot) => slot < n
    case Arith(op, l, r) => (op.Add? || op.Sub? || op.Mul?) && RingTree(l, n) && RingTree(r, n)
    case _ => false
  }

  /** The locals that the tree reads are in range. */
  predicate ReadsInRange(c: Conv, e: Expr, locals: seq<u64>)
    requires RingTree(e, |locals|)
  {
    match e
    case IntLit(_) => true
    case Local(slot) => InRange(c, locals[slot])
    case Arith(_, l, r) => ReadsInRange(c, l, locals) && ReadsInRange(c, r, locals)
  }

  /** What arithmetic at the narrow width itself computes: every result is brought
      back into range at once. */
  function NarrowArith(c: Conv, e: Expr, locals: seq<u64>): u64
    requires RingTree(e, |locals|)
  {
    match e
    case IntLit(v) => Narrow(c, v)
    case Local(slot) => locals[slot]
    case Arith(op, l, r) => Narrow(c, Apply(op, NarrowArith(c, l, locals), NarrowArith(c, r, locals)))
  }

  /** 64-bit results respect residues of the narrow width. */
  lemma ApplyResidue(c: Conv, op: BinOp, a: u64, a': u64, b: u64, b': u64)
    requires op.Add? || op.Sub? || op.Mul?
    requires a % Modulus(c) == a' % Modulus(c) && b % Modulus(c) == b' % Modulus(c)
    ensures Apply(op, a, b) % Modulus(c) == Apply(op, a', b') % Modulus(c)
  {
    hide Modulus, Wrap;
    RingResidues(a, a', b, b', Modulus(c));
    match op
    case Add =>
      WrapKeepsResidue(c, a as int + b as int);
      WrapKeepsResidue(c, a' as int + b' as int);
    case Sub =>
      WrapKeepsResidue(c, a as int - b as int);
      WrapKeepsResidue(c, a' as int - b' as int);
    case Mul =>
      WrapKeepsResidue(c, a as int * b as int);
      WrapKeepsResidue(c, a' as int * b' as int);
  }

  /** The wide value and the narrow one agree modulo the width. */
  lemma {:induction false} WideAgrees(w: World, prog: Program, c: Conv, e: Expr, st: State, fuel: nat)
    requires RingTree(e, |st.locals|)
    ensures var r := Eval(w, prog, e, st, fuel);
            r.Val? && r.st == st && r.v % Modulus(c) == NarrowArith(c, e, st.locals) % Modulus(c)
    decreases e
  {
    hide Modulus, Narrow, Apply;
    match e
    case IntLit(v) => NarrowKeepsResidue(c, v);
    case Local(_) =>
    case Arith(op, l, r) =>
      WideAgrees(w, prog, c, l, st, fuel);
      WideAgrees(w, prog, c, r, st, fuel);
      var x, y := Eval(w, prog, l, st, fuel).v, Eval(w, prog, r, st, fuel).v;
      var x', y' := NarrowArith(c, l, st.locals), NarrowArith(c, r, st.locals);
      ApplyResidue(c, op, x, x', y, y');
      NarrowKeepsResidue(c, Apply(op, x', y'));
  }

  lemma {:induction false} NarrowStaysInRange(c: Conv, e: Expr, locals: seq<u64>)
    requires RingTree(e, |locals|) && ReadsInRange(c, e, locals)
    ensures InRange(c, NarrowArith(c, e, locals))
  {
    hide Narrow, Apply, InRange;
    match e
    case IntLit(v) => NarrowedInRange(c, v);
    case Local(_) =>
    case Arith(op, l, r) => NarrowedInRange(c, Apply(op, NarrowArith(c, l, locals), NarrowArith(c, r, locals)));
  }

  lemma NarrowedInRange(c: Conv, a: u64)
    ensures InRange(c, Narrow(c, a))
  {
    hide Narrow;
    assert Distance(c, Modulus(c));
    NarrowIntoRange(c, a, Modulus(c));
  }

  /** One CONV at the store is enough: the declaration `T x = e` stores exactly what
      arithmetic at T's own width computes. */
  lemma NarrowOnceIsEnough(w: World, prog: Program, conv: Conv, c: Conv, slot: u32, e: Expr, st: State, fuel: nat)
    requires RingTree(e, |st.locals|) && ReadsInRange(c, e, st.locals) && slot < |st.locals|
    ensures Exec(w, prog, conv, VarDecl(slot, false, c, Some(e)), st, fuel) ==
            Done(Normal, SetSlot(st, slot, NarrowArith(c, e, st.locals)), [])
  {
    hide Narrow, Modulus, NarrowArith, Eval, InRange;
    InRangeStays(c, NarrowArith(c, e, st.locals));
    WideAgrees(w, prog, c, e, st, fuel);
    NarrowStaysInRange(c, e, st.locals);
    NarrowByResidue(c, Eval(w, prog, e, st, fuel).v, NarrowArith(c, e, st.locals));
  }

  /** Division does not respect residues: (100 + 100) / 2 as an int8 is 100 when
      narrowed once, -28 when narrowed after every operation. */
  lemma DivisionNeedsMore()
    ensures Narrow(I8, Apply(Div, Apply(Add, 100, 100), 2)) == 100
    ensures Signed(Narrow(I8, Apply(Div, Narrow(I8, Apply(Add, 100, 100)), 2))) == -28
  {
    assert Narrow(I8, 200) == M64 - 56;
    assert Div64(M64 - 56, 2) == Wrap(-28);
  }

  /** ++ and -- store without narrowing, so they keep a local in range except at the
      end of its type's range. */
  lemma IncDecKeepsRange(c: Conv, slot: u32, up: bool, prefix: bool, st: State)
    requires slot < |st.locals| && InRange(c, st.locals[slot])
    ensures var r := EvalIncDec(slot, up, prefix, st);
            r.Val? && (InRange(c, r.st.locals[slot]) <==> st.locals[slot] != (if up then Greatest(c) else Least(c)) || c == Conv.Keep)
  {
    hide InRange, Wrap, Signed;
    var v := st.locals[slot];
    var next := Wrap(if up then v as int + 1 else v as int - 1);
    InRangeIs(c, v);
    InRangeIs(c, next);
    NextIs(v, up);
    SignedIs(v);
    SignedIs(next);
  }

  lemma NextIs(v: u64, up: bool)
    ensures var next := Wrap(if up then v as int + 1 else v as int - 1);
            next as int == if up then (if v as int == M64 - 1 then 0 else v as int + 1) else (if v == 0 then M64 - 1 else v as int - 1)
  {
  }

  lemma SignedIs(v: u64)
    ensures Signed(v) == if v as int < M64 / 2 then v as int else v as int - M64
  {
  }

  function Least(c: Conv): u64 {
    match c
    case I8 => M64 - 0x80
    case I16 => M64 - 0x8000
    case I32 => M64 - 0x8000_0000
    case _ => 0
  }

  function Greatest(c: Conv): u64 {
    match c
    case Keep => M64 - 1
    case I8 => 0x7F
    case I16 => 0x7FFF
    case I32 => 0x7FFF_FFFF
    case U8 => 0xFF
    case U16 => 0xFFFF
    case U32 => 0xFFFF_FFFF
  }

  lemma InRangeIs(c: Conv, v: u64)
    ensures InRange(c, v) <==>
            if IsSignedConv(c) then -(Greatest(c) as int) - 1 <= Signed(v) <= Greatest(c) else v <= Greatest(c)
  {
  }
}
