/** What the source operators compute, in the numbers that their operands stand for. */
module Operators {
  import opened Options
  import opened Words
  import opened Instructions
  import opened Syntax
  import opened Semantics

  /** v is the value of the target type that is a multiple of the type's size away from x. */
  ghost predicate Converts(c: Conv, x: int, v: u64) {
    InRange(c, v) && exists m: nat :: m > 0 && Distance(c, m) && (v - x) % m == 0
  }

  lemma NarrowConverts(c: Conv, x: int)
    ensures Converts(c, x, Narrow(c, Wrap(x)))
  {
    hide Narrow, Wrap, InRange;
    var m := Modulus(c);
    assert Distance(c, m);
    var a, v := Wrap(x), Narrow(c, Wrap(x));
    NarrowIntoRange(c, a, m);
    WrapKeepsResidue(c, x);
    RingResidues(v - a, 0, a, x, m);
    RingResidues(v, v, a, x, m);
    assert (v - x) % m == (v - a) % m;
  }

  lemma NarrowWordConverts(c: Conv, a: u64)
    ensures Converts(c, a, Narrow(c, a))
  {
    assert Wrap(a) == a;
    NarrowConverts(c, a);
  }

  /** Left operand first, then the right one where that left off; the result is the
      operator's, and a zero divisor is reported exactly for the two divisions. */
  lemma ArithComputes(w: World, prog: Program, op: BinOp, left: Expr, right: Expr, st: State, fuel: nat,
                      a: u64, st1: State, b: u64, st2: State)
    requires Eval(w, prog, left, st, fuel) == Val(a, st1) && Eval(w, prog, right, st1, fuel) == Val(b, st2)
    ensures (op.Div? || op.Mod?) && b == 0 ==> Eval(w, prog, Arith(op, left, right), st, fuel) == Fail(DivisionByZero, st2.trace)
    ensures !((op.Div? || op.Mod?) && b == 0) ==>
              exists v: u64 :: Computes(op, a, b, v) && Eval(w, prog, Arith(op, left, right), st, fuel) == Val(v, st2)
  {
    hide Semantics.Apply, Computes;
    var e := Arith(op, left, right);
    assert Eval(w, prog, e, st, fuel) == EvalArith(w, prog, e, st, fuel);
    if !((op.Div? || op.Mod?) && b == 0) { ApplyComputes(op, a, b); }
  }

  /** A compound assignment computes with the slot's value from before its operand; its own
      value is the result as computed, the slot holds the conversion of it. */
  lemma AssignOpComputes(w: World, prog: Program, op: BinOp, slot: u32, conv: Conv, rhs: Expr, st: State, fuel: nat,
                         b: u64, st1: State)
    requires slot < |st.locals| && Eval(w, prog, rhs, st, fuel) == Val(b, st1)
    ensures (op.Div? || op.Mod?) && b == 0 ==>
              Eval(w, prog, AssignOp(op, slot, conv, rhs), st, fuel) == Fail(DivisionByZero, st1.trace)
    ensures !((op.Div? || op.Mod?) && b == 0) ==>
              exists v: u64, stored: u64 :: Computes(op, st.locals[slot], b, v) && Converts(conv, v, stored) &&
                Eval(w, prog, AssignOp(op, slot, conv, rhs), st, fuel) == Val(v, st1.(locals := st1.locals[slot := stored]))
  {
    hide Semantics.Apply, Computes, Narrow, Converts;
    var e := AssignOp(op, slot, conv, rhs);
    assert Eval(w, prog, e, st, fuel) == EvalAssignOp(w, prog, e, st, fuel);
    if !((op.Div? || op.Mod?) && b == 0) {
      ApplyComputes(op, st.locals[slot], b);
      NarrowWordConverts(conv, Semantics.Apply(op, st.locals[slot], b));
    }
  }

  /** A plain assignment stores the conversion, and its value is the operand as computed. */
  lemma AssignConverts(w: World, prog: Program, slot: u32, conv: Conv, rhs: Expr, st: State, fuel: nat, b: u64, st1: State)
    requires slot < |st.locals| && Eval(w, prog, rhs, st, fuel) == Val(b, st1)
    ensures exists stored: u64 :: Converts(conv, b, stored) &&
              Eval(w, prog, Assign(slot, conv, rhs), st, fuel) == Val(b, st1.(locals := st1.locals[slot := stored]))
  {
    hide Narrow, Converts;
    NarrowWordConverts(conv, b);
    var stored := Narrow(conv, b);
    assert Converts(conv, b, stored) && SetSlot(st1, slot, stored) == st1.(locals := st1.locals[slot := stored]);
    assert Eval(w, prog, Assign(slot, conv, rhs), st, fuel) == Val(b, SetSlot(st1, slot, stored));
  }

  /** Negation converts the negative; ! is 1 exactly for zero. */
  lemma PrefixComputes(w: World, prog: Program, conv: Conv, e: Expr, st: State, fuel: nat, a: u64, st1: State)
    requires Eval(w, prog, e, st, fuel) == Val(a, st1)
    ensures Eval(w, prog, Not(e), st, fuel) == Val(if a == 0 then 1 else 0, st1)
    ensures exists v: u64 :: Converts(conv, -(a as int), v) && Eval(w, prog, Negate(conv, e), st, fuel) == Val(v, st1)
  {
    hide Narrow, Wrap, Converts;
    NarrowConverts(conv, -(a as int));
    assert Eval(w, prog, Negate(conv, e), st, fuel) == Val(Narrow(conv, Wrap(-(a as int))), st1);
  }

  /** to is one more or one less than from, modulo 2^64. */
  predicate Moves(from: u64, up: bool, to: u64) {
    (to - from - if up then 1 else -1) % M64 == 0
  }

  /** ++ and -- move the slot by one and never convert; the prefix form has the new value,
      the postfix form the old one. */
  lemma IncDecComputes(w: World, prog: Program, slot: u32, up: bool, prefix: bool, st: State, fuel: nat)
    requires slot < |st.locals|
    ensures exists next: u64 :: Moves(st.locals[slot], up, next) &&
              Eval(w, prog, IncDec(slot, up, prefix), st, fuel) ==
                Val(if prefix then next else st.locals[slot], st.(locals := st.locals[slot := next]))
  {
    var before: int := st.locals[slot];
    var next := Wrap(if up then before + 1 else before - 1);
    WrapShift(if up then before + 1 else before - 1);
    assert Moves(st.locals[slot], up, next);
  }
}
