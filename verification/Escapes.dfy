/** Ways out that skip work.  Loop bodies and cases are not linked to what is around
    them, so a return inside one ends the function on the spot: the result is not
    narrowed, nothing is released on the way, no finally block runs.  A break or
    continue releases blocks but runs no finally block either. */
module Escapes {
  import opened Options
  import opened Words
  import opened Instructions
  import opened Syntax
  import opened Semantics

  /** while (true) { return e; } */
  function LoopReturn(e: Expr, isRef: bool): Stmt {
    While(BoolLit(true), Block(Cons(Stmt.Return(Some(e), isRef), Nil)))
  }

  /** The result as it was computed, retained when it is a borrowed reference. */
  function AsItIs(e: Expr, isRef: bool, r: Value): Result
    requires r.Val?
  {
    var retain := isRef && !ProducesRetained(e);
    Done(Escaping(RetainIf(retain, r.v)), LogRetain(retain, r.v, r.st), [])
  }

  /** Whatever the function's type asks for, the result is not narrowed. */
  lemma LoopReturnEscapes(w: World, prog: Program, conv: Conv, e: Expr, isRef: bool, st: State, fuel: nat)
    requires fuel > 0 && Eval(w, prog, e, st, fuel - 1).Val?
    ensures Exec(w, prog, conv, LoopReturn(e, isRef), st, fuel) == AsItIs(e, isRef, Eval(w, prog, e, st, fuel - 1))
  {
    var b := Block(Cons(Stmt.Return(Some(e), isRef), Nil));
    BlockReturns(w, prog, e, isRef, st, fuel - 1);
    LoopLeaves(w, prog, b, st, fuel);
    hide Exec, ExecLoop;
    assert LoopReturn(e, isRef) == While(BoolLit(true), b);
    WhileIsLoop(w, prog, conv, BoolLit(true), b, st, fuel);
  }

  lemma WhileIsLoop(w: World, prog: Program, conv: Conv, c: Expr, b: Stmt, st: State, fuel: nat)
    ensures Exec(w, prog, conv, While(c, b), st, fuel) == ExecLoop(w, prog, Some(c), None, b, st, fuel)
  {
    hide ExecLoop;
  }

  lemma LoopLeaves(w: World, prog: Program, b: Stmt, st: State, fuel: nat)
    requires fuel > 0
    requires var r := Cut(Exec(w, prog, Keep, b, st, fuel - 1));
             r.Done? && r.o.Escaping?
    ensures ExecLoop(w, prog, Some(BoolLit(true)), None, b, st, fuel) == Cut(Exec(w, prog, Keep, b, st, fuel - 1))
  {
    hide Exec;
    assert Eval(w, prog, BoolLit(true), st, fuel - 1) == Val(1, st);
  }

  lemma BlockReturns(w: World, prog: Program, e: Expr, isRef: bool, st: State, fuel: nat)
    requires Eval(w, prog, e, st, fuel).Val?
    ensures var b := Block(Cons(Stmt.Return(Some(e), isRef), Nil));
            Exec(w, prog, Keep, b, st, fuel).Done? && Cut(Exec(w, prog, Keep, b, st, fuel)) == AsItIs(e, isRef, Eval(w, prog, e, st, fuel))
  {
    hide Eval;
    var s := Stmt.Return(Some(e), isRef);
    var body := Cons(s, Nil);
    var x := Eval(w, prog, e, st, fuel);
    var r := ExecReturn(w, prog, Keep, s, st, fuel);
    assert Narrow(Keep, x.v) == x.v;
    assert r.Done? && r.o.Returning?;
    assert Exec(w, prog, Keep, s, st, fuel) == r;
    assert ExecSeq(w, prog, Keep, body, st, fuel) == r;
    assert RefSlots(body) == [];
    assert ReleaseAll(r.st, []) == r.st;
    assert ExecBlock(w, prog, Keep, body, st, fuel) == r;
  }

  /** The blocks around it release nothing. */
  lemma EscapeSkipsReleases(w: World, prog: Program, conv: Conv, e: Expr, isRef: bool, rest: Stmts, st: State, fuel: nat)
    requires fuel > 0 && Eval(w, prog, e, st, fuel - 1).Val?
    ensures ExecBlock(w, prog, conv, Cons(LoopReturn(e, isRef), rest), st, fuel) == AsItIs(e, isRef, Eval(w, prog, e, st, fuel - 1))
  {
    hide Eval, Exec;
    LoopReturnEscapes(w, prog, conv, e, isRef, st, fuel);
  }

  /** The finally block of a try around it does not run, whatever it is. */
  lemma EscapeSkipsFinally(w: World, prog: Program, conv: Conv, e: Expr, isRef: bool, rest: Stmts, clauses: Clauses, fin: Stmts, st: State, fuel: nat)
    requires fuel > 0 && Eval(w, prog, e, st, fuel - 1).Val?
    ensures Exec(w, prog, conv, Try(Cons(LoopReturn(e, isRef), rest), clauses, Some(fin)), st, fuel) ==
              AsItIs(e, isRef, Eval(w, prog, e, st, fuel - 1))
  {
    hide Eval, ExecBlock;
    EscapeSkipsReleases(w, prog, conv, e, isRef, rest, st, fuel);
    var s := Try(Cons(LoopReturn(e, isRef), rest), clauses, Some(fin));
    assert Guarded(w, prog, conv, s, st, fuel) == ExecBlock(w, prog, conv, s.body, st, fuel);
    assert Exec(w, prog, conv, s, st, fuel) == ExecTry(w, prog, conv, s, st, fuel);
  }

  /** Nor does that of a try which a break or continue leaves. */
  lemma LeapSkipsFinally(w: World, prog: Program, conv: Conv, leap: Stmt, rest: Stmts, clauses: Clauses, fin: Stmts, st: State, fuel: nat)
    requires leap.Break? || leap.Continue?
    ensures Exec(w, prog, conv, Try(Cons(leap, rest), clauses, Some(fin)), st, fuel) ==
              if InFrame(RefSlots(rest), |st.locals|)
              then Done(if leap.Break? then Breaking else Continuing, ReleaseAll(st, RefSlots(rest)), [])
              else NoResult
  {
    hide ReleaseAll, InFrame;
    var s := Try(Cons(leap, rest), clauses, Some(fin));
    var r := Done(if leap.Break? then Breaking else Continuing, st, []);
    assert RefSlots(s.body) == RefSlots(rest) + [] == RefSlots(rest);
    assert Exec(w, prog, conv, leap, st, fuel) == r;
    assert ExecSeq(w, prog, conv, s.body, st, fuel) == r;
    hide ExecSeq;
    assert Guarded(w, prog, conv, s, st, fuel) == ExecBlock(w, prog, conv, s.body, st, fuel);
    assert Exec(w, prog, conv, s, st, fuel) == ExecTry(w, prog, conv, s, st, fuel);
  }

  /** A function that returns this way gives the result as it is, and releases none of
      its parameters. */
  lemma EscapeSkipsParameters(w: World, prog: Program, fn: nat, e: Expr, isRef: bool, vs: seq<u64>, st: State, fuel: nat)
    requires fuel > 0 && fn < |prog| && |vs| == prog[fn].params as int
    requires prog[fn].body.Cons? && prog[fn].body.head == LoopReturn(e, isRef)
    requires Eval(w, prog, e, Entered(prog[fn], vs, st), fuel - 1).Val?
    ensures var r := AsItIs(e, isRef, Eval(w, prog, e, Entered(prog[fn], vs, st), fuel - 1));
            Semantics.Call(w, prog, fn, vs, st, fuel) == Val(r.o.v, r.st.(locals := st.locals))
  {
    hide Eval, ExecBlock, Entered;
    EscapeSkipsReleases(w, prog, BodyConv(prog[fn]), e, isRef, prog[fn].body.tail, Entered(prog[fn], vs, st), fuel);
  }
}
