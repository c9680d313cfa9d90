/** From the assembler's bytes to the machine's runs: the compiler as a whole is
    correct. */
module Compiler {
  import opened Options
  import opened Words
  import opened Instructions
  import opened Syntax
  import opened Semantics
  import opened VirtualMachine
  import opened Calls
  import opened CodeLayout
  import opened OnePass
  import opened Patching
  import opened Stepping
  import opened Simulation
  import opened Programs
  import opened Assembler
  import opened RunLoop

  /** Programs of the modelled scope whose code fits 32-bit addresses. */
  predicate Compilable(prog: Program) {
    WfProgram(prog) && StartOf(prog, |prog|) < HOLE
  }

  /** The VM decodes, at every instruction's address, that very instruction, and
      finds the next one behind it. */
  lemma DecodesBack(code: seq<u8>, at: Listing, text: Code, p: nat)
    requires Placement(code, at, text) && p in at
    ensures Fetch(code, p) == Fetched(at[p], p + Width(at[p]))
    ensures p + Width(at[p]) in at || p + Width(at[p]) == |code|
  {
    hide Encode, Width, Lays, Targets, Placed;
    assert LookAt(p);
    FetchBack(code, p, at[p]);
  }

  /** The finished buffer is a linked program. */
  lemma IsLinked(w: World, prog: Program, entry: nat, argc: u32, code: seq<u8>, at: Listing)
    requires Compilable(prog) && Placement(code, at, ProgramText(prog, entry, argc)) && code == BytesOf(ProgramText(prog, entry, argc))
    ensures Linked(Image(w, code, at, prog, EntryPoints(prog)))
    ensures BootAt(at, 0, entry, argc, EntryPoints(prog)) && 1 !in at && BOOT_SIZE <= |code| < HOLE
  {
    hide WfFunction, FunctionAt, Lays, Lists, BytesOf, ProgramText, SizeFunction, TotalWidth, Targets, StartOf, LeapsInSeq;
    var k := Image(w, code, at, prog, EntryPoints(prog));
    LeapsInside(prog);
    ProgramLaid(at, prog, entry, argc);
    BytesWidth(ProgramText(prog, entry, argc));
    forall i | 0 <= i < |prog| ensures FunctionLinked(k, i) {
      FunctionFits(k, i);
    }
    SecondByte(at, |code|, entry, argc, EntryPoints(prog));
    StartsGrow(prog, 0, |prog|);
    FirstFunction(prog, []);
  }

  lemma LeapsInside(prog: Program)
    requires WfProgram(prog)
    ensures forall i :: 0 <= i < |prog| ==> LeapsInSeq(prog[i].body, false, false)
  {
    hide LeapsInSeq;
    forall i | 0 <= i < |prog| ensures LeapsInSeq(prog[i].body, false, false) {
      assert WfFunction(prog[i]);
    }
  }

  lemma {:induction false} BytesWidth(text: Code)
    ensures |BytesOf(text)| == TotalWidth(text)
  {
    hide Encode, Width;
    if text != [] { BytesWidth(text[1..]); }
  }

  lemma FunctionFits(k: Image, i: nat)
    requires i < |k.prog| && k.fns == EntryPoints(k.prog) && StartOf(k.prog, |k.prog|) == |k.code| < HOLE
    requires FunctionAt(k.at, StartOf(k.prog, i), k.prog[i], k.fns)
    ensures FunctionLinked(k, i)
  {
    hide FunctionAt, SizeFunction, StartOf;
    FirstFunction(k.prog, []);
    StartsGrow(k.prog, 0, i);
    NextFunction(k.prog, i, []);
    StartsGrow(k.prog, i + 1, |k.prog|);
    AddrFits(StartOf(k.prog, i));
  }

  lemma SecondByte(at: Listing, n: nat, entry: nat, argc: u32, fns: seq<u32>)
    requires BootAt(at, 0, entry, argc, fns) && Tiles(at, n)
    ensures 1 !in at
  {
    assert 0 in at && Width(at[0]) == 5;
    assert forall q :: q in at && 0 < q ==> 0 + Width(at[0]) <= q;
  }

  /** Compiling preserves meaning, from the syntax tree to the VM's run over the
      patched bytes. */
  lemma CompiledProgramRuns(w: World, prog: Program, entry: nat, code: seq<u8>, at: Listing, vs: seq<u64>, exc: u32,
                            trace: seq<Event>, fuel: nat)
    requires Compilable(prog) && entry < |prog| && |vs| == prog[entry].params as int
    requires Placement(code, at, ProgramText(prog, entry, |vs|)) && code == BytesOf(ProgramText(prog, entry, |vs|))
    ensures var x := Exit(Semantics.Call(w, prog, entry, vs, State([], exc, trace), fuel));
            x.Some? ==> Goes(w, code, Booting(0, vs, exc, trace), x.value)
  {
    hide WfProgram, Placement, BytesOf, ProgramText, Linked, Goes, BootAt, Exit, Semantics.Call, StartOf;
    IsLinked(w, prog, entry, |vs|, code, at);
    ProgramRuns(Image(w, code, at, prog, EntryPoints(prog)), 0, entry, vs, exc, trace, fuel);
  }

  /** The same about any number of dispatches of any program that the assembler has
      finished: a run that has stopped has stopped as the source program ends. */
  method CompileProgram(prog: Program, entry: nat) returns (code: seq<u8>, ok: bool)
    requires Compilable(prog) && entry < |prog|
    ensures ProgramBelow(|prog|, prog) ==> ok
    ensures ok ==> forall w, vs: seq<u64>, exc, trace, fuel, n: nat ::
              |vs| == prog[entry].params as int && !Run(w, code, n, Booting(0, vs, exc, trace)).Next? ==>
              var x := Exit(Semantics.Call(w, prog, entry, vs, State([], exc, trace), fuel));
              var r := Run(w, code, n, Booting(0, vs, exc, trace));
              x.None? || r == x.value || OutOfRoom(r)
  {
    LeapsInside(prog);
    var asm;
    asm, ok := Assemble(prog, entry, prog[entry].params);
    code := asm.code;
    if ok {
      ghost var at := asm.plan.at;
      forall w, vs: seq<u64>, exc, trace, fuel, n: nat
        | |vs| == prog[entry].params as int && !Run(w, code, n, Booting(0, vs, exc, trace)).Next?
        ensures var x := Exit(Semantics.Call(w, prog, entry, vs, State([], exc, trace), fuel));
                var r := Run(w, code, n, Booting(0, vs, exc, trace));
                x.None? || r == x.value || OutOfRoom(r)
      {
        Ends(w, prog, entry, code, at, vs, exc, trace, fuel, n);
      }
    }
  }

  /** The interpreter has stopped as a source run with result x does: with the low half of
      its value, its escaped exception, released, or its error, the same heap events behind it;
      unless the stack or the call depth has run out. */
  predicate StopsAs(x: Value, r: Signal, events: seq<Event>) {
    r == Fails(StackOverflow) || r == Fails(CallDepthExceeded) ||
    match x
    case Val(v, st) => r == Exits(ExitCode(v)) && events == st.trace
    case Raised(st, _) => r == Fails(Unhandled(st.exc)) && events == st.trace + (if st.exc == 0 then [] else [Released(st.exc)])
    case Fail(err, trace) => r == Fails(err) && events == trace
    case NoValue => true
  }

  lemma ExitStops(x: Value, r: Signal, events: seq<Event>)
    requires r != Go
    requires var end := if r.Exits? then Halted(r.code, events) else Fault(r.err, events);
             Exit(x).None? || end == Exit(x).value || OutOfRoom(end)
    ensures StopsAs(x, r, events)
  {
    hide ExitCode;
  }

  /** Compiling a program and running its bytes in the interpreter's loop: if the run
      ends within the budget, it ends as the source program does, with the same heap
      events behind it. */
  method CompileAndRun(w: World, prog: Program, entry: nat, vs: seq<u64>, exc: u32, trace: seq<Event>, budget: nat)
    returns (ok: bool, r: Signal, events: seq<Event>)
    requires Compilable(prog) && entry < |prog| && |vs| == prog[entry].params as int && |vs| <= w.capacity && budget > 0
    ensures ProgramBelow(|prog|, prog) ==> ok
    ensures ok && r != Go ==> forall fuel :: StopsAs(Semantics.Call(w, prog, entry, vs, State([], exc, trace), fuel), r, events)
  {
    hide Compilable, Semantics.Call, Run, Exit, OutOfRoom, RunFor, StopsAs;
    var code;
    code, ok := CompileProgram(prog, entry);
    r, events := Go, trace;
    if ok {
      var vm := new Vm(w, code, Booting(0, vs, exc, trace));
      r := vm.RunBytecode(budget);
      events := vm.trace;
      if r != Go {
        ghost var n := RunForEnds(w, code, budget, Booting(0, vs, exc, trace));
        forall fuel ensures StopsAs(Semantics.Call(w, prog, entry, vs, State([], exc, trace), fuel), r, events) {
          ExitStops(Semantics.Call(w, prog, entry, vs, State([], exc, trace), fuel), r, events);
        }
      }
    }
  }

  /** A run that ends within its budget is a run of some length that ends. */
  lemma RunForEnds(w: World, code: seq<u8>, budget: nat, m: Machine) returns (n: nat)
    requires budget > 0 && !RunFor(w, code, budget, m).Next?
    ensures Run(w, code, n, m) == RunFor(w, code, budget, m)
  {
    hide Do, DoHalt, Iterate;
    var r := Run(w, code, budget - 1, m);
    n := budget - 1;
    if r.Next? && r.m.pc >= |code| {
      n := budget;
      IterateAppend(Stepper(w, code), budget - 1, 1, m);
      IterateOnce(w, code, 1, r.m);
      RunNothing(w, code, r.m);
      assert Fetch(code, r.m.pc) == EndOfCode;
      assert Step(w, code, r.m) == DoHalt(r.m);
      HaltEnds(r.m);
    }
  }

  lemma HaltEnds(m: Machine)
    ensures DoHalt(m).Halted?
  {
  }

  lemma Ends(w: World, prog: Program, entry: nat, code: seq<u8>, at: Listing, vs: seq<u64>, exc: u32, trace: seq<Event>, fuel: nat, n: nat)
    requires Compilable(prog) && entry < |prog| && |vs| == prog[entry].params as int
    requires Placement(code, at, ProgramText(prog, entry, |vs|)) && code == BytesOf(ProgramText(prog, entry, |vs|))
    requires !Run(w, code, n, Booting(0, vs, exc, trace)).Next?
    ensures var x := Exit(Semantics.Call(w, prog, entry, vs, State([], exc, trace), fuel));
            var r := Run(w, code, n, Booting(0, vs, exc, trace));
            x.None? || r == x.value || OutOfRoom(r)
  {
    hide Compilable, Placement, BytesOf, ProgramText, Goes, Semantics.Call, StartOf, Run, Booting;
    CompiledProgramRuns(w, prog, entry, code, at, vs, exc, trace, fuel);
    var x := Exit(Semantics.Call(w, prog, entry, vs, State([], exc, trace), fuel));
    if x.Some? { OneEnd(w, code, Booting(0, vs, exc, trace), n, x.value); }
  }
}
