/** The counts balance in the machine, over the compiled bytes of a program whose counts
    balance. */
module BalanceInMachine {
  import opened Options
  import opened Words
  import opened Instructions
  import opened Syntax
  import opened Semantics
  import opened VirtualMachine
  import opened CodeLayout
  import opened OnePass
  import opened Patching
  import opened Programs
  import opened Assembler
  import opened Compiler
  import opened OnceInMachine
  import opened Balance

  /** When the source run ends, so that no exception is involved, with a result or an error, a
      run of the compiled bytes that has stopped has never taken a block's count below what
      was there without the references passed in; and if it has halted, each count has
      changed by the reference returned less those passed in.  Unless it ran out of room. */
  lemma MachineBalances(w: World, prog: Program, gives: seq<bool>, entry: nat, code: seq<u8>, at: Listing, vs: seq<u64>, exc: u32,
                        trace: seq<Event>, fuel: nat, n: nat, a: u32)
    requires Compilable(prog) && TypedProgram(prog, gives) && entry < |prog| && |vs| == prog[entry].params as int && a != 0
    requires Placement(code, at, ProgramText(prog, entry, |vs|)) && code == BytesOf(ProgramText(prog, entry, |vs|))
    requires !Semantics.Call(w, prog, entry, vs, State([], exc, trace), fuel).NoValue?
    ensures var r := Run(w, code, n, Booting(0, vs, exc, trace));
            var x := Semantics.Call(w, prog, entry, vs, State([], exc, trace), fuel);
            var passed := Held(vs, RefSet(prog[entry]), a);
            r.Next? || OutOfRoom(r) ||
            (NoDip(trace, Events(r), Net(trace, a) - passed, a) &&
             (r.Halted? ==> x.Val? && Net(r.trace, a) == Net(trace, a) - passed + OwnedBy(x.v, gives[entry], a)))
  {
    hide Compilable, Placement, BytesOf, ProgramText, Semantics.Call, Run, Booting, OutOfRoom, Net, Held, NoDip, TypedFunction, ExitCode;
    var st := State([], exc, trace);
    CallBalances(w, prog, gives, entry, vs, st, fuel, a);
    if !Run(w, code, n, Booting(0, vs, exc, trace)).Next? { Ends(w, prog, entry, code, at, vs, exc, trace, fuel, n); }
  }
}
