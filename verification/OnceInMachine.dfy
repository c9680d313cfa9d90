/** The finally block of a compiled program runs exactly once in the machine, where its
    code stands in several copies. */
module OnceInMachine {
  import opened Options
  import opened Words
  import opened Instructions
  import opened Syntax
  import opened Semantics
  import opened VirtualMachine
  import opened CodeLayout
  import opened OnePass
  import opened Patching
  import opened Programs
  import opened Assembler
  import opened Compiler
  import opened Once

  /** The heap events behind a run that has stopped. */
  function Events(r: Res): seq<Event> {
    match r
    case Halted(_, trace) => trace
    case Fault(_, trace) => trace
    case Next(m) => m.trace
  }

  /** The entry function is a try whose finally block begins by creating an object of a
      class that nothing else creates.  When the source run ends with a result or an
      exception, a run of the compiled bytes that has stopped has created exactly one,
      unless it ran out of room. */
  lemma MachineRunsFinallyOnce(classId: u32, w: World, prog: Program, entry: nat, code: seq<u8>, at: Listing, vs: seq<u64>, exc: u32, trace: seq<Event>,
                               fuel: nat, n: nat)
    requires Compilable(prog) && OnceAround(classId, prog, entry) && |vs| == prog[entry].params as int
    requires Placement(code, at, ProgramText(prog, entry, |vs|)) && code == BytesOf(ProgramText(prog, entry, |vs|))
    requires var x := Semantics.Call(w, prog, entry, vs, State([], exc, trace), fuel);
             x.Val? || x.Raised?
    ensures var r := Run(w, code, n, Booting(0, vs, exc, trace));
            r.Next? || OutOfRoom(r) || Made(Events(r), classId) == Made(trace, classId) + 1
  {
    hide Compilable, Placement, BytesOf, ProgramText, Semantics.Call, Run, Booting, OutOfRoom, Made, OnceAround;
    var st := State([], exc, trace);
    var x := Semantics.Call(w, prog, entry, vs, st, fuel);
    assert entry < |prog| by { EntryInside(classId, prog, entry); }
    CallRunsOnce(classId, w, prog, entry, vs, st, fuel);
    LogSame(Mark(classId, {}), x.st, Event.Released(x.st.exc));
    if !Run(w, code, n, Booting(0, vs, exc, trace)).Next? { Ends(w, prog, entry, code, at, vs, exc, trace, fuel, n); }
  }

  lemma EntryInside(classId: u32, prog: Program, entry: nat)
    requires OnceAround(classId, prog, entry)
    ensures entry < |prog|
  {
  }
}
