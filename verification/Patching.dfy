/** A code buffer that is written with holes and patched later, next to the plan
    of what it is meant to become: the bytes that an emitter knowing every label
    in advance would have written. */
module Patching {
  import opened Words
  import opened Instructions
  import opened CodeLayout
  import opened OnePass

  datatype Plan = Plan(
    text: Code,            // the instructions so far, with their final operands
    truth: seq<u8>,        // their bytes
    at: Listing,           // where they are
    pending: set<int>,     // the holes still to be filled
    open: set<int>,        // those that a running visit remembers itself
    brk: seq<u32>,         // where the holes of each break list lead,
    cont: seq<u32>,        // of each continue list,
    clean: seq<u32>,       // and of each exception cleanup list
    parked: bool,          // a try block's exit ends the enclosing cleanup list for the moment
    atLabel: bool)           // the next instruction may be a jump target

  const EMPTY_PLAN := Plan([], [], map[], {}, {}, [], [], [], false, false)

  predicate Reads(code: seq<u8>, h: int, v: u32) {
    0 <= h && h + 4 <= |code| && code[h..h + 4] == BigEndian32(v)
  }

  /** i is one of the four bytes of a hole. */
  predicate InHole(holes: set<int>, i: int) {
    i in holes || i - 1 in holes || i - 2 in holes || i - 3 in holes
  }

  /** Away from the holes, the buffer is what it is meant to become. */
  ghost predicate Agrees(code: seq<u8>, pl: Plan) {
    |code| == |pl.truth| && forall i :: 0 <= i < |code| && !InHole(pl.pending, i) ==> code[i] == pl.truth[i]
  }

  /** Instructions lie end to end. */
  ghost predicate Tiles(at: Listing, n: nat) {
    (forall p :: p in at ==> p + Width(at[p]) <= n && (p + Width(at[p]) in at || p + Width(at[p]) == n)) &&
    (forall p, q :: p in at && q in at && p < q ==> p + Width(at[p]) <= q)
  }

  /** The bytes of an instruction sequence. */
  function BytesOf(text: Code): seq<u8> {
    if text == [] then [] else Encode(text[0]) + BytesOf(text[1..])
  }

  /** The plan's three views of the same code agree. */
  ghost predicate Consistent(pl: Plan) {
    pl.truth == BytesOf(pl.text) && |pl.truth| == TotalWidth(pl.text) && Lays(pl.at, 0, pl.text) && Lists(pl.truth, pl.at)
  }

  ghost predicate HolesInside(pl: Plan) {
    forall h :: h in pl.pending || h in pl.open ==> 0 <= h && h + 4 <= |pl.truth|
  }

  /** A target operand at h is a hole, or the start of an instruction. */
  predicate Resolved(pl: Plan, h: int, t: u32) {
    h in pl.pending || t as nat in pl.at || (pl.atLabel && t == |pl.truth|)
  }

  predicate LabelsOk(pl: Plan, p: nat, i: Instr) {
    match i
    case Jump(t) => Resolved(pl, p + 1, t)
    case JumpIfFalse(t) => Resolved(pl, p + 1, t)
    case JumpIfTrue(t) => Resolved(pl, p + 1, t)
    case ThrowException(t) => Resolved(pl, p + 1, t)
    case RegisterReturnCleanup(r, c) => Resolved(pl, p + 1, r) && Resolved(pl, p + 5, c)
    case _ => true
  }

  ghost predicate Labelled(pl: Plan) {
    forall p :: p in pl.at ==> LabelsOk(pl, p, pl.at[p])
  }

  ghost predicate Sound(code: seq<u8>, pl: Plan) {
    Agrees(code, pl) && Consistent(pl) && Tiles(pl.at, |pl.truth|) && HolesInside(pl) && Labelled(pl)
  }

  /** Every target that an instruction names. */
  function Targets(i: Instr): set<u32> {
    match i
    case Jump(t) => {t}
    case JumpIfFalse(t) => {t}
    case JumpIfTrue(t) => {t}
    case ThrowException(t) => {t}
    case RegisterReturnCleanup(r, c) => {r, c}
    case _ => {}
  }

  // -------------------------------------------------------------------- emission

  /** One more instruction, with these holes in its operands. */
  function Emitted(pl: Plan, i: Instr, holes: set<int>): Plan {
    pl.(text := pl.text + [i], truth := pl.truth + Encode(i), at := pl.at[|pl.truth| := i],
        pending := pl.pending + holes, open := pl.open + holes, atLabel := false)
  }

  lemma AgreesOn(code: seq<u8>, pl: Plan, i: Instr, holes: set<int>, b: seq<u8>)
    requires Agrees(code, pl) && |b| == Width(i)
    requires forall j :: 0 <= j < |b| ==> InHole(holes, |code| + j) || b[j] == Encode(i)[j]
    ensures Agrees(code + b, Emitted(pl, i, holes))
  {
    hide Encode;
    var pl1 := Emitted(pl, i, holes);
    forall k | 0 <= k < |code + b| && !InHole(pl1.pending, k) ensures (code + b)[k] == pl1.truth[k] {
      if k < |code| {
        assert !InHole(pl.pending, k);
      } else {
        assert !InHole(holes, |code| + (k - |code|));
        assert b[k - |code|] == Encode(i)[k - |code|];
      }
    }
  }

  lemma PlacedOn(code: seq<u8>, p: nat, b: seq<u8>, more: seq<u8>)
    requires Placed(code, p, b)
    ensures Placed(code + more, p, b)
  {
    assert (code + more)[p..p + |b|] == code[p..p + |b|];
  }

  lemma ReadsOn(code: seq<u8>, h: int, v: u32, more: seq<u8>)
    requires Reads(code, h, v)
    ensures Reads(code + more, h, v)
  {
    assert (code + more)[h..h + 4] == code[h..h + 4];
  }

  lemma ListsOn(pl: Plan, i: Instr)
    requires Lists(pl.truth, pl.at) && Tiles(pl.at, |pl.truth|)
    ensures Lists(pl.truth + Encode(i), pl.at[|pl.truth| := i]) && Tiles(pl.at[|pl.truth| := i], |pl.truth| + Width(i))
  {
    hide Encode;
    var n, at1 := |pl.truth|, pl.at[|pl.truth| := i];
    assert n !in pl.at by { if n in pl.at { NoneAtEnd(pl, n); } }
    forall p: nat | LookAt(p) && p in at1 ensures Placed(pl.truth + Encode(i), p, Encode(at1[p])) {
      if p == n {
        assert (pl.truth + Encode(i))[n..n + Width(i)] == Encode(i);
      } else {
        PlacedOn(pl.truth, p, Encode(pl.at[p]), Encode(i));
      }
    }
    TilesOn(pl.at, n, i);
  }

  lemma NoneAtEnd(pl: Plan, n: nat)
    requires Tiles(pl.at, n)
    ensures n !in pl.at
  {
    assert n in pl.at ==> n + Width(pl.at[n]) <= n;
  }

  lemma TilesOn(at: Listing, n: nat, i: Instr)
    requires Tiles(at, n)
    ensures Tiles(at[n := i], n + Width(i))
  {
    hide Width;
    var at1 := at[n := i];
    assert Width(i) > 0 by { WidthPositive(i); }
    BelowEnd(at, n);
    forall p | p in at1
      ensures p + Width(at1[p]) <= n + Width(i) && (p + Width(at1[p]) in at1 || p + Width(at1[p]) == n + Width(i))
    {
      if p != n { assert p in at && at1[p] == at[p]; }
    }
    forall p, q | p in at1 && q in at1 && p < q ensures p + Width(at1[p]) <= q {
      if p != n {
        assert p in at && at1[p] == at[p];
        if q != n { assert q in at; }
      }
    }
  }

  lemma BelowEnd(at: Listing, n: nat)
    requires Tiles(at, n)
    ensures forall p :: p in at ==> p < n
  {
    forall p | p in at ensures p < n { WidthPositive(at[p]); }
  }

  lemma WidthPositive(i: Instr)
    ensures Width(i) > 0
  {
  }

  lemma LabelledOn(pl: Plan, i: Instr, holes: set<int>)
    requires Labelled(pl) && |pl.truth| !in pl.at && LabelsOk(Emitted(pl, i, holes), |pl.truth|, i)
    ensures Labelled(Emitted(pl, i, holes))
  {
    hide Encode;
    var pl1 := Emitted(pl, i, holes);
    forall p | p in pl1.at ensures LabelsOk(pl1, p, pl1.at[p]) {
      if p != |pl.truth| {
        assert p in pl.at && LabelsOk(pl, p, pl.at[p]);
      }
    }
  }

  lemma {:induction false} BytesAppend(a: Code, b: Code)
    ensures BytesOf(a + b) == BytesOf(a) + BytesOf(b)
    decreases |a|
  {
    hide Encode;
    if a == [] {
      assert a + b == b;
    } else {
      assert (a + b)[1..] == a[1..] + b;
      BytesAppend(a[1..], b);
    }
  }

  lemma {:induction false} LaysJoin(at: Listing, p: nat, a: Code, b: Code)
    requires Lays(at, p, a) && Lays(at, p + TotalWidth(a), b)
    ensures Lays(at, p, a + b)
    decreases |a|
  {
    hide Width;
    if a == [] {
      assert a + b == b;
    } else {
      assert (a + b)[1..] == a[1..] + b;
      LaysJoin(at, p + Width(a[0]), a[1..], b);
    }
  }

  lemma {:induction false} LaysGrows(at: Listing, at1: Listing, p: nat, text: Code)
    requires Lays(at, p, text) && forall q :: q in at ==> q in at1 && at1[q] == at[q]
    ensures Lays(at1, p, text)
    decreases |text|
  {
    hide Width;
    if text != [] { LaysGrows(at, at1, p + Width(text[0]), text[1..]); }
  }

  lemma ConsistentOn(pl: Plan, i: Instr, holes: set<int>)
    requires Consistent(pl) && Tiles(pl.at, |pl.truth|)
    ensures Consistent(Emitted(pl, i, holes)) && Tiles(pl.at[|pl.truth| := i], |pl.truth| + Width(i))
  {
    hide Encode, Width, Lists, Tiles;
    var n, at1 := |pl.truth|, pl.at[|pl.truth| := i];
    ListsOn(pl, i);
    NoneAtEnd(pl, n);
    BytesAppend(pl.text, [i]);
    assert [i][1..] == [];
    assert BytesOf([i]) == Encode(i);
    LaysGrows(pl.at, at1, 0, pl.text);
    LaysJoin(at1, 0, pl.text, [i]);
    LaysSplit(at1, 0, pl.text, [i]);
  }

  /** Appending an instruction, its holes still blank, keeps the plan. */
  lemma EmitSound(code: seq<u8>, pl: Plan, i: Instr, holes: set<int>, b: seq<u8>)
    requires Sound(code, pl) && |b| == Width(i)
    requires forall j :: 0 <= j < |b| ==> InHole(holes, |code| + j) || b[j] == Encode(i)[j]
    requires forall h :: h in holes ==> |code| <= h && h + 4 <= |code| + |b|
    requires LabelsOk(Emitted(pl, i, holes), |code|, i)
    ensures Sound(code + b, Emitted(pl, i, holes))
  {
    hide Encode, Lists, Tiles, Labelled, Agrees, LabelsOk, Consistent, Width;
    AgreesOn(code, pl, i, holes, b);
    SameLength(code, pl);
    ConsistentOn(pl, i, holes);
    NoneAtEnd(pl, |pl.truth|);
    LabelledOn(pl, i, holes);
  }

  /** A hole's meaning survives what is emitted behind it. */
  lemma ReadsLater(a: Plan, b: Plan, more: Code, h: int, t: u32)
    requires Consistent(a) && Consistent(b) && b.text == a.text + more && Reads(a.truth, h, t)
    ensures Reads(b.truth, h, t)
  {
    hide Reads, Lists;
    BytesAppend(a.text, more);
    ReadsOn(a.truth, h, t, BytesOf(more));
  }

  /** Where the code used to end is where the next instruction starts. */
  lemma StartsLater(a: Plan, b: Plan, more: Code)
    requires Consistent(a) && Consistent(b) && b.text == a.text + more
    ensures |a.truth| in b.at || |a.truth| == |b.truth|
  {
    hide Lists, Width;
    LaysSplit(b.at, 0, a.text, more);
    if more == [] { assert b.text == a.text; }
  }

  lemma SameLength(code: seq<u8>, pl: Plan)
    requires Agrees(code, pl)
    ensures |code| == |pl.truth|
  {
  }

  // -------------------------------------------------------------------- patching

  /** Overwrite the four bytes of a hole. */
  function Patched(code: seq<u8>, h: nat, t: u32): (r: seq<u8>)
    requires h + 4 <= |code|
    ensures |r| == |code|
  {
    code[h := t / 0x100_0000 % 0x100][h + 1 := t / 0x1_0000 % 0x100][h + 2 := t / 0x100 % 0x100][h + 3 := t % 0x100]
  }

  function Filled(pl: Plan, h: int, t: u32): Plan {
    pl.(pending := pl.pending - {h}, atLabel := pl.atLabel || t == |pl.truth|)
  }

  lemma ReadsSame(code: seq<u8>, h: nat, v: u32, v': u32)
    requires Reads(code, h, v) && Reads(code, h, v')
    ensures v == v'
  {
    Read32Back(code, h, v);
    Read32Back(code, h, v');
  }

  /** The target operands of a listed instruction are where LabelsOk looks for them. */
  lemma OperandReads(code: seq<u8>, p: nat, i: Instr)
    requires Placed(code, p, Encode(i))
    ensures i.Jump? || i.JumpIfFalse? || i.JumpIfTrue? ==> Reads(code, p + 1, i.target)
    ensures i.ThrowException? ==> Reads(code, p + 1, i.cleanup)
    ensures i.RegisterReturnCleanup? ==> Reads(code, p + 1, i.returnIp) && Reads(code, p + 5, i.cleanup)
  {
    PlacedSplit(code, p, [Opcode(i)], Operands(i));
    if i.RegisterReturnCleanup? {
      PlacedSplit(code, p + 1, BigEndian32(i.returnIp), BigEndian32(i.cleanup));
    }
  }

  lemma ResolvedOn(pl: Plan, h: nat, t: u32, k: nat, v: u32)
    requires Resolved(pl, k, v) && Reads(pl.truth, k, v) && Reads(pl.truth, h, t)
    requires t as nat in pl.at || t == |pl.truth|
    ensures Resolved(Filled(pl, h, t), k, v)
  {
    if k == h { ReadsSame(pl.truth, h, t, v); }
  }

  lemma LabelsFilled(pl: Plan, h: nat, t: u32, p: nat)
    requires p in pl.at && LabelsOk(pl, p, pl.at[p]) && Placed(pl.truth, p, Encode(pl.at[p]))
    requires Reads(pl.truth, h, t) && (t as nat in pl.at || t == |pl.truth|)
    ensures LabelsOk(Filled(pl, h, t), p, pl.at[p])
  {
    hide Reads, Resolved, Encode, Placed;
    var i := pl.at[p];
    OperandReads(pl.truth, p, i);
    match i
    case Jump(v) => ResolvedOn(pl, h, t, p + 1, v);
    case JumpIfFalse(v) => ResolvedOn(pl, h, t, p + 1, v);
    case JumpIfTrue(v) => ResolvedOn(pl, h, t, p + 1, v);
    case ThrowException(v) => ResolvedOn(pl, h, t, p + 1, v);
    case RegisterReturnCleanup(r, c) =>
      ResolvedOn(pl, h, t, p + 1, r);
      ResolvedOn(pl, h, t, p + 5, c);
    case _ =>
  }

  lemma AgreesFilled(code: seq<u8>, pl: Plan, h: nat, t: u32)
    requires Agrees(code, pl) && Reads(pl.truth, h, t)
    ensures Agrees(Patched(code, h, t), Filled(pl, h, t))
  {
    var b := BigEndian32(t);
    assert pl.truth[h] == pl.truth[h..h + 4][0] && pl.truth[h + 1] == pl.truth[h..h + 4][1] &&
           pl.truth[h + 2] == pl.truth[h..h + 4][2] && pl.truth[h + 3] == pl.truth[h..h + 4][3];
    forall k | 0 <= k < |code| && !InHole(pl.pending - {h}, k) ensures Patched(code, h, t)[k] == pl.truth[k] {
      if !(h <= k < h + 4) { assert !InHole(pl.pending, k); }
    }
  }

  /** Filling a hole with the operand it is for keeps the plan, provided the target
      is the start of an instruction or the next one's. */
  lemma PatchSound(code: seq<u8>, pl: Plan, h: nat, t: u32)
    requires Sound(code, pl) && Reads(pl.truth, h, t)
    requires t as nat in pl.at || t == |pl.truth|
    ensures h + 4 <= |code| && Sound(Patched(code, h, t), Filled(pl, h, t))
  {
    hide LabelsOk, Placed, Encode, Tiles;
    AgreesFilled(code, pl, h, t);
    var pl1 := Filled(pl, h, t);
    forall p | p in pl1.at ensures LabelsOk(pl1, p, pl1.at[p]) {
      assert LookAt(p);
      LabelsFilled(pl, h, t, p);
    }
  }

  /** With no hole left, the buffer is the one-pass emitter's, and every target
      that it names is the start of an instruction. */
  lemma Complete(code: seq<u8>, pl: Plan)
    requires Sound(code, pl) && pl.pending == {} && !pl.atLabel
    ensures code == pl.truth && Lists(code, pl.at)
    ensures forall p, t: u32 :: p in pl.at && t in Targets(pl.at[p]) ==> t as nat in pl.at
  {
    forall i | 0 <= i < |code| ensures code[i] == pl.truth[i] {
      assert !InHole(pl.pending, i);
    }
    forall p, t: u32 | p in pl.at && t in Targets(pl.at[p]) ensures t as nat in pl.at {
      assert LabelsOk(pl, p, pl.at[p]);
    }
  }
}
