/** Instance layouts: where the binder places the fields of a class behind those it
    inherits, and which offsets the VM will treat as references. */
module ObjectLayout {
  import opened Options
  import opened Hierarchy
  import opened ClassTables
  import Allocator

  datatype FieldType = FieldType(name: string, arrayDepth: nat, isFunctionPointer: bool)

  datatype Field = Field(fieldType: FieldType, isStatic: bool, isReference: bool, isWeak: bool)

  function TypeSize(t: FieldType): (size: nat)
    ensures size in {1, 2, 4, 8}
  {
    if t.arrayDepth > 0 || t.isFunctionPointer then 8
    else if t.name in {"bool", "char", "int8", "uint8", "byte", "ubyte"} then 1
    else if t.name in {"int16", "uint16", "short", "ushort"} then 2
    else if t.name in {"int32", "uint32", "int", "uint", "float32", "float"} then 4
    else 8
  }

  /** Arrays, function pointers and every name that is not a shorter primitive take eight
      bytes; the shorter primitives take their width. */
  lemma SizesOfTypes(t: FieldType)
    ensures TypeSize(t) == 8 || (t.arrayDepth == 0 && !t.isFunctionPointer)
    ensures TypeSize(t) == 8 || t.name in TypeNames(TypeSize(t))
    ensures t.arrayDepth == 0 && !t.isFunctionPointer ==>
              forall size :: size in {1, 2, 4} && t.name in TypeNames(size) ==> TypeSize(t) == size
  {
  }

  /** The names of the primitives that take so many bytes. */
  function TypeNames(size: nat): seq<string> {
    match size
    case 1 => ["bool", "char", "int8", "uint8", "byte", "ubyte"]
    case 2 => ["int16", "uint16", "short", "ushort"]
    case 4 => ["int32", "uint32", "int", "uint", "float32", "float"]
    case _ => []
  }

  /** The block tag that an array of this type is allocated with. */
  function ArrayTag(t: FieldType): Allocator.Tag {
    if t.arrayDepth > 1 || t.isFunctionPointer then 9
    else if t.name == "int8" then 3
    else if t.name in {"bool", "char", "uint8", "byte", "ubyte"} then 2
    else if t.name in {"int16", "short"} then 5
    else if t.name in {"uint16", "ushort"} then 4
    else if t.name in {"int32", "int"} then 7
    else if t.name in {"uint32", "uint", "float32", "float"} then 6
    else if t.name in {"int64", "uint64", "long", "ulong", "float64", "double"} then 8
    else 9
  }

  /** The allocator reserves for an array's elements exactly what their type takes. */
  lemma ElementsTakeTheirSize(t: FieldType, i: nat)
    requires t.arrayDepth > 0
    ensures Allocator.ElementEnd(i, ArrayTag(t)) == (i + 1) * TypeSize(t.(arrayDepth := t.arrayDepth - 1))
  {
  }

  function Size(f: Field): (size: nat)
    ensures size in {1, 2, 4, 8}
  {
    TypeSize(f.fieldType)
  }

  predicate IsTraced(f: Field) {
    !f.isStatic && f.isReference && !f.isWeak
  }

  /** The offsets of a class's own fields, -1 for static ones; its size; and the
      reference offsets, inherited ones first. */
  datatype Layout = Layout(offsets: seq<int>, size: nat, references: seq<int>)

  /** Instance fields are aligned, in order, and inside [start, end). */
  predicate Placed(fields: seq<Field>, offsets: seq<int>, start: nat, end: nat) {
    |offsets| == |fields| && forall k :: 0 <= k < |fields| ==> PlacedAt(fields, offsets, start, end, k)
  }

  predicate PlacedAt(fields: seq<Field>, offsets: seq<int>, start: nat, end: nat, k: nat)
    requires k < |fields| == |offsets|
  {
    if fields[k].isStatic then offsets[k] == -1
    else
      start <= offsets[k] && offsets[k] % Size(fields[k]) == 0 && offsets[k] + Size(fields[k]) <= end &&
      forall j :: 0 <= j < k && !fields[j].isStatic ==> offsets[j] + Size(fields[j]) <= offsets[k]
  }

  /** The offsets of the traced fields, in order. */
  function Traced(fields: seq<Field>, offsets: seq<int>): (r: seq<int>)
    requires |fields| == |offsets|
    decreases |fields|
  {
    if fields == [] then []
    else
      var last := |fields| - 1;
      Traced(fields[..last], offsets[..last]) + (if IsTraced(fields[last]) then [offsets[last]] else [])
  }

  function Align(offset: nat, size: nat): nat
    requires size > 0
  {
    (offset + size - 1) / size * size
  }

  /** Instances take whole words, at least one. */
  function InstanceSize(end: nat): (size: nat)
    ensures size % 8 == 0 && end <= size && 8 <= size < end + 9
  {
    var size := (end + 7) / 8 * 8;
    if size == 0 then 8 else size
  }

  lemma AlignFacts(offset: nat, size: nat)
    requires size in {1, 2, 4, 8}
    ensures offset <= Align(offset, size) < offset + size && Align(offset, size) % size == 0
  {
  }

  // -------------------------------------------------------------------- what is built

  /** A class's layout, given its base's. */
  ghost predicate LaidOut(h: Classes, fields: map<Id, seq<Field>>, layouts: map<Id, Layout>, c: Id) {
    c in h && c in fields && c in layouts && (h[c].base.Some? ==> h[c].base.value in layouts) &&
    layouts[c].size % 8 == 0 && layouts[c].size >= 8 &&
    Start(h, layouts, c) <= layouts[c].size &&
    Placed(fields[c], layouts[c].offsets, Start(h, layouts, c), layouts[c].size) &&
    layouts[c].references == Inherited(h, layouts, c) + Traced(fields[c], layouts[c].offsets)
  }

  /** Own fields come behind the class id or behind the base's instance. */
  function Start(h: Classes, layouts: map<Id, Layout>, c: Id): nat
    requires c in h && (h[c].base.Some? ==> h[c].base.value in layouts)
  {
    if h[c].base.Some? then layouts[h[c].base.value].size else 4
  }

  function Inherited(h: Classes, layouts: map<Id, Layout>, c: Id): seq<int>
    requires c in h && (h[c].base.Some? ==> h[c].base.value in layouts)
  {
    if h[c].base.Some? then layouts[h[c].base.value].references else []
  }

  class Binder {
    const h: Classes
    ghost const rank: map<Id, nat>
    const fields: map<Id, seq<Field>>
    var layouts: map<Id, Layout>
    var inProgress: set<Id>

    ghost predicate Valid()
      reads this
    {
      Proper(h, rank) && h.Keys <= fields.Keys && inProgress <= h.Keys && layouts.Keys !! inProgress &&
      forall c :: c in layouts ==> LaidOut(h, fields, layouts, c)
    }

    constructor (h: Classes, ghost rank: map<Id, nat>, fields: map<Id, seq<Field>>)
      requires Proper(h, rank) && h.Keys <= fields.Keys
      ensures Valid() && this.h == h && this.rank == rank && this.fields == fields && inProgress == {}
    {
      this.h, this.rank, this.fields := h, rank, fields;
      layouts, inProgress := map[], {};
    }

    /** Place a class's own fields one after the other, each on its alignment. */
    static method PlaceFields(fields: seq<Field>, start: nat) returns (offsets: seq<int>, end: nat, references: seq<int>)
      ensures start <= end && Placed(fields, offsets, start, end) && references == Traced(fields, offsets)
    {
      offsets, end, references := [], start, [];
      var k := 0;
      while k < |fields|
        invariant k <= |fields| && start <= end && Placed(fields[..k], offsets, start, end)
        invariant references == Traced(fields[..k], offsets)
      {
        var f := fields[k];
        ghost var placed, at, before := fields[..k], offsets, end;
        if f.isStatic {
          offsets := offsets + [-1];
        } else {
          AlignFacts(end, Size(f));
          var offset := Align(end, Size(f));
          offsets := offsets + [offset];
          end := offset + Size(f);
          if f.isReference && !f.isWeak { references := references + [offset]; }
        }
        PlacedMore(placed, at, start, before, f, offsets[k], end);
        assert fields[..k + 1] == placed + [f] && offsets == at + [offsets[k]];
        TracedMore(placed, at, f, offsets[k]);
        k := k + 1;
      }
      assert fields[..k] == fields;
    }

    /** The size of an instance; 8 for a class being laid out, which is its own base. */
    method CalculateLayout(c: Id) returns (size: nat)
      requires Valid() && c in h && forall x :: x in inProgress ==> x == c || rank[x] > rank[c]
      modifies this
      ensures Valid() && inProgress == old(inProgress)
      ensures forall x :: x in old(layouts) ==> x in layouts && layouts[x] == old(layouts)[x]
      ensures if c in inProgress then size == 8 && layouts == old(layouts) else c in layouts && size == layouts[c].size
      decreases rank[c]
    {
      hide WellFormed, Acyclic, Placed, LaidOut;
      if c in layouts { return layouts[c].size; }
      if c in inProgress { return 8; }
      inProgress := inProgress + {c};
      var offset, references := 4, [];
      if h[c].base.Some? {
        BaseFacts(h, rank, c);
        offset := CalculateLayout(h[c].base.value);
        references := layouts[h[c].base.value].references;
      }
      ghost var start := offset;
      var offsets, end, own := PlaceFields(fields[c], offset);
      inProgress := inProgress - {c};
      StartIsPositive(h, fields, layouts, c);
      size := InstanceSize(end);
      NewLayout(h, fields, layouts, c, start, end, size, offsets, references, own);
      layouts := layouts[c := Layout(offsets, size, references + own)];
    }
  }

  lemma PlacedMore(fields: seq<Field>, offsets: seq<int>, start: nat, end: nat, f: Field, offset: int, end1: nat)
    requires Placed(fields, offsets, start, end) && start <= end <= end1
    requires if f.isStatic then offset == -1 else end <= offset && offset % Size(f) == 0 && offset + Size(f) == end1
    ensures Placed(fields + [f], offsets + [offset], start, end1)
  {
    hide Size;
    var fs, os := fields + [f], offsets + [offset];
    forall k | 0 <= k < |fs| ensures PlacedAt(fs, os, start, end1, k) {
      forall j | 0 <= j < |fields| ensures PlacedAt(fields, offsets, start, end, j) && fs[j] == fields[j] && os[j] == offsets[j] {
      }
    }
  }

  lemma TracedMore(fields: seq<Field>, offsets: seq<int>, f: Field, offset: int)
    requires |fields| == |offsets|
    ensures Traced(fields + [f], offsets + [offset]) == Traced(fields, offsets) + (if IsTraced(f) then [offset] else [])
  {
    assert (fields + [f])[..|fields|] == fields && (offsets + [offset])[..|fields|] == offsets;
  }

  lemma PlacedWider(fields: seq<Field>, offsets: seq<int>, start: nat, end: nat, end1: nat)
    requires Placed(fields, offsets, start, end) && end <= end1
    ensures Placed(fields, offsets, start, end1)
  {
    hide Size;
    forall k | 0 <= k < |fields| ensures PlacedAt(fields, offsets, start, end1, k) { assert PlacedAt(fields, offsets, start, end, k); }
  }

  lemma {:induction false} TracedAreOffsets(fields: seq<Field>, offsets: seq<int>, start: nat, end: nat)
    requires Placed(fields, offsets, start, end)
    ensures forall o :: o in Traced(fields, offsets) ==> 0 <= o
    ensures forall o :: o in Traced(fields, offsets) <==> exists k :: 0 <= k < |fields| && IsTraced(fields[k]) && offsets[k] == o
    decreases |fields|
  {
    hide Size;
    if fields != [] {
      var n := |fields| - 1;
      forall k | 0 <= k < n ensures PlacedAt(fields[..n], offsets[..n], start, end, k) { assert PlacedAt(fields, offsets, start, end, k); }
      TracedAreOffsets(fields[..n], offsets[..n], start, end);
      assert PlacedAt(fields, offsets, start, end, n);
      forall o | o in Traced(fields, offsets) ensures exists k :: 0 <= k < |fields| && IsTraced(fields[k]) && offsets[k] == o {
        if o in Traced(fields[..n], offsets[..n]) {
          var k :| 0 <= k < n && IsTraced(fields[..n][k]) && offsets[..n][k] == o;
          assert IsTraced(fields[k]) && offsets[k] == o;
        }
      }
      forall o, k | 0 <= k < |fields| && IsTraced(fields[k]) && offsets[k] == o ensures o in Traced(fields, offsets) {
        if k < n { assert IsTraced(fields[..n][k]) && offsets[..n][k] == o; }
      }
    }
  }

  lemma NewLayout(h: Classes, fields: map<Id, seq<Field>>, layouts: map<Id, Layout>, c: Id, start: nat, end: nat, size: nat,
                  offsets: seq<int>, references: seq<int>, own: seq<int>)
    requires c in h && c in fields && c !in layouts && (h[c].base.Some? ==> h[c].base.value in layouts && h[c].base.value != c)
    requires forall x :: x in layouts ==> LaidOut(h, fields, layouts, x)
    requires start == Start(h, layouts, c) && references == Inherited(h, layouts, c)
    requires start <= end && Placed(fields[c], offsets, start, end) && own == Traced(fields[c], offsets) && size == InstanceSize(end)
    ensures var layouts1 := layouts[c := Layout(offsets, size, references + own)];
            forall x :: x in layouts1 ==> LaidOut(h, fields, layouts1, x)
  {
    hide Placed, Traced;
    var layouts1 := layouts[c := Layout(offsets, size, references + own)];
    StartIsPositive(h, fields, layouts, c);
    PlacedWider(fields[c], offsets, start, end, size);
    assert LaidOut(h, fields, layouts1, c);
    forall x | x in layouts ensures LaidOut(h, fields, layouts1, x) { assert LaidOut(h, fields, layouts, x); }
  }

  lemma StartIsPositive(h: Classes, fields: map<Id, seq<Field>>, layouts: map<Id, Layout>, c: Id)
    requires c in h && (h[c].base.Some? ==> h[c].base.value in layouts)
    requires forall x :: x in layouts ==> LaidOut(h, fields, layouts, x)
    ensures Start(h, layouts, c) >= 4
  {
    hide Placed, Traced;
  }

  // --------------------------------------------------------------------- over a chain

  ghost predicate ChainLaidOut(h: Classes, rank: map<Id, nat>, fields: map<Id, seq<Field>>, layouts: map<Id, Layout>, c: Id)
    requires Proper(h, rank)
  {
    forall x :: OnChain(h, rank, c, x) ==> LaidOut(h, fields, layouts, x)
  }

  predicate IsField(fields: map<Id, seq<Field>>, layouts: map<Id, Layout>, a: Id, k: nat) {
    a in fields && a in layouts && k < |fields[a]| == |layouts[a].offsets| && !fields[a][k].isStatic
  }

  lemma BaseChain(h: Classes, rank: map<Id, nat>, fields: map<Id, seq<Field>>, layouts: map<Id, Layout>, c: Id)
    requires Proper(h, rank) && c in h && ChainLaidOut(h, rank, fields, layouts, c)
    ensures LaidOut(h, fields, layouts, c)
    ensures h[c].base.Some? ==> h[c].base.value in h && rank[h[c].base.value] < rank[c] && ChainLaidOut(h, rank, fields, layouts, h[c].base.value)
  {
    hide WellFormed, Acyclic, LaidOut;
    assert OnChain(h, rank, c, c);
    if h[c].base.Some? {
      BaseFacts(h, rank, c);
      assert forall x :: OnChain(h, rank, h[c].base.value, x) ==> OnChain(h, rank, c, x);
    }
  }

  /** Fields of a class and its ancestors lie inside its instance, behind the class
      id, and on their alignment. */
  lemma {:induction false} FieldInside(h: Classes, rank: map<Id, nat>, fields: map<Id, seq<Field>>, layouts: map<Id, Layout>, c: Id, a: Id, k: nat)
    requires Proper(h, rank) && OnChain(h, rank, c, a) && ChainLaidOut(h, rank, fields, layouts, c) && IsField(fields, layouts, a, k)
    ensures c in layouts && layouts[c].size % 8 == 0
    ensures 4 <= layouts[a].offsets[k] && layouts[a].offsets[k] + Size(fields[a][k]) <= layouts[c].size
    ensures layouts[a].offsets[k] % Size(fields[a][k]) == 0
    decreases if c in rank then rank[c] else 0
  {
    hide WellFormed, Acyclic, Size, Traced;
    BaseChain(h, rank, fields, layouts, c);
    if c == a {
      assert PlacedAt(fields[c], layouts[c].offsets, Start(h, layouts, c), layouts[c].size, k);
      if h[c].base.Some? { BaseChain(h, rank, fields, layouts, h[c].base.value); }
    } else {
      FieldInside(h, rank, fields, layouts, h[c].base.value, a, k);
    }
  }

  /** No two fields of an instance overlap. */
  lemma {:induction false} FieldsApart(h: Classes, rank: map<Id, nat>, fields: map<Id, seq<Field>>, layouts: map<Id, Layout>, c: Id, a: Id, j: nat, b: Id, k: nat)
    requires Proper(h, rank) && OnChain(h, rank, c, a) && OnChain(h, rank, c, b) && ChainLaidOut(h, rank, fields, layouts, c)
    requires IsField(fields, layouts, a, j) && IsField(fields, layouts, b, k) && (a != b || j != k)
    ensures layouts[a].offsets[j] + Size(fields[a][j]) <= layouts[b].offsets[k] || layouts[b].offsets[k] + Size(fields[b][k]) <= layouts[a].offsets[j]
    decreases if c in rank then rank[c] else 0
  {
    hide WellFormed, Acyclic, Size, Traced;
    BaseChain(h, rank, fields, layouts, c);
    if c == a || c == b {
      if c == a { assert PlacedAt(fields[a], layouts[a].offsets, Start(h, layouts, a), layouts[a].size, j); }
      if c == b { assert PlacedAt(fields[b], layouts[b].offsets, Start(h, layouts, b), layouts[b].size, k); }
      if c != a { FieldInside(h, rank, fields, layouts, h[c].base.value, a, j); }
      if c != b { FieldInside(h, rank, fields, layouts, h[c].base.value, b, k); }
    } else {
      FieldsApart(h, rank, fields, layouts, h[c].base.value, a, j, b, k);
    }
  }

  ghost predicate IsTracedOffset(h: Classes, rank: map<Id, nat>, fields: map<Id, seq<Field>>, layouts: map<Id, Layout>, c: Id, o: int)
    requires Proper(h, rank)
  {
    exists a: Id, k: nat :: OnChain(h, rank, c, a) && IsField(fields, layouts, a, k) && IsTraced(fields[a][k]) && layouts[a].offsets[k] == o
  }

  /** The reference offsets are those of the strong reference fields of the chain. */
  lemma {:induction false} ReferencesExact(h: Classes, rank: map<Id, nat>, fields: map<Id, seq<Field>>, layouts: map<Id, Layout>, c: Id, o: int)
    requires Proper(h, rank) && c in h && ChainLaidOut(h, rank, fields, layouts, c)
    ensures c in layouts && (o in layouts[c].references <==> IsTracedOffset(h, rank, fields, layouts, c, o))
    decreases rank[c]
  {
    hide WellFormed, Acyclic, Size, Traced, PlacedAt;
    BaseChain(h, rank, fields, layouts, c);
    TracedAreOffsets(fields[c], layouts[c].offsets, Start(h, layouts, c), layouts[c].size);
    assert OnChain(h, rank, c, c);
    if h[c].base.Some? { ReferencesExact(h, rank, fields, layouts, h[c].base.value, o); }
    if o in layouts[c].references {
      if o in Traced(fields[c], layouts[c].offsets) {
        var k: nat :| 0 <= k < |fields[c]| && IsTraced(fields[c][k]) && layouts[c].offsets[k] == o;
        assert IsField(fields, layouts, c, k);
      } else {
        var a: Id, k: nat :| OnChain(h, rank, h[c].base.value, a) && IsField(fields, layouts, a, k) && IsTraced(fields[a][k]) && layouts[a].offsets[k] == o;
        assert OnChain(h, rank, c, a);
      }
    }
    if IsTracedOffset(h, rank, fields, layouts, c, o) {
      var a: Id, k: nat :| OnChain(h, rank, c, a) && IsField(fields, layouts, a, k) && IsTraced(fields[a][k]) && layouts[a].offsets[k] == o;
      if a != c {
        assert IsTracedOffset(h, rank, fields, layouts, h[c].base.value, o);
      } else {
        assert IsTraced(fields[c][k]) && layouts[c].offsets[k] == o;
      }
    }
  }
}
