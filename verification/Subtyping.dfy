/** The compiler's assignability test between class types, the VM's run-time type
    test, and their agreement. */
module Subtyping {
  import opened Options
  import opened Hierarchy
  import opened ClassTables

  /** The edges that the search for an interface follows. */
  predicate InterfaceEdge(h: Classes, c: Id, d: Id) {
    c in h && (d in h[c].interfaces || (h[c].isInterface && h[c].base == Some(d)))
  }

  /** Nothing left to search behind c: its interfaces are visited and none is t. */
  ghost predicate Exhausted(h: Classes, c: Id, t: Id, visited: set<Id>) {
    forall d :: InterfaceEdge(h, c, d) ==> d != t && d in visited
  }

  /** Only interfaces are marked, and never the one sought. */
  predicate Searched(h: Classes, visited: set<Id>, t: Id) {
    t !in visited && forall x :: x in visited ==> x in h && h[x].isInterface
  }

  /** Depth-first search with a visited set. */
  method CheckInterface(h: Classes, ghost rank: map<Id, nat>, current: Id, t: Id, visited: set<Id>)
    returns (found: bool, after: set<Id>)
    requires Proper(h, rank) && current in h && Searched(h, visited, t)
    ensures visited <= after && Searched(h, after, t)
    ensures found ==> t != current && t in h && h[t].isInterface && Below(h, rank, current, t)
    ensures !found ==> Exhausted(h, current, t, after) && forall x :: x in after ==> x in visited || Exhausted(h, x, t, after)
    decreases rank[current], 1
  {
    hide WellFormed, Acyclic, Below;
    after := visited;
    var k := 0;
    while k < |h[current].interfaces|
      invariant k <= |h[current].interfaces| && visited <= after && Searched(h, after, t)
      invariant forall i :: 0 <= i < k ==> h[current].interfaces[i] != t && h[current].interfaces[i] in after
      invariant forall x :: x in after ==> x in visited || Exhausted(h, x, t, after)
    {
      InterfaceFacts(h, rank, current, k);
      found, after := Follow(h, rank, current, h[current].interfaces[k], t, after);
      if found { return true, after; }
      k := k + 1;
    }
    if h[current].isInterface && h[current].base.Some? {
      BaseFacts(h, rank, current);
      found, after := Follow(h, rank, current, h[current].base.value, t, after);
      if found { return true, after; }
    }
    found := false;
  }

  method Follow(h: Classes, ghost rank: map<Id, nat>, current: Id, next: Id, t: Id, visited: set<Id>)
    returns (found: bool, after: set<Id>)
    requires Proper(h, rank) && current in h && IsParent(h, current, next) && next in h && h[next].isInterface
    requires rank[next] < rank[current] && Searched(h, visited, t)
    ensures visited <= after && Searched(h, after, t)
    ensures found ==> t != current && t in h && h[t].isInterface && Below(h, rank, current, t)
    ensures !found ==> next != t && next in after && forall x :: x in after ==> x in visited || Exhausted(h, x, t, after)
    decreases rank[current], 0
  {
    hide WellFormed, Acyclic, Below;
    BelowSelf(h, rank, next);
    if next == t {
      BelowParent(h, rank, current, next, t);
      return true, visited;
    }
    found, after := false, visited;
    if next !in visited {
      found, after := CheckInterface(h, rank, next, t, visited + {next});
      if found {
        BelowParent(h, rank, current, next, t);
        NotSelf(h, rank, current, next, t);
      }
    }
  }

  lemma {:induction false} NotSelf(h: Classes, rank: map<Id, nat>, c: Id, d: Id, t: Id)
    requires Proper(h, rank) && c in h && d in h && rank[d] < rank[c] && Below(h, rank, d, t)
    ensures t in h && rank[t] < rank[c]
    decreases rank[d]
  {
    if d != t {
      var e :| IsParent(h, d, e) && Below(h, rank, e, t);
      NotSelf(h, rank, c, e, t);
    }
  }

  /** Whether c or a class it extends has t among its interfaces, transitively. */
  method ClassImplementsInterface(h: Classes, ghost rank: map<Id, nat>, c: Id, t: Id) returns (r: bool)
    requires Proper(h, rank) && c in h
    ensures r <==> t != c && t in h && h[t].isInterface && Below(h, rank, c, t)
  {
    hide WellFormed, Acyclic, Below;
    var visited: set<Id> := {};
    var curr := c;
    ghost var chain: set<Id> := {};
    BelowSelf(h, rank, c);
    while true
      invariant curr in h && Below(h, rank, c, curr) && Searched(h, visited, t) && rank[curr] <= rank[c]
      invariant forall x :: x in visited ==> Exhausted(h, x, t, visited)
      invariant Passed(h, chain, visited, c, curr, t)
      decreases rank[curr]
    {
      var found;
      found, visited := CheckInterface(h, rank, curr, t, visited);
      if found {
        BelowTransitive(h, rank, c, curr, t);
        NotBelowItself(h, rank, c, curr, t);
        return true;
      }
      chain := chain + {curr};
      if h[curr].base.None? {
        NothingFound(h, rank, c, chain, visited, t);
        return false;
      }
      BaseFacts(h, rank, curr);
      BelowSelf(h, rank, h[curr].base.value);
      BelowParent(h, rank, curr, h[curr].base.value, h[curr].base.value);
      BelowTransitive(h, rank, c, curr, h[curr].base.value);
      curr := h[curr].base.value;
    }
  }

  /** The classes passed so far have been searched, and curr is next. */
  ghost predicate Passed(h: Classes, chain: set<Id>, visited: set<Id>, c: Id, curr: Id, t: Id) {
    chain <= h.Keys && (if chain == {} then curr == c else c in chain) &&
    (forall x :: x in chain ==> Exhausted(h, x, t, visited) && (h[x].base.Some? ==> h[x].base.value in chain + {curr})) &&
    (forall x :: x in chain + {curr} && x in h && t in h && h[t].isInterface ==> h[x].isInterface == h[c].isInterface && (x == t ==> x == c)) &&
    c in h
  }

  lemma NotBelowItself(h: Classes, rank: map<Id, nat>, c: Id, d: Id, t: Id)
    requires Proper(h, rank) && c in h && d in h && rank[d] <= rank[c] && Below(h, rank, d, t) && t != d
    ensures t != c
  {
    var e :| IsParent(h, d, e) && Below(h, rank, e, t);
    NotSelf(h, rank, c, e, t);
  }

  lemma NothingFound(h: Classes, rank: map<Id, nat>, c: Id, chain: set<Id>, visited: set<Id>, t: Id)
    requires Proper(h, rank) && c in h && c in chain && chain <= h.Keys && Searched(h, visited, t)
    requires forall x :: x in visited + chain ==> Exhausted(h, x, t, visited)
    requires forall x :: x in chain && h[x].base.Some? ==> h[x].base.value in chain
    requires t in chain && t in h && h[t].isInterface ==> t == c
    ensures !(t != c && t in h && h[t].isInterface && Below(h, rank, c, t))
  {
    hide Acyclic, Below;
    if t in h && Below(h, rank, c, t) {
      forall x, y | x in visited + chain && IsParent(h, x, y) ensures y in visited + chain {
        assert WellFormedClass(h, x) && Exhausted(h, x, t, visited);
        assert y in h[x].interfaces ==> InterfaceEdge(h, x, y);
        assert h[x].isInterface ==> InterfaceEdge(h, x, y);
      }
      ClosedContains(h, rank, visited + chain, c, t);
    }
  }

  /** Assignability of class types, as the compiler decides it. */
  method IsAssignable(h: Classes, ghost rank: map<Id, nat>, target: Id, source: Id) returns (r: bool)
    requires Proper(h, rank) && source in h
    ensures r <==> Below(h, rank, source, target)
  {
    hide WellFormed, Acyclic, Below;
    var src := source;
    while true
      invariant src in h && (Below(h, rank, source, target) <==> Below(h, rank, src, target))
      decreases rank[src]
    {
      BelowSelf(h, rank, src);
      if src == target { return true; }
      var implements := ClassImplementsInterface(h, rank, src, target);
      if implements { return true; }
      OnlyThroughBase(h, rank, src, target);
      if h[src].base.None? { return false; }
      BaseFacts(h, rank, src);
      src := h[src].base.value;
    }
  }

  lemma OnlyThroughBase(h: Classes, rank: map<Id, nat>, c: Id, t: Id)
    requires Proper(h, rank) && c in h && c != t && !(t in h && h[t].isInterface && Below(h, rank, c, t))
    ensures h[c].base.Some? ==> h[c].base.value in h
    ensures Below(h, rank, c, t) <==> h[c].base.Some? && Below(h, rank, h[c].base.value, t)
  {
    assert WellFormedClass(h, c);
    forall d: Id | IsParent(h, c, d) && Below(h, rank, d, t) ensures h[c].base == Some(d) {
      if d in h[c].interfaces { AboveInterface(h, rank, d, t); }
    }
  }

  /** The walk of INSTANCEOF and CAST_CHECK over the ids of an object's class and its
      bases and their interface tables. */
  method InstanceOf(h: Classes, ghost rank: map<Id, nat>, bases: map<Id, Option<Id>>, itables: map<Id, map<Id, seq<int>>>, c: Id, target: Id)
    returns (r: bool)
    requires Proper(h, rank) && c in h && !h[c].isInterface && TablesDescribe(h, rank, bases, itables)
    ensures r <==> Below(h, rank, c, target)
  {
    hide WellFormed, Acyclic, Below;
    var current := Some(c);
    while current.Some?
      invariant current.Some? ==> current.value in h && !h[current.value].isInterface
      invariant current.Some? ==> (Below(h, rank, c, target) <==> Below(h, rank, current.value, target))
      invariant current.None? ==> !Below(h, rank, c, target)
      decreases if current.Some? then rank[current.value] + 1 else 0
    {
      var id := current.value;
      BelowSelf(h, rank, id);
      if id == target || (id in itables && target in itables[id]) {
        return true;
      }
      NotInTables(h, rank, bases, itables, id, target);
      OnlyThroughBase(h, rank, id, target);
      if h[id].base.Some? { BaseFacts(h, rank, id); }
      current := if id in bases then bases[id] else None;
    }
    r := false;
  }

  /** What the boot sequence defines: every class's base, and a table for each of the
      interfaces it is below. */
  ghost predicate TablesDescribe(h: Classes, rank: map<Id, nat>, bases: map<Id, Option<Id>>, itables: map<Id, map<Id, seq<int>>>)
    requires Proper(h, rank)
  {
    forall c :: c in h && !h[c].isInterface ==> DescribedBy(h, rank, c, bases, itables)
  }

  ghost predicate DescribedBy(h: Classes, rank: map<Id, nat>, c: Id, bases: map<Id, Option<Id>>, itables: map<Id, map<Id, seq<int>>>)
    requires Proper(h, rank) && c in h
  {
    (if c in bases then bases[c] else None) == h[c].base &&
    forall i :: (c in itables && i in itables[c]) <==> (i in h && h[i].isInterface && Below(h, rank, c, i))
  }

  /** The binder's tables are such. */
  lemma BuiltTablesDescribe(h: Classes, rank: map<Id, nat>, t: Tables, errors: seq<Error>, bases: map<Id, Option<Id>>)
    requires Proper(h, rank) && forall c :: c in h ==> Built(h, rank, t, errors, c)
    requires forall c :: c in h ==> (if c in bases then bases[c] else None) == h[c].base
    ensures TablesDescribe(h, rank, bases, t.itables)
  {
    hide WellFormed, Acyclic, Below, Dispatches, OverridesPlaced, KeepsSlots, BuiltInterface, Composed;
    forall c | c in h && !h[c].isInterface ensures DescribedBy(h, rank, c, bases, t.itables) {
      assert Built(h, rank, t, errors, c);
      assert forall i :: i in t.itables[c] <==> IsInterfaceOf(h, rank, c, i);
    }
  }

  lemma NotInTables(h: Classes, rank: map<Id, nat>, bases: map<Id, Option<Id>>, itables: map<Id, map<Id, seq<int>>>, c: Id, t: Id)
    requires Proper(h, rank) && c in h && !h[c].isInterface && TablesDescribe(h, rank, bases, itables)
    ensures (c in itables && t in itables[c]) <==> (t in h && h[t].isInterface && Below(h, rank, c, t))
    ensures (if c in bases then bases[c] else None) == h[c].base
  {
    hide WellFormed, Acyclic, Below;
    assert DescribedBy(h, rank, c, bases, itables);
  }
}
