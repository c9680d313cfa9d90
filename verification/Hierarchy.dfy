/** Classes and interfaces after symbol resolution, and the subtype relation. */
module Hierarchy {
  import opened Options

  type Id = nat

  /** Parameter types by their printed form. */
  datatype Signature = Signature(name: string, parameters: seq<string>)

  datatype Method = Method(owner: Id, index: nat, signature: Signature, result: string,
                           markedAbstract: bool, isVirtual: bool, isOverride: bool)

  datatype Class = Class(isInterface: bool, isAbstract: bool, base: Option<Id>, interfaces: seq<Id>, methods: seq<Method>)

  type Classes = map<Id, Class>

  predicate IsParent(h: Classes, c: Id, d: Id) {
    c in h && (h[c].base == Some(d) || d in h[c].interfaces)
  }

  /** Classes extend classes, interfaces extend interfaces, only interfaces are
      implemented, and a class declares a signature once. */
  predicate WellFormed(h: Classes) {
    forall c :: c in h ==> WellFormedClass(h, c)
  }

  predicate WellFormedClass(h: Classes, c: Id)
    requires c in h
  {
    (h[c].base.Some? ==> h[c].base.value in h && h[h[c].base.value].isInterface == h[c].isInterface) &&
    (forall d :: d in h[c].interfaces ==> d in h && h[d].isInterface) &&
    (forall k :: 0 <= k < |h[c].methods| ==> h[c].methods[k].owner == c && h[c].methods[k].index == k) &&
    (forall j, k :: 0 <= j < k < |h[c].methods| ==> h[c].methods[j].signature != h[c].methods[k].signature)
  }

  /** No class is its own ancestor: parents rank lower. */
  ghost predicate Acyclic(h: Classes, rank: map<Id, nat>) {
    forall c, d :: c in h && c in rank && IsParent(h, c, d) ==> d in h && d in rank && rank[d] < rank[c]
  }

  ghost predicate Proper(h: Classes, rank: map<Id, nat>) {
    h.Keys <= rank.Keys && WellFormed(h) && Acyclic(h, rank)
  }

  lemma BaseFacts(h: Classes, rank: map<Id, nat>, c: Id)
    requires Proper(h, rank) && c in h && h[c].base.Some?
    ensures h[c].base.value in h && rank[h[c].base.value] < rank[c] && IsParent(h, c, h[c].base.value)
    ensures h[h[c].base.value].isInterface == h[c].isInterface
  {
    assert WellFormedClass(h, c) && IsParent(h, c, h[c].base.value);
  }

  lemma InterfaceFacts(h: Classes, rank: map<Id, nat>, c: Id, k: nat)
    requires Proper(h, rank) && c in h && k < |h[c].interfaces|
    ensures h[c].interfaces[k] in h && rank[h[c].interfaces[k]] < rank[c] && IsParent(h, c, h[c].interfaces[k])
    ensures h[h[c].interfaces[k]].isInterface
  {
    assert WellFormedClass(h, c) && IsParent(h, c, h[c].interfaces[k]);
  }

  /** c is t, or some parent of c is below t. */
  ghost predicate Below(h: Classes, rank: map<Id, nat>, c: Id, t: Id)
    requires Proper(h, rank) && c in h
    decreases rank[c]
  {
    c == t || exists d :: IsParent(h, c, d) && Below(h, rank, d, t)
  }

  lemma BelowSelf(h: Classes, rank: map<Id, nat>, c: Id)
    requires Proper(h, rank) && c in h
    ensures Below(h, rank, c, c)
  {
  }

  lemma {:induction false} BelowTransitive(h: Classes, rank: map<Id, nat>, c: Id, d: Id, t: Id)
    requires Proper(h, rank) && c in h && d in h && Below(h, rank, c, d) && Below(h, rank, d, t)
    ensures Below(h, rank, c, t)
    decreases rank[c]
  {
    if c != d {
      var e :| IsParent(h, c, e) && Below(h, rank, e, d);
      BelowTransitive(h, rank, e, d, t);
    }
  }

  /** What is below a class or interface, through one of its parents. */
  lemma BelowParent(h: Classes, rank: map<Id, nat>, c: Id, d: Id, t: Id)
    requires Proper(h, rank) && c in h && IsParent(h, c, d) && d in h && Below(h, rank, d, t)
    ensures Below(h, rank, c, t)
  {
  }

  /** A set that contains the parents of its members contains all that they are below. */
  lemma {:induction false} ClosedContains(h: Classes, rank: map<Id, nat>, s: set<Id>, c: Id, t: Id)
    requires Proper(h, rank) && c in h && c in s && Below(h, rank, c, t)
    requires forall x, y :: x in s && IsParent(h, x, y) ==> y in s
    ensures t in s
    decreases rank[c]
  {
    if c != t {
      var d :| IsParent(h, c, d) && Below(h, rank, d, t);
      ClosedContains(h, rank, s, d, t);
    }
  }

  /** Interfaces are below interfaces only. */
  lemma {:induction false} AboveInterface(h: Classes, rank: map<Id, nat>, c: Id, t: Id)
    requires Proper(h, rank) && c in h && h[c].isInterface && Below(h, rank, c, t)
    ensures t in h && h[t].isInterface
    decreases rank[c]
  {
    if c != t {
      var d :| IsParent(h, c, d) && Below(h, rank, d, t);
      assert WellFormedClass(h, c);
      AboveInterface(h, rank, d, t);
    }
  }
}
