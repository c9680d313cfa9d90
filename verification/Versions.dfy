/** Version precedence, and the choice of one version for each project name. */
module Versions {
  import opened DependencyGraph

  datatype SemVer = SemVer(major: int, minor: int, patch: int)

  /** Core precedence of item 11 of Semantic Versioning 2.0.0. */
  predicate Older(a: SemVer, b: SemVer) {
    a.major < b.major || (a.major == b.major && (a.minor < b.minor || (a.minor == b.minor && a.patch < b.patch)))
  }

  lemma OlderIsStrictOrder(a: SemVer, b: SemVer, c: SemVer)
    ensures !Older(a, a) && (Older(a, b) || Older(b, a) <==> a != b) && !(Older(a, b) && Older(b, a))
    ensures Older(a, b) && Older(b, c) ==> Older(a, c)
    ensures a.major < b.major ==> Older(a, b)
    ensures a.major == b.major && a.minor < b.minor ==> Older(a, b)
    ensures a.major == b.major && a.minor == b.minor && a.patch < b.patch ==> Older(a, b)
  {
  }

  datatype Candidate = Candidate(name: string, version: SemVer, path: Path, profile: string, explicitProfile: bool)

  function Paths(ds: seq<Candidate>): (r: seq<Path>)
    ensures |r| == |ds| && forall i :: 0 <= i < |ds| ==> r[i] == ds[i].path
  {
    seq(|ds|, i requires 0 <= i < |ds| => ds[i].path)
  }

  /** The names in order of first occurrence. */
  function NameOrder(ds: seq<Candidate>): seq<string> {
    if ds == [] then []
    else
      var n := |ds| - 1;
      var names := NameOrder(ds[..n]);
      if ds[n].name in names then names else names + [ds[n].name]
  }

  lemma {:induction false} NameOrderFacts(ds: seq<Candidate>)
    ensures Distinct(NameOrder(ds))
    ensures forall s :: s in NameOrder(ds) <==> exists i :: 0 <= i < |ds| && ds[i].name == s
  {
    if ds != [] {
      var n := |ds| - 1;
      NameOrderFacts(ds[..n]);
      forall s | s in NameOrder(ds) ensures exists i :: 0 <= i < |ds| && ds[i].name == s {
        if s in NameOrder(ds[..n]) {
          var i :| 0 <= i < n && ds[..n][i].name == s;
          assert ds[i].name == s;
        } else {
          assert ds[n].name == s;
        }
      }
      forall i | 0 <= i < |ds| ensures ds[i].name in NameOrder(ds) {
        if i < n { assert ds[..n][i].name == ds[i].name; }
      }
    }
  }

  predicate NamedBy(ds: seq<Candidate>, name: string, n: nat) {
    exists i :: 0 <= i < n && i < |ds| && ds[i].name == name
  }

  /** Of two names, the one listed first occurs where the other has not occurred yet. */
  lemma {:induction false} NamesInOrder(ds: seq<Candidate>, i: nat, j: nat)
    requires i < j < |NameOrder(ds)|
    ensures exists n: nat :: n <= |ds| && NamedBy(ds, NameOrder(ds)[i], n) && !NamedBy(ds, NameOrder(ds)[j], n)
  {
    var m := |ds| - 1;
    var names := NameOrder(ds[..m]);
    NameOrderFacts(ds[..m]);
    if j < |names| {
      NamesInOrder(ds[..m], i, j);
      var n: nat :| n <= m && NamedBy(ds[..m], names[i], n) && !NamedBy(ds[..m], names[j], n);
      SameUpTo(ds, m, names[i], n);
      SameUpTo(ds, m, names[j], n);
      assert NameOrder(ds)[i] == names[i] && NameOrder(ds)[j] == names[j];
      assert NamedBy(ds, NameOrder(ds)[i], n) && !NamedBy(ds, NameOrder(ds)[j], n);
    } else {
      assert names[i] in names;
      SameUpTo(ds, m, names[i], m);
      SameUpTo(ds, m, ds[m].name, m);
      assert NamedBy(ds, NameOrder(ds)[i], m) && !NamedBy(ds, NameOrder(ds)[j], m);
    }
  }

  lemma SameUpTo(ds: seq<Candidate>, m: nat, name: string, n: nat)
    requires n <= m <= |ds|
    ensures NamedBy(ds, name, n) <==> NamedBy(ds[..m], name, n)
  {
    assert forall i :: 0 <= i < m ==> ds[..m][i] == ds[i];
  }

  function NamedAs(ds: seq<Candidate>, name: string): (r: seq<Candidate>)
    ensures forall c :: c in r <==> c in ds && c.name == name
  {
    if ds == [] then [] else (if ds[0].name == name then [ds[0]] else []) + NamedAs(ds[1..], name)
  }

  /** No two candidates of one name differ in the major version. */
  predicate Compatible(ds: seq<Candidate>) {
    forall c, d :: c in ds && d in ds && c.name == d.name ==> c.version.major == d.version.major
  }

  /** A candidate of the name with none newer, up to the profile it is built with. */
  ghost predicate IsNewest(ds: seq<Candidate>, name: string, s: Candidate) {
    s.name == name &&
    (exists c :: c in ds && c.name == name && c.version == s.version && c.path == s.path) &&
    forall d :: d in ds && d.name == name ==> !Older(s.version, d.version)
  }

  predicate AsksFor(c: Candidate, name: string) {
    c.name == name && c.explicitProfile
  }

  /** The profile that a newest candidate which asks for one asks for; without any,
      the candidate's own. */
  ghost predicate HasProfile(ds: seq<Candidate>, name: string, s: Candidate) {
    if exists c :: c in ds && AsksFor(c, name) then
      s.explicitProfile &&
      exists c :: c in ds && AsksFor(c, name) && s.profile == c.profile && forall d :: d in ds && AsksFor(d, name) ==> !Older(c.version, d.version)
    else s in ds
  }

  predicate UniqueNamed(ds: seq<Candidate>) {
    forall i, j :: 0 <= i < j < |ds| ==> ds[i].name != ds[j].name
  }

  /** One newest candidate for each name, in order of first occurrence. */
  ghost predicate Selection(ds: seq<Candidate>, names: seq<string>, selected: seq<Candidate>) {
    |selected| == |names| && forall i :: 0 <= i < |names| ==> IsNewest(ds, names[i], selected[i]) && HasProfile(ds, names[i], selected[i])
  }

  predicate SortedByVersion(cs: seq<Candidate>) {
    forall i, j :: 0 <= i < j < |cs| ==> !Older(cs[j].version, cs[i].version)
  }

  method SortByVersion(cs: seq<Candidate>) returns (s: seq<Candidate>)
    ensures SortedByVersion(s) && multiset(s) == multiset(cs)
  {
    s := [];
    var k := 0;
    while k < |cs|
      invariant k <= |cs| && SortedByVersion(s) && multiset(s) == multiset(cs[..k])
    {
      var i := |s|;
      while i > 0 && Older(cs[k].version, s[i - 1].version)
        invariant 0 <= i <= |s| && forall j :: i <= j < |s| ==> Older(cs[k].version, s[j].version)
      {
        i := i - 1;
      }
      InsertedSorted(s, i, cs[k]);
      assert cs[..k + 1] == cs[..k] + [cs[k]];
      s := s[..i] + [cs[k]] + s[i..];
      k := k + 1;
    }
    assert cs[..k] == cs;
  }

  lemma InsertedSorted(s: seq<Candidate>, i: nat, c: Candidate)
    requires SortedByVersion(s) && i <= |s|
    requires i > 0 ==> !Older(c.version, s[i - 1].version)
    requires forall j :: i <= j < |s| ==> Older(c.version, s[j].version)
    ensures SortedByVersion(s[..i] + [c] + s[i..]) && multiset(s[..i] + [c] + s[i..]) == multiset(s) + multiset{c}
  {
    assert s == s[..i] + s[i..];
    var t := s[..i] + [c] + s[i..];
    forall j, k | 0 <= j < k < |t| ensures !Older(t[k].version, t[j].version) {
      if k == i && j < i - 1 { assert !Older(s[i - 1].version, s[j].version); }
    }
  }

  /** One candidate for a name, the newest; false when major versions differ.  A
      profile asked for explicitly is kept, the last one in version order. */
  method SelectOne(candidates: seq<Candidate>) returns (ok: bool, s: Candidate)
    requires candidates != [] && forall c :: c in candidates ==> c.name == candidates[0].name
    ensures ok <==> Compatible(candidates)
    ensures ok ==> IsNewest(candidates, candidates[0].name, s) && HasProfile(candidates, candidates[0].name, s)
    ensures |candidates| == 1 ==> s == candidates[0]
  {
    if |candidates| == 1 {
      OwnProfile(candidates);
      return true, candidates[0];
    }
    var cs := SortByVersion(candidates);
    SameMembers(cs, candidates);
    s := cs[|cs| - 1];
    assert s in cs;
    var i := 0;
    while i < |cs|
      invariant i <= |cs| && forall a, b :: 0 <= a < i && a < b < |cs| ==> cs[a].version.major == cs[b].version.major
    {
      var j := i + 1;
      while j < |cs|
        invariant i < j <= |cs| && forall b :: i < b < j ==> cs[i].version.major == cs[b].version.major
      {
        if cs[i].version.major != cs[j].version.major {
          assert cs[i] in cs && cs[j] in cs;
          return false, s;
        }
        j := j + 1;
      }
      i := i + 1;
    }
    AllMajorsSame(cs, candidates);
    NewestIsLast(cs, candidates);
    ghost var asks := -1;
    var k := 0;
    while k < |cs|
      invariant -1 <= asks < k <= |cs| && (forall i :: asks < i < k ==> !cs[i].explicitProfile)
      invariant asks >= 0 ==> cs[asks].explicitProfile
      invariant s == if asks < 0 then cs[|cs| - 1] else cs[|cs| - 1].(profile := cs[asks].profile, explicitProfile := true)
    {
      if cs[k].explicitProfile {
        s := s.(profile := cs[k].profile, explicitProfile := true);
        asks := k;
      }
      k := k + 1;
    }
    ProfileIsLast(cs, candidates, asks, s);
    ok := true;
  }

  lemma SameMembers(a: seq<Candidate>, b: seq<Candidate>)
    requires multiset(a) == multiset(b)
    ensures |a| == |b| && forall c :: c in a <==> c in b
  {
    assert |multiset(a)| == |a| && |multiset(b)| == |b|;
    forall c ensures c in a <==> c in b { assert c in multiset(a) <==> c in multiset(b); }
  }

  lemma AllMajorsSame(cs: seq<Candidate>, candidates: seq<Candidate>)
    requires forall a, b :: 0 <= a < |cs| && a < b < |cs| ==> cs[a].version.major == cs[b].version.major
    requires forall c :: c in cs <==> c in candidates
    ensures Compatible(candidates)
  {
    forall c, d | c in candidates && d in candidates ensures c.version.major == d.version.major {
      var i :| 0 <= i < |cs| && cs[i] == c;
      var j :| 0 <= j < |cs| && cs[j] == d;
    }
  }

  lemma OwnProfile(candidates: seq<Candidate>)
    requires |candidates| == 1
    ensures HasProfile(candidates, candidates[0].name, candidates[0])
  {
    var c := candidates[0];
    assert c in candidates && !Older(c.version, c.version);
  }

  lemma ProfileIsLast(cs: seq<Candidate>, candidates: seq<Candidate>, asks: int, s: Candidate)
    requires SortedByVersion(cs) && (forall c :: c in cs <==> c in candidates) && candidates != [] && cs != [] && -1 <= asks < |cs|
    requires forall c :: c in candidates ==> c.name == candidates[0].name
    requires (asks >= 0 ==> cs[asks].explicitProfile) && forall i :: asks < i < |cs| ==> !cs[i].explicitProfile
    requires s == if asks < 0 then cs[|cs| - 1] else cs[|cs| - 1].(profile := cs[asks].profile, explicitProfile := true)
    ensures HasProfile(candidates, candidates[0].name, s)
  {
    var name := candidates[0].name;
    if asks < 0 {
      forall c | c in candidates ensures !AsksFor(c, name) {
        assert c in cs;
      }
      assert cs[|cs| - 1] in cs;
    } else {
      assert cs[asks] in cs && AsksFor(cs[asks], name);
      forall d | d in candidates && AsksFor(d, name) ensures !Older(cs[asks].version, d.version) {
        var j :| 0 <= j < |cs| && cs[j] == d;
        assert !Older(cs[asks].version, cs[asks].version);
      }
    }
  }

  lemma NewestIsLast(cs: seq<Candidate>, candidates: seq<Candidate>)
    requires cs != [] && SortedByVersion(cs) && (forall c :: c in cs <==> c in candidates) && candidates != []
    requires forall c :: c in candidates ==> c.name == candidates[0].name
    ensures IsNewest(candidates, candidates[0].name, cs[|cs| - 1])
  {
    assert cs[|cs| - 1] in cs;
    forall d | d in candidates ensures !Older(cs[|cs| - 1].version, d.version) {
      var j :| 0 <= j < |cs| && cs[j] == d;
    }
  }

  /** The version selection of the dependency resolver. */
  method SelectVersions(ds: seq<Candidate>) returns (ok: bool, selected: seq<Candidate>)
    ensures ok <==> Compatible(ds)
    ensures ok ==> Selection(ds, NameOrder(ds), selected)
    ensures ok && UniqueNamed(ds) ==> selected == ds
  {
    hide NamedAs, NameOrder, Compatible, UniqueNamed, IsNewest, HasProfile;
    var names := NameOrder(ds);
    selected := [];
    ghost var unique := UniqueNamed(ds);
    if unique { UniqueNames(ds); }
    var k := 0;
    while k < |names|
      invariant k <= |names| && Selection(ds, names[..k], selected)
      invariant forall j :: 0 <= j < k ==> Compatible(NamedAs(ds, names[j]))
      invariant unique ==> selected == ds[..k]
    {
      var group := NamedAs(ds, names[k]);
      GroupExists(ds, names, k);
      var s;
      ok, s := SelectOne(group);
      if !ok {
        GroupConflict(ds, names[k]);
        return;
      }
      GroupNewest(ds, names[k], s);
      if unique {
        UniqueGroup(ds, k);
        assert ds[..k + 1] == ds[..k] + [ds[k]];
      }
      selected := selected + [s];
      k := k + 1;
    }
    assert names[..k] == names;
    AllCompatible(ds, names);
    ok := true;
  }

  lemma GroupExists(ds: seq<Candidate>, names: seq<string>, k: nat)
    requires names == NameOrder(ds) && k < |names|
    ensures NamedAs(ds, names[k]) != [] && forall c :: c in NamedAs(ds, names[k]) ==> c.name == names[k]
  {
    NameOrderFacts(ds);
    assert names[k] in names;
    var i :| 0 <= i < |ds| && ds[i].name == names[k];
    assert ds[i] in ds;
    assert ds[i] in NamedAs(ds, names[k]);
  }

  lemma GroupConflict(ds: seq<Candidate>, name: string)
    requires !Compatible(NamedAs(ds, name))
    ensures !Compatible(ds)
  {
    var c, d :| c in NamedAs(ds, name) && d in NamedAs(ds, name) && c.name == d.name && c.version.major != d.version.major;
    assert c in ds && d in ds;
  }

  lemma GroupNewest(ds: seq<Candidate>, name: string, s: Candidate)
    requires IsNewest(NamedAs(ds, name), name, s) && HasProfile(NamedAs(ds, name), name, s)
    ensures IsNewest(ds, name, s) && HasProfile(ds, name, s)
  {
    assert forall c :: c in NamedAs(ds, name) && AsksFor(c, name) <==> c in ds && AsksFor(c, name);
  }

  lemma AllCompatible(ds: seq<Candidate>, names: seq<string>)
    requires names == NameOrder(ds) && forall j :: 0 <= j < |names| ==> Compatible(NamedAs(ds, names[j]))
    ensures Compatible(ds)
  {
    NameOrderFacts(ds);
    forall c, d | c in ds && d in ds && c.name == d.name ensures c.version.major == d.version.major {
      assert c.name in names;
      var j :| 0 <= j < |names| && names[j] == c.name;
      assert c in NamedAs(ds, names[j]) && d in NamedAs(ds, names[j]);
    }
  }

  lemma {:induction false} UniqueNames(ds: seq<Candidate>)
    requires UniqueNamed(ds)
    ensures |NameOrder(ds)| == |ds| && forall i :: 0 <= i < |ds| ==> NameOrder(ds)[i] == ds[i].name
  {
    if ds != [] {
      var n := |ds| - 1;
      UniqueNames(ds[..n]);
      NameOrderFacts(ds[..n]);
    }
  }

  lemma {:induction false} UniqueGroup(ds: seq<Candidate>, k: nat)
    requires UniqueNamed(ds) && k < |ds|
    ensures NamedAs(ds, ds[k].name) == [ds[k]]
  {
    if k == 0 {
      NoneNamed(ds[1..], ds[0].name);
    } else {
      UniqueGroup(ds[1..], k - 1);
    }
  }

  lemma {:induction false} NoneNamed(ds: seq<Candidate>, name: string)
    requires forall i :: 0 <= i < |ds| ==> ds[i].name != name
    ensures NamedAs(ds, name) == []
  {
    if ds != [] { NoneNamed(ds[1..], name); }
  }
}
