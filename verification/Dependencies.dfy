/** The dependency resolver's walk over project manifests. */
module Dependencies {
  import opened Options
  import opened DependencyGraph
  import opened Versions

  /** A dependency entry with the manifest it resolves to, if any; the profile asked
      for may be empty. */
  datatype Dependency = Dependency(target: Option<Path>, profile: string)

  datatype Manifest = Manifest(name: string, version: SemVer, isApp: bool, dependencies: seq<Dependency>,
                               profiles: map<string, seq<Dependency>>, firstProfile: string)

  /** The profile a manifest is built with; None when the one asked for is missing. */
  function ProfileFor(m: Manifest, asked: string, parent: string): Option<string> {
    if asked != "" then if asked in m.profiles then Some(asked) else None
    else if m.profiles == map[] then Some("")
    else if parent != "" && parent in m.profiles then Some(parent)
    else if "debug" in m.profiles then Some("debug")
    else Some(m.firstProfile)
  }

  /** The profile that a manifest is walked with, by the one its reference asks for and the
      one that the referring manifest is walked with. */
  ghost predicate Chosen(m: Manifest, asked: string, parent: string, profile: string) {
    if asked != "" then profile == asked && asked in m.profiles
    else if parent != "" && parent in m.profiles then profile == parent
    else if "debug" in m.profiles then profile == "debug"
    else profile == if m.profiles == map[] then "" else m.firstProfile
  }

  lemma ProfileIsChosen(m: Manifest, asked: string, parent: string)
    ensures ProfileFor(m, asked, parent).None? <==> asked != "" && asked !in m.profiles
    ensures ProfileFor(m, asked, parent).Some? ==> Chosen(m, asked, parent, ProfileFor(m, asked, parent).value)
  {
  }

  /** A repeated dependency's explicit profile replaces one that was not explicit; the
      root's replace any. */
  function Adopted(c: Candidate, target: Path, profile: string, isOverride: bool): Candidate {
    if c.path == target && (isOverride || !c.explicitProfile) then c.(profile := profile, explicitProfile := true) else c
  }

  function Extras(m: Manifest, profile: string): seq<Dependency> {
    if profile != "" && profile in m.profiles then m.profiles[profile] else []
  }

  function Targets(ds: seq<Dependency>): seq<Path> {
    if ds == [] then []
    else Targets(ds[..|ds| - 1]) + (if ds[|ds| - 1].target.Some? then [ds[|ds| - 1].target.value] else [])
  }

  /** What a manifest depends on when it is built with a profile. */
  predicate Lists(m: Manifest, profile: string, d: Dependency) {
    d in m.dependencies || (profile != "" && profile in m.profiles && d in m.profiles[profile])
  }

  lemma {:induction false} TargetsAreTargets(ds: seq<Dependency>, y: Path)
    ensures y in Targets(ds) <==> exists d :: d in ds && d.target == Some(y)
  {
    if ds != [] {
      var n := |ds| - 1;
      TargetsAreTargets(ds[..n], y);
      assert ds == ds[..n] + [ds[n]];
      if d :| d in ds && d.target == Some(y) { assert d == ds[n] || d in ds[..n]; }
    }
  }

  /** A dependency that a walk can follow: back to the root, or to a library within s
      that has a name and the profile asked for. */
  predicate Into(manifests: map<Path, Manifest>, root: Path, d: Dependency, s: set<Path>) {
    d.target.Some? &&
    (d.target.value == root ||
     (d.target.value in s && d.target.value in manifests && manifests[d.target.value].name != "" && !manifests[d.target.value].isApp &&
      (d.profile == "" || d.profile in manifests[d.target.value].profiles)))
  }

  predicate AllInto(manifests: map<Path, Manifest>, root: Path, ds: seq<Dependency>, s: set<Path>) {
    forall i :: 0 <= i < |ds| ==> Into(manifests, root, ds[i], s)
  }

  /** A closed set of manifests whose dependencies, in every profile, can be followed. */
  predicate Closed(manifests: map<Path, Manifest>, root: Path, s: set<Path>) {
    forall x :: x in s && x in manifests ==> ClosedAt(manifests, root, manifests[x], s)
  }

  predicate ClosedAt(manifests: map<Path, Manifest>, root: Path, m: Manifest, s: set<Path>) {
    AllInto(manifests, root, m.dependencies, s) && forall p :: p in m.profiles ==> AllInto(manifests, root, m.profiles[p], s)
  }

  predicate AllResolve(ds: seq<Dependency>) {
    forall i :: 0 <= i < |ds| ==> ds[i].target.Some?
  }

  /** A dependency followed: the manifest that lists it and the profile that one is walked with. */
  datatype Reference = Reference(from: Path, dep: Dependency, parentProfile: string, isOverride: bool)

  /** The references in the order in which they were followed; for each manifest the
      reference that entered it, how many had been followed when it was finished, and the
      profile it is walked with. */
  datatype History = History(log: seq<Reference>, first: map<Path, nat>, finished: map<Path, nat>, profileOf: map<Path, string>)

  const NO_HISTORY := History([], map[], map[], map[])

  predicate RefersTo(r: Reference, x: Path) {
    r.dep.target == Some(x)
  }

  predicate AsksOf(r: Reference, x: Path) {
    RefersTo(r, x) && r.dep.profile != ""
  }

  /** x was entered by the first reference to it, with the profile which that one chooses. */
  ghost predicate EnteredAs(manifests: map<Path, Manifest>, h: History, x: Path) {
    x in h.first && x in h.profileOf && x in manifests && h.first[x] < |h.log| && RefersTo(h.log[h.first[x]], x) &&
    (forall j :: 0 <= j < h.first[x] ==> !RefersTo(h.log[j], x)) &&
    Chosen(manifests[x], h.log[h.first[x]].dep.profile, h.log[h.first[x]].parentProfile, h.profileOf[x])
  }

  ghost predicate Recorded(manifests: map<Path, Manifest>, root: Path, visited: set<Path>, h: History) {
    h.first.Keys == h.profileOf.Keys == visited - {root} &&
    (forall k :: 0 <= k < |h.log| ==> h.log[k].dep.target.Some? && h.log[k].dep.target.value in visited) &&
    forall x :: x in h.first ==> EnteredAs(manifests, h, x)
  }

  /** No reference from f on that replaces every profile asks one of x. */
  ghost predicate NoOverride(log: seq<Reference>, f: nat, x: Path) {
    forall j :: f <= j < |log| && AsksOf(log[j], x) ==> !log[j].isOverride
  }

  ghost predicate NoneAsks(log: seq<Reference>, f: nat, n: nat, x: Path) {
    forall j :: f <= j < n && j < |log| ==> !AsksOf(log[j], x)
  }

  /** The candidate has the profile of the last overriding reference that came back to it; if
      there is none and it was entered without asking, that of the first one that asks; else
      the one it was walked with. */
  ghost predicate SettledIn(c: Candidate, log: seq<Reference>, f: nat, profile: string, asked: bool) {
    (exists k :: f <= k < |log| && AsksOf(log[k], c.path) && log[k].isOverride && NoOverride(log, k + 1, c.path) &&
                 c.profile == log[k].dep.profile && c.explicitProfile) ||
    (NoOverride(log, f, c.path) && !asked &&
     exists k :: f <= k < |log| && AsksOf(log[k], c.path) && NoneAsks(log, f, k, c.path) &&
                 c.profile == log[k].dep.profile && c.explicitProfile) ||
    (NoOverride(log, f, c.path) && (asked || NoneAsks(log, f, |log|, c.path)) && c.profile == profile && c.explicitProfile == asked)
  }

  ghost predicate Settled(h: History, c: Candidate) {
    c.path in h.first && c.path in h.finished && c.path in h.profileOf && h.first[c.path] < |h.log| && h.finished[c.path] <= |h.log| &&
    SettledIn(c, h.log, h.finished[c.path], h.profileOf[c.path], h.log[h.first[c.path]].dep.profile != "")
  }

  ghost predicate AllSettled(h: History, ds: seq<Candidate>) {
    forall i :: 0 <= i < |ds| ==> Settled(h, ds[i])
  }

  function Repeated(h: History, r: Reference): History {
    h.(log := h.log + [r])
  }

  function Begun(h: History, r: Reference, x: Path, profile: string): History {
    History(h.log + [r], h.first[x := |h.log|], h.finished, h.profileOf[x := profile])
  }

  function Ended(h: History, x: Path): History {
    h.(finished := h.finished[x := |h.log|])
  }

  lemma RepeatedRecorded(manifests: map<Path, Manifest>, root: Path, visited: set<Path>, h: History, r: Reference)
    requires Recorded(manifests, root, visited, h) && r.dep.target.Some? && r.dep.target.value in visited
    ensures Recorded(manifests, root, visited, Repeated(h, r))
  {
    hide Chosen;
    forall x | x in h.first ensures EnteredAs(manifests, Repeated(h, r), x) { assert EnteredAs(manifests, h, x); }
  }

  lemma BegunRecorded(manifests: map<Path, Manifest>, root: Path, visited: set<Path>, h: History, r: Reference, x: Path, profile: string)
    requires Recorded(manifests, root, visited, h) && RefersTo(r, x) && x !in visited && x != root && x in manifests
    requires Chosen(manifests[x], r.dep.profile, r.parentProfile, profile)
    ensures Recorded(manifests, root, visited + {x}, Begun(h, r, x, profile))
  {
    hide Chosen;
    var h1 := Begun(h, r, x, profile);
    forall y | y in h1.first ensures EnteredAs(manifests, h1, y) {
      if y != x { assert EnteredAs(manifests, h, y); }
    }
  }

  /** One more reference leaves a candidate settled if it adopts what the reference asks. */
  lemma StaysSettled(c: Candidate, log: seq<Reference>, f: nat, profile: string, asked: bool, r: Reference)
    requires f <= |log| && SettledIn(c, log, f, profile, asked)
    ensures AsksOf(r, c.path) && (r.isOverride || !c.explicitProfile) ==>
              SettledIn(c.(profile := r.dep.profile, explicitProfile := true), log + [r], f, profile, asked)
    ensures !(AsksOf(r, c.path) && (r.isOverride || !c.explicitProfile)) ==> SettledIn(c, log + [r], f, profile, asked)
  {
    var x, n, log1 := c.path, |log|, log + [r];
    assert log1[n] == r && forall j :: 0 <= j < n ==> log1[j] == log[j];
    if AsksOf(r, x) && (r.isOverride || !c.explicitProfile) {
      var c1 := c.(profile := r.dep.profile, explicitProfile := true);
      if r.isOverride {
        assert NoOverride(log1, n + 1, x);
      } else {
        assert NoneAsks(log1, f, n, x) && NoOverride(log1, f, x);
      }
    } else if k :| f <= k < n && AsksOf(log[k], x) && log[k].isOverride && NoOverride(log, k + 1, x) && c.profile == log[k].dep.profile && c.explicitProfile {
      assert log1[k] == log[k] && NoOverride(log1, k + 1, x);
    } else if NoOverride(log, f, x) && !asked && !NoneAsks(log, f, n, x) {
      var k :| f <= k < n && AsksOf(log[k], x) && NoneAsks(log, f, k, x) && c.profile == log[k].dep.profile && c.explicitProfile;
      assert log1[k] == log[k] && NoneAsks(log1, f, k, x) && NoOverride(log1, f, x);
    } else {
      assert NoOverride(log1, f, x) && (asked || NoneAsks(log1, f, n + 1, x));
    }
  }

  /** x leads to exactly what its manifest lists under the profile. */
  ghost predicate Linked(m: Manifest, profile: string, edges: Edges, x: Path) {
    x in edges && forall y :: y in edges[x] <==> exists d :: Lists(m, profile, d) && d.target == Some(y)
  }

  lemma LinkedAt(m: Manifest, profile: string, edges: Edges, x: Path)
    requires x in edges && edges[x] == Targets(m.dependencies + Extras(m, profile))
    ensures Linked(m, profile, edges, x)
  {
    var all := m.dependencies + Extras(m, profile);
    assert forall d :: d in all <==> Lists(m, profile, d);
    forall y ensures y in edges[x] <==> exists d :: Lists(m, profile, d) && d.target == Some(y) {
      TargetsAreTargets(all, y);
      if d :| Lists(m, profile, d) && d.target == Some(y) { assert d in all; }
    }
  }

  /** A reference of the root, or of a manifest that was entered. */
  ghost predicate RootOrPassed(manifests: map<Path, Manifest>, root: Path, h: History, r: Reference, dependencies: seq<Dependency>,
                               extras: seq<Dependency>, profile: string)
  {
    (r.from == root && r.parentProfile == profile && r.dep in (if r.isOverride then extras else dependencies)) || Passed(manifests, h, r)
  }

  /** What has been followed from h to h1: these dependencies of the manifest top, and those
      of manifests entered on the way, under their profiles. */
  ghost predicate Told(manifests: map<Path, Manifest>, h: History, h1: History, top: Path, deps: seq<Dependency>, parent: string, isOverride: bool) {
    h.log <= h1.log && Kept(h, h1) && forall k :: |h.log| <= k < |h1.log| ==> ToldAt(manifests, h1, h1.log[k], top, deps, parent, isOverride)
  }

  ghost predicate Kept(h: History, h1: History) {
    (forall x :: x in h.first ==> x in h1.first && h1.first[x] == h.first[x]) &&
    forall x :: x in h.profileOf ==> x in h1.profileOf && h1.profileOf[x] == h.profileOf[x]
  }

  ghost predicate ToldAt(manifests: map<Path, Manifest>, h: History, r: Reference, top: Path, deps: seq<Dependency>, parent: string, isOverride: bool) {
    (r.from == top && r.dep in deps && r.parentProfile == parent && r.isOverride == isOverride) || Passed(manifests, h, r)
  }

  /** A reference of a manifest that was entered, under its profile. */
  ghost predicate Passed(manifests: map<Path, Manifest>, h: History, r: Reference) {
    r.from in h.profileOf && r.from in manifests && Lists(manifests[r.from], h.profileOf[r.from], r.dep) &&
    r.parentProfile == h.profileOf[r.from] && !r.isOverride
  }

  lemma TellMore(manifests: map<Path, Manifest>, h: History, h1: History, h2: History, top: Path, a: seq<Dependency>, b: seq<Dependency>, parent: string, isOverride: bool)
    requires Told(manifests, h, h1, top, a, parent, isOverride) && Told(manifests, h1, h2, top, b, parent, isOverride)
    ensures Told(manifests, h, h2, top, a + b, parent, isOverride)
  {
    hide Lists;
    forall k | |h.log| <= k < |h2.log| ensures ToldAt(manifests, h2, h2.log[k], top, a + b, parent, isOverride) {
      if k < |h1.log| {
        assert h2.log[k] == h1.log[k];
        assert ToldAt(manifests, h1, h1.log[k], top, a, parent, isOverride);
      } else {
        assert ToldAt(manifests, h2, h2.log[k], top, b, parent, isOverride);
      }
    }
  }

  /** A manifest entered and walked, seen from the one that refers to it. */
  lemma TellVisit(manifests: map<Path, Manifest>, h: History, h2: History, h3: History, top: Path, r: Reference, x: Path, profile: string, f: map<Path, nat>)
    requires x in manifests && x !in h.first && x !in h.profileOf && r.from == top
    requires Told(manifests, Begun(h, r, x, profile), h2, x, manifests[x].dependencies, profile, false)
    requires Told(manifests, h2, h3, x, Extras(manifests[x], profile), profile, false)
    ensures Told(manifests, h, h3.(finished := f), top, [r.dep], r.parentProfile, r.isOverride)
  {
    var h1, h4 := Begun(h, r, x, profile), h3.(finished := f);
    TellMore(manifests, h1, h2, h3, x, manifests[x].dependencies, Extras(manifests[x], profile), profile, false);
    assert x in h1.profileOf;
    forall k | |h.log| <= k < |h4.log| ensures ToldAt(manifests, h4, h4.log[k], top, [r.dep], r.parentProfile, r.isOverride) {
      if k == |h.log| {
        assert h1.log[k] == r && h1.log <= h3.log;
      } else {
        assert ToldAt(manifests, h3, h3.log[k], x, manifests[x].dependencies + Extras(manifests[x], profile), profile, false);
      }
    }
  }

  ghost predicate AccountedAt(manifests: map<Path, Manifest>, w: Walk, profileOf: map<Path, string>, x: Path) {
    x in manifests && x in profileOf && x in w.edges && AllResolve(manifests[x].dependencies + Extras(manifests[x], profileOf[x])) &&
    w.edges[x] == Targets(manifests[x].dependencies + Extras(manifests[x], profileOf[x]))
  }

  /** Candidates carry the name and version of their manifests. */
  predicate Describes(manifests: map<Path, Manifest>, ds: seq<Candidate>) {
    forall i :: 0 <= i < |ds| ==>
      ds[i].path in manifests && ds[i].name == manifests[ds[i].path].name && ds[i].version == manifests[ds[i].path].version &&
      ds[i].name != "" && !manifests[ds[i].path].isApp
  }

  class DependencyManager {
    const manifests: map<Path, Manifest>
    const root: Path
    var visited: set<Path>
    var discovered: seq<Candidate>
    var order: seq<string>
    ghost var walk: Walk
    ghost var history: History

    ghost predicate Valid()
      reads this
    {
      Consistent(walk) && walk.stack[0] == root && (forall x :: x in visited <==> Seen(walk, x)) &&
      walk.edges.Keys == visited && Paths(discovered) == walk.done && order == NameOrder(discovered) && Accounted() &&
      Describes(manifests, discovered) && Remembered()
    }

    ghost predicate Remembered()
      reads this`visited, this`history, this`discovered
    {
      root in visited && Recorded(manifests, root, visited, history) && AllSettled(history, discovered)
    }

    /** The edges followed from a finished manifest are all its dependencies. */
    ghost predicate Accounted()
      reads this`walk, this`history
    {
      forall x :: x in walk.done ==> AccountedAt(manifests, walk, history.profileOf, x)
    }

    constructor (manifests: map<Path, Manifest>, root: Path)
      ensures Valid() && this.manifests == manifests && this.root == root
      ensures walk == Walk(map[root := []], [], [root]) && discovered == [] && history == NO_HISTORY
    {
      this.manifests, this.root := manifests, root;
      visited, discovered, order := {root}, [], [];
      walk, history := Walk(map[root := []], [], [root]), NO_HISTORY;
      new;
      StartOk(root);
    }

    /** The walk has gone on from w0, following exactly these edges from the current
        manifest. */
    ghost predicate Advanced(w0: Walk, before: set<Path>, targets: seq<Path>)
      reads this
    {
      Valid() && walk.stack == w0.stack && walk.stack != [] && before <= visited && Followed(w0, walk, targets)
    }

    /** Follow one dependency of the current manifest; false for the errors that end
        the walk, of which there are none within a closed set.  A manifest not seen before
        is walked with the profile that this reference chooses. */
    method DiscoverSingle(dep: Dependency, parentProfile: string, isOverride: bool, ghost s: set<Path>) returns (ok: bool)
      requires Valid()
      modifies this
      ensures ok ==> Advanced(old(walk), old(visited), Targets([dep])) && dep.target.Some?
      ensures ok ==> Told(manifests, old(history), history, Top(old(walk)), [dep], parentProfile, isOverride)
      ensures ok && dep.target.value !in old(visited) ==>
                (dep.target.value in manifests && dep.target.value in history.profileOf &&
                 Chosen(manifests[dep.target.value], dep.profile, parentProfile, history.profileOf[dep.target.value]))
      ensures ok && dep.target.value in old(visited) ==>
                (|discovered| == |old(discovered)| &&
                 forall i :: 0 <= i < |discovered| ==> AdoptedBy(old(discovered)[i], discovered[i], dep.target.value, dep.profile, isOverride))
      ensures Closed(manifests, root, s) && Into(manifests, root, dep, s) ==> ok
      decreases manifests.Keys - visited, 1
    {
      hide Consistent, NameOrder, Followed, Closed, Accounted, Describes, Remembered, Told, Chosen, Recorded;
      if dep.target.None? { return false; }
      RootSeen();
      var target := dep.target.value;
      ghost var r := Reference(Top(walk), dep, parentProfile, isOverride);
      OneTarget(dep);
      if target in visited {
        ToldOnce(r);
        if dep.profile != "" { AdoptProfile(target, dep.profile, isOverride, r); } else { Remember(r); }
        NoteEdge(target);
        return true;
      }
      if target !in manifests { return false; }
      var manifest := manifests[target];
      if manifest.name == "" || manifest.isApp { return false; }
      var profile := ProfileFor(manifest, dep.profile, parentProfile);
      ProfileIsChosen(manifest, dep.profile, parentProfile);
      if profile.None? { return false; }
      ok := Visit(target, profile.value, dep.profile != "", s, r);
    }

    lemma ToldOnce(r: Reference)
      ensures Told(manifests, history, Repeated(history, r), r.from, [r.dep], r.parentProfile, r.isOverride)
    {
    }

    lemma RootSeen()
      requires Valid()
      ensures root in visited && walk.stack != []
    {
      hide NameOrder, Accounted, Describes, Remembered;
      assert root in walk.stack;
    }

    /** A repeated dependency may still choose the profile of a finished candidate. */
    method AdoptProfile(target: Path, profile: string, isOverride: bool, ghost r: Reference)
      requires Valid() && target in visited && r.dep == Dependency(Some(target), profile) && profile != "" && r.isOverride == isOverride
      modifies this`discovered, this`history
      ensures Valid() && |discovered| == |old(discovered)| && history == Repeated(old(history), r)
      ensures forall i :: 0 <= i < |discovered| ==> AdoptedBy(old(discovered)[i], discovered[i], target, profile, isOverride)
    {
      hide Consistent, NameOrder, AccountedAt, Describes, Adopted, Recorded, AllSettled;
      var ds := AdoptIn(discovered, target, profile, isOverride);
      AdoptedAlike(discovered, ds, target, profile, isOverride);
      SameNameOrder(discovered, ds);
      SameDescribed(manifests, discovered, ds);
      AdoptedSettled(history, discovered, ds, target, profile, isOverride, r);
      RepeatedRecorded(manifests, root, visited, history, r);
      AllAdoptedBy(discovered, ds, target, profile, isOverride);
      discovered := ds;
      history := Repeated(history, r);
    }

    ghost method Remember(r: Reference)
      requires Valid() && r.dep.target.Some? && r.dep.target.value in visited && r.dep.profile == ""
      modifies this`history
      ensures Valid() && history == Repeated(old(history), r)
    {
      hide Consistent, NameOrder, AccountedAt, Describes, Recorded, AllSettled;
      StillSettled(history, discovered, r);
      RepeatedRecorded(manifests, root, visited, history, r);
      history := Repeated(history, r);
    }

    static method AdoptIn(candidates: seq<Candidate>, target: Path, profile: string, isOverride: bool) returns (ds: seq<Candidate>)
      ensures |ds| == |candidates| && forall i :: 0 <= i < |ds| ==> ds[i] == Adopted(candidates[i], target, profile, isOverride)
    {
      ds := candidates;
      var k := 0;
      while k < |ds|
        invariant k <= |ds| == |candidates|
        invariant forall i :: 0 <= i < k ==> ds[i] == Adopted(candidates[i], target, profile, isOverride)
        invariant forall i :: k <= i < |ds| ==> ds[i] == candidates[i]
      {
        if ds[k].path == target && (isOverride || !ds[k].explicitProfile) {
          ds := ds[k := ds[k].(profile := profile, explicitProfile := true)];
        }
        k := k + 1;
      }
    }

    ghost method NoteEdge(target: Path)
      requires Valid() && target in visited
      modifies this`walk
      ensures Advanced(old(walk), old(visited), [target])
    {
      hide Consistent, NameOrder, Remembered, Describes;
      NotedOk(walk, target);
      TopIsNotDone(walk);
      NotedKeys(walk, target);
      walk := Noted(walk, target);
    }

    /** Walk a manifest not seen before, dependencies first. */
    method Visit(target: Path, profile: string, explicitProfile: bool, ghost s: set<Path>, ghost r: Reference) returns (ok: bool)
      requires Valid() && target in manifests && target !in visited && manifests[target].name != "" && !manifests[target].isApp
      requires RefersTo(r, target) && r.from == Top(walk) && explicitProfile == (r.dep.profile != "")
      requires Chosen(manifests[target], r.dep.profile, r.parentProfile, profile)
      modifies this
      ensures ok ==> Advanced(old(walk), old(visited), [target])
      ensures ok ==> Told(manifests, old(history), history, r.from, [r.dep], r.parentProfile, r.isOverride)
      ensures ok ==> target in history.profileOf && history.profileOf[target] == profile
      ensures Closed(manifests, root, s) && target in s ==> ok
      decreases manifests.Keys - visited, 0
    {
      hide Consistent, NameOrder, Followed, AllInto, AllResolve, Valid, Told, Chosen, Extras, Targets, ClosedAt;
      ghost var w0, h0 := walk, history;
      var manifest := manifests[target];
      assert Closed(manifests, root, s) && target in s ==> ClosedAt(manifests, root, manifest, s);
      ClosedExtras(manifests, root, manifest, profile, s);
      Enter(target, profile, r);
      ghost var w1, h1 := walk, history;
      ok := DiscoverAll(manifest.dependencies, profile, false, s);
      if !ok { return; }
      ghost var w2, h2 := walk, history;
      ok := DiscoverAll(Extras(manifest, profile), profile, false, s);
      if !ok { return; }
      AllResolveMore(manifest.dependencies, Extras(manifest, profile));
      AllFollowed(w0, w1, w2, walk, target, manifest.dependencies, Extras(manifest, profile));
      TellVisit(manifests, h0, h2, history, r.from, r, target, profile, Ended(history, target).finished);
      StillBegun(manifests, h0, h2, history, r, target, profile);
      var c := Candidate(manifest.name, manifest.version, target, profile, explicitProfile);
      NoteFinished(c);
      Finish(c, w0);
    }

    method Enter(target: Path, profile: string, ghost r: Reference)
      requires Valid() && target !in visited && target in manifests && RefersTo(r, target)
      requires Chosen(manifests[target], r.dep.profile, r.parentProfile, profile)
      modifies this`visited, this`walk, this`history
      ensures Valid() && old(walk).stack != [] && Top(old(walk)) in old(walk).edges && walk == Entered(old(walk), target)
      ensures visited == old(visited) + {target} && history == Begun(old(history), r, target, profile)
      ensures target !in old(history).first && target !in old(history).profileOf
      ensures Consistent(old(walk)) && target !in old(walk).stack
    {
      hide Consistent, NameOrder, Chosen, Describes, AccountedAt, AllSettled, EnteredAs;
      EnteredOk(walk, target);
      EnteredSeen(walk, target);
      TopIsNotDone(walk);
      BegunRecorded(manifests, root, visited, history, r, target, profile);
      BegunSettled(history, discovered, r, target, profile);
      BegunAccounted(manifests, walk, history.profileOf, target, profile);
      visited := visited + {target};
      walk := Entered(walk, target);
      history := Begun(history, r, target, profile);
    }

    method Finish(c: Candidate, ghost w0: Walk)
      requires Valid() && |walk.stack| > 1 && Top(walk) == c.path && c.path in manifests && walk.stack[..|walk.stack| - 1] == w0.stack
      requires c.path in walk.edges && walk.edges[c.path] == Targets(manifests[c.path].dependencies + Extras(manifests[c.path], c.profile))
      requires AllResolve(manifests[c.path].dependencies + Extras(manifests[c.path], c.profile)) && c.name != "" && !manifests[c.path].isApp
      requires Followed(w0, Left(walk), [c.path]) && c.name == manifests[c.path].name && c.version == manifests[c.path].version
      requires Settled(history, c) && c.path in history.profileOf && history.profileOf[c.path] == c.profile
      modifies this`discovered, this`order, this`walk
      ensures Advanced(w0, old(visited), [c.path])
    {
      hide Consistent, NameOrder, Followed, Targets, Describes, AllResolve, Extras, AccountedAt, Recorded, Settled;
      LeftOk(walk);
      LeftSeen(walk);
      NameOrderStep(discovered, c);
      DescribedMore(manifests, discovered, c);
      AccountedMore(manifests, walk, history.profileOf, c);
      assert Paths(discovered + [c]) == Paths(discovered) + [c.path];
      discovered := discovered + [c];
      if c.name !in order { order := order + [c.name]; }
      walk := Left(walk);
    }

    ghost method NoteFinished(c: Candidate)
      requires Valid() && Top(walk) == c.path && c.path in history.profileOf && history.profileOf[c.path] == c.profile && c.path in history.first
      requires history.first[c.path] < |history.log| && c.explicitProfile == (history.log[history.first[c.path]].dep.profile != "")
      modifies this`history
      ensures Valid() && history == Ended(old(history), c.path) && Settled(history, c)
    {
      hide Consistent, NameOrder, Describes, AccountedAt, Recorded, AllSettled, Settled;
      EndedRecorded(manifests, root, visited, history, c.path);
      TopNotFound(discovered, walk);
      EndedSettled(history, discovered, c);
      history := Ended(history, c.path);
    }

    lemma Started()
      requires Valid()
      ensures Advanced(walk, visited, Targets([]))
    {
      hide NameOrder, Remembered;
      NoneFollowed(walk);
    }

    method DiscoverAll(deps: seq<Dependency>, parentProfile: string, isOverride: bool, ghost s: set<Path>) returns (ok: bool)
      requires Valid()
      modifies this
      ensures ok ==> Advanced(old(walk), old(visited), Targets(deps)) && AllResolve(deps)
      ensures ok ==> Told(manifests, old(history), history, Top(old(walk)), deps, parentProfile, isOverride)
      ensures Closed(manifests, root, s) && AllInto(manifests, root, deps, s) ==> ok
      decreases manifests.Keys - visited, 2
    {
      hide Valid, Followed, Targets, Closed, Into, Told, Chosen;
      var k := 0;
      Started();
      ToldNothing(manifests, history, Top(walk), parentProfile, isOverride);
      assert deps[..0] == [];
      while k < |deps|
        invariant k <= |deps| && Advanced(old(walk), old(visited), Targets(deps[..k])) && AllResolve(deps[..k])
        invariant Told(manifests, old(history), history, Top(old(walk)), deps[..k], parentProfile, isOverride)
      {
        ghost var w1, h1 := walk, history;
        ok := DiscoverSingle(deps[k], parentProfile, isOverride, s);
        if !ok { return; }
        assert deps[..k + 1] == deps[..k] + [deps[k]];
        TargetsOf(deps[..k], [deps[k]]);
        FollowedMore(old(walk), w1, walk, Targets(deps[..k]), Targets([deps[k]]));
        TellMore(manifests, old(history), h1, history, Top(old(walk)), deps[..k], [deps[k]], parentProfile, isOverride);
        k := k + 1;
      }
      assert deps[..k] == deps;
      ok := true;
    }

    /** The whole resolution: the root's dependencies and those of its active profile,
        the root itself last, then one version for each name.  The walk succeeds when
        all that it can meet lies in a closed set s. */
    method ResolveGraph(name: string, version: SemVer, dependencies: seq<Dependency>, extras: seq<Dependency>, profile: string,
                        ghost s: set<Path>)
      returns (ok: bool, selected: seq<Candidate>, ghost walked: bool)
      requires Valid() && walk == Walk(map[root := []], [], [root]) && history == NO_HISTORY
      modifies this
      ensures walked ==> Resolved(Targets(dependencies + extras)) && AllResolve(dependencies) && AllResolve(extras)
      ensures walked ==> Explained(dependencies, extras, profile)
      ensures Closed(manifests, root, s) && AllInto(manifests, root, dependencies, s) && AllInto(manifests, root, extras, s) ==> walked
      ensures ok <==> walked && Compatible(discovered)
      ensures ok ==> Selection(discovered, NameOrder(discovered), selected) && (UniqueNamed(discovered) ==> selected == discovered)
    {
      hide Valid, Followed, Targets, Compatible, UniqueNamed, Resolved, NameOrder, Closed, AllInto, AllResolve, Told, Settled,
           EnteredAs, Linked, RootOrPassed;
      ghost var w0 := walk;
      selected, walked := [], false;
      ok := DiscoverAll(dependencies, profile, false, s);
      if !ok { return; }
      ghost var w1, h1 := walk, history;
      ok := DiscoverAll(extras, profile, true, s);
      if !ok { return; }
      AllTold(h1, dependencies, extras, profile);
      TargetsOf(dependencies, extras);
      FollowedMore(w0, w1, walk, Targets(dependencies), Targets(extras));
      AllExplained(w0, Targets(dependencies + extras));
      AddRoot(Candidate(name, version, root, profile, true), w0, Targets(dependencies + extras));
      walked := true;
      ok, selected := SelectVersions(discovered);
    }

    method AddRoot(c: Candidate, ghost w0: Walk, ghost targets: seq<Path>)
      requires Valid() && w0 == Walk(map[root := []], [], [root]) && Followed(w0, walk, targets) && c.path == root
      modifies this`discovered, this`order
      ensures Resolved(targets) && discovered == old(discovered) + [c]
    {
      hide Consistent, NameOrder, Followed, Reaches, Acyclic, Accounted, Describes, Before, Remembered;
      RootFollowed(w0, walk, root, targets);
      WalkFinished(walk, root);
      NameOrderStep(discovered, c);
      assert Paths(discovered + [c]) == Paths(discovered) + [root];
      assert (discovered + [c])[..|discovered|] == discovered;
      discovered := discovered + [c];
      if c.name !in order { order := order + [c.name]; }
    }

    /** Every reference followed is the root's, or that of a manifest entered. */
    lemma AllTold(h1: History, dependencies: seq<Dependency>, extras: seq<Dependency>, profile: string)
      requires Told(manifests, NO_HISTORY, h1, root, dependencies, profile, false) && Told(manifests, h1, history, root, extras, profile, true)
      ensures forall k :: 0 <= k < |history.log| ==> RootOrPassed(manifests, root, history, history.log[k], dependencies, extras, profile)
    {
      hide Lists;
      forall k | 0 <= k < |history.log|
        ensures RootOrPassed(manifests, root, history, history.log[k], dependencies, extras, profile)
      {
        if k < |h1.log| {
          assert history.log[k] == h1.log[k];
          assert ToldAt(manifests, h1, h1.log[k], root, dependencies, profile, false);
        } else {
          assert ToldAt(manifests, history, history.log[k], root, extras, profile, true);
        }
      }
    }

    lemma AllExplained(w0: Walk, targets: seq<Path>)
      requires Valid() && w0 == Walk(map[root := []], [], [root]) && Followed(w0, walk, targets)
      ensures forall x :: x in visited && x != root ==>
                (EnteredAs(manifests, history, x) && Linked(manifests[x], history.profileOf[x], walk.edges, x))
      ensures forall i :: 0 <= i < |discovered| ==> Settled(history, discovered[i])
    {
      hide NameOrder, Describes, Settled, Chosen, Consistent, EnteredAs, AllResolve;
      forall x | x in visited && x != root
        ensures EnteredAs(manifests, history, x) && Linked(manifests[x], history.profileOf[x], walk.edges, x)
      {
        assert Seen(walk, x) && walk.stack == [root];
        assert AccountedAt(manifests, walk, history.profileOf, x) && x in history.first;
        LinkedAt(manifests[x], history.profileOf[x], walk.edges, x);
      }
    }

    /** Where the walk has found its way: each manifest was entered by the first reference to
        it, with the profile that this one chooses; it leads to the targets of all it
        lists under that profile; every reference followed belongs to such a manifest or to
        the root; and the candidates have the profiles that the references leave them. */
    ghost predicate Explained(dependencies: seq<Dependency>, extras: seq<Dependency>, profile: string)
      reads this
    {
      discovered != [] && (forall i :: 0 <= i < |discovered| - 1 ==> Settled(history, discovered[i])) &&
      (forall x :: x in visited && x != root ==>
        EnteredAs(manifests, history, x) && Linked(manifests[x], history.profileOf[x], walk.edges, x)) &&
      forall k :: 0 <= k < |history.log| ==> RootOrPassed(manifests, root, history, history.log[k], dependencies, extras, profile)
    }

    /** What the walk has found: every manifest that the root reaches, once; each
        finished manifest's dependencies were all followed; without cycles they come
        before it; and the root is last. */
    ghost predicate Resolved(rootTargets: seq<Path>)
      reads this
    {
      var all := Paths(discovered);
      discovered != [] && Distinct(all) && (forall x :: x in all <==> Reaches(walk.edges, root, x)) && all != [] && all[|all| - 1] == root &&
      order == NameOrder(discovered) && walk.done + [root] == all && Accounted() && Describes(manifests, discovered[..|discovered| - 1]) && root in walk.edges && walk.edges[root] == rootTargets &&
      (Acyclic(walk.edges) ==> forall x, y :: Follows(walk.edges, x, y) && x in all ==> Before(all, y, x))
    }
  }

  // ------------------------------------------------------------------ supporting facts

  /** From w0 to w, the current manifest gained these edges and the ones below it in
      the stack none. */
  ghost predicate Followed(w0: Walk, w: Walk, targets: seq<Path>) {
    w0.stack != [] && w.stack == w0.stack && (forall x :: x in w.stack ==> x in w.edges && x in w0.edges) &&
    w.edges[Top(w)] == w0.edges[Top(w)] + targets && forall x :: x in w.stack && x != Top(w) ==> w.edges[x] == w0.edges[x]
  }

  lemma ClosedExtras(manifests: map<Path, Manifest>, root: Path, m: Manifest, profile: string, s: set<Path>)
    ensures ClosedAt(manifests, root, m, s) ==> AllInto(manifests, root, Extras(m, profile), s) && AllInto(manifests, root, m.dependencies, s)
  {
    hide Into;
  }

  lemma AllResolveMore(a: seq<Dependency>, b: seq<Dependency>)
    requires AllResolve(a) && AllResolve(b)
    ensures AllResolve(a + b)
  {
  }

  /** Only profiles change. */
  lemma AdoptedAlike(a: seq<Candidate>, b: seq<Candidate>, target: Path, profile: string, isOverride: bool)
    requires |b| == |a| && forall i :: 0 <= i < |b| ==> b[i] == Adopted(a[i], target, profile, isOverride)
    ensures forall i :: 0 <= i < |a| ==> a[i].name == b[i].name && a[i].version == b[i].version && a[i].path == b[i].path
    ensures Paths(a) == Paths(b)
  {
    forall i | 0 <= i < |a| ensures a[i].name == b[i].name && a[i].version == b[i].version && a[i].path == b[i].path {
      assert b[i] == Adopted(a[i], target, profile, isOverride);
    }
  }

  lemma SameDescribed(manifests: map<Path, Manifest>, a: seq<Candidate>, b: seq<Candidate>)
    requires |b| == |a| && Describes(manifests, a)
    requires forall i :: 0 <= i < |a| ==> a[i].name == b[i].name && a[i].version == b[i].version && a[i].path == b[i].path
    ensures Describes(manifests, b)
  {
  }

  lemma DescribedMore(manifests: map<Path, Manifest>, ds: seq<Candidate>, c: Candidate)
    requires Describes(manifests, ds) && c.path in manifests && c.name == manifests[c.path].name && c.version == manifests[c.path].version
    requires c.name != "" && !manifests[c.path].isApp
    ensures Describes(manifests, ds + [c])
  {
  }

  lemma AccountedMore(manifests: map<Path, Manifest>, w: Walk, profileOf: map<Path, string>, c: Candidate)
    requires Consistent(w) && Top(w) == c.path && (forall x :: x in w.done ==> AccountedAt(manifests, w, profileOf, x))
    requires c.path in manifests && AllResolve(manifests[c.path].dependencies + Extras(manifests[c.path], c.profile))
    requires c.path in w.edges && w.edges[c.path] == Targets(manifests[c.path].dependencies + Extras(manifests[c.path], c.profile))
    requires c.path in profileOf && profileOf[c.path] == c.profile
    ensures forall x :: x in Left(w).done ==> AccountedAt(manifests, Left(w), profileOf, x)
  {
    hide AllResolve, Targets, Extras;
    assert c.path in w.stack;
    forall x | x in Left(w).done ensures AccountedAt(manifests, Left(w), profileOf, x) {
      assert x != c.path ==> x in w.done;
    }
  }

  lemma BegunAccounted(manifests: map<Path, Manifest>, w: Walk, profileOf: map<Path, string>, y: Path, profile: string)
    requires Consistent(w) && Top(w) in w.edges && y !in w.done && (forall x :: x in w.done ==> AccountedAt(manifests, w, profileOf, x))
    ensures forall x :: x in w.done ==> AccountedAt(manifests, Entered(w, y), profileOf[y := profile], x)
  {
    hide AllResolve, Targets, Extras;
    assert Top(w) in w.stack;
  }

  lemma AdoptedSettled(h: History, a: seq<Candidate>, b: seq<Candidate>, target: Path, profile: string, isOverride: bool, r: Reference)
    requires AllSettled(h, a) && r.dep == Dependency(Some(target), profile) && profile != "" && r.isOverride == isOverride
    requires |b| == |a| && forall i :: 0 <= i < |b| ==> b[i] == Adopted(a[i], target, profile, isOverride)
    ensures AllSettled(Repeated(h, r), b)
  {
    hide SettledIn;
    forall i | 0 <= i < |b| ensures Settled(Repeated(h, r), b[i]) {
      var c := a[i];
      assert Settled(h, c) && b[i] == Adopted(c, target, profile, isOverride);
      StaysSettled(c, h.log, h.finished[c.path], h.profileOf[c.path], h.log[h.first[c.path]].dep.profile != "", r);
    }
  }

  lemma StillSettled(h: History, ds: seq<Candidate>, r: Reference)
    requires AllSettled(h, ds) && forall i :: 0 <= i < |ds| ==> !AsksOf(r, ds[i].path)
    ensures AllSettled(Repeated(h, r), ds)
  {
    hide SettledIn;
    forall i | 0 <= i < |ds| ensures Settled(Repeated(h, r), ds[i]) {
      var c := ds[i];
      assert Settled(h, c);
      StaysSettled(c, h.log, h.finished[c.path], h.profileOf[c.path], h.log[h.first[c.path]].dep.profile != "", r);
    }
  }

  lemma BegunSettled(h: History, ds: seq<Candidate>, r: Reference, x: Path, profile: string)
    requires AllSettled(h, ds) && RefersTo(r, x) && x !in h.first
    ensures AllSettled(Begun(h, r, x, profile), ds)
  {
    hide SettledIn;
    forall i | 0 <= i < |ds| ensures ds[i].path != x { assert Settled(h, ds[i]); }
    StillSettled(h, ds, r);
    forall i | 0 <= i < |ds| ensures Settled(Begun(h, r, x, profile), ds[i]) { assert Settled(h, ds[i]) && Settled(Repeated(h, r), ds[i]); }
  }

  lemma EndedRecorded(manifests: map<Path, Manifest>, root: Path, visited: set<Path>, h: History, x: Path)
    requires Recorded(manifests, root, visited, h)
    ensures Recorded(manifests, root, visited, Ended(h, x))
  {
    hide Chosen;
    forall y | y in h.first ensures EnteredAs(manifests, Ended(h, x), y) { assert EnteredAs(manifests, h, y); }
  }

  lemma EndedSettled(h: History, ds: seq<Candidate>, c: Candidate)
    requires AllSettled(h, ds) && (forall i :: 0 <= i < |ds| ==> ds[i].path != c.path)
    requires c.path in h.profileOf && h.profileOf[c.path] == c.profile && c.path in h.first
    requires h.first[c.path] < |h.log| && c.explicitProfile == (h.log[h.first[c.path]].dep.profile != "")
    ensures AllSettled(Ended(h, c.path), ds) && Settled(Ended(h, c.path), c)
  {
    var h1 := Ended(h, c.path);
    assert NoOverride(h.log, |h.log|, c.path) && NoneAsks(h.log, |h.log|, |h.log|, c.path);
    assert Settled(h1, c);
    hide SettledIn;
    forall i | 0 <= i < |ds| ensures Settled(h1, ds[i]) { assert Settled(h, ds[i]); }
  }

  lemma TopNotFound(ds: seq<Candidate>, w: Walk)
    requires Consistent(w) && Paths(ds) == w.done
    ensures forall i :: 0 <= i < |ds| ==> ds[i].path != Top(w)
  {
    TopIsNotDone(w);
    forall i | 0 <= i < |ds| ensures ds[i].path != Top(w) { assert Paths(ds)[i] in w.done; }
  }

  lemma ToldNothing(manifests: map<Path, Manifest>, h: History, top: Path, parent: string, isOverride: bool)
    ensures Told(manifests, h, h, top, [], parent, isOverride)
  {
  }

  /** The entering reference and the profile last while the manifest is walked. */
  lemma StillBegun(manifests: map<Path, Manifest>, h: History, h2: History, h3: History, r: Reference, x: Path, profile: string)
    requires x in manifests
    requires Told(manifests, Begun(h, r, x, profile), h2, x, manifests[x].dependencies, profile, false)
    requires Told(manifests, h2, h3, x, Extras(manifests[x], profile), profile, false)
    ensures x in h3.profileOf && h3.profileOf[x] == profile && x in h3.first && h3.first[x] == |h.log| < |h3.log| && h3.log[|h.log|] == r
  {
    hide ToldAt;
    var h1 := Begun(h, r, x, profile);
    assert x in h1.first && x in h1.profileOf && h1.log[|h.log|] == r && h1.log <= h2.log;
    assert x in h2.first && x in h2.profileOf;
  }

  /** What a repeated reference makes of a candidate: its profile, where it asks for one and
      overrides or the candidate's was not asked for; nothing else changes. */
  ghost predicate AdoptedBy(c: Candidate, c1: Candidate, target: Path, profile: string, isOverride: bool) {
    c1.name == c.name && c1.version == c.version && c1.path == c.path &&
    if c.path == target && profile != "" && (isOverride || !c.explicitProfile)
    then c1.profile == profile && c1.explicitProfile
    else c1.profile == c.profile && c1.explicitProfile == c.explicitProfile
  }

  lemma AllAdoptedBy(a: seq<Candidate>, b: seq<Candidate>, target: Path, profile: string, isOverride: bool)
    requires profile != "" && |b| == |a| && forall i :: 0 <= i < |b| ==> b[i] == Adopted(a[i], target, profile, isOverride)
    ensures forall i :: 0 <= i < |b| ==> AdoptedBy(a[i], b[i], target, profile, isOverride)
  {
  }

  lemma StartOk(root: Path)
    ensures Consistent(Walk(map[root := []], [], [root]))
  {
    ReachesSelf(map[root := []], root);
  }

  lemma OneTarget(dep: Dependency)
    requires dep.target.Some?
    ensures Targets([dep]) == [dep.target.value]
  {
    assert Targets([dep]) == Targets([dep][..0]) + [dep.target.value];
  }

  lemma {:induction false} TargetsOf(a: seq<Dependency>, b: seq<Dependency>)
    ensures Targets(a + b) == Targets(a) + Targets(b)
  {
    if b == [] {
      assert a + b == a;
    } else {
      var n := |b| - 1;
      assert (a + b)[..|a + b| - 1] == a + b[..n];
      TargetsOf(a, b[..n]);
    }
  }

  lemma NoneFollowed(w: Walk)
    requires Consistent(w)
    ensures Followed(w, w, Targets([]))
  {
  }

  lemma FollowedMore(w0: Walk, w1: Walk, w2: Walk, a: seq<Path>, b: seq<Path>)
    requires Followed(w0, w1, a) && Followed(w1, w2, b)
    ensures Followed(w0, w2, a + b)
  {
  }

  lemma TopIsNotDone(w: Walk)
    requires Consistent(w)
    ensures Top(w) !in w.done && Top(w) in w.edges && forall x :: x in w.stack ==> x in w.edges
  {
    assert Top(w) in w.stack;
  }

  lemma NotedKeys(w: Walk, y: Path)
    requires Consistent(w) && Top(w) in w.edges
    ensures Noted(w, y).edges.Keys == w.edges.Keys && Followed(w, Noted(w, y), [y]) && forall x :: Seen(Noted(w, y), x) <==> Seen(w, x)
  {
  }

  lemma EnteredSeen(w: Walk, y: Path)
    requires w.stack != [] && Top(w) in w.edges
    ensures Entered(w, y).edges.Keys == w.edges.Keys + {y} && forall x :: Seen(Entered(w, y), x) <==> Seen(w, x) || x == y
  {
  }

  lemma LeftSeen(w: Walk)
    requires w.stack != []
    ensures forall x :: Seen(Left(w), x) <==> Seen(w, x)
  {
    forall x ensures Seen(Left(w), x) <==> Seen(w, x) { StillSeen(w, x); }
  }

  /** A visit, seen from the manifest that it came from. */
  lemma AllFollowed(w0: Walk, w1: Walk, w2: Walk, w3: Walk, target: Path, a: seq<Dependency>, b: seq<Dependency>)
    requires Consistent(w0) && Top(w0) in w0.edges && w1 == Entered(w0, target) && target !in w0.stack
    requires Followed(w1, w2, Targets(a)) && Followed(w2, w3, Targets(b))
    ensures Top(w3) == target && target in w3.edges && w3.edges[target] == Targets(a + b)
    ensures |w3.stack| > 1 && w3.stack[..|w3.stack| - 1] == w0.stack && Followed(w0, Left(w3), [target])
  {
    hide Targets, Followed;
    TargetsOf(a, b);
    FollowedMore(w1, w2, w3, Targets(a), Targets(b));
    BackFrom(w0, w3, target, Targets(a + b));
  }

  lemma BackFrom(w0: Walk, w: Walk, target: Path, targets: seq<Path>)
    requires w0.stack != [] && Top(w0) in w0.edges && target !in w0.stack && Followed(Entered(w0, target), w, targets)
    ensures Top(w) == target && target in w.edges && w.edges[target] == targets
    ensures |w.stack| > 1 && w.stack[..|w.stack| - 1] == w0.stack && Followed(w0, Left(w), [target])
  {
    assert w.stack[..|w.stack| - 1] == w0.stack;
    assert target in w.stack && Top(w0) in w.stack;
    forall x | x in w0.stack ensures x in w.stack && x in w0.edges { assert x in Entered(w0, target).stack; }
  }

  lemma RootFollowed(w0: Walk, w: Walk, root: Path, targets: seq<Path>)
    requires w0 == Walk(map[root := []], [], [root]) && Followed(w0, w, targets)
    ensures root in w.edges && w.edges[root] == targets && w.stack == [root]
  {
    assert root in w.stack;
  }

  lemma {:induction false} SameNameOrder(a: seq<Candidate>, b: seq<Candidate>)
    requires |a| == |b| && forall i :: 0 <= i < |a| ==> a[i].name == b[i].name
    ensures NameOrder(a) == NameOrder(b)
  {
    if a != [] { SameNameOrder(a[..|a| - 1], b[..|a| - 1]); }
  }

  lemma NameOrderStep(ds: seq<Candidate>, c: Candidate)
    ensures NameOrder(ds + [c]) == (if c.name in NameOrder(ds) then NameOrder(ds) else NameOrder(ds) + [c.name])
  {
    assert (ds + [c])[..|ds|] == ds;
  }
}
