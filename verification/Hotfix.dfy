/**
 The module loader (lualib/hotfix.lua). `require` puts a placeholder proxy into package.loaded before it runs a file,
 so files may require each other in cycles. A file is a list of the paths its body requires and the way the body ends;
 pcall keeps a failing body from stopping the body that required it.
 */
module Hotfix {
  import opened Basics

  type Path = string

  datatype Outcome = Returned | Raised | NotTable

  datatype File = File(deps: seq<Path>, outcome: Outcome)

  type Files = map<Path, File>

  /** What package.loaded holds: a proxy of this loader in one of its three states, or a module loaded otherwise. */
  datatype Module = Foreign | Loading | Ready | Failed

  /** `started` and `finished` record the order in which bodies begin and end. */
  datatype State = State(loaded: map<Path, Module>, mods: set<Path>, started: seq<Path>, finished: seq<Path>)

  /** The files that have not been loaded yet: the measure of the search. */
  function Missing(files: Files, loaded: map<Path, Module>): nat {
    |files.Keys - loaded.Keys|
  }

  lemma MissingShrinks(files: Files, l0: map<Path, Module>, l1: map<Path, Module>)
    requires l0.Keys <= l1.Keys
    ensures Missing(files, l1) <= Missing(files, l0)
    ensures (exists p :: p in files && p !in l0 && p in l1) ==> Missing(files, l1) < Missing(files, l0)
  {
    var a, b := files.Keys - l0.Keys, files.Keys - l1.Keys;
    SubsetSize(b, a);
    if p :| p in files && p !in l0 && p in l1 {
      SubsetSize(b, a - {p});
    }
  }

  lemma {:induction false} SubsetSize(b: set<Path>, a: set<Path>)
    requires b <= a
    ensures |b| <= |a|
    decreases b
  {
    if p :| p in b {
      SubsetSize(b - {p}, a - {p});
    }
  }

  function Begin(s: State, path: Path): State {
    s.(loaded := s.loaded[path := Loading], started := s.started + [path])
  }

  function End(s: State, path: Path, outcome: Outcome): State {
    s.(loaded := s.loaded[path := if outcome.Returned? then Ready else Failed],
       mods := if outcome.Returned? then s.mods + {path} else s.mods,
       finished := s.finished + [path])
  }

  /** The state after `require(path)`. */
  function Load(files: Files, s: State, path: Path): (s': State)
    ensures s.loaded.Keys <= s'.loaded.Keys
    decreases Missing(files, s.loaded), 0
  {
    if path in s.loaded || path !in files then s
    else
      var s0 := Begin(s, path);
      MissingShrinks(files, s.loaded, s0.loaded);
      End(LoadAll(files, s0, files[path].deps), path, files[path].outcome)
  }

  function LoadAll(files: Files, s: State, deps: seq<Path>): (s': State)
    ensures s.loaded.Keys <= s'.loaded.Keys
    decreases Missing(files, s.loaded), |deps|
  {
    if deps == [] then s
    else
      var s1 := Load(files, s, deps[0]);
      MissingShrinks(files, s.loaded, s1.loaded);
      LoadAll(files, s1, deps[1..])
  }

  // ---------------------------------------------------------------- the graph

  /** A chain of requires from its first path to its last, all with files and none in `loaded`. */
  ghost predicate Chain(files: Files, loaded: set<Path>, c: seq<Path>) {
    && c != []
    && (forall i :: 0 <= i < |c| ==> c[i] in files && c[i] !in loaded)
    && (forall i :: 0 <= i < |c| - 1 ==> c[i + 1] in files[c[i]].deps)
  }

  ghost predicate Reaches(files: Files, loaded: set<Path>, p: Path, q: Path) {
    exists c :: Chain(files, loaded, c) && c[0] == p && c[|c| - 1] == q
  }

  lemma ReachesSelf(files: Files, loaded: set<Path>, p: Path)
    requires p in files && p !in loaded
    ensures Reaches(files, loaded, p, p)
  {
    assert Chain(files, loaded, [p]);
  }

  lemma ReachesMore(files: Files, loaded: set<Path>, more: set<Path>, p: Path, q: Path)
    requires loaded <= more && Reaches(files, more, p, q)
    ensures Reaches(files, loaded, p, q)
  {
    var c :| Chain(files, more, c) && c[0] == p && c[|c| - 1] == q;
    assert Chain(files, loaded, c);
  }

  lemma ReachesThrough(files: Files, loaded: set<Path>, p: Path, d: Path, q: Path)
    requires p in files && p !in loaded && d in files[p].deps && Reaches(files, loaded, d, q)
    ensures Reaches(files, loaded, p, q)
  {
    var c :| Chain(files, loaded, c) && c[0] == d && c[|c| - 1] == q;
    var c' := [p] + c;
    assert forall i :: 0 < i < |c'| ==> c'[i] == c[i - 1];
    assert Chain(files, loaded, c') && c'[|c'| - 1] == q;
  }

  // ---------------------------------------------------------------- what one require does

  /** The paths loaded on the way from `s` to `s'`. */
  function Added(s: State, s': State): set<Path> {
    s'.loaded.Keys - s.loaded.Keys
  }

  /** `q` ended before `p` did. */
  ghost predicate Before(order: seq<Path>, q: Path, p: Path) {
    exists i, j :: 0 <= i < j < |order| && order[i] == q && order[j] == p
  }

  /** Every added body ran once, was settled by its own outcome, and nothing else changed. */
  ghost predicate RanOnce(files: Files, s: State, s': State, began: seq<Path>, ended: seq<Path>) {
    && s'.started == s.started + began && s'.finished == s.finished + ended
    && Distinct(began) && Distinct(ended)
    && (forall p :: p in began <==> p in Added(s, s')) && (forall p :: p in ended <==> p in Added(s, s'))
    && (forall p :: p in Added(s, s') ==>
          p in files && s'.loaded[p] == if files[p].outcome.Returned? then Ready else Failed)
    && (forall p :: p in s.loaded ==> p in s'.loaded && s'.loaded[p] == s.loaded[p])
    && (forall p :: p in s'.mods <==> p in s.mods || (p in Added(s, s') && files[p].outcome.Returned?))
  }

  /** Every dependency with a file of an added body is loaded. */
  ghost predicate Closed(files: Files, s: State, s': State) {
    forall p, q :: p in Added(s, s') && p in files && q in files[p].deps && q in files ==> q in s'.loaded
  }

  lemma DistinctJoin(a: seq<Path>, b: seq<Path>)
    requires Distinct(a) && Distinct(b) && forall p :: p in a ==> p !in b
    ensures Distinct(a + b) && forall p :: p in a + b <==> p in a || p in b
  {
    forall i, j | 0 <= i < j < |a + b| ensures (a + b)[i] != (a + b)[j] {
      if i < |a| <= j {
        assert a[i] in a && b[j - |a|] in b;
      }
    }
  }

  lemma RanThen(files: Files, s: State, s1: State, s2: State, b1: seq<Path>, e1: seq<Path>, b2: seq<Path>,
        e2: seq<Path>)
    requires RanOnce(files, s, s1, b1, e1) && RanOnce(files, s1, s2, b2, e2)
    ensures RanOnce(files, s, s2, b1 + b2, e1 + e2)
  {
    assert Added(s, s2) == Added(s, s1) + Added(s1, s2);
    DistinctJoin(b1, b2);
    DistinctJoin(e1, e2);
    hide Distinct;
    assert s2.started == s.started + (b1 + b2) && s2.finished == s.finished + (e1 + e2);
  }

  lemma SameTail(q: seq<Path>, a: seq<Path>, b: seq<Path>)
    requires q + a == q + b
    ensures a == b
  {
    assert a == (q + a)[|q|..] && b == (q + b)[|q|..];
  }

  lemma Append3(q: seq<Path>, a: seq<Path>, b: seq<Path>)
    ensures q + a + b == q + (a + b)
  {
  }

  /** Wrapping the run of a body's requires by the begin and the end of the body itself. */
  lemma RanAround(files: Files, s: State, s1: State, path: Path, b: seq<Path>, e: seq<Path>)
    requires path in files && path !in s.loaded && RanOnce(files, Begin(s, path), s1, b, e)
    ensures RanOnce(files, s, End(s1, path, files[path].outcome), [path] + b, e + [path])
  {
    var s' := End(s1, path, files[path].outcome);
    assert Added(s, s') == Added(Begin(s, path), s1) + {path};
    assert forall p :: p in [path] + b <==> p == path || p in b;
    assert forall p :: p in e + [path] <==> p == path || p in e;
  }

  /** Bodies run at most once, and each ends as its own outcome says. */
  lemma {:induction false} LoadRuns(files: Files, s: State, path: Path) returns (b: seq<Path>, e: seq<Path>)
    ensures RanOnce(files, s, Load(files, s, path), b, e)
    decreases Missing(files, s.loaded), 0
  {
    if path in s.loaded || path !in files {
      b, e := [], [];
    } else {
      var s0 := Begin(s, path);
      MissingShrinks(files, s.loaded, s0.loaded);
      b, e := LoadAllRuns(files, s0, files[path].deps);
      RanAround(files, s, LoadAll(files, s0, files[path].deps), path, b, e);
      b, e := [path] + b, e + [path];
    }
  }

  lemma {:induction false} LoadAllRuns(files: Files, s: State, deps: seq<Path>) returns (b: seq<Path>, e: seq<Path>)
    ensures RanOnce(files, s, LoadAll(files, s, deps), b, e)
    decreases Missing(files, s.loaded), |deps|
  {
    if deps == [] {
      b, e := [], [];
    } else {
      var s1 := Load(files, s, deps[0]);
      MissingShrinks(files, s.loaded, s1.loaded);
      var b1, e1 := LoadRuns(files, s, deps[0]);
      var b2, e2 := LoadAllRuns(files, s1, deps[1..]);
      RanThen(files, s, s1, LoadAll(files, s, deps), b1, e1, b2, e2);
      b, e := b1 + b2, e1 + e2;
    }
  }

  lemma LoadNew(files: Files, s: State, path: Path)
    requires path !in s.loaded && path in files
    ensures Load(files, s, path) == End(LoadAll(files, Begin(s, path), files[path].deps), path, files[path].outcome)
    ensures Missing(files, Begin(s, path).loaded) < Missing(files, s.loaded)
  {
    MissingShrinks(files, s.loaded, Begin(s, path).loaded);
  }

  lemma ClosedAround(files: Files, s: State, s1: State, path: Path)
    requires path in files && path !in s.loaded && s.loaded.Keys <= s1.loaded.Keys && Closed(files, Begin(s, path), s1)
    requires forall q :: q in files[path].deps && q in files ==> q in s1.loaded
    ensures Closed(files, s, End(s1, path, files[path].outcome))
  {
  }

  lemma {:induction false} LoadCloses(files: Files, s: State, path: Path)
    ensures Closed(files, s, Load(files, s, path)) && (path in files ==> path in Load(files, s, path).loaded)
    decreases Missing(files, s.loaded), 0
  {
    if path !in s.loaded && path in files {
      hide Closed, LoadAll, Missing, Load;
      LoadNew(files, s, path);
      LoadAllCloses(files, Begin(s, path), files[path].deps);
      ClosedAround(files, s, LoadAll(files, Begin(s, path), files[path].deps), path);
    } else {
      LoadOld(files, s, path);
    }
  }

  lemma LoadOld(files: Files, s: State, path: Path)
    requires path in s.loaded || path !in files
    ensures Load(files, s, path) == s && Closed(files, s, s)
  {
  }

  lemma {:induction false} LoadAllCloses(files: Files, s: State, deps: seq<Path>)
    ensures Closed(files, s, LoadAll(files, s, deps))
    ensures forall q :: q in deps && q in files ==> q in LoadAll(files, s, deps).loaded
    decreases Missing(files, s.loaded), |deps|
  {
    if deps != [] {
      var s1 := Load(files, s, deps[0]);
      MissingShrinks(files, s.loaded, s1.loaded);
      LoadCloses(files, s, deps[0]);
      LoadAllCloses(files, s1, deps[1..]);
    }
  }

  lemma {:induction false} AddedReachable(files: Files, s: State, path: Path, p: Path)
    requires p in Added(s, Load(files, s, path))
    ensures Reaches(files, s.loaded.Keys, path, p)
    decreases Missing(files, s.loaded), 0
  {
    hide Reaches;
    var s0 := Begin(s, path);
    if p == path {
      ReachesSelf(files, s.loaded.Keys, p);
    } else {
      MissingShrinks(files, s.loaded, s0.loaded);
      var d := AllAddedReachable(files, s0, files[path].deps, p);
      ReachesMore(files, s.loaded.Keys, s0.loaded.Keys, d, p);
      ReachesThrough(files, s.loaded.Keys, path, d, p);
    }
  }

  lemma {:induction false} AllAddedReachable(files: Files, s: State, deps: seq<Path>, p: Path) returns (d: Path)
    requires p in Added(s, LoadAll(files, s, deps))
    ensures d in deps && Reaches(files, s.loaded.Keys, d, p)
    decreases Missing(files, s.loaded), |deps|
  {
    hide Reaches;
    var s1 := Load(files, s, deps[0]);
    MissingShrinks(files, s.loaded, s1.loaded);
    if p in s1.loaded {
      d := deps[0];
      AddedReachable(files, s, d, p);
    } else {
      d := AllAddedReachable(files, s1, deps[1..], p);
      ReachesMore(files, s.loaded.Keys, s1.loaded.Keys, d, p);
    }
  }

  lemma {:induction false} ClosedChain(files: Files, s: State, s': State, c: seq<Path>)
    requires Closed(files, s, s') && Chain(files, s.loaded.Keys, c) && c[0] in s'.loaded
    ensures c[|c| - 1] in s'.loaded
    decreases |c|
  {
    if |c| > 1 {
      assert c[1] in files[c[0]].deps;
      assert Chain(files, s.loaded.Keys, c[1..]);
      ClosedChain(files, s, s', c[1..]);
    }
  }

  /**
   Loading is a correct depth-first search of a possibly cyclic graph: it terminates, and the paths it adds to
   package.loaded are exactly those reachable from the root through files that were not loaded before.
   */
  lemma LoadsReachable(files: Files, s: State, path: Path, p: Path)
    ensures p in Added(s, Load(files, s, path)) <==> Reaches(files, s.loaded.Keys, path, p)
  {
    var s' := Load(files, s, path);
    if p in Added(s, s') {
      AddedReachable(files, s, path, p);
    }
    if Reaches(files, s.loaded.Keys, path, p) {
      var c :| Chain(files, s.loaded.Keys, c) && c[0] == path && c[|c| - 1] == p;
      LoadCloses(files, s, path);
      ClosedChain(files, s, s', c);
    }
  }

  /**
   Each body runs at most once, none is left half loaded, the registered modules are the ones whose bodies returned a
   table, and what was loaded before is untouched.
   */
  lemma LoadRunsOnce(files: Files, s: State, path: Path)
    requires Distinct(s.started) && forall p :: p in s.started ==> p in s.loaded
    ensures var s' := Load(files, s, path);
            && Distinct(s'.started) && (forall p :: p in s'.started <==> p in s.started || p in Added(s, s'))
            && (forall p :: p in s'.loaded && s'.loaded[p].Loading? ==> p in s.loaded && s.loaded[p].Loading?)
            && (forall p :: p in Added(s, s') ==> p in files && (s'.loaded[p].Ready? <==> files[p].outcome.Returned?))
            && (forall p :: p in s'.mods <==> p in s.mods || (p in Added(s, s') && s'.loaded[p].Ready?))
            && (forall p :: p in s.loaded ==> p in s'.loaded && s'.loaded[p] == s.loaded[p])
  {
    var b, e := LoadRuns(files, s, path);
    hide Load;
    DistinctJoin(s.started, b);
  }

  /** For a dependency `q` of an added `p`: `q` was there before, or it ended first, or it led to `p` itself. */
  ghost predicate Ordered(files: Files, s: State, s': State, ended: seq<Path>) {
    forall p, q :: p in Added(s, s') && p in files && q in files[p].deps && q in files ==>
      q in s.loaded || Before(ended, q, p) || Reaches(files, s.loaded.Keys, q, p)
  }

  lemma BeforeGrows(a: seq<Path>, b: seq<Path>, c: seq<Path>, q: Path, p: Path)
    requires Before(b, q, p)
    ensures Before(a + b + c, q, p)
  {
    var i, j :| 0 <= i < j < |b| && b[i] == q && b[j] == p;
    var d := a + b + c;
    assert d[|a| + i] == q && d[|a| + j] == p;
  }

  lemma BeforeSplit(a: seq<Path>, b: seq<Path>, q: Path, p: Path)
    requires q in a && p in b
    ensures Before(a + b, q, p)
  {
    var i :| 0 <= i < |a| && a[i] == q;
    var j :| 0 <= j < |b| && b[j] == p;
    assert (a + b)[i] == q && (a + b)[|a| + j] == p;
  }

  lemma {:induction false} LoadOrders(files: Files, s: State, path: Path) returns (e: seq<Path>)
    ensures Load(files, s, path).finished == s.finished + e && Ordered(files, s, Load(files, s, path), e)
    decreases Missing(files, s.loaded), 0
  {
    if path in s.loaded || path !in files {
      e := [];
      LoadOld(files, s, path);
    } else {
      hide Ordered, Reaches, Before, Load, LoadAll, Missing, Closed, Distinct;
      var s0 := Begin(s, path);
      LoadNew(files, s, path);
      var s1 := LoadAll(files, s0, files[path].deps);
      var e1 := LoadAllOrders(files, s0, files[path].deps);
      var b2, e2 := LoadAllRuns(files, s0, files[path].deps);
      SameTail(s.finished, e1, e2);
      LoadAllCloses(files, s0, files[path].deps);
      e := e1 + [path];
      assert s1.finished + [path] == s.finished + e;
      OrderedAround(files, s, s1, path, e1);
    }
  }

  lemma OrderedAround(files: Files, s: State, s1: State, path: Path, e1: seq<Path>)
    requires path in files && path !in s.loaded && s.loaded.Keys <= s1.loaded.Keys
        && Ordered(files, Begin(s, path), s1, e1)
    requires forall x :: x in e1 <==> x in Added(Begin(s, path), s1)
    requires forall x :: x in files[path].deps && x in files ==> x in s1.loaded
    requires s1 == LoadAll(files, Begin(s, path), files[path].deps)
    ensures Ordered(files, s, End(s1, path, files[path].outcome), e1 + [path])
  {
    hide Reaches, Before, Load, LoadAll;
    var s' := End(s1, path, files[path].outcome);
    LoadNew(files, s, path);
    forall p, q | p in Added(s, s') && p in files && q in files[p].deps && q in files && q !in s.loaded
      ensures Before(e1 + [path], q, p) || Reaches(files, s.loaded.Keys, q, p)
    {
      hide Ordered;
      AddedReachable(files, s, path, p);
      AroundStep(files, s, s1, path, e1, p, q);
    }
  }

  lemma AroundStep(files: Files, s: State, s1: State, path: Path, e1: seq<Path>, p: Path, q: Path)
    requires Ordered(files, Begin(s, path), s1, e1) && s.loaded.Keys <= s1.loaded.Keys && path in files
    requires forall x :: x in e1 <==> x in Added(Begin(s, path), s1)
    requires forall x :: x in files[path].deps && x in files ==> x in s1.loaded
    requires (p == path || p in Added(Begin(s, path), s1)) && Reaches(files, s.loaded.Keys, path, p)
    requires p in files && q in files[p].deps && q in files && q !in s.loaded
    ensures Before(e1 + [path], q, p) || Reaches(files, s.loaded.Keys, q, p)
  {
    hide Reaches, Before;
    if q == path {
    } else if p == path {
      BeforeSplit(e1, [path], q, p);
    } else if Before(e1, q, p) {
      BeforeGrows([], e1, [path], q, p);
      assert [] + e1 + [path] == e1 + [path];
    } else {
      ReachesMore(files, s.loaded.Keys, Begin(s, path).loaded.Keys, q, p);
    }
  }

  lemma {:induction false} LoadAllOrders(files: Files, s: State, deps: seq<Path>) returns (e: seq<Path>)
    ensures LoadAll(files, s, deps).finished == s.finished + e && Ordered(files, s, LoadAll(files, s, deps), e)
    decreases Missing(files, s.loaded), |deps|
  {
    if deps == [] {
      e := [];
    } else {
      var s1, s2 := Load(files, s, deps[0]), LoadAll(files, s, deps);
      assert s2 == LoadAll(files, s1, deps[1..]);
      MissingShrinks(files, s.loaded, s1.loaded);
      var e1 := LoadOrders(files, s, deps[0]);
      var e2 := LoadAllOrders(files, s1, deps[1..]);
      e := e1 + e2;
      hide Ordered, Before, Reaches, Load, LoadAll, Distinct;
      var b3, e3 := LoadRuns(files, s, deps[0]);
      var b4, e4 := LoadAllRuns(files, s1, deps[1..]);
      SameTail(s.finished, e1, e3);
      SameTail(s1.finished, e2, e4);
      Append3(s.finished, e1, e2);
      assert Ordered(files, s, s2, e) by {
        AllOrdered(files, s, s1, s2, e1, e2);
      }
    }
  }

  lemma AllOrdered(files: Files, s: State, s1: State, s2: State, e1: seq<Path>, e2: seq<Path>)
    requires s.loaded.Keys <= s1.loaded.Keys && Ordered(files, s, s1, e1) && Ordered(files, s1, s2, e2)
    requires forall x :: x in e1 <==> x in Added(s, s1)
    requires forall x :: x in e2 <==> x in Added(s1, s2)
    ensures Ordered(files, s, s2, e1 + e2)
  {
    hide Before, Reaches;
    forall p, q | p in Added(s, s2) && p in files && q in files[p].deps && q in files && q !in s.loaded
      ensures Before(e1 + e2, q, p) || Reaches(files, s.loaded.Keys, q, p)
    {
      hide Ordered;
      AllStep(files, s, s1, s2, e1, e2, p, q);
    }
  }

  lemma AllStep(files: Files, s: State, s1: State, s2: State, e1: seq<Path>, e2: seq<Path>, p: Path, q: Path)
    requires s.loaded.Keys <= s1.loaded.Keys && Ordered(files, s, s1, e1) && Ordered(files, s1, s2, e2)
    requires forall x :: x in e1 <==> x in Added(s, s1)
    requires forall x :: x in e2 <==> x in Added(s1, s2)
    requires p in Added(s, s2) && p in files && q in files[p].deps && q in files && q !in s.loaded
    ensures Before(e1 + e2, q, p) || Reaches(files, s.loaded.Keys, q, p)
  {
    hide Reaches, Before;
    if p in s1.loaded {
      if Before(e1, q, p) {
        BeforeGrows([], e1, e2, q, p);
        assert [] + e1 + e2 == e1 + e2;
      }
    } else if q in s1.loaded {
      BeforeSplit(e1, e2, q, p);
    } else if Before(e2, q, p) {
      BeforeGrows(e1, e2, [], q, p);
      assert e1 + e2 + [] == e1 + e2;
    } else {
      ReachesMore(files, s.loaded.Keys, s1.loaded.Keys, q, p);
    }
  }

  /**
   Dependencies come first: when a body has ended, each file it requires was loaded before, or has ended earlier, or
   is part of a cycle with it. Without cycles no body ever sees a half-loaded module.
   */
  lemma DependenciesFirst(files: Files, s: State, path: Path, p: Path, q: Path) returns (ended: seq<Path>)
    requires p in Added(s, Load(files, s, path)) && p in files && q in files[p].deps && q in files
    ensures Load(files, s, path).finished == s.finished + ended
    ensures q in s.loaded || Before(ended, q, p) || Reaches(files, s.loaded.Keys, q, p)
  {
    ended := LoadOrders(files, s, path);
  }

  // ---------------------------------------------------------------- the order of the requires

  lemma {:induction false} LoadAllJoin(files: Files, s: State, a: seq<Path>, b: seq<Path>)
    ensures LoadAll(files, s, a + b) == LoadAll(files, LoadAll(files, s, a), b)
    decreases |a|
  {
    hide Load;
    if a == [] {
      assert a + b == b;
    } else {
      assert (a + b)[1..] == a[1..] + b;
      LoadAllJoin(files, Load(files, s, a[0]), a[1..], b);
    }
  }

  /** What is loaded later starts later. */
  lemma LaterStarts(s: State, s1: State, s2: State, b1: seq<Path>, b2: seq<Path>, p: Path, q: Path)
    requires s1.started == s.started + b1 && s2.started == s1.started + b2 && p in b1 && q in b2
    ensures Before(s2.started, p, q)
  {
    var i :| 0 <= i < |b1| && b1[i] == p;
    var j :| 0 <= j < |b2| && b2[j] == q;
    assert s2.started[|s.started| + i] == p && s2.started[|s.started| + |b1| + j] == q;
  }

  /** The body required starts before everything that is loaded for it. */
  lemma RootStarts(files: Files, s: State, path: Path, q: Path)
    requires path in files && path !in s.loaded && q in Added(s, Load(files, s, path)) && q != path
    ensures Before(Load(files, s, path).started, path, q)
  {
    var s0 := Begin(s, path);
    var s1 := LoadAll(files, s0, files[path].deps);
    var b, e := LoadAllRuns(files, s0, files[path].deps);
    assert q in Added(s0, s1);
    hide LoadAll;
    LaterStarts(s, s0, s1, [path], b, path, q);
    LoadIs(files, s, path, s1);
  }

  /** What is before stays before. */
  lemma StaysBefore(a: seq<Path>, b: seq<Path>, p: Path, q: Path)
    requires Before(a, p, q)
    ensures Before(a + b, p, q)
  {
    var i, j :| 0 <= i < j < |a| && a[i] == p && a[j] == q;
    assert (a + b)[i] == p && (a + b)[j] == q;
  }

  /**
   A body's requires are loaded in the order in which it makes them: of two files it is the first to need, the one
   required first starts first, unless a require made before both led to the other.
   */
  lemma RequiresInOrder(files: Files, s: State, path: Path, i: nat, j: nat)
    requires path in files && path !in s.loaded && i < j < |files[path].deps|
    requires var p, q := files[path].deps[i], files[path].deps[j];
             && p in files && q in files && p !in s.loaded && q !in s.loaded && p != path && q != path && p != q
    ensures var p, q := files[path].deps[i], files[path].deps[j];
            || Before(Load(files, s, path).started, p, q)
            || exists h :: 0 <= h < i && Reaches(files, s.loaded.Keys, files[path].deps[h], q)
  {
    var deps, s0 := files[path].deps, Begin(s, path);
    var p, q := deps[i], deps[j];
    var a, b := deps[..i], deps[i + 1..];
    var si := LoadAll(files, s0, a);
    var s1 := Load(files, si, p);
    var s2 := LoadAll(files, s1, b);
    SplitAt(files, s0, deps, i);
    var bi, ei := LoadAllRuns(files, s0, a);
    var b1, e1 := LoadRuns(files, si, p);
    var b2, e2 := LoadAllRuns(files, s1, b);
    LoadAllCloses(files, s1, b);
    assert q in b by {
      assert b[j - i - 1] == q;
    }
    LoadIs(files, s, path, s2);
    hide LoadAll, Load, Reaches, Chain;
    if q in si.loaded {
      var d := AllAddedReachable(files, s0, a, q);
      ReachesMore(files, s.loaded.Keys, s0.loaded.Keys, d, q);
      var h :| 0 <= h < |a| && a[h] == d;
      assert deps[h] == d;
    } else if p in si.loaded {
      StartedBefore(files, s0, si, s1, s2, bi, b1, b2, p, q);
    } else if q in s1.loaded {
      RootStarts(files, si, p, q);
      StaysBefore(s1.started, b2, p, q);
    } else {
      FileLoads(files, si, p);
      LaterStarts(si, s1, s2, b1, b2, p, q);
    }
  }

  lemma SplitAt(files: Files, s: State, deps: seq<Path>, i: nat)
    requires i < |deps|
    ensures LoadAll(files, s, deps) == LoadAll(files, Load(files, LoadAll(files, s, deps[..i]), deps[i]), deps[i + 1..])
  {
    assert deps == deps[..i] + deps[i..];
    LoadAllJoin(files, s, deps[..i], deps[i..]);
    assert deps[i..][1..] == deps[i + 1..];
  }

  lemma FileLoads(files: Files, s: State, path: Path)
    requires path in files && path !in s.loaded
    ensures path in Added(s, Load(files, s, path))
  {
  }

  lemma StartedBefore(files: Files, s0: State, si: State, s1: State, s2: State, bi: seq<Path>, b1: seq<Path>,
      b2: seq<Path>, p: Path, q: Path)
    requires s1.started == si.started + b1 && s2.started == s1.started + b2 && si.started == s0.started + bi
    requires p in bi && q in b1 + b2
    ensures Before(s2.started, p, q)
  {
    assert s2.started == si.started + (b1 + b2);
    LaterStarts(s0, si, s2, bi, b1 + b2, p, q);
  }

  lemma LoadIs(files: Files, s: State, path: Path, s2: State)
    requires path in files && path !in s.loaded && s2 == LoadAll(files, Begin(s, path), files[path].deps)
    ensures Load(files, s, path).started == s2.started
  {
  }

  // ---------------------------------------------------------------- the mutable loader

  class Loader {
    const files: Files
    var loaded: map<Path, Module>
    var mods: set<Path>
    var started: seq<Path>
    var finished: seq<Path>

    function View(): State
      reads this
    {
      State(loaded, mods, started, finished)
    }

    constructor (files: Files, preloaded: set<Path>)
      ensures this.files == files
      ensures View() == State(map p | p in preloaded :: Foreign, {}, [], [])
    {
      this.files := files;
      loaded, mods, started, finished := map p | p in preloaded :: Foreign, {}, [], [];
    }

    /**
     `require`: a path loaded before, even by a body that failed, gives its module; the call that runs a failing body
     gives nil, and so does a path without a file.
     */
    method Require(path: Path) returns (found: bool)
      modifies this
      ensures View() == Load(files, old(View()), path)
      ensures found <==> path in old(loaded) || (path in files && files[path].outcome.Returned?)
      decreases Missing(files, loaded)
    {
      if path in loaded {
        return true;
      }
      if path !in files {
        return false;
      }
      MissingShrinks(files, loaded, loaded[path := Loading]);
      loaded, started := loaded[path := Loading], started + [path];
      var file := files[path];
      ghost var s0 := View();
      for i := 0 to |file.deps|
        invariant s0.loaded.Keys <= loaded.Keys
        invariant LoadAll(files, View(), file.deps[i..]) == LoadAll(files, s0, file.deps)
      {
        assert file.deps[i..][1..] == file.deps[i + 1..];
        MissingShrinks(files, s0.loaded, loaded);
        var _ := Require(file.deps[i]);
      }
      finished := finished + [path];
      if !file.outcome.Returned? {
        loaded := loaded[path := Failed];
        return false;
      }
      loaded := loaded[path := Ready];
      mods := mods + {path};
      found := true;
    }
  }
}
