/** Splitting a source file: functions that share a dependency name stay together, found with a disjoint-set forest;
    the resulting sets are dealt out to chunks, largest first, each to the chunk that is smallest so far. */
module SourceSplit {

  // ---------------------------------------------------------------------------------------------------------
  // The forest
  // ---------------------------------------------------------------------------------------------------------

  /** Ranks that grow towards the root show that climbing ends. They are not part of the data. */
  ghost predicate Forest(p: seq<nat>, rank: seq<nat>, top: nat)
  {
    && |p| == |rank|
    && forall x :: 0 <= x < |p| ==> p[x] < |p| && rank[x] <= top && (p[x] != x ==> rank[x] < rank[p[x]])
  }

  ghost function Root(p: seq<nat>, rank: seq<nat>, top: nat, x: nat): (r: nat)
    requires Forest(p, rank, top) && x < |p|
    ensures r < |p| && p[r] == r
    decreases top - rank[x]
  {
    if p[x] == x then x else Root(p, rank, top, p[x])
  }

  lemma {:induction false} RankBelowRoot(p: seq<nat>, rank: seq<nat>, top: nat, x: nat)
    requires Forest(p, rank, top) && x < |p|
    ensures var r := Root(p, rank, top, x); x == r || rank[x] < rank[r]
    decreases top - rank[x]
  {
    if p[x] != x { RankBelowRoot(p, rank, top, p[x]); }
  }

  /** Pointing a node at its root changes no root. */
  lemma {:induction false} CompressKeeps(p: seq<nat>, rank: seq<nat>, top: nat, x: nat, z: nat)
    requires Forest(p, rank, top) && x < |p| && z < |p|
    ensures var p' := p[x := Root(p, rank, top, x)];
            Forest(p', rank, top) && Root(p', rank, top, z) == Root(p, rank, top, z)
    decreases top - rank[z]
  {
    var r := Root(p, rank, top, x);
    var p' := p[x := r];
    RankBelowRoot(p, rank, top, x);
    if z == x {
      assert Root(p', rank, top, r) == r;
    } else if p[z] != z {
      CompressKeeps(p, rank, top, x, p[z]);
    }
  }

  /** Pointing one root at another joins their two sets and changes no other. */
  lemma {:induction false} LinkJoins(p: seq<nat>, rank: seq<nat>, top: nat, x: nat, y: nat, z: nat)
    requires Forest(p, rank, top) && x < |p| && y < |p| && p[x] == x && p[y] == y && x != y && z < |p|
    ensures var p', rank' := p[x := y], rank[y := top + 1];
            && Forest(p', rank', top + 1)
            && Root(p', rank', top + 1, z) == if Root(p, rank, top, z) == x then y else Root(p, rank, top, z)
    decreases top - rank[z]
  {
    var p', rank' := p[x := y], rank[y := top + 1];
    if z == x {
      assert Root(p', rank', top + 1, y) == y;
    } else if p[z] != z {
      LinkJoins(p, rank, top, x, y, p[z]);
    }
  }

  ghost predicate SameRoots(p: seq<nat>, p': seq<nat>, rank: seq<nat>, top: nat)
  {
    && Forest(p, rank, top) && Forest(p', rank, top)
    && forall z :: 0 <= z < |p| ==> Root(p', rank, top, z) == Root(p, rank, top, z)
  }

  method Find(parents: array<nat>, x: nat, ghost rank: seq<nat>, ghost top: nat) returns (r: nat)
    requires Forest(parents[..], rank, top) && x < parents.Length
    modifies parents
    ensures SameRoots(old(parents[..]), parents[..], rank, top) && r == Root(old(parents[..]), rank, top, x)
    decreases top - rank[x]
  {
    if parents[x] != x {
      r := Find(parents, parents[x], rank, top);
      ghost var p := parents[..];
      assert Root(p, rank, top, x) == Root(old(parents[..]), rank, top, x);
      parents[x] := r;
      assert parents[..] == p[x := r];
      forall z | 0 <= z < |p|
        ensures Forest(p[x := r], rank, top) && Root(p[x := r], rank, top, z) == Root(p, rank, top, z)
      {
        CompressKeeps(p, rank, top, x, z);
      }
    } else {
      r := x;
    }
  }

  /** Two nodes are in one set. */
  ghost predicate Together(p: seq<nat>, rank: seq<nat>, top: nat, a: nat, b: nat)
    requires Forest(p, rank, top) && a < |p| && b < |p|
  {
    Root(p, rank, top, a) == Root(p, rank, top, b)
  }

  /** Joins two sets; `coin` decides which root is pointed at the other. */
  method Union(parents: array<nat>, x: nat, y: nat, coin: bool, ghost rank: seq<nat>, ghost top: nat)
    returns (ghost rank': seq<nat>, ghost top': nat)
    requires Forest(parents[..], rank, top) && x < parents.Length && y < parents.Length
    modifies parents
    ensures Forest(parents[..], rank', top')
    ensures forall a, b :: 0 <= a < parents.Length && 0 <= b < parents.Length ==>
              (Together(parents[..], rank', top', a, b) <==>
                 || Together(old(parents[..]), rank, top, a, b)
                 || (Together(old(parents[..]), rank, top, a, x) && Together(old(parents[..]), rank, top, y, b))
                 || (Together(old(parents[..]), rank, top, a, y) && Together(old(parents[..]), rank, top, x, b)))
  {
    var u := Find(parents, x, rank, top);
    var v := Find(parents, y, rank, top);
    rank', top' := rank, top;
    if u != v {
      if coin {
        rank', top' := Link(parents, u, v, rank, top);
      } else {
        rank', top' := Link(parents, v, u, rank, top);
      }
    }
  }

  method Link(parents: array<nat>, u: nat, v: nat, ghost rank: seq<nat>, ghost top: nat)
    returns (ghost rank': seq<nat>, ghost top': nat)
    requires Forest(parents[..], rank, top) && u < parents.Length && v < parents.Length
    requires u != v && parents[u] == u && parents[v] == v
    modifies parents
    ensures Forest(parents[..], rank', top')
    ensures forall z :: 0 <= z < parents.Length ==>
              Root(parents[..], rank', top', z)
              == (var r := Root(old(parents[..]), rank, top, z); if r == u then v else r)
  {
    ghost var p := parents[..];
    parents[u] := v;
    rank', top' := rank[v := top + 1], top + 1;
    assert parents[..] == p[u := v];
    LinkJoins(p, rank, top, u, v, 0);
    forall z | 0 <= z < |p|
      ensures Root(parents[..], rank', top', z) == if Root(p, rank, top, z) == u then v else Root(p, rank, top, z)
    {
      LinkJoins(p, rank, top, u, v, z);
    }
  }

  // ---------------------------------------------------------------------------------------------------------
  // Functions that belong together
  // ---------------------------------------------------------------------------------------------------------

  /** `names[i]` are the dependency names found in function `i`. */
  ghost predicate Linked(names: seq<seq<nat>>, a: nat, b: nat)
  {
    a < |names| && b < |names| && exists m :: m in names[a] && m in names[b]
  }

  ghost predicate ConnectedIn(names: seq<seq<nat>>, k: nat, a: nat, b: nat)
  {
    if k == 0 then a == b else exists c :: Linked(names, a, c) && ConnectedIn(names, k - 1, c, b)
  }

  /** There is a chain of functions in which neighbours share a name. */
  ghost predicate Connected(names: seq<seq<nat>>, a: nat, b: nat)
  {
    exists k :: ConnectedIn(names, k, a, b)
  }

  lemma {:induction false} ChainsJoin(names: seq<seq<nat>>, k: nat, l: nat, a: nat, b: nat, c: nat)
    requires ConnectedIn(names, k, a, b) && ConnectedIn(names, l, b, c)
    ensures ConnectedIn(names, k + l, a, c)
    decreases k
  {
    if k > 0 {
      var d :| Linked(names, a, d) && ConnectedIn(names, k - 1, d, b);
      ChainsJoin(names, k - 1, l, d, b, c);
      assert ConnectedIn(names, k - 1 + l, d, c);
    }
  }

  lemma {:induction false} ChainReverses(names: seq<seq<nat>>, k: nat, a: nat, b: nat)
    requires ConnectedIn(names, k, a, b)
    ensures ConnectedIn(names, k, b, a)
  {
    if k > 0 {
      var d :| Linked(names, a, d) && ConnectedIn(names, k - 1, d, b);
      ChainReverses(names, k - 1, d, b);
      assert ConnectedIn(names, 0, a, a) && Linked(names, d, a);
      assert ConnectedIn(names, 1, d, a);
      ChainsJoin(names, k - 1, 1, b, d, a);
    }
  }

  lemma ConnectedTransitive(names: seq<seq<nat>>, a: nat, b: nat, c: nat)
    requires Connected(names, a, b) && Connected(names, b, c)
    ensures Connected(names, a, c)
  {
    var k :| ConnectedIn(names, k, a, b);
    var l :| ConnectedIn(names, l, b, c);
    ChainsJoin(names, k, l, a, b, c);
  }

  lemma ConnectedSymmetric(names: seq<seq<nat>>, a: nat, b: nat)
    requires Connected(names, a, b)
    ensures Connected(names, b, a)
  {
    var k :| ConnectedIn(names, k, a, b);
    ChainReverses(names, k, a, b);
  }

  lemma LinkedConnected(names: seq<seq<nat>>, a: nat, b: nat)
    requires Linked(names, a, b)
    ensures Connected(names, a, b)
  {
    assert ConnectedIn(names, 0, b, b);
    assert ConnectedIn(names, 1, a, b);
  }

  /** The functions of every name, in order of appearance. */
  method BuildDeps(names: seq<seq<nat>>) returns (deps: map<nat, seq<nat>>)
    ensures forall m, i :: m in deps && 0 <= i < |deps[m]| ==> deps[m][i] < |names| && m in names[deps[m][i]]
    ensures forall i, m :: 0 <= i < |names| && m in names[i] ==> m in deps && i in deps[m]
    ensures forall m :: m in deps ==> deps[m] != []
  {
    deps := map[];
    var i := 0;
    while i < |names|
      invariant 0 <= i <= |names|
      invariant forall m, k :: m in deps && 0 <= k < |deps[m]| ==> deps[m][k] < |names| && m in names[deps[m][k]]
      invariant forall k, m :: 0 <= k < i && m in names[k] ==> m in deps && k in deps[m]
      invariant forall m :: m in deps ==> deps[m] != []
    {
      var j := 0;
      while j < |names[i]|
        invariant 0 <= j <= |names[i]|
        invariant forall m, k :: m in deps && 0 <= k < |deps[m]| ==> deps[m][k] < |names| && m in names[deps[m][k]]
        invariant forall k, m :: 0 <= k < i && m in names[k] ==> m in deps && k in deps[m]
        invariant forall k :: 0 <= k < j ==> names[i][k] in deps && i in deps[names[i][k]]
        invariant forall m :: m in deps ==> deps[m] != []
      {
        var name := names[i][j];
        var former := if name in deps then deps[name] else [];
        deps := deps[name := former + [i]];
        j := j + 1;
      }
      i := i + 1;
    }
  }

  /** No set contains functions that are not connected. */
  ghost predicate Justified(names: seq<seq<nat>>, p: seq<nat>, rank: seq<nat>, top: nat)
  {
    && |p| == |names| && Forest(p, rank, top)
    && forall a, b :: 0 <= a < |p| && 0 <= b < |p| && Together(p, rank, top, a, b) ==> Connected(names, a, b)
  }

  /** All functions with this name are in one set. */
  ghost predicate Gathered(p: seq<nat>, rank: seq<nat>, top: nat, ids: seq<nat>)
    requires Forest(p, rank, top)
  {
    && (forall i :: 0 <= i < |ids| ==> ids[i] < |p|)
    && (forall i :: 0 <= i < |ids| ==> Together(p, rank, top, ids[0], ids[i]))
  }

  /** A step that keeps sets together. */
  ghost predicate Coarser(p: seq<nat>, rank: seq<nat>, top: nat, p': seq<nat>, rank': seq<nat>, top': nat)
  {
    && Forest(p, rank, top) && Forest(p', rank', top') && |p| == |p'|
    && forall a, b :: 0 <= a < |p| && 0 <= b < |p| && Together(p, rank, top, a, b) ==> Together(p', rank', top', a, b)
  }

  method UniteLinked(names: seq<seq<nat>>, parents: array<nat>, x: nat, y: nat, coin: bool, ghost rank: seq<nat>,
                     ghost top: nat)
    returns (ghost rank': seq<nat>, ghost top': nat)
    requires Justified(names, parents[..], rank, top) && Linked(names, x, y)
    modifies parents
    ensures Justified(names, parents[..], rank', top') && Coarser(old(parents[..]), rank, top, parents[..], rank', top')
    ensures Together(parents[..], rank', top', x, y)
  {
    ghost var p := parents[..];
    rank', top' := Union(parents, x, y, coin, rank, top);
    hide Linked, Connected, Root;
    ghost var n := parents.Length;
    forall a, b | 0 <= a < n && 0 <= b < n && Together(parents[..], rank', top', a, b) ensures Connected(names, a, b) {
      LinkedConnected(names, x, y);
      ConnectedSymmetric(names, x, y);
      if Together(p, rank, top, a, b) {
      } else if Together(p, rank, top, a, x) && Together(p, rank, top, y, b) {
        ConnectedTransitive(names, a, x, y);
        ConnectedTransitive(names, a, y, b);
      } else {
        ConnectedTransitive(names, a, y, x);
        ConnectedTransitive(names, a, x, b);
      }
    }
    assert Together(p, rank, top, x, x) && Together(p, rank, top, y, y);
  }

  /** Joins the first function of a name with every function of the name. */
  method UniteName(names: seq<seq<nat>>, m: nat, ids: seq<nat>, parents: array<nat>, coins: nat -> bool,
                   ghost rank: seq<nat>, ghost top: nat)
    returns (ghost rank': seq<nat>, ghost top': nat)
    requires Justified(names, parents[..], rank, top)
    requires forall i :: 0 <= i < |ids| ==> ids[i] < |names| && m in names[ids[i]]
    modifies parents
    ensures Justified(names, parents[..], rank', top') && Coarser(old(parents[..]), rank, top, parents[..], rank', top')
    ensures Gathered(parents[..], rank', top', ids)
  {
    rank', top' := rank, top;
    var i := 0;
    while i < |ids|
      invariant 0 <= i <= |ids|
      invariant Justified(names, parents[..], rank', top')
      invariant Coarser(old(parents[..]), rank, top, parents[..], rank', top')
      invariant forall j :: 0 <= j < i ==> Together(parents[..], rank', top', ids[0], ids[j])
    {
      hide Root, Connected;
      assert Linked(names, ids[0], ids[i]);
      rank', top' := UniteLinked(names, parents, ids[0], ids[i], coins(i), rank', top');
      i := i + 1;
    }
  }

  lemma CoarserGathers(p: seq<nat>, rank: seq<nat>, top: nat, p': seq<nat>, rank': seq<nat>, top': nat, ids: seq<nat>)
    requires Coarser(p, rank, top, p', rank', top') && Gathered(p, rank, top, ids)
    ensures Gathered(p', rank', top', ids)
  {
  }

  lemma {:induction false} ChainTogether(names: seq<seq<nat>>, p: seq<nat>, rank: seq<nat>, top: nat, k: nat, a: nat,
                                         b: nat)
    requires Forest(p, rank, top) && |p| == |names| && a < |p| && ConnectedIn(names, k, a, b)
    requires forall c: nat, d: nat :: Linked(names, c, d) ==> Together(p, rank, top, c, d)
    ensures b < |p| && Together(p, rank, top, a, b)
    decreases k
  {
    if k > 0 {
      var c :| Linked(names, a, c) && ConnectedIn(names, k - 1, c, b);
      ChainTogether(names, p, rank, top, k - 1, c, b);
    }
  }

  ghost predicate Exact(names: seq<seq<nat>>, p: seq<nat>, rank: seq<nat>, top: nat)
  {
    && |p| == |names| && Forest(p, rank, top)
    && forall a, b :: 0 <= a < |p| && 0 <= b < |p| ==> (Together(p, rank, top, a, b) <==> Connected(names, a, b))
  }

  lemma AllGathered(names: seq<seq<nat>>, deps: map<nat, seq<nat>>, p: seq<nat>, rank: seq<nat>, top: nat)
    requires Justified(names, p, rank, top)
    requires forall m :: m in deps ==> Gathered(p, rank, top, deps[m])
    requires forall i, m :: 0 <= i < |names| && m in names[i] ==> m in deps && i in deps[m]
    ensures Exact(names, p, rank, top)
  {
    forall c: nat, d: nat | Linked(names, c, d) ensures Together(p, rank, top, c, d) {
      var m :| m in names[c] && m in names[d];
      assert Gathered(p, rank, top, deps[m]);
      var i :| 0 <= i < |deps[m]| && deps[m][i] == c;
      var j :| 0 <= j < |deps[m]| && deps[m][j] == d;
    }
    forall a, b | 0 <= a < |p| && 0 <= b < |p| && Connected(names, a, b) ensures Together(p, rank, top, a, b) {
      var k :| ConnectedIn(names, k, a, b);
      ChainTogether(names, p, rank, top, k, a, b);
    }
  }

  /** Two functions end up in one set exactly if they are connected, whatever the coins. */
  method Unite(names: seq<seq<nat>>, coins: (nat, nat) -> bool)
    returns (parents: array<nat>, ghost rank: seq<nat>, ghost top: nat)
    ensures fresh(parents) && Exact(names, parents[..], rank, top)
  {
    var deps := BuildDeps(names);
    parents := new nat[|names|](i => i);
    rank, top := seq(|names|, i => 0), 0;
    forall a, b | 0 <= a < |names| && 0 <= b < |names| && Together(parents[..], rank, top, a, b)
      ensures Connected(names, a, b)
    {
      assert ConnectedIn(names, 0, a, a);
    }
    var left := deps.Keys;
    while left != {}
      invariant left <= deps.Keys
      invariant Justified(names, parents[..], rank, top)
      invariant forall m :: m in deps && m !in left ==> Gathered(parents[..], rank, top, deps[m])
      decreases |left|
    {
      hide Root, Connected, Together;
      var m :| m in left;
      ghost var p, rank0, top0 := parents[..], rank, top;
      rank, top := UniteName(names, m, deps[m], parents, (i: nat) => coins(m, i), rank, top);
      left := left - {m};
      forall q | q in deps && q !in left ensures Gathered(parents[..], rank, top, deps[q]) {
        if q != m { CoarserGathers(p, rank0, top0, parents[..], rank, top, deps[q]); }
      }
    }
    AllGathered(names, deps, parents[..], rank, top);
  }

  // ---------------------------------------------------------------------------------------------------------
  // Collecting the sets
  // ---------------------------------------------------------------------------------------------------------

  /** The functions below `n` whose root is `r`, in order. */
  function Members(roots: seq<nat>, n: nat, r: nat): seq<nat>
    requires n <= |roots|
  {
    if n == 0 then [] else Members(roots, n - 1, r) + (if roots[n - 1] == r then [n - 1] else [])
  }

  /** How often a function is listed. */
  function Times(ids: seq<nat>, i: nat): nat
  {
    if ids == [] then 0 else Times(ids[..|ids| - 1], i) + (if ids[|ids| - 1] == i then 1 else 0)
  }

  lemma {:induction false} TimesAppend(a: seq<nat>, b: seq<nat>, i: nat)
    ensures Times(a + b, i) == Times(a, i) + Times(b, i)
    decreases |b|
  {
    if b == [] {
      assert a + b == a;
    } else {
      TimesAppend(a, b[..|b| - 1], i);
      assert (a + b)[..|a + b| - 1] == a + b[..|b| - 1];
    }
  }

  lemma {:induction false} TimesListed(ids: seq<nat>, i: nat)
    ensures i in ids <==> Times(ids, i) > 0
  {
    if ids != [] {
      TimesListed(ids[..|ids| - 1], i);
      assert ids == ids[..|ids| - 1] + [ids[|ids| - 1]];
    }
  }

  /** Every function is once among the members of its own root and not among those of another. */
  lemma {:induction false} MembersOnce(roots: seq<nat>, n: nat, r: nat, i: nat)
    requires n <= |roots|
    ensures Times(Members(roots, n, r), i) == if i < n && roots[i] == r then 1 else 0
    decreases n
  {
    if n > 0 {
      MembersOnce(roots, n - 1, r, i);
      MembersStep(roots, n, r);
      hide Members;
      var before := Members(roots, n - 1, r);
      TimesAppend(before, [n - 1], i);
      assert [n - 1][..0] == [];
      assert Times([n - 1], i) == if n - 1 == i then 1 else 0;
    }
  }

  lemma MembersStep(roots: seq<nat>, n: nat, r: nat)
    requires 0 < n <= |roots|
    ensures var before := Members(roots, n - 1, r);
            Members(roots, n, r) == if roots[n - 1] == r then before + [n - 1] else before
  {
    var before := Members(roots, n - 1, r);
    assert before + [] == before;
  }

  function Weight(lens: seq<nat>, ids: seq<nat>): nat
  {
    if ids == [] then 0
    else Weight(lens, ids[..|ids| - 1]) + (if ids[|ids| - 1] < |lens| then lens[ids[|ids| - 1]] else 0)
  }

  lemma {:induction false} WeightAppend(lens: seq<nat>, a: seq<nat>, b: seq<nat>)
    ensures Weight(lens, a + b) == Weight(lens, a) + Weight(lens, b)
    decreases |b|
  {
    if b == [] {
      assert a + b == a;
    } else {
      WeightAppend(lens, a, b[..|b| - 1]);
      assert (a + b)[..|a + b| - 1] == a + b[..|b| - 1];
    }
  }

  ghost predicate Occurs(roots: seq<nat>, r: nat)
  {
    exists i :: 0 <= i < |roots| && roots[i] == r
  }

  /** The sets are the members of the roots. */
  ghost predicate Collected(sets: map<nat, seq<nat>>, roots: seq<nat>)
  {
    && (forall i :: 0 <= i < |roots| ==> roots[i] in sets)
    && (forall r :: r in sets ==> Occurs(roots, r) && sets[r] == Members(roots, |roots|, r))
  }

  lemma {:induction false} NoMembers(roots: seq<nat>, n: nat, r: nat)
    requires n <= |roots| && !Occurs(roots, r)
    ensures Members(roots, n, r) == []
    decreases n
  {
    if n > 0 {
      NoMembers(roots, n - 1, r);
      assert roots[n - 1] != r;
    }
  }

  lemma CollectStep(sets: map<nat, seq<nat>>, roots: seq<nat>, parent: nat)
    requires Collected(sets, roots)
    ensures var former := if parent in sets then sets[parent] else [];
            Collected(sets[parent := former + [|roots|]], roots + [parent])
  {
    hide Members;
    var former := if parent in sets then sets[parent] else [];
    var sets', roots' := sets[parent := former + [|roots|]], roots + [parent];
    if parent !in sets { NoMembers(roots, |roots|, parent); }
    forall r | r in sets' ensures Occurs(roots', r) && sets'[r] == Members(roots', |roots'|, r) {
      MembersStep(roots', |roots'|, r);
      MembersPrefix(roots, parent, |roots|, r);
      if r == parent { assert roots'[|roots|] == r; } else {
        var i :| 0 <= i < |roots| && roots[i] == r;
        assert roots'[i] == r;
      }
    }
  }

  method CollectSets(parents: array<nat>, ghost rank: seq<nat>, ghost top: nat)
    returns (sets: map<nat, seq<nat>>, roots: seq<nat>)
    requires Forest(parents[..], rank, top)
    modifies parents
    ensures SameRoots(old(parents[..]), parents[..], rank, top) && |roots| == parents.Length && Collected(sets, roots)
    ensures forall i :: 0 <= i < |roots| ==> roots[i] == Root(old(parents[..]), rank, top, i)
  {
    hide Collected, Root, SameRoots;
    sets, roots := map[], [];
    ghost var p := parents[..];
    RootsStay(p, p, p, rank, top);
    CollectNothing();
    var i := 0;
    while i < parents.Length
      invariant 0 <= i <= parents.Length && |roots| == i
      invariant SameRoots(p, parents[..], rank, top) && Forest(parents[..], rank, top)
      invariant forall k :: 0 <= k < i ==> roots[k] == Root(p, rank, top, k)
      invariant Collected(sets, roots)
    {
      ghost var before := parents[..];
      var parent := Find(parents, i, rank, top);
      RootsStay(p, before, parents[..], rank, top);
      RootStays(p, before, rank, top, i);
      CollectStep(sets, roots, parent);
      roots := roots + [parent];
      var former := if parent in sets then sets[parent] else [];
      sets := sets[parent := former + [i]];
      i := i + 1;
    }
  }

  lemma CollectNothing()
    ensures Collected(map[], [])
  {
  }

  lemma RootsStay(p: seq<nat>, q: seq<nat>, r: seq<nat>, rank: seq<nat>, top: nat)
    requires Forest(p, rank, top) && (q == p || SameRoots(p, q, rank, top)) && (r == q || SameRoots(q, r, rank, top))
    ensures SameRoots(p, r, rank, top) && Forest(r, rank, top)
  {
  }

  lemma RootStays(p: seq<nat>, q: seq<nat>, rank: seq<nat>, top: nat, x: nat)
    requires SameRoots(p, q, rank, top) && x < |p|
    ensures Forest(p, rank, top) && Forest(q, rank, top) && Root(q, rank, top, x) == Root(p, rank, top, x)
  {
  }

  lemma {:induction false} MembersPrefix(roots: seq<nat>, last: nat, n: nat, r: nat)
    requires n <= |roots|
    ensures Members(roots + [last], n, r) == Members(roots, n, r)
    decreases n
  {
    if n > 0 { MembersPrefix(roots, last, n - 1, r); }
  }

  // ---------------------------------------------------------------------------------------------------------
  // Dealing the sets out
  // ---------------------------------------------------------------------------------------------------------

  /** The first position of a smallest number. */
  method Smallest(sizes: seq<nat>) returns (k: nat)
    requires sizes != []
    ensures k < |sizes| && forall j :: 0 <= j < |sizes| ==> sizes[k] <= sizes[j]
    ensures forall j :: 0 <= j < k ==> sizes[k] < sizes[j]
  {
    k := 0;
    var i := 1;
    while i < |sizes|
      invariant k < i <= |sizes|
      invariant forall j :: 0 <= j < i ==> sizes[k] <= sizes[j]
      invariant forall j :: 0 <= j < k ==> sizes[k] < sizes[j]
    {
      if sizes[i] < sizes[k] { k := i; }
      i := i + 1;
    }
  }

  lemma {:induction false} LargestExists(left: set<nat>, sizes: map<nat, nat>)
    requires left != {} && left <= sizes.Keys
    ensures exists r :: r in left && forall q :: q in left ==> sizes[q] <= sizes[r]
    decreases |left|
  {
    var r :| r in left;
    if left != {r} {
      var rest := left - {r};
      LargestExists(rest, sizes);
      var s :| s in rest && forall q :: q in rest ==> sizes[q] <= sizes[s];
      var best := if sizes[s] < sizes[r] then r else s;
      forall q | q in left ensures sizes[q] <= sizes[best] {
        if q != r { assert q in rest; }
      }
    }
  }

  /** Where each function of the sets dealt out so far is: once in the file of its set, and nowhere else. */
  ghost predicate PlacedIn(roots: seq<nat>, file: seq<nat>, place: map<nat, nat>, c: nat, i: nat)
  {
    Times(file, i) == if i < |roots| && roots[i] in place && place[roots[i]] == c then 1 else 0
  }

  ghost predicate Placed(roots: seq<nat>, files: seq<seq<nat>>, place: map<nat, nat>)
  {
    && (forall r :: r in place ==> place[r] < |files|)
    && (forall c: nat, i: nat :: c < |files| ==> PlacedIn(roots, files[c], place, c, i))
  }

  lemma DealKeeps(roots: seq<nat>, files: seq<seq<nat>>, place: map<nat, nat>, r: nat, k: nat)
    requires Placed(roots, files, place) && k < |files| && r !in place
    ensures Placed(roots, files[k := files[k] + Members(roots, |roots|, r)], place[r := k])
  {
    hide Members, Times;
    var ids := Members(roots, |roots|, r);
    var files', place' := files[k := files[k] + ids], place[r := k];
    forall c: nat, i: nat | c < |files'| ensures PlacedIn(roots, files'[c], place', c, i) {
      MembersOnce(roots, |roots|, r, i);
      TimesAppend(files[k], ids, i);
      assert PlacedIn(roots, files[c], place, c, i);
    }
  }

  /** No file is larger than another by more than `largest`. */
  ghost predicate Balanced(sizes: seq<nat>, largest: nat)
  {
    forall c, d :: 0 <= c < |sizes| && 0 <= d < |sizes| ==> sizes[c] <= sizes[d] + largest
  }

  lemma BalanceStep(sizes: seq<nat>, k: nat, more: nat, largest: nat)
    requires Balanced(sizes, largest) && k < |sizes| && more <= largest
    requires forall j :: 0 <= j < |sizes| ==> sizes[k] <= sizes[j]
    ensures Balanced(sizes[k := sizes[k] + more], largest)
  {
  }

  ghost predicate Weighed(files: seq<seq<nat>>, sizes: seq<nat>, lens: seq<nat>)
  {
    |files| == |sizes| && forall c :: 0 <= c < |files| ==> sizes[c] == Weight(lens, files[c])
  }

  lemma WeighStep(files: seq<seq<nat>>, sizes: seq<nat>, lens: seq<nat>, k: nat, ids: seq<nat>)
    requires Weighed(files, sizes, lens) && k < |files|
    ensures Weighed(files[k := files[k] + ids], sizes[k := sizes[k] + Weight(lens, ids)], lens)
  {
    hide Weight;
    WeightAppend(lens, files[k], ids);
  }

  method Distribute(sets: map<nat, seq<nat>>, roots: seq<nat>, lens: seq<nat>, chunks: nat, ghost largest: nat)
    returns (files: seq<seq<nat>>, ghost sizes: seq<nat>, ghost place: map<nat, nat>)
    requires chunks > 0 && Collected(sets, roots)
    requires forall r :: r in sets ==> Weight(lens, sets[r]) <= largest
    ensures |files| == chunks && place.Keys == sets.Keys && Placed(roots, files, place)
    ensures Weighed(files, sizes, lens) && Balanced(sizes, largest)
  {
    hide Placed, Weighed, Balanced, Weight, Members, Collected;
    var setSizes := SetSizes(sets, lens);
    files := seq(chunks, c => []);
    var fileSizes: seq<nat> := seq(chunks, c => 0);
    place := map[];
    NothingDealt(roots, files, fileSizes, lens, largest);
    var left := sets.Keys;
    while left != {}
      invariant left <= sets.Keys && place.Keys == sets.Keys - left && |files| == chunks
      invariant Placed(roots, files, place) && Weighed(files, fileSizes, lens) && Balanced(fileSizes, largest)
      decreases |left|
    {
      WeighedSize(files, fileSizes, lens);
      var parent := Largest(left, setSizes);
      var k := Smallest(fileSizes);
      DealKeeps(roots, files, place, parent, k);
      WeighStep(files, fileSizes, lens, k, sets[parent]);
      BalanceStep(fileSizes, k, setSizes[parent], largest);
      SetIsMembers(sets, roots, parent);
      files := files[k := files[k] + sets[parent]];
      fileSizes := fileSizes[k := fileSizes[k] + setSizes[parent]];
      place := place[parent := k];
      left := left - {parent};
    }
    sizes := fileSizes;
  }

  function SetSizes(sets: map<nat, seq<nat>>, lens: seq<nat>): (sizes: map<nat, nat>)
    ensures sizes.Keys == sets.Keys && forall r :: r in sets ==> sizes[r] == Weight(lens, sets[r])
  {
    map r | r in sets :: Weight(lens, sets[r])
  }

  lemma SetIsMembers(sets: map<nat, seq<nat>>, roots: seq<nat>, r: nat)
    requires Collected(sets, roots) && r in sets
    ensures sets[r] == Members(roots, |roots|, r)
  {
  }

  /** The next in order of size. */
  method Largest(left: set<nat>, sizes: map<nat, nat>) returns (r: nat)
    requires left != {} && left <= sizes.Keys
    ensures r in left && forall q :: q in left ==> sizes[q] <= sizes[r]
  {
    LargestExists(left, sizes);
    r :| r in left && forall q :: q in left ==> sizes[q] <= sizes[r];
  }

  lemma NothingDealt(roots: seq<nat>, files: seq<seq<nat>>, sizes: seq<nat>, lens: seq<nat>, largest: nat)
    requires |files| == |sizes| && forall c :: 0 <= c < |files| ==> files[c] == [] && sizes[c] == 0
    ensures Placed(roots, files, map[]) && Weighed(files, sizes, lens) && Balanced(sizes, largest)
  {
  }

  lemma WeighedSize(files: seq<seq<nat>>, sizes: seq<nat>, lens: seq<nat>)
    requires Weighed(files, sizes, lens)
    ensures |sizes| == |files|
  {
  }

  // ---------------------------------------------------------------------------------------------------------
  // The whole split
  // ---------------------------------------------------------------------------------------------------------

  /** The total length of the functions connected to `a`. */
  ghost function ClusterWeight(names: seq<seq<nat>>, lens: seq<nat>, n: nat, a: nat): nat
    requires n <= |lens|
  {
    if n == 0 then 0 else ClusterWeight(names, lens, n - 1, a) + (if Connected(names, a, n - 1) then lens[n - 1] else 0)
  }

  lemma {:induction false} MembersWeight(names: seq<seq<nat>>, lens: seq<nat>, roots: seq<nat>, n: nat, a: nat)
    requires n <= |lens| == |roots| && a < |roots|
    requires forall i :: 0 <= i < |roots| ==> (roots[i] == roots[a] <==> Connected(names, a, i))
    ensures Weight(lens, Members(roots, n, roots[a])) == ClusterWeight(names, lens, n, a)
    decreases n
  {
    hide Connected;
    if n > 0 {
      MembersWeight(names, lens, roots, n - 1, a);
      var before := Members(roots, n - 1, roots[a]);
      WeightAppend(lens, before, [n - 1]);
      assert Weight(lens, [n - 1]) == lens[n - 1] by { assert [n - 1][..0] == []; }
      assert before + [] == before;
    }
  }

  /** Function `i` is once in file `c` and in no other file. */
  ghost predicate OnlyIn(files: seq<seq<nat>>, i: nat, c: nat)
  {
    c < |files| && Times(files[c], i) == 1 && forall d :: 0 <= d < |files| && d != c ==> i !in files[d]
  }

  ghost predicate InOneFile(files: seq<seq<nat>>, i: nat)
  {
    exists c :: OnlyIn(files, i, c)
  }

  /** Every function is in exactly one file, connected functions are in the same one, and the files differ by no more
      than the largest group of connected functions. A file with fewer functions than chunks is not split. */
  method Split(names: seq<seq<nat>>, lens: seq<nat>, chunks: nat, coins: (nat, nat) -> bool, ghost largest: nat)
    returns (ok: bool, files: seq<seq<nat>>)
    requires |names| == |lens| && chunks > 0
    requires forall a :: 0 <= a < |names| ==> ClusterWeight(names, lens, |lens|, a) <= largest
    ensures ok <==> chunks <= |names|
    ensures ok ==> |files| == chunks
    ensures ok ==> forall i :: 0 <= i < |names| ==> InOneFile(files, i)
    ensures ok ==> forall c, i: nat :: 0 <= c < |files| && i in files[c] ==> i < |names|
    ensures ok ==> forall a, b, c ::
              0 <= a < |names| && 0 <= b < |names| && 0 <= c < |files| && Connected(names, a, b) ==>
                     (a in files[c] <==> b in files[c])
    ensures ok ==> forall c, d :: 0 <= c < |files| && 0 <= d < |files| ==>
              Weight(lens, files[c]) <= Weight(lens, files[d]) + largest
  {
    if |names| < chunks { return false, []; }
    ghost var rank, top;
    var parents: array<nat>;
    parents, rank, top := Unite(names, coins);
    ghost var p := parents[..];
    var sets, roots := CollectSets(parents, rank, top);
    FromForest(names, p, rank, top, roots);
    hide Root, Forest, Connected, ClusterWeight;
    forall r | r in sets ensures Weight(lens, sets[r]) <= largest { SetWeight(names, lens, roots, sets, r); }
    ghost var sizes, place;
    files, sizes, place := Distribute(sets, roots, lens, chunks, largest);
    ok := true;
    SplitHolds(names, roots, files, sets, place);
  }

  lemma SetWeight(names: seq<seq<nat>>, lens: seq<nat>, roots: seq<nat>, sets: map<nat, seq<nat>>, r: nat)
    requires RootsExact(names, roots) && Collected(sets, roots) && r in sets && |lens| == |roots|
    ensures exists a :: 0 <= a < |names| && Weight(lens, sets[r]) == ClusterWeight(names, lens, |lens|, a)
  {
    hide Connected;
    var a :| 0 <= a < |roots| && roots[a] == r;
    MembersWeight(names, lens, roots, |roots|, a);
  }

  ghost predicate RootsExact(names: seq<seq<nat>>, roots: seq<nat>)
  {
    && |roots| == |names|
    && forall a, i :: 0 <= a < |roots| && 0 <= i < |roots| ==> (roots[i] == roots[a] <==> Connected(names, a, i))
  }

  lemma FromForest(names: seq<seq<nat>>, p: seq<nat>, rank: seq<nat>, top: nat, roots: seq<nat>)
    requires Exact(names, p, rank, top) && |roots| == |p|
    requires forall i :: 0 <= i < |p| ==> roots[i] == Root(p, rank, top, i)
    ensures RootsExact(names, roots)
  {
    hide Connected;
    forall a, i | 0 <= a < |roots| && 0 <= i < |roots| ensures roots[i] == roots[a] <==> Connected(names, a, i) {
      assert Together(p, rank, top, a, i) <==> Connected(names, a, i);
    }
  }

  lemma SplitHolds(names: seq<seq<nat>>, roots: seq<nat>, files: seq<seq<nat>>, sets: map<nat, seq<nat>>,
                   place: map<nat, nat>)
    requires RootsExact(names, roots) && Collected(sets, roots) && Placed(roots, files, place)
    requires place.Keys == sets.Keys
    ensures forall i :: 0 <= i < |names| ==> InOneFile(files, i)
    ensures forall c, i: nat :: 0 <= c < |files| && i in files[c] ==> i < |names|
    ensures forall a, b, c :: 0 <= a < |names| && 0 <= b < |names| && 0 <= c < |files| && Connected(names, a, b) ==>
              (a in files[c] <==> b in files[c])
  {
    hide Connected, Members;
    forall c, i: nat | 0 <= c < |files|
      ensures i in files[c] <==> i < |roots| && place[roots[i]] == c
    {
      FileHolds(roots, files, sets, place, c, i);
    }
    forall c, i: nat | 0 <= c < |files| && i in files[c] ensures i < |names| {
      FileHolds(roots, files, sets, place, c, i);
    }
    forall i | 0 <= i < |names| ensures InOneFile(files, i) {
      var c := place[roots[i]];
      FileHolds(roots, files, sets, place, c, i);
      assert OnlyIn(files, i, c);
    }
  }

  lemma FileHolds(roots: seq<nat>, files: seq<seq<nat>>, sets: map<nat, seq<nat>>, place: map<nat, nat>, c: nat, i: nat)
    requires Collected(sets, roots) && Placed(roots, files, place) && place.Keys == sets.Keys && c < |files|
    ensures i < |roots| ==> roots[i] in place
    ensures i in files[c] <==> i < |roots| && place[roots[i]] == c
    ensures i in files[c] ==> Times(files[c], i) == 1
  {
    hide Members, Times;
    assert PlacedIn(roots, files[c], place, c, i);
    TimesListed(files[c], i);
  }
}
