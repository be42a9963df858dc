/** The AML namespace tree: lookup with upward search, and insertion. */
module Namespace {
  import opened Base
  import opened AmlNames

  /** Nodes are numbered in order of creation; node 0 is the root. */
  datatype Node = Node(name: Name, parent: Option<nat>, children: seq<nat>)

  type Tree = seq<Node>

  ghost predicate ChildOk(t: Tree, p: nat, c: nat)
    requires p < |t|
  {
    p < c < |t| && t[c].parent == Some(p)
  }

  ghost predicate NamesApart(t: Tree, cs: seq<nat>) {
    forall i, j :: 0 <= i < j < |cs| && cs[i] < |t| && cs[j] < |t| ==> t[cs[i]].name != t[cs[j]].name
  }

  ghost predicate NodeOk(t: Tree, n: nat)
    requires n < |t|
  {
    && (n == 0 <==> t[n].parent == None)
    && (t[n].parent.Some? ==> t[n].parent.value < n && n in t[t[n].parent.value].children)
    && (forall c :: c in t[n].children ==> ChildOk(t, n, c))
    && NamesApart(t, t[n].children)
  }

  /** A tree: parents are older than their children, links agree both ways, siblings have different names. */
  ghost predicate Valid(t: Tree) {
    |t| > 0 && forall n: nat :: n < |t| ==> NodeOk(t, n)
  }

  // ---------------------------------------------------------------- lookup on values

  /** The first of `cs` with this name. */
  function Find(t: Tree, cs: seq<nat>, name: Name): (r: Option<nat>)
    ensures r.Some? ==> r.value in cs && r.value < |t| && t[r.value].name == name
    ensures r.None? ==> forall c :: c in cs && c < |t| ==> t[c].name != name
  {
    if cs == [] then None
    else if cs[0] < |t| && t[cs[0]].name == name then Some(cs[0])
    else Find(t, cs[1..], name)
  }

  function Child(t: Tree, n: nat, name: Name): Option<nat>
    requires n < |t|
  {
    Find(t, t[n].children, name)
  }

  /** Either nothing, or a node and, when only the last name was missing there, that name. */
  datatype Found = Missing | At(node: nat, last: Option<Name>)

  function Follow(t: Tree, n: nat, path: seq<Name>): (r: Found)
    requires n < |t|
    ensures r.At? ==> r.node < |t|
    decreases |path|
  {
    if path == [] then At(n, None)
    else match Child(t, n, path[0])
         case Some(c) => Follow(t, c, path[1..])
         case None => if |path| == 1 then At(n, Some(path[0])) else Missing
  }

  /** `level` steps towards the root. */
  function Above(t: Tree, n: nat, level: nat): (r: Option<nat>)
    requires n < |t|
    ensures r.Some? ==> r.value < |t|
    decreases level
  {
    if level == 0 then Some(n)
    else match t[n].parent
         case None => None
         case Some(p) => if p < |t| then Above(t, p, level - 1) else None
  }

  /** _get. */
  function Resolve(t: Tree, scope: nat, ns: Namestring): (r: Found)
    requires 0 < |t| && scope < |t|
    ensures r.At? ==> r.node < |t|
  {
    match ns
    case Root(path) => Follow(t, 0, path)
    case Relative(level, path) =>
      match Above(t, scope, level)
      case None => Missing
      case Some(n) => Follow(t, n, path)
  }

  /** get: search from the scope upwards for a complete match. */
  function Get(t: Tree, scope: nat, ns: Namestring): (r: Option<nat>)
    requires Valid(t) && scope < |t|
    ensures r.Some? ==> r.value < |t|
    decreases scope
  {
    var found := Resolve(t, scope, ns);
    if found.At? && found.last.None? then Some(found.node)
    else if scope == 0 then None
    else assert NodeOk(t, scope); Get(t, t[scope].parent.value, ns)
  }

  /** add_child of a fresh node, at the tail. */
  function Insert(t: Tree, n: nat, name: Name): Tree
    requires n < |t|
  {
    t[n := t[n].(children := t[n].children + [|t|])] + [Node(name, Some(n), [])]
  }

  /** get_or_insert: climb only past scopes from which not even the parent of the last name is found. */
  function GetOrInsert(t: Tree, scope: nat, ns: Namestring): (Tree, Option<nat>)
    requires Valid(t) && scope < |t|
    decreases scope
  {
    match Resolve(t, scope, ns)
    case At(n, None) => (t, Some(n))
    case At(n, Some(name)) => (Insert(t, n, name), Some(|t|))
    case Missing =>
      if scope == 0 then (t, None)
      else assert NodeOk(t, scope); GetOrInsert(t, t[scope].parent.value, ns)
  }

  // ---------------------------------------------------------------- insertion

  /** A step that only appends one leaf `c`, named differently from its siblings. */
  ghost predicate Grown(t: Tree, u: Tree, n: nat, name: Name) {
    n < |t| && Child(t, n, name) == None && u == Insert(t, n, name)
  }

  lemma InsertKeeps(t: Tree, u: Tree, n: nat, name: Name)
    requires Valid(t) && Grown(t, u, n, name)
    ensures Valid(u)
  {
    forall m: nat | m < |u| ensures NodeOk(u, m) {
      if m < |t| { assert NodeOk(t, m); GrownNode(t, u, n, name, m); }
    }
  }

  lemma GrownNode(t: Tree, u: Tree, n: nat, name: Name, m: nat)
    requires Valid(t) && Grown(t, u, n, name) && m < |t|
    ensures NodeOk(u, m)
  {
    assert NodeOk(t, m);
    var was, now := t[m].children, u[m].children;
    forall c | c in now ensures ChildOk(u, m, c) {
      if c in was { assert ChildOk(t, m, c); }
    }
    forall i, j | 0 <= i < j < |now| && now[i] < |u| && now[j] < |u|
      ensures u[now[i]].name != u[now[j]].name
    {
      assert was[i] in was;
      assert ChildOk(t, m, was[i]);
      if j < |was| { assert was[j] in was; assert ChildOk(t, m, was[j]); }
    }
  }

  lemma {:induction false} FindGrown(t: Tree, u: Tree, n: nat, name: Name, cs: seq<nat>, key: Name)
    requires Grown(t, u, n, name) && forall c :: c in cs ==> c < |t|
    ensures Find(u, cs, key) == Find(t, cs, key)
    ensures Find(u, cs + [|t|], key) == if Find(t, cs, key) == None && key == name then Some(|t|) else Find(t, cs, key)
  {
    if cs != [] {
      assert cs[0] in cs && forall c :: c in cs[1..] ==> c in cs;
      FindGrown(t, u, n, name, cs[1..], key);
      assert (cs + [|t|])[1..] == cs[1..] + [|t|];
    }
  }

  lemma ChildGrown(t: Tree, u: Tree, n: nat, name: Name, m: nat, key: Name)
    requires Valid(t) && Grown(t, u, n, name) && m < |t|
    ensures Child(u, m, key) == if m == n && key == name then Some(|t|) else Child(t, m, key)
  {
    assert NodeOk(t, m);
    forall c | c in t[m].children ensures c < |t| { assert ChildOk(t, m, c); }
    FindGrown(t, u, n, name, t[m].children, key);
  }

  /** How one insertion can change where a walk ends: only towards the new node. */
  ghost predicate Towards(was: Found, now: Found, c: nat) {
    || now == was
    || (was.At? && was.last.Some? && now == At(c, None))
    || (was.Missing? && now.At? && now.node == c)
  }

  lemma {:induction false} FollowGrown(t: Tree, u: Tree, n: nat, name: Name, m: nat, path: seq<Name>)
    requires Valid(t) && Grown(t, u, n, name) && m < |t|
    ensures Towards(Follow(t, m, path), Follow(u, m, path), |t|)
    ensures Follow(t, m, path) == At(n, Some(name)) ==> Follow(u, m, path) == At(|t|, None)
    decreases |path|
  {
    if path != [] {
      ChildGrown(t, u, n, name, m, path[0]);
      match Child(t, m, path[0])
      case Some(c) => FollowGrown(t, u, n, name, c, path[1..]);
      case None => assert u[|t|].children == [];
    }
  }

  lemma {:induction false} AboveGrown(t: Tree, u: Tree, n: nat, name: Name, m: nat, level: nat)
    requires Grown(t, u, n, name) && m < |t| && Valid(t)
    ensures Above(u, m, level) == Above(t, m, level)
    decreases level
  {
    assert NodeOk(t, m);
    if level > 0 && m > 0 { AboveGrown(t, u, n, name, t[m].parent.value, level - 1); }
  }

  lemma ResolveGrown(t: Tree, u: Tree, n: nat, name: Name, scope: nat, ns: Namestring)
    requires Valid(t) && Grown(t, u, n, name) && scope < |t|
    ensures Towards(Resolve(t, scope, ns), Resolve(u, scope, ns), |t|)
    ensures Resolve(t, scope, ns) == At(n, Some(name)) ==> Resolve(u, scope, ns) == At(|t|, None)
  {
    match ns
    case Root(path) => FollowGrown(t, u, n, name, 0, path);
    case Relative(level, path) =>
      AboveGrown(t, u, n, name, scope, level);
      if Above(t, scope, level).Some? { FollowGrown(t, u, n, name, Above(t, scope, level).value, path); }
  }

  /** One insertion changes no lookup, except that it may now find the new node. */
  lemma {:induction false} GetGrown(t: Tree, u: Tree, n: nat, name: Name, scope: nat, ns: Namestring)
    requires Valid(t) && Grown(t, u, n, name) && scope < |t| && Valid(u)
    ensures Get(u, scope, ns) == Get(t, scope, ns) || Get(u, scope, ns) == Some(|t|)
    decreases scope
  {
    ResolveGrown(t, u, n, name, scope, ns);
    assert NodeOk(t, scope);
    assert u[scope].parent == t[scope].parent;
    if scope > 0 { GetGrown(t, u, n, name, t[scope].parent.value, ns); }
  }

  lemma {:induction false} FollowMissing(t: Tree, m: nat, path: seq<Name>)
    requires m < |t|
    ensures var r := Follow(t, m, path); r.At? && r.last.Some? ==> Child(t, r.node, r.last.value) == None
    decreases |path|
  {
    if path != [] && Child(t, m, path[0]).Some? { FollowMissing(t, Child(t, m, path[0]).value, path[1..]); }
  }

  lemma ResolveMissing(t: Tree, scope: nat, ns: Namestring)
    requires 0 < |t| && scope < |t|
    ensures var r := Resolve(t, scope, ns); r.At? && r.last.Some? ==> Child(t, r.node, r.last.value) == None
  {
    match ns
    case Root(path) => FollowMissing(t, 0, path);
    case Relative(level, path) =>
      if Above(t, scope, level).Some? { FollowMissing(t, Above(t, scope, level).value, path); }
  }

  // ---------------------------------------------------------------- main results

  /** get_or_insert keeps the tree valid and either changes nothing or appends one leaf, which it returns. */
  lemma {:induction false} GetOrInsertKeeps(t: Tree, scope: nat, ns: Namestring)
    requires Valid(t) && scope < |t|
    ensures var (u, r) := GetOrInsert(t, scope, ns);
            && Valid(u)
            && (u == t || exists n, name :: Grown(t, u, n, name) && r == Some(|t|))
            && (r.None? ==> u == t) && (r.Some? ==> r.value < |u|)
    decreases scope
  {
    assert NodeOk(t, scope);
    match Resolve(t, scope, ns)
    case At(n, None) =>
    case At(n, Some(name)) =>
      ResolveMissing(t, scope, ns);
      InsertKeeps(t, Insert(t, n, name), n, name);
      assert Grown(t, Insert(t, n, name), n, name);
    case Missing => if scope > 0 { GetOrInsertKeeps(t, t[scope].parent.value, ns); }
  }

  /** After get_or_insert succeeds, get from the same scope with the same name returns that node. */
  lemma {:induction false} InsertedIsFound(t: Tree, scope: nat, ns: Namestring)
    requires Valid(t) && scope < |t|
    ensures var (u, r) := GetOrInsert(t, scope, ns);
            Valid(u) && |t| <= |u| && (r.Some? ==> Get(u, scope, ns) == r)
    decreases scope
  {
    GetOrInsertKeeps(t, scope, ns);
    assert NodeOk(t, scope);
    match Resolve(t, scope, ns)
    case At(n, None) =>
    case At(n, Some(name)) =>
      ResolveMissing(t, scope, ns);
      ResolveGrown(t, Insert(t, n, name), n, name, scope, ns);
    case Missing =>
      if scope > 0 {
        InsertedIsFound(t, t[scope].parent.value, ns);
        StillClimbs(t, scope, ns);
      }
  }

  /** A scope the insertion climbed past either still fails afterwards or finds the inserted node. */
  lemma StillClimbs(t: Tree, scope: nat, ns: Namestring)
    requires Valid(t) && 0 < scope < |t| && Resolve(t, scope, ns) == Missing
    ensures var (u, r) := GetOrInsert(t, scope, ns);
            && Valid(u) && |t| <= |u| && u[scope].parent == t[scope].parent
            && var now := Resolve(u, scope, ns);
               now.At? && now.last.None? ==> r == Some(now.node)
  {
    GetOrInsertKeeps(t, scope, ns);
    var (u, r) := GetOrInsert(t, scope, ns);
    if u != t {
      var n, name :| Grown(t, u, n, name) && r == Some(|t|);
      ResolveGrown(t, u, n, name, scope, ns);
    }
  }

  /** Any other lookup gives what it gave before, or the inserted node. */
  lemma OthersStable(t: Tree, scope: nat, ns: Namestring, from: nat, other: Namestring)
    requires Valid(t) && scope < |t| && from < |t|
    ensures var (u, r) := GetOrInsert(t, scope, ns);
            && Valid(u) && |t| <= |u|
            && (Get(u, from, other) == Get(t, from, other) || (r == Some(|t|) && Get(u, from, other) == r))
  {
    GetOrInsertKeeps(t, scope, ns);
    var (u, r) := GetOrInsert(t, scope, ns);
    if u != t {
      var n, name :| Grown(t, u, n, name) && r == Some(|t|);
      GetGrown(t, u, n, name, from, other);
    }
  }

  /** The scope `j` levels up resolves the whole name, to `n`. */
  ghost predicate Match(t: Tree, scope: nat, ns: Namestring, j: nat, n: nat)
    requires 0 < |t| && scope < |t|
  {
    Above(t, scope, j).Some? && Resolve(t, Above(t, scope, j).value, ns) == At(n, None)
  }

  ghost predicate Nearest(t: Tree, scope: nat, ns: Namestring, j: nat, n: nat)
    requires 0 < |t| && scope < |t|
  {
    Match(t, scope, ns, j, n) && forall i: nat, m: nat :: i < j ==> !Match(t, scope, ns, i, m)
  }

  lemma MatchUp(t: Tree, scope: nat, ns: Namestring, j: nat, n: nat)
    requires Valid(t) && 0 < scope < |t| && j > 0
    ensures t[scope].parent.Some? && t[scope].parent.value < scope
    ensures Match(t, scope, ns, j, n) <==> Match(t, t[scope].parent.value, ns, j - 1, n)
  {
    assert NodeOk(t, scope);
  }

  /** get finds something whenever some enclosing scope resolves the whole name... */
  lemma {:induction false} GetFindsAny(t: Tree, scope: nat, ns: Namestring, j: nat, n: nat)
    requires Valid(t) && scope < |t| && Match(t, scope, ns, j, n)
    ensures Get(t, scope, ns).Some?
    decreases scope
  {
    assert NodeOk(t, scope);
    if j > 0 && scope > 0 {
      MatchUp(t, scope, ns, j, n);
      GetFindsAny(t, t[scope].parent.value, ns, j - 1, n);
    }
  }

  /** ...and only then, and what it finds is the match of the nearest such scope. */
  lemma {:induction false} GetIsNearest(t: Tree, scope: nat, ns: Namestring) returns (j: nat)
    requires Valid(t) && scope < |t| && Get(t, scope, ns).Some?
    ensures Nearest(t, scope, ns, j, Get(t, scope, ns).value)
    decreases scope
  {
    assert NodeOk(t, scope);
    var n := Get(t, scope, ns).value;
    if Resolve(t, scope, ns) == At(n, None) {
      j := 0;
    } else {
      var p := t[scope].parent.value;
      var i := GetIsNearest(t, p, ns);
      j := i + 1;
      MatchUp(t, scope, ns, j, n);
      forall k: nat, m: nat | k < j ensures !Match(t, scope, ns, k, m) {
        if k > 0 { MatchUp(t, scope, ns, k, m); }
      }
    }
  }

  // ---------------------------------------------------------------- runs

  datatype Call = Call(scope: nat, ns: Namestring)

  ghost predicate IsRun(trees: seq<Tree>, calls: seq<Call>) {
    && |trees| == |calls| + 1 && Valid(trees[0])
    && forall i :: 0 <= i < |calls| ==> CallStep(trees, calls, i)
  }

  ghost predicate CallStep(trees: seq<Tree>, calls: seq<Call>, i: nat)
    requires i < |calls| && |trees| == |calls| + 1
  {
    && Valid(trees[i]) && calls[i].scope < |trees[i]|
    && trees[i + 1] == GetOrInsert(trees[i], calls[i].scope, calls[i].ns).0
  }

  /** Over any run of insertions the tree stays valid, and a lookup either keeps its result
      or comes to find a node that did not exist at the start. */
  lemma {:induction false} RunStable(trees: seq<Tree>, calls: seq<Call>, i: nat, from: nat, ns: Namestring)
    requires IsRun(trees, calls) && i < |trees| && from < |trees[0]|
    ensures Valid(trees[i]) && |trees[0]| <= |trees[i]|
    ensures Get(trees[i], from, ns) == Get(trees[0], from, ns)
         || (Get(trees[i], from, ns).Some? && Get(trees[i], from, ns).value >= |trees[0]|)
  {
    if i > 0 {
      RunStable(trees, calls, i - 1, from, ns);
      assert CallStep(trees, calls, i - 1);
      OthersStable(trees[i - 1], calls[i - 1].scope, calls[i - 1].ns, from, ns);
    }
  }

  // ---------------------------------------------------------------- the namespace object

  /** Where the walk ends from `n` with the items before `index` already done. */
  ghost function Remaining(t: Tree, n: nat, ns: Namestring, index: nat): Found
    requires 0 < |t| && n < |t|
  {
    match ns
    case Root(path) => if index == 0 then Follow(t, 0, path) else if index == 1 then Follow(t, n, path) else At(n, None)
    case Relative(level, path) =>
      if index > level then At(n, None)
      else match Above(t, n, level - index)
           case None => Missing
           case Some(m) => Follow(t, m, path)
  }

  class NameSpace {
    var nodes: Tree

    constructor (rootName: Name)
      ensures Valid(nodes) && nodes == [Node(rootName, None, [])]
    {
      nodes := [Node(rootName, None, [])];
    }

    method SelectChild(n: nat, name: Name) returns (r: Option<nat>)
      requires Valid(nodes) && n < |nodes|
      ensures r == Child(nodes, n, name)
    {
      var cs := nodes[n].children;
      var i := 0;
      assert cs[0..] == cs;
      while i < |cs|
        invariant 0 <= i <= |cs| && Find(nodes, cs, name) == Find(nodes, cs[i..], name)
      {
        assert NodeOk(nodes, n) && ChildOk(nodes, n, cs[i]);
        if nodes[cs[i]].name == name {
          return Some(cs[i]);
        }
        assert cs[i..][1..] == cs[i + 1..];
        i := i + 1;
      }
      r := None;
    }

    /** _get: run through the items of the name. */
    method Lookup(scope: nat, ns: Namestring) returns (r: Found)
      requires Valid(nodes) && scope < |nodes|
      ensures r == Resolve(nodes, scope, ns)
    {
      var current: nat, index: nat := scope, 0;
      var item := NextItem(ns, index);
      while item.Some?
        invariant current < |nodes| && item == NextItem(ns, index)
        invariant Resolve(nodes, scope, ns) == Remaining(nodes, current, ns, index)
        decreases (if ns.Root? then 2 else ns.level + 1) - index
      {
        match item.value {
          case ToRoot =>
            current := 0;
          case ToParent =>
            assert NodeOk(nodes, current);
            if nodes[current].parent.None? {
              return Missing;
            }
            current := nodes[current].parent.value;
          case Along(path) =>
            var stop;
            current, stop := WalkPath(current, path);
            if stop.Some? {
              return stop.value;
            }
        }
        index := index + 1;
        item := NextItem(ns, index);
      }
      r := At(current, None);
    }

    /** The inner loop over a path: the last node reached, or the early return. */
    method WalkPath(start: nat, path: seq<Name>) returns (current: nat, stop: Option<Found>)
      requires Valid(nodes) && start < |nodes|
      ensures current < |nodes|
      ensures Follow(nodes, start, path) == if stop.Some? then stop.value else At(current, None)
    {
      current := start;
      stop := None;
      var i := 0;
      assert path[0..] == path;
      while i < |path|
        invariant 0 <= i <= |path| && current < |nodes|
        invariant Follow(nodes, start, path) == Follow(nodes, current, path[i..])
      {
        var child := SelectChild(current, path[i]);
        if child.Some? {
          current := child.value;
        } else if i == |path| - 1 {
          stop := Some(At(current, Some(path[|path| - 1])));
          return;
        } else {
          stop := Some(Missing);
          return;
        }
        assert path[i..][1..] == path[i + 1..];
        i := i + 1;
      }
    }

    method GetNode(scope: nat, ns: Namestring) returns (r: Option<nat>)
      requires Valid(nodes) && scope < |nodes|
      ensures r == Get(nodes, scope, ns)
      decreases scope
    {
      var found := Lookup(scope, ns);
      if found.At? && found.last.None? {
        return Some(found.node);
      }
      if scope == 0 {
        return None;
      }
      assert NodeOk(nodes, scope);
      r := GetNode(nodes[scope].parent.value, ns);
    }

    method GetOrInsertNode(scope: nat, ns: Namestring) returns (r: Option<nat>)
      requires Valid(nodes) && scope < |nodes|
      modifies this
      ensures (nodes, r) == GetOrInsert(old(nodes), scope, ns)
      ensures Valid(nodes)
      decreases scope
    {
      GetOrInsertKeeps(nodes, scope, ns);
      var found := Lookup(scope, ns);
      match found
      case At(n, None) => r := Some(n);
      case At(n, Some(name)) => r := AddChild(n, name);
      case Missing =>
        if scope == 0 {
          return None;
        }
        assert NodeOk(nodes, scope);
        r := GetOrInsertNode(nodes[scope].parent.value, ns);
    }

    method AddChild(n: nat, name: Name) returns (r: Option<nat>)
      requires n < |nodes|
      modifies this
      ensures nodes == Insert(old(nodes), n, name) && r == Some(|old(nodes)|)
    {
      var child := Node(name, Some(n), []);
      r := Some(|nodes|);
      nodes := nodes[n := nodes[n].(children := nodes[n].children + [|nodes|])] + [child];
    }
  }
}
