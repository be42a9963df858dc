/** Names in the AML namespace, told by the parent links alone: which node a name string denotes. */
module NamespacePaths {
  import opened Base
  import opened AmlNames
  import opened Namespace

  /** The names from the root to a node. */
  ghost function PathOf(t: Tree, n: nat): seq<Name>
    requires Valid(t) && n < |t|
    decreases n
  {
    if n == 0 then [] else assert NodeOk(t, n); PathOf(t, t[n].parent.value) + [t[n].name]
  }

  ghost predicate Spells(t: Tree, n: nat, path: seq<Name>)
    requires Valid(t)
  {
    n < |t| && PathOf(t, n) == path
  }

  ghost predicate Exists(t: Tree, path: seq<Name>)
    requires Valid(t)
  {
    exists n: nat :: Spells(t, n, path)
  }

  /** No two nodes have the same path. */
  lemma {:induction false} PathUnique(t: Tree, m: nat, n: nat)
    requires Valid(t) && m < |t| && n < |t| && PathOf(t, m) == PathOf(t, n)
    ensures m == n
    decreases m
  {
    assert NodeOk(t, m) && NodeOk(t, n);
    if m != 0 && n != 0 {
      var p, q := t[m].parent.value, t[n].parent.value;
      var a, b := PathOf(t, p), PathOf(t, q);
      assert (a + [t[m].name])[..|a|] == a && (b + [t[n].name])[..|b|] == b;
      assert (a + [t[m].name])[|a|] == t[m].name && (b + [t[n].name])[|b|] == t[n].name;
      PathUnique(t, p, q);
      SiblingUnique(t, p, m, n);
    }
  }

  lemma SiblingUnique(t: Tree, p: nat, m: nat, n: nat)
    requires Valid(t) && p < |t| && m in t[p].children && n in t[p].children && m < |t| && n < |t|
    requires t[m].name == t[n].name
    ensures m == n
  {
    assert NodeOk(t, p);
    var cs := t[p].children;
    var i :| 0 <= i < |cs| && cs[i] == m;
    var j :| 0 <= j < |cs| && cs[j] == n;
  }

  /** The path of the child with a name, which is there exactly if that path is. */
  lemma ChildSpells(t: Tree, n: nat, name: Name)
    requires Valid(t) && n < |t|
    ensures Child(t, n, name).Some? ==> Spells(t, Child(t, n, name).value, PathOf(t, n) + [name])
    ensures Child(t, n, name).None? ==> !Exists(t, PathOf(t, n) + [name])
  {
    assert NodeOk(t, n);
    if Child(t, n, name).Some? {
      assert ChildOk(t, n, Child(t, n, name).value);
    } else {
      forall c: nat ensures !Spells(t, c, PathOf(t, n) + [name]) {
        if Spells(t, c, PathOf(t, n) + [name]) { LastLink(t, c, PathOf(t, n), name, n); }
      }
    }
  }

  /** A node one name below `n` is a child of `n`. */
  lemma LastLink(t: Tree, c: nat, path: seq<Name>, name: Name, n: nat)
    requires Valid(t) && Spells(t, c, path + [name]) && Spells(t, n, path)
    ensures c in t[n].children && t[c].name == name
  {
    assert NodeOk(t, c);
    var a := PathOf(t, t[c].parent.value);
    assert (a + [t[c].name])[..|a|] == a && (path + [name])[..|path|] == path;
    assert (a + [t[c].name])[|a|] == t[c].name && (path + [name])[|path|] == name;
    PathUnique(t, t[c].parent.value, n);
  }

  /** Every beginning of a node's path is the path of a node. */
  lemma {:induction false} Ancestor(t: Tree, n: nat, k: nat) returns (a: nat)
    requires Valid(t) && n < |t| && k <= |PathOf(t, n)|
    ensures a <= n && Spells(t, a, PathOf(t, n)[..k])
    decreases n
  {
    if k == |PathOf(t, n)| {
      a := n;
      assert PathOf(t, n)[..k] == PathOf(t, n);
    } else {
      assert NodeOk(t, n);
      var p := t[n].parent.value;
      a := Ancestor(t, p, k);
      assert PathOf(t, n)[..k] == PathOf(t, p)[..k];
    }
  }

  lemma PrefixExists(t: Tree, path: seq<Name>, k: nat)
    requires Valid(t) && Exists(t, path) && k <= |path|
    ensures Exists(t, path[..k])
  {
    var n: nat :| Spells(t, n, path);
    var a := Ancestor(t, n, k);
  }

  /** Where a walk down from `n` ends: at the node that has the whole path, or at the parent of its last name. */
  ghost predicate WalksTo(t: Tree, from: seq<Name>, path: seq<Name>, r: Found)
    requires Valid(t)
  {
    match r
    case At(m, None) => Spells(t, m, from + path)
    case At(m, Some(name)) =>
      && path != [] && name == path[|path| - 1] && Spells(t, m, from + path[..|path| - 1]) && !Exists(t, from + path)
    case Missing => path != [] && !Exists(t, from + path) && !Exists(t, from + path[..|path| - 1])
  }

  lemma {:induction false} FollowWalks(t: Tree, n: nat, path: seq<Name>)
    requires Valid(t) && n < |t|
    ensures WalksTo(t, PathOf(t, n), path, Follow(t, n, path))
    decreases |path|
  {
    var from := PathOf(t, n);
    if path == [] {
      assert from + path == from;
    } else {
      ChildSpells(t, n, path[0]);
      match Child(t, n, path[0])
      case Some(c) =>
        FollowWalks(t, c, path[1..]);
        assert from + [path[0]] + path[1..] == from + path;
        if |path| > 1 { assert from + [path[0]] + path[1..][..|path| - 2] == from + path[..|path| - 1]; }
      case None =>
        StepMissing(t, from, path);
    }
  }

  /** If the first step is missing, so is all that comes after it. */
  lemma StepMissing(t: Tree, from: seq<Name>, path: seq<Name>)
    requires Valid(t) && path != [] && !Exists(t, from + [path[0]])
    ensures !Exists(t, from + path) && (|path| > 1 ==> !Exists(t, from + path[..|path| - 1]))
    ensures |path| == 1 ==> from + path[..0] == from
  {
    assert (from + path)[..|from| + 1] == from + [path[0]];
    if Exists(t, from + path) { PrefixExists(t, from + path, |from| + 1); }
    if |path| > 1 {
      assert (from + path[..|path| - 1])[..|from| + 1] == from + [path[0]];
      if Exists(t, from + path[..|path| - 1]) { PrefixExists(t, from + path[..|path| - 1], |from| + 1); }
    }
  }

  /** Climbing drops the last names of the path. */
  lemma {:induction false} AboveSpells(t: Tree, n: nat, level: nat)
    requires Valid(t) && n < |t|
    ensures Above(t, n, level).Some? <==> level <= |PathOf(t, n)|
    ensures Above(t, n, level).Some? ==>
              Spells(t, Above(t, n, level).value, PathOf(t, n)[..|PathOf(t, n)| - level])
    decreases level
  {
    assert NodeOk(t, n);
    var path := PathOf(t, n);
    if level == 0 {
      assert path[..|path|] == path;
    } else if n != 0 {
      var p := t[n].parent.value;
      AboveSpells(t, p, level - 1);
      if level <= |path| { assert PathOf(t, p)[..|path| - level] == path[..|path| - level]; }
    }
  }

  /** The path a name string starts from in a scope: the root, or the scope with its last names dropped. */
  ghost function From(scope: seq<Name>, ns: Namestring): Option<seq<Name>> {
    match ns
    case Root(_) => Some([])
    case Relative(level, _) => if level <= |scope| then Some(scope[..|scope| - level]) else None
  }

  lemma ResolveWalks(t: Tree, scope: nat, ns: Namestring)
    requires Valid(t) && scope < |t|
    ensures var from := From(PathOf(t, scope), ns);
            if from.Some? then WalksTo(t, from.value, ns.path, Resolve(t, scope, ns))
            else Resolve(t, scope, ns) == Missing
  {
    match ns
    case Root(path) => FollowWalks(t, 0, path);
    case Relative(level, path) =>
      AboveSpells(t, scope, level);
      if level <= |PathOf(t, scope)| { FollowWalks(t, Above(t, scope, level).value, path); }
  }

  // ---------------------------------------------------------------- lookup

  /** Seen from the scope with path `scope`, the scope `j` levels up gives the name string the path `path`. */
  ghost predicate Gives(scope: seq<Name>, ns: Namestring, j: nat, path: seq<Name>) {
    && j <= |scope| && From(scope[..|scope| - j], ns).Some?
    && path == From(scope[..|scope| - j], ns).value + ns.path
  }

  /** Node `n` is what the name string means in the scope `j` levels up. */
  ghost predicate Denotes(t: Tree, scope: seq<Name>, ns: Namestring, j: nat, n: nat)
    requires Valid(t)
  {
    n < |t| && Gives(scope, ns, j, PathOf(t, n))
  }

  ghost predicate DenotesFirst(t: Tree, scope: seq<Name>, ns: Namestring, j: nat, n: nat)
    requires Valid(t)
  {
    Denotes(t, scope, ns, j, n) && forall i: nat, m: nat :: i < j ==> !Denotes(t, scope, ns, i, m)
  }

  lemma GivesUp(scope: seq<Name>, ns: Namestring, j: nat, path: seq<Name>)
    requires scope != []
    ensures Gives(scope, ns, j + 1, path) <==> Gives(scope[..|scope| - 1], ns, j, path)
  {
    if j + 1 <= |scope| { assert scope[..|scope| - 1][..|scope| - 1 - j] == scope[..|scope| - (j + 1)]; }
  }

  /** What the name string means in the scope itself is what `_get` resolves. */
  lemma HereIs(t: Tree, scope: nat, ns: Namestring, m: nat)
    requires Valid(t) && scope < |t|
    ensures Denotes(t, PathOf(t, scope), ns, 0, m) <==> Resolve(t, scope, ns) == At(m, None)
  {
    var path := PathOf(t, scope);
    assert path[..|path|] == path;
    ResolveWalks(t, scope, ns);
    var r := Resolve(t, scope, ns);
    if Denotes(t, path, ns, 0, m) {
      assert Spells(t, m, From(path, ns).value + ns.path);
      if r.At? && r.last.None? { PathUnique(t, m, r.node); }
    }
  }

  /** `r` is the node the name string means in the nearest scope where it means any, `j` levels up, or there is none. */
  ghost predicate IsNearest(t: Tree, scope: seq<Name>, ns: Namestring, r: Option<nat>, j: nat)
    requires Valid(t)
  {
    if r.Some? then DenotesFirst(t, scope, ns, j, r.value) else DenotesNone(t, scope, ns)
  }

  ghost predicate DenotesNone(t: Tree, scope: seq<Name>, ns: Namestring)
    requires Valid(t)
  {
    forall i: nat, m: nat :: !Denotes(t, scope, ns, i, m)
  }

  lemma DenotesUp(t: Tree, scope: seq<Name>, ns: Namestring, i: nat, m: nat)
    requires Valid(t) && scope != [] && i > 0
    ensures Denotes(t, scope, ns, i, m) <==> Denotes(t, scope[..|scope| - 1], ns, i - 1, m)
  {
    if m < |t| { GivesUp(scope, ns, i - 1, PathOf(t, m)); }
  }

  /** A scope in which the name string means nothing is passed over. */
  lemma NearestUp(t: Tree, scope: seq<Name>, ns: Namestring, r: Option<nat>, k: nat)
    requires Valid(t) && scope != [] && (forall m: nat :: !Denotes(t, scope, ns, 0, m))
    requires IsNearest(t, scope[..|scope| - 1], ns, r, k)
    ensures IsNearest(t, scope, ns, r, k + 1)
  {
    var up := scope[..|scope| - 1];
    if r.Some? {
      DenotesUp(t, scope, ns, k + 1, r.value);
      forall i: nat, m: nat | i < k + 1 ensures !Denotes(t, scope, ns, i, m) {
        if i > 0 {
          DenotesUp(t, scope, ns, i, m);
          assert !Denotes(t, up, ns, i - 1, m);
        }
      }
    } else {
      forall i: nat, m: nat ensures !Denotes(t, scope, ns, i, m) {
        if i > 0 {
          DenotesUp(t, scope, ns, i, m);
          assert !Denotes(t, up, ns, i - 1, m);
        }
      }
    }
  }

  lemma {:induction false} GetNearest(t: Tree, scope: nat, ns: Namestring) returns (j: nat)
    requires Valid(t) && scope < |t|
    ensures IsNearest(t, PathOf(t, scope), ns, Get(t, scope, ns), j)
    decreases scope
  {
    var path, r := PathOf(t, scope), Resolve(t, scope, ns);
    assert NodeOk(t, scope);
    j := 0;
    if r.At? && r.last.None? {
      HereIs(t, scope, ns, r.node);
    } else {
      forall m: nat ensures !Denotes(t, path, ns, 0, m) { HereIs(t, scope, ns, m); }
      if scope != 0 {
        var p := t[scope].parent.value;
        var k := GetNearest(t, p, ns);
        assert path[..|path| - 1] == PathOf(t, p);
        NearestUp(t, path, ns, Get(t, p, ns), k);
        j := k + 1;
      }
    }
  }

  /** get finds a node exactly if the name string means it in the nearest enclosing scope where it means any. */
  lemma GetDenotes(t: Tree, scope: nat, ns: Namestring, n: nat)
    requires Valid(t) && scope < |t|
    ensures Get(t, scope, ns) == Some(n) <==> exists j: nat :: DenotesFirst(t, PathOf(t, scope), ns, j, n)
  {
    var j := GetNearest(t, scope, ns);
    var path, r := PathOf(t, scope), Get(t, scope, ns);
    if k: nat :| DenotesFirst(t, path, ns, k, n) {
      SameNearest(t, path, ns, r, j, k, n);
      assert exists i: nat :: DenotesFirst(t, PathOf(t, scope), ns, i, n);
    }
  }

  lemma SameNearest(t: Tree, scope: seq<Name>, ns: Namestring, r: Option<nat>, j: nat, k: nat, n: nat)
    requires Valid(t) && IsNearest(t, scope, ns, r, j) && DenotesFirst(t, scope, ns, k, n)
    ensures r == Some(n)
  {
    assert Denotes(t, scope, ns, k, n);
    if r.Some? {
      assert Denotes(t, scope, ns, j, r.value);
      assert j == k;
      PathUnique(t, r.value, n);
    }
  }

  lemma RootGives(scope: seq<Name>, path: seq<Name>, j: nat, q: seq<Name>)
    ensures Gives(scope, Root(path), j, q) <==> j <= |scope| && q == path
  {
    if j <= |scope| { assert From(scope[..|scope| - j], Root(path)).value + path == path; }
  }

  /** A rooted name means the node with that path, from every scope. */
  lemma GetRooted(t: Tree, scope: nat, path: seq<Name>, n: nat)
    requires Valid(t) && scope < |t|
    ensures Get(t, scope, Root(path)) == Some(n) <==> Spells(t, n, path)
  {
    var here, ns := PathOf(t, scope), Root(path);
    GetDenotes(t, scope, ns, n);
    forall j: nat, q: seq<Name> ensures Gives(here, ns, j, q) <==> j <= |here| && q == path {
      RootGives(here, path, j, q);
    }
    if Get(t, scope, ns) == Some(n) {
      var j: nat :| DenotesFirst(t, here, ns, j, n);
      assert Gives(here, ns, j, PathOf(t, n));
    }
    if Spells(t, n, path) {
      var j: nat := 0;
      assert DenotesFirst(t, here, ns, j, n);
      assert exists k: nat :: DenotesFirst(t, PathOf(t, scope), ns, k, n);
    }
  }

  /** A name with `level` carets means the node whose path is that of an enclosing scope with `level` names dropped and
      its own names added, for the nearest scope for which there is one. */
  lemma GetRelative(t: Tree, scope: nat, level: nat, path: seq<Name>, n: nat)
    requires Valid(t) && scope < |t|
    ensures var here := PathOf(t, scope);
            Get(t, scope, Relative(level, path)) == Some(n) <==>
            exists j: nat :: Lands(t, here, level, path, j, n)
                             && forall i: nat, m: nat :: i < j ==> !Lands(t, here, level, path, i, m)
  {
    var here, ns := PathOf(t, scope), Relative(level, path);
    GetDenotes(t, scope, ns, n);
    forall j: nat, m: nat ensures Denotes(t, here, ns, j, m) <==> Lands(t, here, level, path, j, m) {
      if j + level <= |here| { assert here[..|here| - j][..|here| - j - level] == here[..|here| - j - level]; }
    }
    if Get(t, scope, ns) == Some(n) {
      var j: nat :| DenotesFirst(t, here, ns, j, n);
      assert Lands(t, here, level, path, j, n);
    }
    if j: nat :| Lands(t, here, level, path, j, n)
                 && forall i: nat, m: nat :: i < j ==> !Lands(t, here, level, path, i, m) {
      assert DenotesFirst(t, here, ns, j, n);
    }
  }

  ghost predicate Lands(t: Tree, here: seq<Name>, level: nat, path: seq<Name>, j: nat, n: nat)
    requires Valid(t)
  {
    j + level <= |here| && Spells(t, n, here[..|here| - j - level] + path)
  }

  // ---------------------------------------------------------------- insertion

  /** Inserting a leaf gives it its parent's path and its name, and leaves the other paths. */
  lemma {:induction false} GrownPath(t: Tree, u: Tree, n: nat, name: Name, m: nat)
    requires Valid(t) && Valid(u) && Grown(t, u, n, name) && m < |u|
    ensures PathOf(u, m) == if m == |t| then PathOf(t, n) + [name] else PathOf(t, m)
    decreases m
  {
    assert NodeOk(u, m);
    if m == |t| {
      GrownPath(t, u, n, name, n);
    } else if m != 0 {
      assert NodeOk(t, m) && u[m].parent == t[m].parent;
      GrownPath(t, u, n, name, t[m].parent.value);
    }
  }

  /** A walk down from `from` gets at least to the parent of the last name. */
  ghost predicate Reaches(t: Tree, from: seq<Name>, path: seq<Name>)
    requires Valid(t)
  {
    Exists(t, from + path) || (path != [] && Exists(t, from + path[..|path| - 1]))
  }

  /** So it does from the scope `i` levels up. */
  ghost predicate ReachesAt(t: Tree, scope: seq<Name>, ns: Namestring, i: nat)
    requires Valid(t)
  {
    && i <= |scope| && From(scope[..|scope| - i], ns).Some?
    && Reaches(t, From(scope[..|scope| - i], ns).value, ns.path)
  }

  /** What get_or_insert is to do: nothing when no scope gets that far; otherwise the node with the path of the nearest
      one is returned, made as its one new node if it was not there, and no other path changes. */
  ghost predicate Inserts(t: Tree, scope: seq<Name>, ns: Namestring, u: Tree, r: Option<nat>, j: nat)
    requires Valid(t) && Valid(u)
  {
    && |t| <= |u| && (forall m: nat :: m < |t| ==> PathOf(u, m) == PathOf(t, m))
    && if r.None? then u == t && forall i: nat :: !ReachesAt(t, scope, ns, i)
       else
         && ReachesAt(t, scope, ns, j) && (forall i: nat :: i < j ==> !ReachesAt(t, scope, ns, i))
         && var path := From(scope[..|scope| - j], ns).value + ns.path;
            Spells(u, r.value, path) && if Exists(t, path) then u == t else r.value == |t| && |u| == |t| + 1
  }

  lemma ReachesHere(t: Tree, scope: nat, ns: Namestring)
    requires Valid(t) && scope < |t|
    ensures ReachesAt(t, PathOf(t, scope), ns, 0) <==> Resolve(t, scope, ns).At?
  {
    var path := PathOf(t, scope);
    assert path[..|path|] == path;
    ResolveWalks(t, scope, ns);
  }

  lemma ReachesUp(t: Tree, scope: seq<Name>, ns: Namestring, i: nat)
    requires Valid(t) && scope != []
    ensures ReachesAt(t, scope, ns, i + 1) <==> ReachesAt(t, scope[..|scope| - 1], ns, i)
  {
    if i + 1 <= |scope| { assert scope[..|scope| - 1][..|scope| - 1 - i] == scope[..|scope| - (i + 1)]; }
  }

  /** The node made for a name has the path the name means. */
  lemma InsertHere(t: Tree, scope: nat, ns: Namestring)
    requires Valid(t) && scope < |t| && Resolve(t, scope, ns).At? && Resolve(t, scope, ns).last.Some?
    ensures var (u, r) := GetOrInsert(t, scope, ns); Valid(u) && Inserts(t, PathOf(t, scope), ns, u, r, 0)
  {
    var f, path := Resolve(t, scope, ns), PathOf(t, scope);
    var n, name, u := f.node, f.last.value, Insert(t, f.node, f.last.value);
    ResolveMissing(t, scope, ns);
    InsertKeeps(t, u, n, name);
    ReachesHere(t, scope, ns);
    ResolveWalks(t, scope, ns);
    assert path[..|path|] == path;
    forall m: nat | m < |u| ensures PathOf(u, m) == if m == |t| then PathOf(t, n) + [name] else PathOf(t, m) {
      GrownPath(t, u, n, name, m);
    }
    var from := From(path, ns).value;
    assert from + ns.path[..|ns.path| - 1] + [name] == from + ns.path;
  }

  /** A scope from which the walk does not get that far is passed over. */
  lemma InsertsUp(t: Tree, scope: seq<Name>, ns: Namestring, u: Tree, r: Option<nat>, k: nat)
    requires Valid(t) && Valid(u) && scope != [] && !ReachesAt(t, scope, ns, 0)
    requires Inserts(t, scope[..|scope| - 1], ns, u, r, k)
    ensures Inserts(t, scope, ns, u, r, k + 1)
  {
    forall i: nat | i > 0 ensures ReachesAt(t, scope, ns, i) <==> ReachesAt(t, scope[..|scope| - 1], ns, i - 1) {
      ReachesUp(t, scope, ns, i - 1);
    }
    if k < |scope| { assert scope[..|scope| - 1][..|scope| - 1 - k] == scope[..|scope| - (k + 1)]; }
  }

  lemma {:induction false} GetOrInsertInserts(t: Tree, scope: nat, ns: Namestring) returns (j: nat)
    requires Valid(t) && scope < |t|
    ensures var (u, r) := GetOrInsert(t, scope, ns); Valid(u) && Inserts(t, PathOf(t, scope), ns, u, r, j)
    decreases scope
  {
    GetOrInsertKeeps(t, scope, ns);
    ReachesHere(t, scope, ns);
    ResolveWalks(t, scope, ns);
    assert NodeOk(t, scope);
    var path := PathOf(t, scope);
    assert path[..|path|] == path;
    match Resolve(t, scope, ns)
    case At(n, None) => j := 0;
    case At(n, Some(name)) => j := 0; InsertHere(t, scope, ns);
    case Missing =>
      if scope == 0 {
        j := 0;
      } else {
        var p := t[scope].parent.value;
        var k := GetOrInsertInserts(t, p, ns);
        assert path[..|path| - 1] == PathOf(t, p);
        j := k + 1;
        var (u, r) := GetOrInsert(t, p, ns);
        InsertsUp(t, path, ns, u, r, k);
      }
  }

  /** A rooted name is inserted at its own path, whatever the scope. */
  lemma InsertRooted(t: Tree, scope: nat, path: seq<Name>)
    requires Valid(t) && scope < |t|
    ensures var (u, r) := GetOrInsert(t, scope, Root(path));
            && Valid(u) && (r.Some? <==> Reaches(t, [], path))
            && (r.Some? ==> Spells(u, r.value, path))
            && (r.Some? && !Exists(t, path) ==> r.value == |t|)
  {
    var j := GetOrInsertInserts(t, scope, Root(path));
    var here := PathOf(t, scope);
    forall i: nat | i <= |here| ensures ReachesAt(t, here, Root(path), i) <==> Reaches(t, [], path) {}
    assert From(here[..|here| - 0], Root(path)).value + path == path;
    var (u, r) := GetOrInsert(t, scope, Root(path));
    if r.None? { assert !ReachesAt(t, here, Root(path), 0); }
    else { assert From(here[..|here| - j], Root(path)).value + path == path; }
  }
}
