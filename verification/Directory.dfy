// Directory operations on the index: lookups with their handles, create, unlink, rename.
module Directory {
  import opened Medium
  import opened Tree
  import opened Paths
  import opened Outcomes

  // ---------------------------------------------------------------- handles and the other operations

  // Dentries of the tree have a handle that nobody gives back.
  lemma HandleKept(n: Nodes, rank: map<nat, nat>, d: nat)
    requires TreeOk(n, rank) && d in n
    ensures n[d].deleted || n[d].handles > 0
  {
    CountsAt(n, rank, ROOT, d);
  }

  lemma HeldTwice(n: Nodes, g: multiset<nat>, h: multiset<nat>)
    ensures Held(Held(n, g), h) == Held(n, g + h)
  {
    assert Held(Held(n, g), h).Keys == Held(n, g + h).Keys;
  }

  lemma {:induction false} WalkHeld(n: Nodes, g: multiset<nat>, d: nat, path: string, i: nat)
    requires d in n && i <= |path|
    ensures Walk(Held(n, g), d, path, i) == Walk(n, d, path, i)
    decreases |path| - i
  {
    var e := NextSlash(path, i);
    if path[i..e] in n[d].children && e < |path| {
      var c := n[d].children[path[i..e]];
      if c in n {
        WalkHeld(n, g, c, path, e + 1);
      }
    }
  }

  lemma LookupHeld(n: Nodes, g: multiset<nat>, path: string)
    requires ROOT in n
    ensures Lookup(Held(n, g), path) == Lookup(n, path)
  {
    if path != "" && path != "/" {
      WalkHeld(n, g, ROOT, path, 1);
    }
  }

  lemma {:induction false} AboveHeld(n: Nodes, g: multiset<nat>, rank: map<nat, nat>, a: nat, d: nat)
    ensures Above(Held(n, g), rank, a, d) <==> Above(n, rank, a, d)
    decreases if d in rank then rank[d] else 0
  {
    if d in n && n[d].parent.Some? && d in rank && n[d].parent.value in rank && rank[n[d].parent.value] < rank[d] {
      AboveHeld(n, g, rank, a, n[d].parent.value);
    }
  }

  lemma DetachHeld(n: Nodes, g: multiset<nat>, x: nat)
    requires Listed(n, x)
    ensures Listed(Held(n, g), x) && Detach(Held(n, g), x) == Held(Detach(n, x), g)
  {
    HeldAt(n, g, x);
    HeldAt(n, g, n[x].parent.value);
    assert Detach(Held(n, g), x).Keys == Held(Detach(n, x), g).Keys;
  }

  lemma BuryHeld(n: Nodes, g: multiset<nat>, x: nat)
    requires x in n && n[x].links > 0 && n[x].handles > 0
    ensures x in Held(n, g) && Held(n, g)[x].links > 0 && Held(n, g)[x].handles > 0
    ensures Bury(Held(n, g), x) == Held(Bury(n, x), g)
  {
    HeldAt(n, g, x);
    assert Bury(Held(n, g), x).Keys == Held(Bury(n, x), g).Keys;
  }

  lemma AttachKeys(n: Nodes, x: nat, t: nat, name: string)
    requires x in n && t in n && x != t
    ensures Attach(n, x, t, name).Keys == n.Keys
  {
  }

  lemma AttachHeldAt(n: Nodes, g: multiset<nat>, x: nat, t: nat, name: string, id: nat)
    requires x in n && t in n && x != t && id in n
    ensures x in Held(n, g) && t in Held(n, g) && id in Held(n, g) && id in Attach(Held(n, g), x, t, name)
    ensures id in Attach(n, x, t, name) && id in Held(Attach(n, x, t, name), g)
    ensures Attach(Held(n, g), x, t, name)[id] == Held(Attach(n, x, t, name), g)[id]
  {
    HeldAt(n, g, x);
    HeldAt(n, g, t);
    HeldAt(n, g, id);
    HeldAt(Attach(n, x, t, name), g, id);
    hide Held;
  }

  lemma AttachHeld(n: Nodes, g: multiset<nat>, x: nat, t: nat, name: string)
    requires x in n && t in n && x != t
    ensures x in Held(n, g) && t in Held(n, g)
    ensures Attach(Held(n, g), x, t, name) == Held(Attach(n, x, t, name), g)
  {
    hide Held, Attach;
    HeldAll(n, g);
    AttachKeys(n, x, t, name);
    AttachKeys(Held(n, g), x, t, name);
    HeldAll(Attach(n, x, t, name), g);
    var a, b := Attach(Held(n, g), x, t, name), Held(Attach(n, x, t, name), g);
    assert a.Keys == b.Keys == n.Keys;
    forall id | id in n
      ensures a[id] == b[id]
    {
      AttachHeldAt(n, g, x, t, name, id);
    }
  }

  lemma GrabRoot(n: Nodes, rank: map<nat, nat>)
    requires TreeOk(n, rank)
    ensures ROOT in n && !n[ROOT].deleted && Grab(n, ROOT) == Held(n, multiset{ROOT})
            && TreeOk(Held(n, multiset{ROOT}), rank)
    ensures Held(n, multiset{ROOT}).Keys == n.Keys
  {
    HeldNone(n);
    GrabHeld(n, multiset{}, ROOT);
    HeldKeeps(n, multiset{ROOT}, rank);
    HeldAll(n, multiset{ROOT});
    assert multiset{} + multiset{ROOT} == multiset{ROOT};
  }

  lemma RootStands(n: Nodes, rank: map<nat, nat>)
    requires TreeOk(n, rank)
    ensures ROOT in n && !n[ROOT].deleted
  {
  }

  // ---------------------------------------------------------------- outcomes

  // Where the lookup of one name in a directory leads.
  function Below(n: Nodes, d: nat, name: string): Result<nat>
    requires d in n
  {
    match Entry(n, d, name)
    case Err(error) => Err(error)
    case Ok(None) => Err(NoDentry)
    case Ok(Some(c)) => Ok(c)
  }

  lemma WalkUnfold(n: Nodes, d: nat, path: string, i: nat, f: Result<nat>)
    requires d in n && i <= |path| && f == Below(n, d, path[i..NextSlash(path, i)]) && (f.Ok? ==> f.value in n)
    ensures Walk(n, d, path, i) ==
            if f.Err? || NextSlash(path, i) == |path| then f else Walk(n, f.value, path, NextSlash(path, i) + 1)
  {
  }

  // The handles a successful lookup takes.
  function Taken(n: Nodes, path: string, keepParent: bool, r: Result<nat>): multiset<nat>
  {
    if r.Err? then multiset{}
    else if keepParent && path != "" && path != "/" && r.value in n && n[r.value].parent.Some? then
      multiset{r.value, n[r.value].parent.value}
    else multiset{r.value}
  }

  ghost predicate CreatedAt(n: Nodes, m: Nodes, t: nat, id: nat, name: string, isdir: bool)
  {
    t in n && id !in n && m == Created(n, t, id, name, isdir)
  }

  predicate IsDir(n: Nodes, t: nat)
  {
    t in n && n[t].isdir
  }

  lemma HasParent(n: Nodes, rank: map<nat, nat>, d: nat)
    requires TreeOk(n, rank) && d in n && !n[d].deleted && d != ROOT
    ensures n[d].parent.Some? && n[d].parent.value in n && n[d].parent.value != d
    ensures !n[n[d].parent.value].deleted && n[n[d].parent.value].isdir
  {
    AttachedAt(n, rank, ROOT, d);
  }

  // Only directories have entries.
  lemma NoEntries(n: Nodes, rank: map<nat, nat>, d: nat)
    requires TreeOk(n, rank) && d in n && !(n[d].isdir && n[d].children != map[])
    ensures n[d].children == map[]
  {
    CountsAt(n, rank, ROOT, d);
  }

  lemma UnlinkedKeys(n: Nodes, x: nat)
    requires Listed(n, x) && n[x].parent.value != x && n[x].links > 0 && n[x].handles > 0
    ensures Unlinked(n, x).Keys == n.Keys && Detach(n, x)[x] == n[x]
  {
  }

  lemma RemovedHeld(n: Nodes, rank: map<nat, nat>, d: nat, h: multiset<nat>)
    requires TreeOk(n, rank) && d in n && !n[d].deleted && d != ROOT && n[d].children == map[]
    ensures Listed(n, d) && n[d].parent.value != d && n[d].links > 0 && n[d].handles > 0
    ensures d in Unlinked(n, d) && TreeOk(Unlinked(n, d), rank) && TreeOk(Held(Unlinked(n, d), h), rank)
    ensures Held(Unlinked(n, d), h).Keys == Held(n, h).Keys
    ensures Listed(Held(n, h), d)
    ensures var m := Detach(Held(n, h), d);
            d in m && m[d].links > 0 && m[d].handles > 0 && Bury(m, d) == Held(Unlinked(n, d), h)
  {
    UnlinkedOk(n, rank, d);
    UnlinkedKeys(n, d);
    HeldAll(n, h);
    HeldAll(Unlinked(n, d), h);
    hide TreeOk, Held;
    HeldKeeps(Unlinked(n, d), h, rank);
    DetachHeld(n, h, d);
    BuryHeld(Detach(n, d), h, d);
  }

  // After an unlink, nothing is found under the path.
  lemma UnlinkedGone(n: Nodes, rank: map<nat, nat>, x: nat, path: string)
    requires TreeOk(n, rank) && x in n && !n[x].deleted && x != ROOT && n[x].children == map[]
    requires Listed(n, x) && n[x].parent.value != x && n[x].links > 0 && n[x].handles > 0
    requires |path| > 0 && path[0] == '/' && PathOf(n, rank, x) == path
    ensures var m := Unlinked(n, x);
            TreeOk(m, rank) && OneMore(m, rank, n, rank, x) && ROOT in m && Lookup(m, path).Err?
                && m == Without(n, Some(x))
  {
    UnlinkedOk(n, rank, x);
    UnlinkedPaths(n, rank, x);
    var m := Unlinked(n, x);
    if Lookup(m, path).Ok? {
      var d := Lookup(m, path).value;
      LookupIsPath(m, rank, path, d);
      LookupIsPath(n, rank, path, d);
      LookupIsPath(n, rank, path, x);
    }
  }

  lemma CreatedHeld(n: Nodes, t: nat, id: nat, name: string, isdir: bool)
    requires t in n && id !in n
    ensures id !in Held(n, multiset{t}) && t in Held(n, multiset{t})
    ensures t in Created(Held(n, multiset{t}), t, id, name, isdir)
    ensures Created(Held(n, multiset{t}), t, id, name, isdir)[t].handles == n[t].handles + 1
    ensures Created(Held(n, multiset{t}), t, id, name, isdir)[t].deleted == n[t].deleted
    ensures Drop(Created(Held(n, multiset{t}), t, id, name, isdir), t) == Created(n, t, id, name, isdir)
  {
    HeldAt(n, multiset{t}, t);
    assert Drop(Created(Held(n, multiset{t}), t, id, name, isdir), t).Keys == Created(n, t, id, name, isdir).Keys;
  }

  // The entry that gives way to a move.
  function Replaced(v: Move): Option<nat>
  {
    if v.over == Some(v.what) then None else v.over
  }

  // The handles that looking up the entries of a move takes.
  function Entrants(v: Move): multiset<nat>
  {
    multiset{v.what} + Bag(v.over)
  }

  function Bag(o: Option<nat>): multiset<nat>
  {
    if o.Some? then multiset{o.value} else multiset{}
  }

  lemma BagsAdd(g: multiset<nat>, x: nat, y: Option<nat>)
    ensures g + Bag(y) + multiset{x} == g + (multiset{x} + Bag(y)) == g + multiset{x} + Bag(y)
    ensures if y.Some? then g + Bag(y) - multiset{y.value} == g else g + Bag(y) == g
  {
    assert g + Bag(y) + multiset{x} == g + (multiset{x} + Bag(y));
    if y.Some? {
      assert g + Bag(y) - multiset{y.value} == g;
    }
  }

  // x is the entry of directory d under a name.
  ghost predicate IsEntry(n: Nodes, x: nat, d: nat, name: string)
  {
    x in n && !n[x].deleted && x != ROOT && n[x].parent == Some(d) && n[x].name == name
    && d in n && name in n[d].children && n[d].children[name] == x
  }

  // What two lookups say about a move.
  ghost predicate MoveOk(n: Nodes, v: Move, fromName: string, toName: string)
  {
    && v.fromDir in n && !n[v.fromDir].deleted && v.toDir in n && !n[v.toDir].deleted
    && IsEntry(n, v.what, v.fromDir, fromName)
    && (v.over.Some? ==> IsEntry(n, v.over.value, v.toDir, toName))
    && (v.over.None? ==> toName !in n[v.toDir].children)
    && |toName| <= FILENAME_MAX && '/' !in toName
  }

  lemma MoveFacts(n: Nodes, rank: map<nat, nat>, f: nat, t: nat, x: nat, y: Option<nat>, fromName: string,
      toName: string)
    requires TreeOk(n, rank) && f in n && !n[f].deleted && t in n && !n[t].deleted && '/' !in toName
    requires Entry(n, f, fromName) == Ok(Some(x)) && Entry(n, t, toName) == Ok(y)
    ensures MoveOk(n, Move(f, t, x, y), fromName, toName)
  {
    ChildAt(n, rank, ROOT, f, fromName);
    if y.Some? {
      ChildAt(n, rank, ROOT, t, toName);
    }
  }

  lemma MayMove(n: Nodes, rank: map<nat, nat>, v: Move, fromName: string, toName: string)
    requires TreeOk(n, rank) && MoveOk(n, v, fromName, toName) && Refusal(n, rank, v) == None
    ensures CanMove(n, rank, v.what, Replaced(v), v.toDir, toName)
  {
    if v.over.Some? {
      CountsAt(n, rank, ROOT, v.over.value);
    }
  }

  lemma SelfAbove(n: Nodes, rank: map<nat, nat>, d: nat)
    ensures Above(n, rank, d, d)
  {
  }

  lemma WithoutNone(n: Nodes)
    ensures Without(n, None) == n
  {
  }

  lemma WithoutHas(n: Nodes, y: Option<nat>, d: nat)
    requires d in n
    ensures d in Without(n, y)
  {
  }

  lemma RenamedIs(n: Nodes, rank: map<nat, nat>, x: nat, y: Option<nat>, t: nat, name: string)
    requires TreeOk(n, rank) && CanMove(n, rank, x, y, t, name)
    ensures x != t && Listed(Without(n, y), x) && t in Without(n, y)
    ensures Renamed(n, x, y, t, name) == Moved(Without(n, y), x, t, name)
  {
    WithoutOk(n, rank, x, y, t, name);
    MovedOk(Without(n, y), rank, x, t, name);
  }

  lemma MovedHeld(m: Nodes, rank: map<nat, nat>, x: nat, t: nat, name: string, g: multiset<nat>)
    requires TreeOk(m, rank) && CanMove(m, rank, x, None, t, name) && x != t
    ensures Listed(m, x) && Listed(Held(m, g), x)
    ensures var d := Detach(Held(m, g), x);
            x in d && t in d && Attach(d, x, t, name) == Held(Moved(m, x, t, name), g)
  {
    MovedOk(m, rank, x, t, name);
    DetachHeld(m, g, x);
    hide TreeOk, Held;
    HeldAt(Detach(m, x), g, x);
    HeldAt(Detach(m, x), g, t);
    AttachHeld(Detach(m, x), g, x, t, name);
  }

  lemma MovedAt(m: Nodes, x: nat, t: nat, name: string, id: nat)
    requires Listed(m, x) && t in m && x != t && id in m
    ensures id in Moved(m, x, t, name)
    ensures Moved(m, x, t, name)[id].handles == m[id].handles && Moved(m, x, t, name)[id].deleted == m[id].deleted
  {
  }

  lemma MovedKeys(m: Nodes, x: nat, t: nat, name: string)
    requires Listed(m, x) && t in m && x != t
    ensures Moved(m, x, t, name).Keys == m.Keys
  {
  }

  // The paths of a move.
  lemma MovePaths(n: Nodes, rank: map<nat, nat>, v: Move, from: string, to: string)
    requires TreeOk(n, rank) && '/' in from && '/' in to && MoveOk(n, v, FileName(from), FileName(to))
    requires Lookup(n, DirPath(from)) == Ok(v.fromDir) && Lookup(n, DirPath(to)) == Ok(v.toDir)
    ensures Rooted(from) ==> PathOf(n, rank, v.what) == from
    ensures Rooted(to) ==> Prefix(n, rank, v.toDir) + FileName(to) == to
  {
    if Rooted(from) {
      PathSplit(n, rank, from, v.fromDir);
      AttachedAt(n, rank, ROOT, v.what);
    }
    if Rooted(to) {
      PathSplit(n, rank, to, v.toDir);
    }
  }

  datatype TreeOp = CreateOp(path: string, isdir: bool) | UnlinkOp(path: string) | RenameOp(from: string, to: string)

  predicate WellFormed(op: TreeOp)
  {
    match op
    case CreateOp(path, _) => '/' in path
    case UnlinkOp(path) => |path| > 0 && path[0] == '/'
    case RenameOp(from, to) => '/' in from && '/' in to
  }

  // The operation succeeds, but puts an entry into a file or leaves it without a name.
  ghost predicate Breaks(n: Nodes, rank: map<nat, nat>, op: TreeOp)
    requires ROOT in n && WellFormed(op)
  {
    match op
    case CreateOp(path, _) => Vacancy(n, path).Ok? && !(IsDir(n, Vacancy(n, path).value) && FileName(path) != "")
    case UnlinkOp(_) => false
    case RenameOp(from, to) =>
      Ruling(n, rank, from, to).Ok? && !(IsDir(n, Ruling(n, rank, from, to).value.toDir) && FileName(to) != "")
  }

  ghost predicate AllBelow(n: Nodes, next: nat)
  {
    forall id :: id in n ==> id < next
  }

  // Adding a dentry step by step.
  lemma MadeIsCreated(n: Nodes, t: nat, id: nat, name: string, isdir: bool, m: Nodes)
    requires t in n && id !in n
    requires var d := Blank(name, isdir).(parent := Some(t));
             m == n[id := d][t := n[t].(links := n[t].links + Bit(isdir), children := n[t].children[name := id])]
    ensures m == Created(n, t, id, name, isdir)
  {
  }

  class Index {
    var nodes: Nodes
    var next: nat
    ghost var rank: map<nat, nat>

    ghost predicate Valid()
      reads this
    {
      TreeOk(nodes, rank) && AllBelow(nodes, next)
    }

    // An index with nothing but a root directory.
    constructor ()
      ensures Valid() && nodes == map[ROOT := Node(None, "", true, map[], 2, 1, false)]
    {
      nodes := map[ROOT := Node(None, "", true, map[], 2, 1, false)];
      next := 1;
      rank := map[ROOT := 0];
      new;
      assert SubdirNames(nodes, ROOT) == {};
    }

    // Give a handle back.  A dentry without handles is disposed of: that never happens to one
    // that is still in the tree.
    method ReleaseDentry(id: nat)
      requires id in nodes && nodes[id].handles > (if nodes[id].deleted then 0 else 1)
      modifies this`nodes
      ensures nodes == Drop(old(nodes), id)
    {
      nodes := nodes[id := nodes[id].(handles := nodes[id].handles - 1)];
    }

    // Look up a name in a directory, with a handle on what is found.
    method DirectoryLookup(dir: nat, name: string) returns (r: Result<Option<nat>>)
      requires Valid() && dir in nodes
      modifies this`nodes
      ensures r == Entry(old(nodes), dir, name)
      ensures nodes == Held(old(nodes), if r.Ok? && r.value.Some? then multiset{r.value.value} else multiset{})
      ensures r.Ok? && r.value.Some? ==> IsEntry(old(nodes), r.value.value, dir, name)
      ensures Valid()
    {
      ghost var n := nodes;
      HeldNone(n);
      if |name| > FILENAME_MAX {
        return Err(NameTooLong);
      }
      if name in nodes[dir].children {
        var c := nodes[dir].children[name];
        ChildAt(n, rank, ROOT, dir, name);
        nodes := nodes[c := nodes[c].(handles := nodes[c].handles + 1)];
        GrabHeld(n, multiset{}, c);
        HeldKeeps(n, multiset{c}, rank);
        hide TreeOk, Held;
        assert multiset{} + multiset{c} == multiset{c};
        return Ok(Some(c));
      }
      return Ok(None);
    }

    // The lookup of a name while handles are held.
    method HeldLookup(ghost n: Nodes, ghost g: multiset<nat>, dir: nat, name: string) returns (r: Result<Option<nat>>)
      requires Valid() && TreeOk(n, rank) && dir in n && nodes == Held(n, g)
      modifies this`nodes
      ensures r == Entry(n, dir, name)
      ensures nodes == Held(n, g + if r.Ok? then Bag(r.value) else multiset{})
      ensures r.Ok? && r.value.Some? ==> IsEntry(n, r.value.value, dir, name)
      ensures Valid()
    {
      hide Valid, TreeOk, Held;
      HeldAt(n, g, dir);
      r := DirectoryLookup(dir, name);
      ghost var found := if r.Ok? then Bag(r.value) else multiset{};
      HeldTwice(n, g, found);
      if r.Ok? && r.value.Some? {
        HeldAt(n, g, r.value.value);
      }
    }

    // One component of a path: from a directory that is held to its entry, which is then held.
    method Descend(parent: nat, name: string, keepParent: bool, ghost n: Nodes) returns (r: Result<nat>)
      requires Valid() && TreeOk(n, rank) && parent in n && !n[parent].deleted && nodes == Held(n, multiset{parent})
      modifies this`nodes
      ensures r == Below(n, parent, name)
      ensures r.Err? ==> nodes == n
      ensures r.Ok? ==> r.value in n && !n[r.value].deleted && n[r.value].parent == Some(parent)
                        && nodes == Held(n, if keepParent then multiset{r.value, parent} else multiset{r.value})
      ensures Valid()
    {
      hide Valid, TreeOk, Held;
      var f := HeldLookup(n, multiset{parent}, parent, name);
      if f.Err? || f.value.None? {
        assert multiset{parent} + multiset{} == multiset{parent};
        GiveBack(n, multiset{parent}, parent);
        assert multiset{parent} - multiset{parent} == multiset{};
        HeldNone(n);
        return Err(if f.Err? then f.error else NoDentry);
      }
      var d := f.value.value;
      assert multiset{parent} + multiset{d} == multiset{d, parent};
      if !keepParent {
        GiveBack(n, multiset{d, parent}, parent);
        assert multiset{d, parent} - multiset{parent} == multiset{d};
      }
      return Ok(d);
    }

    // Give back one of the handles held.
    method PutBack(ghost n: Nodes, ghost g: multiset<nat>, d: nat)
      requires d in n && (n[d].deleted || n[d].handles > 0) && d in g && nodes == Held(n, g)
      modifies this`nodes
      ensures nodes == Held(n, g - multiset{d})
    {
      HeldAt(n, g, d);
      DropHeld(n, g, d);
      hide Held;
      ReleaseDentry(d);
    }

    method GiveBack(ghost n: Nodes, ghost g: multiset<nat>, d: nat)
      requires Valid() && TreeOk(n, rank) && d in n && d in g && nodes == Held(n, g)
      modifies this`nodes
      ensures Valid() && nodes == Held(n, g - multiset{d})
    {
      HandleKept(n, rank, d);
      HeldKeeps(n, g - multiset{d}, rank);
      HeldAll(n, g);
      HeldAll(n, g - multiset{d});
      hide TreeOk, Held;
      PutBack(n, g, d);
    }

    // Resolve a path, one component at a time, holding each directory while it is searched.
    method PathLookup(path: string, keepParent: bool) returns (r: Result<nat>)
      requires Valid()
      modifies this`nodes
      ensures r == Lookup(old(nodes), path)
      ensures nodes == Held(old(nodes), Taken(old(nodes), path, keepParent, r))
      ensures Valid()
    {
      ghost var n := nodes;
      GrabRoot(n, rank);
      hide Held, Walk, TreeOk;
      nodes := nodes[ROOT := nodes[ROOT].(handles := nodes[ROOT].handles + 1)];
      if path == "" || path == "/" {
        return Ok(ROOT);
      }
      r := Resolve(path, keepParent, n);
    }

    method Resolve(path: string, keepParent: bool, ghost n: Nodes) returns (r: Result<nat>)
      requires Valid() && TreeOk(n, rank) && nodes == Held(n, multiset{ROOT}) && path != "" && path != "/"
      modifies this`nodes
      ensures r == Lookup(n, path) && nodes == Held(n, Taken(n, path, keepParent, r))
      ensures Valid()
    {
      hide Valid, TreeOk, Held, Walk, Entry, NextSlash;
      RootStands(n, rank);
      var d, start := ROOT, 1;
      assert Lookup(n, path) == Walk(n, d, path, start);
      hide Lookup;
      while true
        invariant start <= |path| && d in n && !n[d].deleted
        invariant nodes == Held(n, multiset{d}) && Valid()
        invariant Lookup(n, path) == Walk(n, d, path, start)
        decreases |path| - start
      {
        var end := NextSlash(path, start);
        var f := Descend(d, path[start..end], keepParent && end == |path|, n);
        WalkUnfold(n, d, path, start, f);
        if f.Err? || end == |path| {
          r := f;
          HeldNone(n);
          return;
        }
        d := f.value;
        start := end + 1;
      }
    }

    // Whether a is d or one of its predecessors.
    method IsPredecessor(a: nat, d: nat) returns (yes: bool)
      requires Valid() && d in nodes && !nodes[d].deleted
      ensures yes <==> Above(nodes, rank, a, d)
    {
      CountsAt(nodes, rank, ROOT, d);
      var at := Some(d);
      while at.Some?
        invariant at.Some? ==> at.value in nodes && !nodes[at.value].deleted && at.value in rank
        invariant Above(nodes, rank, a, d) <==> at.Some? && Above(nodes, rank, a, at.value)
        decreases if at.Some? then rank[at.value] + 1 else 0
      {
        if at.value == a {
          return true;
        }
        if at.value != ROOT {
          AttachedAt(nodes, rank, ROOT, at.value);
        }
        at := nodes[at.value].parent;
      }
      return false;
    }

    // How many names a path has: the dentry's own, and those of its predecessors.
    method CountNames(d: nat) returns (count: nat)
      requires Valid() && d in nodes && !nodes[d].deleted
      ensures count == |Names(nodes, rank, d)|
    {
      CountsAt(nodes, rank, ROOT, d);
      var at := Some(d);
      count := 0;
      while at.Some?
        invariant at.Some? ==> at.value in nodes && !nodes[at.value].deleted && at.value in rank
        invariant |Names(nodes, rank, d)| == count + if at.Some? then |Names(nodes, rank, at.value)| else 0
        decreases if at.Some? then rank[at.value] + 1 else 0
      {
        if at.value != ROOT {
          AttachedAt(nodes, rank, ROOT, at.value);
        }
        at := nodes[at.value].parent;
        count := count + 1;
      }
    }

    // The names, filled in from the last to the first.
    method CollectNames(d: nat, count: nat) returns (names: array<string>)
      requires Valid() && d in nodes && !nodes[d].deleted && count == |Names(nodes, rank, d)|
      ensures fresh(names) && names[..] == Names(nodes, rank, d)
    {
      ghost var n := nodes;
      ghost var all := Names(nodes, rank, d);
      names := new string[count](_ => "");
      var i, x := count, d;
      assert all[..count] == all;
      while i > 0
        invariant 0 <= i <= count && count == |all| == names.Length && nodes == n
        invariant i > 0 ==> x in n && !n[x].deleted && all[..i] == Names(n, rank, x)
        invariant forall k :: i <= k < count ==> names[k] == all[k]
      {
        if x != ROOT {
          AttachedAt(n, rank, ROOT, x);
        }
        assert all[i - 1] == all[..i][i - 1] == CalledIn(n, x);
        assert all[..i - 1] == all[..i][..i - 1];
        i := i - 1;
        if nodes[x].parent.None? {
          names[i] := "/";
        } else {
          names[i] := nodes[x].name;
          x := nodes[x].parent.value;
        }
      }
    }

    // The path of a dentry, put together from the names on the way up to the root.
    method DentryPath(d: nat) returns (path: string)
      requires Valid() && d in nodes && !nodes[d].deleted
      ensures path == PathOf(nodes, rank, d)
      ensures ROOT in nodes && Lookup(nodes, path) == Ok(d)
    {
      PathRoundTrip(nodes, rank, d);
      JoinedPath(nodes, rank, d);
      hide PathOf, Lookup, Prefix, TreeOk, Names;
      var count := CountNames(d);
      var names := CollectNames(d, count);
      ghost var all := names[..];
      path := "";
      var i := 0;
      while i < count
        invariant 0 <= i <= count && names[..] == all && path == Joined(all, i)
      {
        path := path + names[i];
        if i > 0 && i < count - 1 {
          path := path + "/";
        }
        i := i + 1;
      }
    }

    method SplitPath(path: string) returns (dir: string, name: string)
      requires '/' in path
      ensures dir == DirPath(path) && name == FileName(path)
    {
      var k := |path|;
      while path[k - 1] != '/'
        invariant 0 < k <= |path| && forall i :: k <= i < |path| ==> path[i] != '/'
        invariant SlashBefore(path, |path|) == SlashBefore(path, k)
        decreases k
      {
        k := k - 1;
      }
      return path[..k - 1], path[k..];
    }

    // Take a dentry out of the table of its parent.
    method Unhook(x: nat)
      requires Listed(nodes, x)
      modifies this`nodes
      ensures nodes == Detach(old(nodes), x)
    {
      var p := nodes[x].parent.value;
      var isdir := nodes[x].isdir;
      nodes := nodes[p := nodes[p].(children := nodes[p].children - {nodes[x].name})];
      if isdir {
        nodes := nodes[p := nodes[p].(links := nodes[p].links - 1)];
      }
    }

    // Put a dentry into the table of a directory.
    method Hook(x: nat, t: nat, name: string)
      requires x in nodes && t in nodes && x != t
      modifies this`nodes
      ensures nodes == Attach(old(nodes), x, t, name)
    {
      if nodes[x].isdir {
        nodes := nodes[t := nodes[t].(links := nodes[t].links + 1)];
      }
      nodes := nodes[x := nodes[x].(parent := Some(t), name := name)];
      nodes := nodes[t := nodes[t].(children := nodes[t].children[name := x])];
    }

    // Mark a dentry as gone.
    method Kill(x: nat)
      requires x in nodes && nodes[x].links > 0 && nodes[x].handles > 0
      modifies this`nodes
      ensures nodes == Bury(old(nodes), x)
    {
      nodes := nodes[x := nodes[x].(deleted := true, parent := None)];
      nodes := nodes[x := nodes[x].(links := nodes[x].links - 1)];
      nodes := nodes[x := nodes[x].(handles := nodes[x].handles - 1)];
    }

    // Make a new file or directory under a path.  The result is a proper tree if and only if the
    // parent is a directory, which nothing here asks, and the path does not end in a slash.
    method Create(path: string, isdir: bool) returns (r: Result<nat>)
      requires Valid() && '/' in path
      modifies this
      ensures ROOT in old(nodes) && (r.Ok? <==> Vacancy(old(nodes), path).Ok?)
      ensures r.Err? ==> r.error == Vacancy(old(nodes), path).error && nodes == old(nodes) && Valid()
      ensures r.Ok? ==> CreatedAt(old(nodes), nodes, Vacancy(old(nodes), path).value, r.value, FileName(path), isdir)
      ensures Rooted(path) ==> CreateAnswers(old(nodes), old(rank), path, r)
      ensures Rooted(path) && r.Ok? ==>
              forall t: nat {:trigger Houses(old(nodes), old(rank), path, t)} ::
                Houses(old(nodes), old(rank), path, t) ==>
                  CreatedAt(old(nodes), nodes, t, r.value, FileName(path), isdir)
      ensures r.Ok? ==> (Valid() <==> IsDir(old(nodes), Vacancy(old(nodes), path).value) && FileName(path) != "")
      ensures r.Ok? && !Valid() ==> forall k :: !TreeOk(nodes, k)
      ensures r.Ok? && Valid() ==> OneMore(old(nodes), old(rank), nodes, rank, r.value)
      ensures r.Ok? && Valid() && Rooted(path) ==>
              r.value in nodes && PathOf(nodes, rank, r.value) == path
    {
      ghost var n := nodes;
      var t, name := FindVacancy(path);
      hide Valid, TreeOk, Held, LastSlash, Walk, Lookup, Vacancy, OneMore, PathOf, Prefix, Rooted, Houses, Entered,
           CreatedAt, LongName;
      if Rooted(path) {
        VacancyAnswers(n, rank, path);
      }
      if t.Err? {
        return t;
      }
      r := Ok(next);
      if Rooted(path) {
        PathSplit(n, rank, path, t.value);
      }
      AddEntry(n, t.value, name, isdir);
      ValidIs();
    }

    lemma ValidIs()
      ensures Valid() <==> TreeOk(nodes, rank) && AllBelow(nodes, next)
    {
    }

    // The directory for a new entry, which is held.
    method FindVacancy(path: string) returns (r: Result<nat>, name: string)
      requires Valid() && '/' in path
      modifies this`nodes
      ensures ROOT in old(nodes) && r == Vacancy(old(nodes), path) && name == FileName(path) && '/' !in name
      ensures r.Err? ==> nodes == old(nodes)
      ensures r.Ok? ==>
              r.value in old(nodes) && !old(nodes)[r.value].deleted && nodes == Held(old(nodes), multiset{r.value})
                        && name !in old(nodes)[r.value].children && |name| <= FILENAME_MAX
                        && Lookup(old(nodes), DirPath(path)) == Ok(r.value)
      ensures Valid()
    {
      ghost var n := nodes;
      RootStands(n, rank);
      hide Valid, TreeOk, Held, LastSlash, Walk, Lookup;
      var dir;
      dir, name := SplitPath(path);
      r := PathLookup(dir, false);
      if r.Err? {
        HeldNone(n);
        return;
      }
      var t := r.value;
      LookupLive(n, rank, dir);
      var e := HeldLookup(n, multiset{t}, t, name);
      assert multiset{t} + multiset{} == multiset{t};
      if e.Err? || e.value.Some? {
        if e.Ok? {
          var c := e.value.value;
          assert multiset{t} + multiset{c} - multiset{c} == multiset{t};
          GiveBack(n, multiset{t} + multiset{c}, c);
        }
        GiveBack(n, multiset{t}, t);
        assert multiset{t} - multiset{t} == multiset{};
        HeldNone(n);
        r := Err(if e.Err? then e.error else Exists);
      }
    }

    // A new dentry, and its place in a directory.
    method MakeDentry(t: nat, name: string, isdir: bool) returns (id: nat)
      requires t in nodes && AllBelow(nodes, next)
      modifies this`nodes, this`next
      ensures id == old(next) && id !in old(nodes) && nodes == Created(old(nodes), t, id, name, isdir)
              && AllBelow(nodes, next)
    {
      id := next;
      next := next + 1;
      var d := Node(None, name, isdir, map[], if isdir then 1 else 0, 1, false);
      // Create sets the parent, and counts the link and the handle of the caller
      d := d.(parent := Some(t));
      d := d.(links := d.links + 1);
      d := d.(handles := d.handles + 1);
      nodes := nodes[id := d];
      if isdir {
        nodes := nodes[t := nodes[t].(links := nodes[t].links + 1)];
      }
      nodes := nodes[t := nodes[t].(children := nodes[t].children[name := id])];
      MadeIsCreated(old(nodes), t, id, name, isdir, nodes);
    }

    // The end of Create: the new dentry, its place in the directory, and the handle on the directory
    // given back.
    method AddEntry(ghost n: Nodes, t: nat, name: string, isdir: bool)
      requires Valid() && TreeOk(n, rank) && t in n && !n[t].deleted && nodes == Held(n, multiset{t})
      requires name !in n[t].children && |name| <= FILENAME_MAX && '/' !in name
      modifies this
      ensures CreatedAt(n, nodes, t, old(next), name, isdir) && AllBelow(nodes, next)
      ensures IsDir(n, t) && name != "" ==> TreeOk(nodes, rank) && OneMore(n, old(rank), nodes, rank, old(next))
                                            && PathOf(nodes, rank, old(next)) == Prefix(n, old(rank), t) + name
      ensures !(IsDir(n, t) && name != "") ==> forall k :: !TreeOk(nodes, k)
    {
      HandleKept(n, rank, t);
      HeldAll(n, multiset{t});
      CreatedHeld(n, t, next, name, isdir);
      var id := MakeDentry(t, name, isdir);
      ReleaseDentry(t);
      CreatedOk(n, rank, t, id, name, isdir);
      if n[t].isdir && name != "" {
        CreatedPaths(n, rank, t, id, name, isdir);
        rank := CreatedRank(n, rank, t, id, Blank(name, isdir));
      }
    }

    // Remove a file or an empty directory.
    method Unlink(path: string) returns (r: Result<nat>)
      requires Valid() && |path| > 0 && path[0] == '/'
      modifies this`nodes
      ensures ROOT in old(nodes) && r == Removal(old(nodes), path) && UnlinkAnswers(old(nodes), rank, path, r)
      ensures r.Err? ==> nodes == old(nodes)
      ensures r.Ok? ==> nodes == Without(old(nodes), Some(r.value)) && OneMore(nodes, rank, old(nodes), rank, r.value)
      ensures r.Ok? ==> r.value in old(nodes) && PathOf(old(nodes), rank, r.value) == path
                        && ROOT in nodes && Lookup(nodes, path).Err?
      ensures Valid()
    {
      ghost var n := nodes;
      RootStands(n, rank);
      RemovalAnswers(n, rank, path);
      hide Valid, TreeOk, Held, Lookup, UnlinkAnswers;
      if path == "/" {
        return Err(UnlinkRoot);
      }
      r := PathLookup(path, true);
      if r.Err? {
        HeldNone(n);
        return;
      }
      var d := r.value;
      LookupLive(n, rank, path);
      LookupIsPath(n, rank, path, d);
      HasParent(n, rank, d);
      HeldAt(n, multiset{d, n[d].parent.value}, d);
      var parent := nodes[d].parent.value;
      if nodes[d].isdir && nodes[d].children != map[] {
        LetGo(n, d, parent);
        return Err(DirNotEmpty);
      }
      NoEntries(n, rank, d);
      assert multiset{d} + multiset{parent} == multiset{d, parent};
      RemoveEntry(n, d, multiset{parent});
      UnlinkedGone(n, rank, d, path);
      GiveBack(Unlinked(n, d), multiset{parent}, parent);
      assert multiset{parent} - multiset{parent} == multiset{};
      HeldNone(Unlinked(n, d));
    }

    // Give back two handles.
    method LetGo(ghost n: Nodes, a: nat, b: nat)
      requires Valid() && TreeOk(n, rank) && a in n && b in n && nodes == Held(n, multiset{a, b})
      modifies this`nodes
      ensures Valid() && nodes == n
    {
      hide Valid, TreeOk, Held;
      GiveBack(n, multiset{a, b}, a);
      assert multiset{a, b} - multiset{a} == multiset{b};
      GiveBack(n, multiset{b}, b);
      assert multiset{b} - multiset{b} == multiset{};
      HeldNone(n);
    }

    // Take a childless dentry out of the tree, and give back the handle on it.
    method RemoveEntry(ghost n: Nodes, d: nat, ghost g: multiset<nat>)
      requires Valid() && TreeOk(n, rank) && d in n && !n[d].deleted && d != ROOT && n[d].children == map[]
      requires nodes == Held(n, multiset{d} + g)
      modifies this`nodes
      ensures Listed(n, d) && n[d].parent.value != d && n[d].links > 0 && n[d].handles > 0
      ensures TreeOk(Unlinked(n, d), rank) && nodes == Held(Unlinked(n, d), g)
      ensures Valid()
    {
      RemovedHeld(n, rank, d, multiset{d} + g);
      hide TreeOk, Held, Unlinked, Detach, Bury, Listed;
      Unhook(d);
      Kill(d);
      GiveBack(Unlinked(n, d), multiset{d} + g, d);
      assert multiset{d} + g - multiset{d} == g;
    }

    // Move a dentry, and all below it, to another place.  The result is a proper tree if and only
    // if the new parent is a directory, which nothing here asks, and the new name is not empty.
    method Rename(from: string, to: string) returns (r: Result<Move>)
      requires Valid() && '/' in from && '/' in to
      modifies this
      ensures ROOT in old(nodes) && r == Ruling(old(nodes), old(rank), from, to)
      ensures Rooted(from) && Rooted(to) ==> RenameAnswers(old(nodes), old(rank), from, to, r)
      ensures r.Err? ==> nodes == old(nodes) && Valid()
      ensures r.Ok? ==> nodes == Renamed(old(nodes), r.value.what, Replaced(r.value), r.value.toDir, FileName(to))
      ensures r.Ok? ==> (Valid() <==> IsDir(old(nodes), r.value.toDir) && FileName(to) != "")
      ensures r.Ok? && !Valid() ==> forall k :: !TreeOk(nodes, k)
      ensures r.Ok? && Valid() && Rooted(to) ==>
                Relocated(old(nodes), old(rank), nodes, rank, r.value.what, Replaced(r.value), to)
      ensures r.Ok? && Rooted(from) ==>
                r.value.what in old(nodes) && PathOf(old(nodes), old(rank), r.value.what) == from
    {
      ghost var n := nodes;
      hide Valid, TreeOk, Held, LastSlash, Walk, Lookup, Entries, Refusal, Renamed, Relocated, PathOf, Prefix, Above,
           Rooted, RenameAnswers;
      ValidIs();
      if Rooted(from) && Rooted(to) {
        RulingAnswers(n, rank, from, to);
      }
      var f, t, fromName, toName;
      var ok;
      ok, f, t, fromName, toName := FindDirs(from, to);
      if ok.Err? {
        return Err(ok.error);
      }
      r := FindEntries(n, f, t, fromName, toName);
      if r.Err? {
        LetGo(n, f, t);
        return;
      }
      var v := r.value;
      var refusal := Check(n, multiset{f, t} + Entrants(v), v, fromName, toName);
      if refusal.Some? {
        LetGoEntries(n, multiset{f, t}, v);
        LetGo(n, f, t);
        return Err(refusal.value);
      }
      MovePaths(n, rank, v, from, to);
      Perform(n, v, fromName, toName);
      ValidIs();
    }

    // The two directories of a rename.
    method FindDirs(from: string, to: string)
      returns (ok: Result<()>, f: nat, t: nat, fromName: string, toName: string)
      requires Valid() && '/' in from && '/' in to
      modifies this`nodes
      ensures ROOT in old(nodes) && fromName == FileName(from) && toName == FileName(to) && '/' !in toName
      ensures ok == (match Lookup(old(nodes), DirPath(from))
                     case Err(error) => Err(error)
                     case Ok(_) =>
                       match Lookup(old(nodes), DirPath(to))
                       case Err(error) => Err(error)
                       case Ok(_) => Ok(()))
      ensures ok.Err? ==> nodes == old(nodes)
      ensures ok.Ok? ==> Lookup(old(nodes), DirPath(from)) == Ok(f) && Lookup(old(nodes), DirPath(to)) == Ok(t)
                         && f in old(nodes) && !old(nodes)[f].deleted && t in old(nodes) && !old(nodes)[t].deleted
                         && nodes == Held(old(nodes), multiset{f, t})
      ensures Valid()
    {
      ghost var n := nodes;
      RootStands(n, rank);
      hide Valid, TreeOk, Held, LastSlash, Lookup;
      var fromDir, toDir;
      fromDir, fromName := SplitPath(from);
      toDir, toName := SplitPath(to);
      f, t := ROOT, ROOT;
      var x := PathLookup(fromDir, false);
      if x.Err? {
        HeldNone(n);
        return Err(x.error), f, t, fromName, toName;
      }
      f := x.value;
      LookupLive(n, rank, fromDir);
      LookupHeld(n, multiset{f}, toDir);
      var y := PathLookup(toDir, false);
      HeldTwice(n, multiset{f}, if y.Ok? then multiset{y.value} else multiset{});
      if y.Err? {
        assert multiset{f} + multiset{} == multiset{f} && multiset{f} - multiset{f} == multiset{};
        GiveBack(n, multiset{f}, f);
        HeldNone(n);
        return Err(y.error), f, t, fromName, toName;
      }
      t := y.value;
      LookupLive(n, rank, toDir);
      assert multiset{f} + multiset{t} == multiset{f, t};
      ok := Ok(());
    }

    // The two entries of a rename: the directory that is nearer to the root is searched first.
    method FindEntries(ghost n: Nodes, f: nat, t: nat, fromName: string, toName: string) returns (r: Result<Move>)
      requires Valid() && TreeOk(n, rank) && f in n && !n[f].deleted && t in n && !n[t].deleted
      requires nodes == Held(n, multiset{f, t}) && '/' !in toName
      modifies this`nodes
      ensures r == Entries(n, rank, f, t, fromName, toName)
      ensures r.Err? ==> nodes == Held(n, multiset{f, t})
      ensures r.Ok? ==> r.value.fromDir == f && r.value.toDir == t && MoveOk(n, r.value, fromName, toName)
                        && nodes == Held(n, multiset{f, t} + Entrants(r.value))
      ensures Valid()
    {
      ghost var g := multiset{f, t};
      hide Valid, TreeOk, Held, Above;
      AboveHeld(n, g, rank, t, f);
      HeldAt(n, g, f);
      HeldAt(n, g, t);
      assert g + multiset{} == g;
      var near := t == f;
      if !near {
        near := IsPredecessor(t, f);
      }
      assert near <==> Above(n, rank, t, f) by {
        SelfAbove(n, rank, t);
      }
      if near {
        r := TargetFirst(n, f, t, fromName, toName);
      } else {
        r := SourceFirst(n, f, t, fromName, toName);
      }
    }

    method TargetFirst(ghost n: Nodes, f: nat, t: nat, fromName: string, toName: string) returns (r: Result<Move>)
      requires Valid() && TreeOk(n, rank) && f in n && !n[f].deleted && t in n && !n[t].deleted && Above(n, rank, t, f)
      requires nodes == Held(n, multiset{f, t}) && '/' !in toName
      modifies this`nodes
      ensures r == Entries(n, rank, f, t, fromName, toName)
      ensures r.Err? ==> nodes == Held(n, multiset{f, t})
      ensures r.Ok? ==> r.value.fromDir == f && r.value.toDir == t && MoveOk(n, r.value, fromName, toName)
                        && nodes == Held(n, multiset{f, t} + Entrants(r.value))
      ensures Valid()
    {
      ghost var g := multiset{f, t};
      hide Valid, TreeOk, Held, Above, Entry, MoveOk;
      var y := HeldLookup(n, g, t, toName);
      if y.Err? {
        assert g + multiset{} == g;
        return Err(y.error);
      }
      ghost var h := g + Bag(y.value);
      var x := HeldLookup(n, h, f, fromName);
      assert h + multiset{} == h;
      if x.Err? || x.value.None? {
        BagsAdd(g, 0, y.value);
        if y.value.Some? {
          GiveBack(n, h, y.value.value);
        }
        return Err(NoDentry);
      }
      BagsAdd(g, x.value.value, y.value);
      MoveFacts(n, rank, f, t, x.value.value, y.value, fromName, toName);
      r := Ok(Move(f, t, x.value.value, y.value));
    }

    method SourceFirst(ghost n: Nodes, f: nat, t: nat, fromName: string, toName: string) returns (r: Result<Move>)
      requires Valid() && TreeOk(n, rank) && f in n && !n[f].deleted && t in n && !n[t].deleted && !Above(n, rank, t, f)
      requires nodes == Held(n, multiset{f, t}) && '/' !in toName
      modifies this`nodes
      ensures r == Entries(n, rank, f, t, fromName, toName)
      ensures r.Err? ==> nodes == Held(n, multiset{f, t})
      ensures r.Ok? ==> r.value.fromDir == f && r.value.toDir == t && MoveOk(n, r.value, fromName, toName)
                        && nodes == Held(n, multiset{f, t} + Entrants(r.value))
      ensures Valid()
    {
      ghost var g := multiset{f, t};
      hide Valid, TreeOk, Held, Above, Entry, MoveOk;
      var x := HeldLookup(n, g, f, fromName);
      if x.Err? || x.value.None? {
        assert g + multiset{} == g;
        return Err(if x.Err? then x.error else NoDentry);
      }
      ghost var h := g + multiset{x.value.value};
      var y := HeldLookup(n, h, t, toName);
      if y.Err? {
        assert h + multiset{} == h && h - multiset{x.value.value} == g;
        GiveBack(n, h, x.value.value);
        return Err(y.error);
      }
      BagsAdd(g, x.value.value, y.value);
      MoveFacts(n, rank, f, t, x.value.value, y.value, fromName, toName);
      r := Ok(Move(f, t, x.value.value, y.value));
    }

    // What speaks against a move.
    method Check(ghost n: Nodes, ghost g: multiset<nat>, v: Move, ghost fromName: string, ghost toName: string)
        returns (e: Option<Error>)
      requires Valid() && TreeOk(n, rank) && MoveOk(n, v, fromName, toName) && nodes == Held(n, g)
      ensures e == Refusal(n, rank, v)
    {
      hide Valid, TreeOk, Held, Above;
      HeldAt(n, g, v.what);
      HeldAt(n, g, v.toDir);
      HeldAt(n, g, v.fromDir);
      AboveHeld(n, g, rank, v.what, v.toDir);
      var loop := IsPredecessor(v.what, v.toDir);
      if loop {
        return Some(RenameLoop);
      }
      if v.over.None? {
        return None;
      }
      var y := v.over.value;
      HeldAt(n, g, y);
      AboveHeld(n, g, rank, y, v.fromDir);
      var above := IsPredecessor(y, v.fromDir);
      if above {
        return Some(if nodes[v.what].isdir then DirNotEmpty else IsFile);
      }
      if y != v.what && nodes[y].isdir && nodes[y].children != map[] {
        return Some(DirNotEmpty);
      }
      return None;
    }

    // Give back the handles on the entries of a move.
    method LetGoEntries(ghost n: Nodes, ghost g: multiset<nat>, v: Move)
      requires Valid() && TreeOk(n, rank) && v.what in n && (v.over.Some? ==> v.over.value in n)
      requires nodes == Held(n, g + Entrants(v))
      modifies this`nodes
      ensures Valid() && nodes == Held(n, g)
    {
      hide Valid, TreeOk, Held;
      ghost var h := g + Entrants(v);
      GiveBack(n, h, v.what);
      if v.over.Some? {
        GiveBack(n, h - multiset{v.what}, v.over.value);
        assert h - multiset{v.what} - multiset{v.over.value} == g;
      } else {
        assert h - multiset{v.what} == g;
      }
    }

    // Unlink the entry in the way of a move, if there is one.
    method ClearWay(ghost n: Nodes, v: Move, ghost fromName: string, ghost name: string)
      requires Valid() && TreeOk(n, rank) && MoveOk(n, v, fromName, name)
               && CanMove(n, rank, v.what, Replaced(v), v.toDir, name)
      requires nodes == Held(n, multiset{v.fromDir, v.toDir} + Entrants(v))
      modifies this`nodes
      ensures Valid() && nodes == Held(Without(n, Replaced(v)), multiset{v.fromDir, v.toDir, v.what})
    {
      ghost var g := multiset{v.fromDir, v.toDir, v.what};
      WithoutOk(n, rank, v.what, Replaced(v), v.toDir, name);
      hide TreeOk, Held, Above, Without;
      if v.over.Some? && v.over.value != v.what {
        assert multiset{v.fromDir, v.toDir} + Entrants(v) == multiset{v.over.value} + g;
        RemoveEntry(n, v.over.value, g);
      } else if v.over.Some? {
        assert multiset{v.fromDir, v.toDir} + Entrants(v) == g + multiset{v.what};
        GiveBack(n, g + multiset{v.what}, v.what);
        assert g + multiset{v.what} - multiset{v.what} == g;
        WithoutNone(n);
      } else {
        assert multiset{v.fromDir, v.toDir} + Entrants(v) == g;
        WithoutNone(n);
      }
    }

    // Move a dentry to its new place and give back the handles.
    method Relink(ghost m: Nodes, x: nat, f: nat, t: nat, name: string)
      requires Valid() && TreeOk(m, rank) && CanMove(m, rank, x, None, t, name) && x != t && f in m
      requires nodes == Held(m, multiset{f, t, x})
      modifies this`nodes
      ensures Listed(m, x) && nodes == Moved(m, x, t, name) && AllBelow(nodes, next)
    {
      ghost var g := multiset{f, t, x};
      MovedHeld(m, rank, x, t, name, g);
      MovedKeys(m, x, t, name);
      MovedAt(m, x, t, name, x);
      MovedAt(m, x, t, name, t);
      MovedAt(m, x, t, name, f);
      HeldAll(m, g);
      HandleKept(m, rank, f);
      HandleKept(m, rank, t);
      HandleKept(m, rank, x);
      hide TreeOk, Held, Moved, Attach, Detach, Listed, Above;
      Unhook(x);
      Hook(x, t, name);
      LetGoAll(Moved(m, x, t, name), f, t, x);
    }

    // Give back three handles.
    method LetGoAll(ghost w: Nodes, f: nat, t: nat, x: nat)
      requires nodes == Held(w, multiset{f, t, x}) && f in w && t in w && x in w
      requires (w[f].deleted || w[f].handles > 0) && (w[t].deleted || w[t].handles > 0)
               && (w[x].deleted || w[x].handles > 0)
      modifies this`nodes
      ensures nodes == w
    {
      ghost var g := multiset{f, t, x};
      hide Held;
      PutBack(w, g, x);
      assert g - multiset{x} == multiset{f, t};
      PutBack(w, multiset{f, t}, f);
      assert multiset{f, t} - multiset{f} == multiset{t};
      PutBack(w, multiset{t}, t);
      assert multiset{t} - multiset{t} == multiset{};
      HeldNone(w);
    }

    // The end of Rename: the entry in the way goes, the entry moves, the handles are given back.
    method Perform(ghost n: Nodes, v: Move, ghost fromName: string, name: string)
      requires Valid() && TreeOk(n, rank) && MoveOk(n, v, fromName, name) && Refusal(n, rank, v) == None
      requires nodes == Held(n, multiset{v.fromDir, v.toDir} + Entrants(v))
      modifies this
      ensures next == old(next) && AllBelow(nodes, next)
      ensures nodes == Renamed(n, v.what, Replaced(v), v.toDir, name)
      ensures IsDir(n, v.toDir) && name != "" ==>
                TreeOk(nodes, rank) && Relocated(n, old(rank), nodes, rank, v.what, Replaced(v),
                    Prefix(n, old(rank), v.toDir) + name)
      ensures !(IsDir(n, v.toDir) && name != "") ==> forall k :: !TreeOk(nodes, k)
    {
      MayMove(n, rank, v, fromName, name);
      var x, t := v.what, v.toDir;
      ghost var y := Replaced(v);
      hide TreeOk, Held, Renamed, Relocated, Above, Refusal;
      ClearWay(n, v, fromName, name);
      ghost var m := Without(n, y);
      WithoutOk(n, rank, x, y, t, name);
      RenamedIs(n, rank, x, y, t, name);
      WithoutHas(n, y, v.fromDir);
      Relink(m, x, v.fromDir, t, name);
      RenamedOk(n, rank, x, y, t, name);
      if n[t].isdir && name != "" {
        RenamedPaths(n, rank, x, y, t, name);
        rank := RenamedRank(n, rank, x, y, t);
      }
    }

    // What being a proper tree means for a dentry in it: its link count, its place in its
    // parent, and that climbing from it never comes back.
    lemma Place(d: nat)
      requires Valid() && d in nodes && !nodes[d].deleted
      ensures nodes[d].links == if nodes[d].isdir then 2 + |SubdirNames(nodes, d)| else 1
      ensures nodes[d].handles > 0 && (!nodes[d].isdir ==> nodes[d].children == map[])
      ensures d != ROOT ==>
                && nodes[d].parent.Some? && IsEntry(nodes, d, nodes[d].parent.value, nodes[d].name)
                && IsDir(nodes, nodes[d].parent.value) && !Above(nodes, rank, d, nodes[d].parent.value)
    {
      CountsAt(nodes, rank, ROOT, d);
      assert !nodes[d].isdir ==> SubdirNames(nodes, d) == {};
      if d != ROOT {
        AttachedAt(nodes, rank, ROOT, d);
        NotAboveParent(nodes, rank, d);
      }
    }

    // One operation, whether it succeeds or fails, and whether it leaves a proper tree.
    method Do(op: TreeOp) returns (sound: bool)
      requires Valid() && WellFormed(op)
      modifies this
      ensures ROOT in old(nodes) && (sound <==> !Breaks(old(nodes), old(rank), op))
      ensures sound <==> Valid()
      ensures !sound ==> forall k :: !TreeOk(nodes, k)
    {
      ValidIs();
      RootStands(nodes, rank);
      hide Valid, TreeOk, Vacancy, Ruling, LastSlash, OneMore, Relocated;
      var n := nodes;
      match op {
        case CreateOp(path, isdir) =>
          var t := Vacancy(n, path);
          var r := Create(path, isdir);
          sound := r.Err? || (IsDir(n, t.value) && FileName(path) != "");
        case UnlinkOp(path) =>
          var r := Unlink(path);
          sound := true;
        case RenameOp(from, to) =>
          var r := Rename(from, to);
          sound := r.Err? || (IsDir(n, r.value.toDir) && FileName(to) != "");
      }
    }

    // Any run of operations keeps a proper tree, unless one of them breaks it, and then the run
    // ends just behind that one.
    method Run(ops: seq<TreeOp>) returns (n: nat)
      requires Valid() && forall k :: 0 <= k < |ops| ==> WellFormed(ops[k])
      modifies this
      ensures n <= |ops| && (n == |ops| <==> Valid())
      ensures n < |ops| ==> forall k :: !TreeOk(nodes, k)
    {
      hide Valid, TreeOk, Breaks, WellFormed;
      n := 0;
      while n < |ops|
        invariant n <= |ops| && Valid()
      {
        var sound := Do(ops[n]);
        if !sound {
          return;
        }
        n := n + 1;
      }
    }
  }
}
