// The directory tree: dentries with parent pointers, child tables, link and handle counts.
//
// Dentries are numbered entries of a table; 0 is the root.
module Tree {
  import opened Medium

  const ROOT: nat := 0
  const FILENAME_MAX: nat := 255

  datatype Node = Node(parent: Option<nat>, name: string, isdir: bool, children: map<string, nat>,
                       links: nat, handles: nat, deleted: bool)

  type Nodes = map<nat, Node>

  // What makes a usable name.
  predicate NameOk(name: string)
  {
    0 < |name| <= FILENAME_MAX && '/' !in name
  }

  // ---------------------------------------------------------------- the invariant

  // Names of the subdirectories of a dentry.
  function SubdirNames(n: Nodes, id: nat): set<string>
    requires id in n
  {
    set name | name in n[id].children && n[id].children[name] in n && n[n[id].children[name]].isdir
  }

  // A dentry in the tree is an entry of its parent directory, which is nearer to the root.
  ghost predicate Attached(n: Nodes, rank: map<nat, nat>, id: nat)
    requires id in n
  {
    var d := n[id];
    && d.parent.Some? && d.parent.value in n && NameOk(d.name)
    && var p := n[d.parent.value];
    && !p.deleted && p.isdir && d.name in p.children && p.children[d.name] == id
    && d.parent.value in rank && id in rank && rank[d.parent.value] < rank[id]
  }

  ghost predicate ChildOk(n: Nodes, p: nat, name: string)
    requires p in n && name in n[p].children
  {
    var c := n[p].children[name];
    c in n && !n[c].deleted && n[c].parent == Some(p) && n[c].name == name
  }

  // Link counts, handles, and what has no children.
  ghost predicate CountsOk(n: Nodes, id: nat)
    requires id in n
  {
    var d := n[id];
    && (d.deleted || !d.isdir ==> d.children == map[])
    && (if d.deleted then d.parent == None && d.links == (if d.isdir then 1 else 0)
        else d.handles > 0 && d.links == (if d.isdir then 2 else 1) + |SubdirNames(n, id)|)
  }

  ghost predicate RootOk(n: Nodes, rank: map<nat, nat>)
  {
    ROOT in n && ROOT in rank && !n[ROOT].deleted && n[ROOT].isdir && n[ROOT].parent == None
  }

  ghost predicate AllAttached(n: Nodes, rank: map<nat, nat>, x: nat)
  {
    forall id {:trigger Attached(n, rank, id)} :: id in n && !n[id].deleted && id != ROOT && id != x ==>
        Attached(n, rank, id)
  }

  ghost predicate AllChildrenOk(n: Nodes, x: nat)
  {
    forall p, name {:trigger ChildOk(n, p, name)} :: p in n && name in n[p].children ==>
        ChildOk(n, p, name) && n[p].children[name] != x
  }

  ghost predicate AllCountsOk(n: Nodes, rank: map<nat, nat>)
  {
    forall id {:trigger CountsOk(n, id)} :: id in n ==> CountsOk(n, id) && id in rank
  }

  // A tree, but for dentry x, which belongs to no directory at the moment.  With x == ROOT
  // nothing is amiss.
  ghost predicate TreeBut(n: Nodes, rank: map<nat, nat>, x: nat)
  {
    RootOk(n, rank) && AllAttached(n, rank, x) && AllChildrenOk(n, x) && AllCountsOk(n, rank)
  }

  ghost predicate TreeOk(n: Nodes, rank: map<nat, nat>)
  {
    TreeBut(n, rank, ROOT)
  }

  // a is d or one of its predecessors.
  predicate Above(n: Nodes, rank: map<nat, nat>, a: nat, d: nat)
    decreases if d in rank then rank[d] else 0
  {
    a == d ||
    (d in n && n[d].parent.Some? && d in rank && n[d].parent.value in rank && rank[n[d].parent.value] < rank[d]
     && Above(n, rank, a, n[d].parent.value))
  }

  // ---------------------------------------------------------------- detaching and attaching

  function Bit(b: bool): nat
  {
    if b then 1 else 0
  }

  // x can be taken out of its parent's table.
  predicate Listed(n: Nodes, x: nat)
  {
    x in n && n[x].parent.Some? && n[x].parent.value in n && n[n[x].parent.value].links >= Bit(n[x].isdir)
  }

  // Take x out of its parent's table.
  function Detach(n: Nodes, x: nat): Nodes
    requires Listed(n, x)
  {
    var p := n[x].parent.value;
    n[p := n[p].(children := n[p].children - {n[x].name}, links := n[p].links - Bit(n[x].isdir))]
  }

  // Put x into the table of directory t under a name.
  function Attach(n: Nodes, x: nat, t: nat, name: string): Nodes
    requires x in n && t in n && x != t
  {
    n[t := n[t].(children := n[t].children[name := x], links := n[t].links + Bit(n[x].isdir))]
     [x := n[x].(parent := Some(t), name := name)]
  }

  // x is gone for good.
  function Bury(n: Nodes, x: nat): Nodes
    requires x in n && n[x].links > 0 && n[x].handles > 0
  {
    n[x := n[x].(parent := None, deleted := true, links := n[x].links - 1, handles := n[x].handles - 1)]
  }

  lemma CountsAt(n: Nodes, rank: map<nat, nat>, x: nat, id: nat)
    requires TreeBut(n, rank, x) && id in n
    ensures CountsOk(n, id) && id in rank
  {
  }

  lemma ChildAt(n: Nodes, rank: map<nat, nat>, x: nat, p: nat, name: string)
    requires TreeBut(n, rank, x) && p in n && name in n[p].children
    ensures ChildOk(n, p, name) && n[p].children[name] != x
  {
  }

  lemma AttachedAt(n: Nodes, rank: map<nat, nat>, x: nat, id: nat)
    requires TreeBut(n, rank, x) && id in n && !n[id].deleted && id != ROOT && id != x
    ensures Attached(n, rank, id)
  {
  }

  lemma DetachSubdirs(n: Nodes, rank: map<nat, nat>, x: nat)
    requires TreeOk(n, rank) && x in n && !n[x].deleted && x != ROOT
    ensures Attached(n, rank, x)
    ensures var p := n[x].parent.value;
            && n[p].links >= 2 + Bit(n[x].isdir)
            && SubdirNames(Detach(n, x), p) == SubdirNames(n, p) - {n[x].name}
            && |SubdirNames(Detach(n, x), p)| == |SubdirNames(n, p)| - Bit(n[x].isdir)
  {
    AttachedAt(n, rank, ROOT, x);
    var p := n[x].parent.value;
    CountsAt(n, rank, ROOT, p);
    hide TreeBut, TreeOk;
    if n[x].isdir {
      assert n[x].name in SubdirNames(n, p);
    } else {
      assert n[x].name !in SubdirNames(n, p);
    }
  }

  // Tables that stay the same list the same subdirectories.
  lemma SameSubdirs(n: Nodes, m: Nodes, id: nat)
    requires id in n && id in m && m[id].children == n[id].children
    requires forall c :: c in n <==> c in m
    requires forall c :: c in n ==> m[c].isdir == n[c].isdir
    ensures SubdirNames(m, id) == SubdirNames(n, id)
  {
  }

  lemma DetachKeeps(n: Nodes, rank: map<nat, nat>, x: nat)
    requires TreeOk(n, rank) && x in n && !n[x].deleted && x != ROOT
    ensures Attached(n, rank, x) && Listed(n, x)
    ensures TreeBut(Detach(n, x), rank, x)
  {
    DetachSubdirs(n, rank, x);
    DetachAttached(n, rank, x);
    DetachChildren(n, rank, x);
    DetachCounts(n, rank, x);
    hide AllAttached, AllChildrenOk, AllCountsOk;
  }

  lemma DetachAttached(n: Nodes, rank: map<nat, nat>, x: nat)
    requires TreeOk(n, rank) && x in n && Attached(n, rank, x) && Listed(n, x)
    ensures AllAttached(Detach(n, x), rank, x)
  {
    var m := Detach(n, x);
    forall id | id in m && !m[id].deleted && id != ROOT && id != x
      ensures Attached(m, rank, id)
    {
      AttachedAt(n, rank, ROOT, id);
    }
  }

  lemma DetachChildren(n: Nodes, rank: map<nat, nat>, x: nat)
    requires TreeOk(n, rank) && x in n && Attached(n, rank, x) && Listed(n, x)
    ensures AllChildrenOk(Detach(n, x), x)
  {
    var m := Detach(n, x);
    forall q, name | q in m && name in m[q].children
      ensures ChildOk(m, q, name) && m[q].children[name] != x
    {
      ChildAt(n, rank, ROOT, q, name);
    }
  }

  lemma DetachCounts(n: Nodes, rank: map<nat, nat>, x: nat)
    requires TreeOk(n, rank) && x in n && !n[x].deleted && x != ROOT
    ensures Attached(n, rank, x) && Listed(n, x)
    ensures AllCountsOk(Detach(n, x), rank)
  {
    DetachSubdirs(n, rank, x);
    var p := n[x].parent.value;
    var m := Detach(n, x);
    forall id | id in m
      ensures CountsOk(m, id) && id in rank
    {
      CountsAt(n, rank, ROOT, id);
      if id != p {
        SameSubdirs(n, m, id);
      }
    }
  }

  lemma BuryKeeps(n: Nodes, rank: map<nat, nat>, x: nat)
    requires TreeBut(n, rank, x) && x in n && !n[x].deleted && x != ROOT && n[x].children == map[]
    ensures n[x].links > 0 && n[x].handles > 0 && TreeOk(Bury(n, x), rank)
  {
    CountsAt(n, rank, x, x);
    var m := Bury(n, x);
    assert SubdirNames(n, x) == {};
    forall id | id in m && !m[id].deleted && id != ROOT
      ensures Attached(m, rank, id)
    {
      AttachedAt(n, rank, x, id);
      var p := n[id].parent.value;
      assert p != x;
    }
    forall q, name | q in m && name in m[q].children
      ensures ChildOk(m, q, name) && m[q].children[name] != ROOT
    {
      ChildAt(n, rank, x, q, name);
    }
    forall id | id in m
      ensures CountsOk(m, id) && id in rank
    {
      CountsAt(n, rank, x, id);
      SameSubdirs(n, m, id);
    }
  }

  // Ranks once x has moved below t: everything below x moves with it.
  function Lift(n: Nodes, rank: map<nat, nat>, x: nat, lift: nat): map<nat, nat>
  {
    map id | id in rank :: if Above(n, rank, x, id) then rank[id] + lift else rank[id]
  }

  lemma AttachSubdirs(n: Nodes, rank: map<nat, nat>, x: nat, t: nat, name: string)
    requires x in n && t in n && x != t && name !in n[t].children
    ensures SubdirNames(Attach(n, x, t, name), t) == SubdirNames(n, t) + (if n[x].isdir then {name} else {})
    ensures |SubdirNames(Attach(n, x, t, name), t)| == |SubdirNames(n, t)| + Bit(n[x].isdir)
  {
    var m := Attach(n, x, t, name);
    var a, b := SubdirNames(n, t), SubdirNames(m, t);
    assert name !in a;
    assert m[t].children == n[t].children[name := x] && m[x].isdir == n[x].isdir;
    forall s: string
      ensures s in b <==> s in a || (n[x].isdir && s == name)
    {
      if s != name && s in n[t].children {
        var c := n[t].children[s];
        assert c in n <==> c in m;
        assert c in n ==> m[c].isdir == n[c].isdir;
      }
    }
  }

  lemma AttachKeeps(n: Nodes, rank: map<nat, nat>, x: nat, t: nat, name: string)
    requires TreeBut(n, rank, x) && x in n && !n[x].deleted && x != ROOT && NameOk(name)
    requires t in n && !n[t].deleted && n[t].isdir && name !in n[t].children && !Above(n, rank, x, t)
    ensures t in rank && TreeOk(Attach(n, x, t, name), Lift(n, rank, x, rank[t] + 1))
  {
    CountsAt(n, rank, x, t);
    CountsAt(n, rank, x, x);
    AttachAttached(n, rank, x, t, name);
    AttachChildren(n, rank, x, t, name);
    AttachCounts(n, rank, x, t, name);
    hide AllAttached, AllChildrenOk, AllCountsOk, Above;
  }

  lemma AttachAttached(n: Nodes, rank: map<nat, nat>, x: nat, t: nat, name: string)
    requires TreeBut(n, rank, x) && x in n && x in rank && !n[x].deleted && x != ROOT && NameOk(name)
    requires t in n && t in rank && !n[t].deleted && n[t].isdir && name !in n[t].children && !Above(n, rank, x, t)
    ensures AllAttached(Attach(n, x, t, name), Lift(n, rank, x, rank[t] + 1), ROOT)
  {
    var m, rank' := Attach(n, x, t, name), Lift(n, rank, x, rank[t] + 1);
    forall id | id in m && !m[id].deleted && id != ROOT
      ensures Attached(m, rank', id)
    {
      if id != x {
        AttachedAt(n, rank, x, id);
        ParentLifts(n, rank, x, id);
      }
    }
  }

  // Whatever is below x stays below its parent.
  lemma ParentLifts(n: Nodes, rank: map<nat, nat>, x: nat, id: nat)
    requires id in n && Attached(n, rank, id) && id != x
    ensures Above(n, rank, x, id) <==> Above(n, rank, x, n[id].parent.value)
  {
  }

  lemma AttachChildren(n: Nodes, rank: map<nat, nat>, x: nat, t: nat, name: string)
    requires TreeBut(n, rank, x) && x in n && !n[x].deleted && x != ROOT
    requires t in n && x != t && name !in n[t].children
    ensures AllChildrenOk(Attach(n, x, t, name), ROOT)
  {
    var m := Attach(n, x, t, name);
    forall q, s | q in m && s in m[q].children
      ensures ChildOk(m, q, s) && m[q].children[s] != ROOT
    {
      if !(q == t && s == name) {
        ChildAt(n, rank, x, q, s);
      }
    }
  }

  lemma AttachCounts(n: Nodes, rank: map<nat, nat>, x: nat, t: nat, name: string)
    requires TreeBut(n, rank, x) && x in n && !n[x].deleted
    requires t in n && t in rank && !n[t].deleted && n[t].isdir && x != t && name !in n[t].children
    ensures AllCountsOk(Attach(n, x, t, name), Lift(n, rank, x, rank[t] + 1))
  {
    hide TreeBut, Attach, Lift, CountsOk;
    var m, rank' := Attach(n, x, t, name), Lift(n, rank, x, rank[t] + 1);
    AttachDomain(n, x, t, name);
    forall id | id in m
      ensures CountsOk(m, id) && id in rank'
    {
      CountsAt(n, rank, x, id);
      AttachCount(n, rank, x, t, name, id);
      LiftDomain(n, rank, x, rank[t] + 1, id);
    }
  }

  lemma AttachDomain(n: Nodes, x: nat, t: nat, name: string)
    requires x in n && t in n && x != t
    ensures forall id :: id in Attach(n, x, t, name) <==> id in n
  {
  }

  lemma LiftDomain(n: Nodes, rank: map<nat, nat>, x: nat, lift: nat, id: nat)
    ensures id in Lift(n, rank, x, lift) <==> id in rank
  {
    hide Above;
  }

  lemma AttachCount(n: Nodes, rank: map<nat, nat>, x: nat, t: nat, name: string, id: nat)
    requires x in n && t in n && x != t && name !in n[t].children && !n[x].deleted && !n[t].deleted && n[t].isdir
    requires id in n && CountsOk(n, id)
    ensures id in Attach(n, x, t, name) && CountsOk(Attach(n, x, t, name), id)
  {
    hide SubdirNames;
    AttachSubdirs(n, rank, x, t, name);
    if id != t {
      SameSubdirs(n, Attach(n, x, t, name), id);
    }
  }

  // ---------------------------------------------------------------- predecessors

  // Cutting parent links makes nobody a predecessor.
  lemma {:induction false} AboveShrinks(n: Nodes, m: Nodes, rank: map<nat, nat>, a: nat, d: nat)
    requires forall id {:trigger m[id]} :: id in m && m[id].parent.Some? ==> id in n && n[id].parent == m[id].parent
    requires Above(m, rank, a, d)
    ensures Above(n, rank, a, d)
    decreases if d in rank then rank[d] else 0
  {
    if a != d {
      AboveShrinks(n, m, rank, a, m[d].parent.value);
    }
  }

  // No dentry is a predecessor of its own parent.
  lemma NotAboveParent(n: Nodes, rank: map<nat, nat>, x: nat)
    requires x in n && Attached(n, rank, x)
    ensures !Above(n, rank, x, n[x].parent.value)
  {
    if Above(n, rank, x, n[x].parent.value) {
      AboveRank(n, rank, x, n[x].parent.value);
    }
  }

  lemma {:induction false} AboveRank(n: Nodes, rank: map<nat, nat>, a: nat, d: nat)
    requires Above(n, rank, a, d) && d in rank
    ensures a in rank && rank[a] <= rank[d]
    decreases rank[d]
  {
    if a != d {
      AboveRank(n, rank, a, n[d].parent.value);
    }
  }

  // ---------------------------------------------------------------- handles

  // The dentries with some handles more.
  function Held(n: Nodes, g: multiset<nat>): Nodes
  {
    map id | id in n :: n[id].(handles := n[id].handles + g[id])
  }

  lemma HeldAll(n: Nodes, g: multiset<nat>)
    ensures Held(n, g).Keys == n.Keys
    ensures forall id :: id in n ==> Held(n, g)[id] == n[id].(handles := n[id].handles + g[id])
  {
  }

  lemma HeldAt(n: Nodes, g: multiset<nat>, id: nat)
    ensures id in Held(n, g) <==> id in n
    ensures id in n ==> Held(n, g)[id] == n[id].(handles := n[id].handles + g[id])
  {
  }

  lemma HeldNone(n: Nodes)
    ensures Held(n, multiset{}) == n
  {
  }

  lemma HeldKeeps(n: Nodes, g: multiset<nat>, rank: map<nat, nat>)
    requires TreeOk(n, rank)
    ensures TreeOk(Held(n, g), rank)
  {
    HeldAttached(n, g, rank);
    HeldChildren(n, g, rank);
    HeldCounts(n, g, rank);
    hide Held, AllAttached, AllChildrenOk, AllCountsOk;
  }

  lemma HeldAttached(n: Nodes, g: multiset<nat>, rank: map<nat, nat>)
    requires TreeOk(n, rank)
    ensures AllAttached(Held(n, g), rank, ROOT)
  {
    HeldAll(n, g);
    hide Held;
    var m := Held(n, g);
    forall id | id in m && !m[id].deleted && id != ROOT
      ensures Attached(m, rank, id)
    {
      AttachedAt(n, rank, ROOT, id);
    }
  }

  lemma HeldChildren(n: Nodes, g: multiset<nat>, rank: map<nat, nat>)
    requires TreeOk(n, rank)
    ensures AllChildrenOk(Held(n, g), ROOT)
  {
    HeldAll(n, g);
    hide Held;
    var m := Held(n, g);
    forall q, name | q in m && name in m[q].children
      ensures ChildOk(m, q, name) && m[q].children[name] != ROOT
    {
      ChildAt(n, rank, ROOT, q, name);
    }
  }

  lemma HeldCounts(n: Nodes, g: multiset<nat>, rank: map<nat, nat>)
    requires TreeOk(n, rank)
    ensures AllCountsOk(Held(n, g), rank)
  {
    HeldAll(n, g);
    hide Held;
    var m := Held(n, g);
    forall id | id in m
      ensures CountsOk(m, id) && id in rank
    {
      CountsAt(n, rank, ROOT, id);
      SameSubdirs(n, m, id);
    }
  }

  function Grab(n: Nodes, id: nat): Nodes
    requires id in n
  {
    n[id := n[id].(handles := n[id].handles + 1)]
  }

  function Drop(n: Nodes, id: nat): Nodes
    requires id in n && n[id].handles > 0
  {
    n[id := n[id].(handles := n[id].handles - 1)]
  }

  lemma GrabHeld(n: Nodes, g: multiset<nat>, id: nat)
    requires id in n
    ensures id in Held(n, g) && Grab(Held(n, g), id) == Held(n, g + multiset{id})
  {
    hide Held;
    HeldAll(n, g);
    HeldAll(n, g + multiset{id});
    var a, b := Grab(Held(n, g), id), Held(n, g + multiset{id});
    assert a.Keys == b.Keys == n.Keys;
    forall k | k in n
      ensures a[k] == b[k]
    {
      HeldAt(n, g, k);
      HeldAt(n, g + multiset{id}, k);
    }
  }

  lemma DropHeld(n: Nodes, g: multiset<nat>, id: nat)
    requires id in n && id in g
    ensures id in Held(n, g) && Held(n, g)[id].handles > 0 && Drop(Held(n, g), id) == Held(n, g - multiset{id})
  {
    hide Held;
    HeldAll(n, g);
    HeldAll(n, g - multiset{id});
    var a, b := Drop(Held(n, g), id), Held(n, g - multiset{id});
    assert a.Keys == b.Keys == n.Keys;
    forall k | k in n
      ensures a[k] == b[k]
    {
      HeldAt(n, g, k);
      HeldAt(n, g - multiset{id}, k);
    }
  }

  // ---------------------------------------------------------------- paths

  datatype Error = NoDentry | NameTooLong | Exists | DirNotEmpty | IsFile | RenameLoop | UnlinkRoot

  datatype Result<+T> = Ok(value: T) | Err(error: Error)

  function NextSlash(path: string, i: nat): (e: nat)
    requires i <= |path|
    ensures i <= e <= |path| && (e < |path| ==> path[e] == '/') && forall k :: i <= k < e ==> path[k] != '/'
    decreases |path| - i
  {
    if i == |path| || path[i] == '/' then i else NextSlash(path, i + 1)
  }

  // What a directory has under a name.
  function Entry(n: Nodes, d: nat, name: string): Result<Option<nat>>
    requires d in n
  {
    if |name| > FILENAME_MAX then Err(NameTooLong)
    else if name in n[d].children then Ok(Some(n[d].children[name]))
    else Ok(None)
  }

  // Resolve the components of a path from position i on, starting in directory d.
  function Walk(n: Nodes, d: nat, path: string, i: nat): Result<nat>
    requires d in n && i <= |path|
    decreases |path| - i
  {
    var e := NextSlash(path, i);
    match Entry(n, d, path[i..e])
    case Err(error) => Err(error)
    case Ok(None) => Err(NoDentry)
    case Ok(Some(c)) =>
      if e == |path| then Ok(c)
      else if c in n then Walk(n, c, path, e + 1)
      else Err(NoDentry)
  }

  // The dentry a path names.
  function Lookup(n: Nodes, path: string): Result<nat>
    requires ROOT in n
  {
    if path == "" || path == "/" then Ok(ROOT) else Walk(n, ROOT, path, 1)
  }

  // The path of a directory's entries: that of the directory with a final slash.
  function Prefix(n: Nodes, rank: map<nat, nat>, d: nat): string
    requires d in n
    decreases if d in rank then rank[d] else 0
  {
    if d == ROOT || !CanClimb(n, rank, d) then "/" else Prefix(n, rank, n[d].parent.value) + n[d].name + "/"
  }

  // Enough of being attached to climb to the parent.
  predicate CanClimb(n: Nodes, rank: map<nat, nat>, d: nat)
    requires d in n
  {
    n[d].parent.Some? && n[d].parent.value in n && d in rank && n[d].parent.value in rank
        && rank[n[d].parent.value] < rank[d]
  }

  // The path of a dentry.
  function PathOf(n: Nodes, rank: map<nat, nat>, d: nat): string
    requires d in n
  {
    if d == ROOT || !CanClimb(n, rank, d) then "/" else Prefix(n, rank, n[d].parent.value) + n[d].name
  }

  lemma NextSlashAt(path: string, i: nat, e: nat)
    requires i <= e <= |path| && (e < |path| ==> path[e] == '/') && forall k :: i <= k < e ==> path[k] != '/'
    ensures NextSlash(path, i) == e
  {
  }

  // One component: from directory p to its entry d.
  lemma WalkStep(n: Nodes, rank: map<nat, nat>, d: nat, before: string, after: string)
    requires TreeOk(n, rank) && d in n && !n[d].deleted && d != ROOT
    requires after == "" || after[0] == '/'
    ensures n[d].parent.Some? && n[d].parent.value in n
    ensures var path := before + n[d].name + after;
            Walk(n, n[d].parent.value, path, |before|) == if after == "" then Ok(d)
                else Walk(n, d, path, |before| + |n[d].name| + 1)
  {
    AttachedAt(n, rank, ROOT, d);
    hide TreeOk, TreeBut;
    var name := n[d].name;
    var path := before + name + after;
    var e := |before| + |name|;
    assert path[|before|..e] == name;
    assert forall k :: |before| <= k < e ==> path[k] == name[k - |before|];
    NextSlashAt(path, |before|, e);
  }

  // Climbing from a dentry of the tree to its parent.
  lemma PrefixStep(n: Nodes, rank: map<nat, nat>, d: nat)
    requires TreeOk(n, rank) && d in n && !n[d].deleted && d != ROOT
    ensures Attached(n, rank, d)
    ensures PathOf(n, rank, d) == Prefix(n, rank, n[d].parent.value) + n[d].name
    ensures Prefix(n, rank, d) == Prefix(n, rank, n[d].parent.value) + n[d].name + "/"
  {
    AttachedAt(n, rank, ROOT, d);
  }

  lemma RootPrefix(n: Nodes, rank: map<nat, nat>)
    requires ROOT in n
    ensures Prefix(n, rank, ROOT) == PathOf(n, rank, ROOT) == "/"
  {
  }

  // Walking along the prefix of a directory leads to the directory.
  lemma {:induction false} WalkPrefix(n: Nodes, rank: map<nat, nat>, d: nat, rest: string)
    requires TreeOk(n, rank) && d in n && !n[d].deleted
    ensures ROOT in n
    ensures var path := Prefix(n, rank, d) + rest;
            |path| >= 1 && Walk(n, ROOT, path, 1) == Walk(n, d, path, |Prefix(n, rank, d)|)
    decreases if d in rank then rank[d] else 0
  {
    hide Walk, Prefix, TreeOk, TreeBut;
    if d == ROOT {
      RootPrefix(n, rank);
    } else {
      PrefixStep(n, rank, d);
      var p, name := n[d].parent.value, n[d].name;
      var before := Prefix(n, rank, p);
      JoinNames(before, name, rest);
      WalkPrefix(n, rank, p, name + "/" + rest);
      WalkStep(n, rank, d, before, "/" + rest);
    }
  }

  lemma JoinNames(before: string, name: string, rest: string)
    ensures before + name + "/" + rest == before + (name + "/" + rest) == before + name + ("/" + rest)
  {
  }

  // Looking up the path of a dentry finds that dentry.
  lemma PathRoundTrip(n: Nodes, rank: map<nat, nat>, d: nat)
    requires TreeOk(n, rank) && d in n && !n[d].deleted
    ensures ROOT in n && Lookup(n, PathOf(n, rank, d)) == Ok(d)
  {
    if d != ROOT {
      AttachedAt(n, rank, ROOT, d);
      var p, name := n[d].parent.value, n[d].name;
      var before := Prefix(n, rank, p);
      WalkPrefix(n, rank, p, name);
      WalkStep(n, rank, d, before, "");
      assert before + name + "" == before + name;
      PrefixSlash(n, rank, p);
    }
  }

  lemma PrefixSlash(n: Nodes, rank: map<nat, nat>, d: nat)
    requires d in n
    ensures |Prefix(n, rank, d)| >= 1
  {
  }

  // ---------------------------------------------------------------- the index

  // A new dentry: one handle for the tree, one for the caller.
  function Blank(name: string, isdir: bool): Node
  {
    Node(None, name, isdir, map[], if isdir then 2 else 1, 2, false)
  }

  // What Create makes of a tree.
  function Created(n: Nodes, t: nat, id: nat, name: string, isdir: bool): Nodes
    requires t in n && id !in n
  {
    Attach(n[id := Blank(name, isdir)], id, t, name)
  }

  lemma FreshFloats(n: Nodes, rank: map<nat, nat>, id: nat, d: Node)
    requires TreeOk(n, rank) && id !in n && id != ROOT
    requires d == Blank(d.name, d.isdir)
    ensures TreeBut(n[id := d], rank[id := 0], id)
  {
    var m, rank' := n[id := d], rank[id := 0];
    forall k | k in m && !m[k].deleted && k != ROOT && k != id
      ensures Attached(m, rank', k)
    {
      AttachedAt(n, rank, ROOT, k);
    }
    forall q, s | q in m && s in m[q].children
      ensures ChildOk(m, q, s) && m[q].children[s] != id
    {
      ChildAt(n, rank, ROOT, q, s);
    }
    assert SubdirNames(m, id) == {};
    forall k | k in m
      ensures CountsOk(m, k) && k in rank'
    {
      if k != id {
        CountsAt(n, rank, ROOT, k);
        FreshSubdirs(n, rank, id, d, k);
      }
    }
  }

  lemma FreshSubdirs(n: Nodes, rank: map<nat, nat>, id: nat, d: Node, k: nat)
    requires TreeOk(n, rank) && id !in n && k in n
    ensures SubdirNames(n[id := d], k) == SubdirNames(n, k)
  {
    forall name | name in n[k].children
      ensures n[k].children[name] in n
    {
      ChildAt(n, rank, ROOT, k, name);
    }
  }

  // Nothing in the tree is below a dentry that was just made.
  lemma {:induction false} FreshAboveNone(n: Nodes, rank: map<nat, nat>, id: nat, d: Node, k: nat)
    requires TreeOk(n, rank) && id !in n && k in n
    ensures !Above(n[id := d], rank[id := 0], id, k)
    decreases if k in rank then rank[k] else 0
  {
    if Above(n[id := d], rank[id := 0], id, k) {
      CountsAt(n, rank, ROOT, k);
      if k != ROOT {
        AttachedAt(n, rank, ROOT, k);
        FreshAboveNone(n, rank, id, d, n[k].parent.value);
      }
    }
  }

  ghost function CreatedRank(n: Nodes, rank: map<nat, nat>, t: nat, id: nat, d: Node): map<nat, nat>
    requires t in rank
  {
    Lift(n[id := d], rank[id := 0], id, rank[id := 0][t] + 1)
  }

  // The result is a tree if and only if the new entry is in a directory and has a name.
  lemma CreatedOk(n: Nodes, rank: map<nat, nat>, t: nat, id: nat, name: string, isdir: bool)
    requires TreeOk(n, rank) && id !in n && id != ROOT && t in n && !n[t].deleted && name !in n[t].children
    requires |name| <= FILENAME_MAX && '/' !in name
    ensures t in rank
    ensures n[t].isdir && name != "" ==>
            TreeOk(Created(n, t, id, name, isdir), CreatedRank(n, rank, t, id, Blank(name, isdir)))
    ensures !(n[t].isdir && name != "") ==> forall r :: !TreeOk(Created(n, t, id, name, isdir), r)
  {
    var d := Blank(name, isdir);
    CountsAt(n, rank, ROOT, t);
    if name == "" {
      InFile(Created(n, t, id, name, isdir), t, name);
    } else if n[t].isdir {
      FreshFloats(n, rank, id, d);
      FreshAboveNone(n, rank, id, d, t);
      AttachKeeps(n[id := d], rank[id := 0], id, t, name);
    } else {
      InFile(Created(n, t, id, name, isdir), t, name);
    }
  }

  // A file with an entry is not part of a proper tree, nor is an entry without a name.
  lemma InFile(n: Nodes, t: nat, name: string)
    requires t in n && name in n[t].children && (!n[t].isdir || name == "")
    ensures forall rank :: !TreeOk(n, rank)
  {
    forall rank: map<nat, nat>
      ensures !TreeOk(n, rank)
    {
      if TreeOk(n, rank) {
        CountsAt(n, rank, ROOT, t);
        ChildAt(n, rank, ROOT, t, name);
        AttachedAt(n, rank, ROOT, n[t].children[name]);
      }
    }
  }

  // What Unlink makes of it.
  function Unlinked(n: Nodes, x: nat): Nodes
    requires Listed(n, x) && n[x].parent.value != x && n[x].links > 0 && n[x].handles > 0
  {
    Bury(Detach(n, x), x)
  }

  lemma UnlinkedOk(n: Nodes, rank: map<nat, nat>, x: nat)
    requires TreeOk(n, rank) && x in n && !n[x].deleted && x != ROOT && n[x].children == map[]
    ensures Attached(n, rank, x) && Listed(n, x) && n[x].parent.value != x
    ensures n[x].links > 0 && n[x].handles > 0 && TreeOk(Unlinked(n, x), rank)
  {
    DetachKeeps(n, rank, x);
    hide TreeOk, TreeBut;
    BuryKeeps(Detach(n, x), rank, x);
  }

  // What Rename makes of it, once the entry it replaces is gone.
  function Moved(n: Nodes, x: nat, t: nat, name: string): Nodes
    requires Listed(n, x) && t in n && x != t
  {
    Attach(Detach(n, x), x, t, name)
  }

  // The result is a tree if and only if the entry is in a directory and has a name.
  lemma MovedOk(n: Nodes, rank: map<nat, nat>, x: nat, t: nat, name: string)
    requires TreeOk(n, rank) && x in n && !n[x].deleted && x != ROOT && |name| <= FILENAME_MAX && '/' !in name
    requires t in n && !n[t].deleted && !Above(n, rank, x, t)
    requires name in n[t].children ==> n[t].children[name] == x
    ensures Attached(n, rank, x) && Listed(n, x) && t in rank
    ensures n[t].isdir && name != "" ==> TreeOk(Moved(n, x, t, name), MovedRank(n, rank, x, t))
    ensures !(n[t].isdir && name != "") ==> forall r :: !TreeOk(Moved(n, x, t, name), r)
  {
    DetachKeeps(n, rank, x);
    CountsAt(n, rank, ROOT, t);
    var m := Detach(n, x);
    if name in n[t].children {
      ChildAt(n, rank, ROOT, t, name);
    }
    if Above(m, rank, x, t) {
      AboveShrinks(n, m, rank, x, t);
    }
    hide TreeOk, TreeBut, Above;
    if n[t].isdir && name != "" {
      AttachKeeps(m, rank, x, t, name);
    } else {
      InFile(Moved(n, x, t, name), t, name);
    }
  }

  ghost function MovedRank(n: Nodes, rank: map<nat, nat>, x: nat, t: nat): map<nat, nat>
    requires Listed(n, x) && t in rank
  {
    Lift(Detach(n, x), rank, x, rank[t] + 1)
  }

  // Nobody is below a dentry without entries, or one outside the tree.
  lemma {:induction false} ChildlessAbove(n: Nodes, rank: map<nat, nat>, x: nat, d: nat)
    requires TreeOk(n, rank) && d in n && !n[d].deleted && d != x && (x in n ==> n[x].children == map[])
    ensures !Above(n, rank, x, d)
    decreases if d in rank then rank[d] else 0
  {
    if Above(n, rank, x, d) && d != ROOT {
      AttachedAt(n, rank, ROOT, d);
      ChildlessAbove(n, rank, x, n[d].parent.value);
    }
  }

  // Such a thing happens: create /f as a file, then /f/g.
  lemma EntryInFile()
    ensures var empty := map[ROOT := Node(None, "", true, map[], 2, 1, false)];
            var one := Created(empty, ROOT, 1, "f", false);
            && (exists rank :: TreeOk(one, rank))
            && Lookup(one, "/f") == Ok(1) && "g" !in one[1].children
            && (forall rank :: !TreeOk(Created(one, 1, 2, "g", false), rank))
  {
    var empty: Nodes := map[ROOT := Node(None, "", true, map[], 2, 1, false)];
    assert SubdirNames(empty, ROOT) == {};
    assert TreeOk(empty, map[ROOT := 0]);
    CreatedOk(empty, map[ROOT := 0], ROOT, 1, "f", false);
    var one := Created(empty, ROOT, 1, "f", false);
    var rank := CreatedRank(empty, map[ROOT := 0], ROOT, 1, Blank("f", false));
    assert TreeOk(one, rank);
    CreatedOk(one, rank, 1, 2, "g", false);
    assert "/f"[1..2] == "f" && NextSlash("/f", 1) == 2;
  }
}
