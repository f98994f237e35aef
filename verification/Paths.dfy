// Paths: which dentry a path names, and what changes to the tree do to the paths of dentries.
module Paths {
  import opened Medium
  import opened Tree

  // ---------------------------------------------------------------- splitting

  // Position of the last slash, searching backwards from position k.
  function SlashBefore(path: string, k: nat): (r: nat)
    requires k <= |path| && '/' in path && forall i :: k <= i < |path| ==> path[i] != '/'
    ensures r < |path| && path[r] == '/' && forall i :: r < i < |path| ==> path[i] != '/'
  {
    if path[k - 1] == '/' then k - 1 else SlashBefore(path, k - 1)
  }

  function LastSlash(path: string): nat
    requires '/' in path
  {
    SlashBefore(path, |path|)
  }

  // The directory part of a path, without the slash.
  function DirPath(path: string): string
    requires '/' in path
  {
    path[..LastSlash(path)]
  }

  function FileName(path: string): string
    requires '/' in path
  {
    path[LastSlash(path) + 1..]
  }

  // A path from the root whose directory part is not the root's own path.
  predicate Rooted(path: string)
  {
    '/' in path && path[0] == '/' && DirPath(path) != "/"
  }

  // ---------------------------------------------------------------- a path names one dentry

  // Where a walk from a directory arrives is where the path leads.
  lemma {:induction false} WalkIsPath(n: Nodes, rank: map<nat, nat>, d: nat, path: string, i: nat, c: nat)
    requires TreeOk(n, rank) && d in n && !n[d].deleted
    requires i <= |path| && path[..i] == Prefix(n, rank, d) && Walk(n, d, path, i) == Ok(c)
    ensures c in n && !n[c].deleted && c != ROOT && path == PathOf(n, rank, c)
    decreases |path| - i
  {
    var e := NextSlash(path, i);
    var name := path[i..e];
    var k := n[d].children[name];
    ChildAt(n, rank, ROOT, d, name);
    AttachedAt(n, rank, ROOT, k);
    hide TreeOk, TreeBut;
    assert path[..e] == path[..i] + name;
    if e == |path| {
      assert path[..e] == path;
    } else {
      assert path[..e + 1] == path[..e] + "/";
      assert Prefix(n, rank, k) == path[..e + 1];
      WalkIsPath(n, rank, k, path, e + 1, c);
    }
  }

  // A path names a dentry if and only if it is the path of that dentry.
  lemma LookupIsPath(n: Nodes, rank: map<nat, nat>, path: string, d: nat)
    requires TreeOk(n, rank) && |path| > 0 && path[0] == '/'
    ensures ROOT in n
    ensures Lookup(n, path) == Ok(d) <==> d in n && !n[d].deleted && path == PathOf(n, rank, d)
  {
    if d in n && !n[d].deleted && path == PathOf(n, rank, d) {
      PathRoundTrip(n, rank, d);
    }
    if Lookup(n, path) == Ok(d) && path != "/" {
      assert path[..1] == "/";
      WalkIsPath(n, rank, ROOT, path, 1, d);
    }
  }

  // What a path names is part of the tree.
  lemma LookupLive(n: Nodes, rank: map<nat, nat>, path: string)
    requires TreeOk(n, rank)
    ensures ROOT in n
    ensures Lookup(n, path).Ok? ==>
              var d := Lookup(n, path).value; d in n && !n[d].deleted && (path != "" && path != "/" ==> d != ROOT)
  {
    if Lookup(n, path).Ok? && path != "" && path != "/" {
      WalkLive(n, rank, ROOT, path, 1);
    }
  }

  lemma {:induction false} WalkLive(n: Nodes, rank: map<nat, nat>, d: nat, path: string, i: nat)
    requires TreeOk(n, rank) && d in n && i <= |path| && Walk(n, d, path, i).Ok?
    ensures var c := Walk(n, d, path, i).value; c in n && !n[c].deleted && c != ROOT
    decreases |path| - i
  {
    var e := NextSlash(path, i);
    ChildAt(n, rank, ROOT, d, path[i..e]);
    if e < |path| {
      WalkLive(n, rank, n[d].children[path[i..e]], path, e + 1);
    }
  }

  // The path made of a directory and a name.
  lemma PathSplit(n: Nodes, rank: map<nat, nat>, path: string, t: nat)
    requires TreeOk(n, rank) && Rooted(path) && Lookup(n, DirPath(path)) == Ok(t)
    ensures t in n && path == Prefix(n, rank, t) + FileName(path)
  {
    var dir := DirPath(path);
    assert path == dir + "/" + FileName(path);
    if dir != "" {
      LookupIsPath(n, rank, dir, t);
      if t != ROOT {
        AttachedAt(n, rank, ROOT, t);
      }
    }
  }

  // ---------------------------------------------------------------- printing a path

  // What a dentry is called in a path; the root has no name.
  function CalledIn(n: Nodes, d: nat): string
    requires d in n
  {
    if n[d].parent.None? then "/" else n[d].name
  }

  // The names on the way from the root to a dentry.
  function Names(n: Nodes, rank: map<nat, nat>, d: nat): (names: seq<string>)
    requires d in n
    ensures |names| > 0
    decreases if d in rank then rank[d] else 0
  {
    if d == ROOT || !CanClimb(n, rank, d) then [CalledIn(n, d)]
        else Names(n, rank, n[d].parent.value) + [CalledIn(n, d)]
  }

  // The first names joined: slashes follow all but the root and the last.
  function Joined(names: seq<string>, k: nat): string
    requires k <= |names|
  {
    if k == 0 then "" else Joined(names, k - 1) + names[k - 1] + if 1 < k < |names| then "/" else ""
  }

  lemma {:induction false} JoinedPrefix(n: Nodes, rank: map<nat, nat>, d: nat, names: seq<string>, k: nat)
    requires TreeOk(n, rank) && d in n && !n[d].deleted
    requires 0 < k < |names| && names[..k] == Names(n, rank, d)
    ensures Joined(names, k) == Prefix(n, rank, d)
    decreases k
  {
    assert names[k - 1] == names[..k][k - 1];
    if d == ROOT {
      assert Joined(names, 0) == "";
    } else {
      AttachedAt(n, rank, ROOT, d);
      assert names[..k - 1] == names[..k][..k - 1];
      JoinedPrefix(n, rank, n[d].parent.value, names, k - 1);
    }
  }

  // The names of a dentry joined are its path.
  lemma JoinedPath(n: Nodes, rank: map<nat, nat>, d: nat)
    requires TreeOk(n, rank) && d in n && !n[d].deleted
    ensures var names := Names(n, rank, d); Joined(names, |names|) == PathOf(n, rank, d)
  {
    var names := Names(n, rank, d);
    if d == ROOT {
      assert Joined(names, 0) == "";
    } else {
      AttachedAt(n, rank, ROOT, d);
      assert names[..|names| - 1] == Names(n, rank, n[d].parent.value);
      JoinedPrefix(n, rank, n[d].parent.value, names, |names| - 1);
    }
  }

  // ---------------------------------------------------------------- paths after a change

  // Everything but x and y has the parent and the name it had.
  ghost predicate SamePlaces(n: Nodes, m: Nodes, x: nat, y: Option<nat>)
  {
    forall d {:trigger n[d]} {:trigger m[d]} :: d in n && !n[d].deleted && d != x && Some(d) != y ==>
      d in m && !m[d].deleted && m[d].parent == n[d].parent && m[d].name == n[d].name
  }

  lemma SamePlacesAt(n: Nodes, m: Nodes, x: nat, y: Option<nat>, d: nat)
    requires SamePlaces(n, m, x, y) && d in n && !n[d].deleted && d != x && Some(d) != y
    ensures d in m && !m[d].deleted && m[d].parent == n[d].parent && m[d].name == n[d].name
  {
  }

  predicate Childless(n: Nodes, y: Option<nat>)
  {
    y.Some? && y.value in n ==> n[y.value].children == map[]
  }

  // A dentry with no entries is nobody's parent.
  lemma NotParent(n: Nodes, rank: map<nat, nat>, y: Option<nat>, d: nat)
    requires TreeOk(n, rank) && d in n && !n[d].deleted && d != ROOT && Childless(n, y)
    ensures Attached(n, rank, d) && n[d].parent != y
  {
    AttachedAt(n, rank, ROOT, d);
  }

  // Dentries not below x keep their paths.
  lemma {:induction false} PathKept(n: Nodes, rank: map<nat, nat>, m: Nodes, rank': map<nat, nat>, x: nat,
      y: Option<nat>, d: nat)
    requires TreeOk(n, rank) && TreeOk(m, rank') && SamePlaces(n, m, x, y)
    requires Childless(n, y)
    requires d in n && !n[d].deleted && Some(d) != y && !Above(n, rank, x, d)
    ensures d in m && Prefix(m, rank', d) == Prefix(n, rank, d) && PathOf(m, rank', d) == PathOf(n, rank, d)
    decreases if d in rank then rank[d] else 0
  {
    SamePlacesAt(n, m, x, y, d);
    if d != ROOT {
      NotParent(n, rank, y, d);
      AttachedAt(m, rank', ROOT, d);
      hide TreeOk, TreeBut, SamePlaces;
      PathKept(n, rank, m, rank', x, y, n[d].parent.value);
    }
  }

  // Dentries below x move along with it.
  lemma {:induction false} PrefixMoved(n: Nodes, rank: map<nat, nat>, m: Nodes, rank': map<nat, nat>, x: nat,
      y: Option<nat>, d: nat)
    requires TreeOk(n, rank) && TreeOk(m, rank') && SamePlaces(n, m, x, y)
    requires Childless(n, y)
    requires x in n && x in m && d in n && !n[d].deleted && Some(d) != y && Above(n, rank, x, d)
    ensures d in m && Prefix(n, rank, x) <= Prefix(n, rank, d)
    ensures Prefix(m, rank', d) == Prefix(m, rank', x) + Prefix(n, rank, d)[|Prefix(n, rank, x)|..]
    decreases if d in rank then rank[d] else 0
  {
    hide TreeOk, TreeBut, SamePlaces, Prefix;
    if d != x {
      SamePlacesAt(n, m, x, y, d);
      RootAlone(n, rank);
      var p := n[d].parent.value;
      NotParent(n, rank, y, d);
      PrefixStep(n, rank, d);
      PrefixStep(m, rank', d);
      PrefixMoved(n, rank, m, rank', x, y, p);
      TailGrows(Prefix(n, rank, p), n[d].name + "/", |Prefix(n, rank, x)|);
      JoinTwo(Prefix(n, rank, p), n[d].name);
      JoinTwo(Prefix(m, rank', p), n[d].name);
    }
  }

  lemma JoinTwo(a: string, b: string)
    ensures a + b + "/" == a + (b + "/")
  {
  }

  lemma RootAlone(n: Nodes, rank: map<nat, nat>)
    requires TreeOk(n, rank)
    ensures ROOT in n && n[ROOT].parent == None
  {
  }

  lemma TailGrows(s: string, more: string, k: nat)
    requires k <= |s|
    ensures (s + more)[k..] == s[k..] + more
  {
  }

  lemma PathMoved(n: Nodes, rank: map<nat, nat>, m: Nodes, rank': map<nat, nat>, x: nat, y: Option<nat>, d: nat)
    requires TreeOk(n, rank) && TreeOk(m, rank') && SamePlaces(n, m, x, y)
    requires Childless(n, y)
    requires x in n && x in m && !n[x].deleted && !m[x].deleted && x != ROOT
    requires d in n && !n[d].deleted && Some(d) != y && Above(n, rank, x, d)
    ensures d in m && PathOf(n, rank, x) <= PathOf(n, rank, d)
    ensures PathOf(m, rank', d) == PathOf(m, rank', x) + PathOf(n, rank, d)[|PathOf(n, rank, x)|..]
  {
    if d != x {
      SamePlacesAt(n, m, x, y, d);
      if d != ROOT {
        NotParent(n, rank, y, d);
        AttachedAt(m, rank', ROOT, d);
        AttachedAt(n, rank, ROOT, x);
        AttachedAt(m, rank', ROOT, x);
        var p := n[d].parent.value;
        PrefixMoved(n, rank, m, rank', x, y, p);
        hide TreeOk, TreeBut, SamePlaces, Above;
        Rehang(PathOf(n, rank, x), PathOf(m, rank', x), Prefix(n, rank, p), Prefix(m, rank', p), n[d].name);
      }
    }
  }

  // From directories to entries: a slash more or less.
  lemma Rehang(a: string, b: string, p: string, q: string, name: string)
    requires a + "/" <= p && q == b + "/" + p[|a + "/"|..]
    ensures a <= p + name && q + name == b + (p + name)[|a|..]
  {
    assert p[|a|] == (a + "/")[|a|];
    assert p[|a|..] == "/" + p[|a| + 1..];
    assert (p + name)[|a|..] == p[|a|..] + name;
  }

  // Where dentry d is once x has moved to the given path.
  ghost predicate RelocatedAt(n: Nodes, rank: map<nat, nat>, m: Nodes, rank': map<nat, nat>, x: nat, path: string,
      d: nat)
    requires x in n && d in n
  {
    && d in m && !m[d].deleted
    && if Above(n, rank, x, d) then
         PathOf(n, rank, x) <= PathOf(n, rank, d)
         && PathOf(m, rank', d) == path + PathOf(n, rank, d)[|PathOf(n, rank, x)|..]
       else PathOf(m, rank', d) == PathOf(n, rank, d)
  }

  // The paths of a tree with x moved to the given path, and y gone.  Everything else stays.
  ghost predicate Relocated(n: Nodes, rank: map<nat, nat>, m: Nodes, rank': map<nat, nat>, x: nat, y: Option<nat>,
      path: string)
  {
    && x in n
    && (forall d :: d in m && !m[d].deleted ==> d in n && !n[d].deleted && Some(d) != y)
    && (forall d {:trigger RelocatedAt(n, rank, m, rank', x, path, d)} ::
          d in n && !n[d].deleted && Some(d) != y ==> RelocatedAt(n, rank, m, rank', x, path, d))
  }

  // The paths of a tree with x added or, the other way round, gone.  Everything else stays.
  ghost predicate OneMore(n: Nodes, rank: map<nat, nat>, m: Nodes, rank': map<nat, nat>, x: nat)
  {
    && x in m && !m[x].deleted && (x in n ==> n[x].deleted)
    && (forall d {:trigger PathOf(m, rank', d)} :: d in m && !m[d].deleted && d != x ==> d in n && !n[d].deleted)
    && (forall d {:trigger PathOf(n, rank, d)} {:trigger PathOf(m, rank', d)} :: d in n && !n[d].deleted ==>
          d in m && !m[d].deleted && PathOf(m, rank', d) == PathOf(n, rank, d))
  }

  // Creating adds the one path asked for.
  lemma CreatedPaths(n: Nodes, rank: map<nat, nat>, t: nat, id: nat, name: string, isdir: bool)
    requires TreeOk(n, rank) && id !in n && id != ROOT && t in n && t in rank && !n[t].deleted && n[t].isdir
    requires name !in n[t].children && NameOk(name)
    ensures var m, rank' := Created(n, t, id, name, isdir), CreatedRank(n, rank, t, id, Blank(name, isdir));
            OneMore(n, rank, m, rank', id) && PathOf(m, rank', id) == Prefix(n, rank, t) + name
  {
    CreatedOk(n, rank, t, id, name, isdir);
    var m, rank' := Created(n, t, id, name, isdir), CreatedRank(n, rank, t, id, Blank(name, isdir));
    assert SamePlaces(n, m, id, None);
    hide TreeOk, TreeBut, SamePlaces;
    forall d | d in n && !n[d].deleted
      ensures d in m && !m[d].deleted && Prefix(m, rank', d) == Prefix(n, rank, d)
              && PathOf(m, rank', d) == PathOf(n, rank, d)
    {
      ChildlessAbove(n, rank, id, d);
      PathKept(n, rank, m, rank', id, None, d);
    }
    AttachedAt(m, rank', ROOT, id);
  }

  // Unlinking takes away the one path asked for.
  lemma UnlinkedPaths(n: Nodes, rank: map<nat, nat>, x: nat)
    requires TreeOk(n, rank) && x in n && !n[x].deleted && x != ROOT && n[x].children == map[]
    requires Listed(n, x) && n[x].parent.value != x && n[x].links > 0 && n[x].handles > 0
    ensures OneMore(Unlinked(n, x), rank, n, rank, x)
  {
    UnlinkedOk(n, rank, x);
    var m := Unlinked(n, x);
    assert SamePlaces(n, m, x, None);
    hide TreeOk, TreeBut, SamePlaces;
    forall d | d in n && !n[d].deleted && d != x
      ensures d in m && !m[d].deleted && PathOf(m, rank, d) == PathOf(n, rank, d)
    {
      ChildlessAbove(n, rank, x, d);
      PathKept(n, rank, m, rank, x, None, d);
    }
  }

  // ---------------------------------------------------------------- renaming

  // The tree without the entry that gives way, if there is one.
  function Without(n: Nodes, y: Option<nat>): Nodes
  {
    if y.Some? && Listed(n, y.value) && n[y.value].parent.value != y.value && n[y.value].links > 0
        && n[y.value].handles > 0 then
      Unlinked(n, y.value)
    else n
  }

  // What Rename makes of a tree: y, if there is such an entry, gives way to x.
  function Renamed(n: Nodes, x: nat, y: Option<nat>, t: nat, name: string): Nodes
  {
    var m := Without(n, y);
    if Listed(m, x) && t in m && x != t then Moved(m, x, t, name) else m
  }

  ghost function RenamedRank(n: Nodes, rank: map<nat, nat>, x: nat, y: Option<nat>, t: nat): map<nat, nat>
  {
    var m := Without(n, y);
    if Listed(m, x) && t in rank then MovedRank(m, rank, x, t) else rank
  }

  // x may move to directory t, where y is in its way.
  ghost predicate CanMove(n: Nodes, rank: map<nat, nat>, x: nat, y: Option<nat>, t: nat, name: string)
  {
    && x in n && !n[x].deleted && x != ROOT && |name| <= FILENAME_MAX && '/' !in name
    && t in n && !n[t].deleted && !Above(n, rank, x, t)
    && y == (if name in n[t].children && n[t].children[name] != x then Some(n[t].children[name]) else None)
    && (y.Some? ==> y.value in n && n[y.value].children == map[])
  }

  lemma WithoutOk(n: Nodes, rank: map<nat, nat>, x: nat, y: Option<nat>, t: nat, name: string)
    requires TreeOk(n, rank) && CanMove(n, rank, x, y, t, name)
    ensures var m := Without(n, y);
            && TreeOk(m, rank) && CanMove(m, rank, x, None, t, name) && m[t].isdir == n[t].isdir && t != x
            && (y.Some? ==> Listed(n, y.value) && n[y.value].parent == Some(t) && m == Unlinked(n, y.value))
  {
    if y.Some? {
      ChildAt(n, rank, ROOT, t, name);
      UnlinkedOk(n, rank, y.value);
      var m := Without(n, y);
      if Above(m, rank, x, t) {
        AboveShrinks(n, m, rank, x, t);
      }
    }
  }

  // The result is a tree if and only if the new place is in a directory and has a name.
  lemma RenamedOk(n: Nodes, rank: map<nat, nat>, x: nat, y: Option<nat>, t: nat, name: string)
    requires TreeOk(n, rank) && CanMove(n, rank, x, y, t, name)
    ensures t in n
    ensures n[t].isdir && name != "" ==> TreeOk(Renamed(n, x, y, t, name), RenamedRank(n, rank, x, y, t))
    ensures !(n[t].isdir && name != "") ==> forall r :: !TreeOk(Renamed(n, x, y, t, name), r)
  {
    WithoutOk(n, rank, x, y, t, name);
    hide TreeOk, TreeBut, Above;
    MovedOk(Without(n, y), rank, x, t, name);
  }

  // The dentries of n, with x now in t under a name, y dead, and the others where they were.
  ghost predicate Shifted(n: Nodes, m: Nodes, x: nat, y: Option<nat>, t: nat, name: string)
  {
    && m.Keys == n.Keys && x in m && t in m
    && SamePlaces(n, m, x, y)
    && m[x].parent == Some(t) && m[x].name == name && !m[x].deleted
    && (y.Some? ==> y.value in m && m[y.value].deleted && y.value != t)
    && (forall d {:trigger m[d]} :: d in n && !m[d].deleted ==> !n[d].deleted)
  }

  lemma MovedPlaces(n: Nodes, x: nat, t: nat, name: string)
    requires Listed(n, x) && t in n && x != t && !n[x].deleted
    ensures Shifted(n, Moved(n, x, t, name), x, None, t, name)
  {
  }

  lemma WithoutPlaces(n: Nodes, rank: map<nat, nat>, x: nat, y: nat)
    requires Listed(n, y) && n[y].parent.value != y && n[y].links > 0 && n[y].handles > 0 && x != y
    ensures var m := Unlinked(n, y);
            m.Keys == n.Keys && SamePlaces(n, m, x, Some(y)) && m[y].deleted
            && forall d {:trigger m[d]} :: d in n && !m[d].deleted ==> !n[d].deleted
  {
  }

  lemma RenamedPlaces(n: Nodes, rank: map<nat, nat>, x: nat, y: Option<nat>, t: nat, name: string)
    requires TreeOk(n, rank) && CanMove(n, rank, x, y, t, name)
    ensures Shifted(n, Renamed(n, x, y, t, name), x, y, t, name)
  {
    WithoutOk(n, rank, x, y, t, name);
    var m := Without(n, y);
    MovedOk(m, rank, x, t, name);
    hide TreeOk, TreeBut, Above, Moved, Unlinked;
    MovedPlaces(m, x, t, name);
    if y.Some? {
      WithoutPlaces(n, rank, x, y.value);
      var r := Moved(m, x, t, name);
      assert SamePlaces(n, r, x, y);
      assert forall d {:trigger r[d]} :: d in n && !r[d].deleted ==> !m[d].deleted;
    }
  }

  // Renaming moves x and everything below it, and nothing else.
  lemma RenamedPaths(n: Nodes, rank: map<nat, nat>, x: nat, y: Option<nat>, t: nat, name: string)
    requires TreeOk(n, rank) && CanMove(n, rank, x, y, t, name) && n[t].isdir && name != ""
    ensures Relocated(n, rank, Renamed(n, x, y, t, name), RenamedRank(n, rank, x, y, t), x, y,
            Prefix(n, rank, t) + name)
  {
    var m, rank' := Renamed(n, x, y, t, name), RenamedRank(n, rank, x, y, t);
    RenamedOk(n, rank, x, y, t, name);
    RenamedPlaces(n, rank, x, y, t, name);
    hide TreeOk, TreeBut, SamePlaces, Renamed, RenamedRank, Without, Above, Prefix, PathOf;
    MovedPath(n, rank, m, rank', x, y, t, name);
    forall d | d in n && !n[d].deleted && Some(d) != y
      ensures RelocatedAt(n, rank, m, rank', x, Prefix(n, rank, t) + name, d)
    {
      if d != x {
        SamePlacesAt(n, m, x, y, d);
      }
      if Above(n, rank, x, d) {
        PathMoved(n, rank, m, rank', x, y, d);
      } else {
        PathKept(n, rank, m, rank', x, y, d);
      }
    }
  }

  lemma MovedPath(n: Nodes, rank: map<nat, nat>, m: Nodes, rank': map<nat, nat>, x: nat, y: Option<nat>, t: nat,
      name: string)
    requires TreeOk(n, rank) && TreeOk(m, rank') && Shifted(n, m, x, y, t, name) && Childless(n, y)
    requires t in n && !n[t].deleted && !Above(n, rank, x, t) && x != ROOT
    ensures PathOf(m, rank', x) == Prefix(n, rank, t) + name
  {
    PathKept(n, rank, m, rank', x, y, t);
    AttachedAt(m, rank', ROOT, x);
  }
}
