// What create, unlink and rename answer, first as the code finds it out and then in terms of paths.
module Outcomes {
  import opened Medium
  import opened Tree
  import opened Paths

  // ---------------------------------------------------------------- step by step

  // The directory in which a path can be created.
  function Vacancy(n: Nodes, path: string): Result<nat>
    requires ROOT in n && '/' in path
  {
    match Lookup(n, DirPath(path))
    case Err(error) => Err(error)
    case Ok(t) =>
      if t !in n then Err(NoDentry)
      else if |FileName(path)| > FILENAME_MAX then Err(NameTooLong)
      else if FileName(path) in n[t].children then Err(Exists)
      else Ok(t)
  }

  // The dentry that can be unlinked under a path.
  function Removal(n: Nodes, path: string): Result<nat>
    requires ROOT in n
  {
    if path == "/" then Err(UnlinkRoot)
    else
      match Lookup(n, path)
      case Err(error) => Err(error)
      case Ok(d) => if d in n && n[d].isdir && n[d].children != map[] then Err(DirNotEmpty) else Ok(d)
  }

  datatype Move = Move(fromDir: nat, toDir: nat, what: nat, over: Option<nat>)

  // The entries a rename is about.  Which of two missing or overlong names is reported depends on
  // the order in which the directories are locked, predecessors first.
  ghost function Entries(n: Nodes, rank: map<nat, nat>, f: nat, t: nat, fromName: string, toName: string): Result<Move>
    requires f in n && t in n
  {
    var x, y := Entry(n, f, fromName), Entry(n, t, toName);
    if Above(n, rank, t, f) then
      if y.Err? then Err(y.error)
      else if x.Err? || x.value.None? then Err(NoDentry)
      else Ok(Move(f, t, x.value.value, y.value))
    else
      if x.Err? then Err(x.error)
      else if x.value.None? then Err(NoDentry)
      else if y.Err? then Err(y.error)
      else Ok(Move(f, t, x.value.value, y.value))
  }

  // Whether a move must not be: into itself, over a predecessor, over a directory in use.
  ghost function Refusal(n: Nodes, rank: map<nat, nat>, v: Move): Option<Error>
    requires v.what in n && (v.over.Some? ==> v.over.value in n)
  {
    if Above(n, rank, v.what, v.toDir) then Some(RenameLoop)
    else if v.over.None? then None
    else if Above(n, rank, v.over.value, v.fromDir) then Some(if n[v.what].isdir then DirNotEmpty else IsFile)
    else if v.over.value != v.what && n[v.over.value].isdir && n[v.over.value].children != map[] then Some(DirNotEmpty)
    else None
  }

  ghost function Ruling(n: Nodes, rank: map<nat, nat>, from: string, to: string): Result<Move>
    requires ROOT in n && '/' in from && '/' in to
  {
    match Lookup(n, DirPath(from))
    case Err(error) => Err(error)
    case Ok(f) =>
      match Lookup(n, DirPath(to))
      case Err(error) => Err(error)
      case Ok(t) =>
        if f !in n || t !in n then Err(NoDentry)
        else
          match Entries(n, rank, f, t, FileName(from), FileName(to))
          case Err(error) => Err(error)
          case Ok(v) =>
            if v.what !in n || (v.over.Some? && v.over.value !in n) then Err(NoDentry)
            else
              match Refusal(n, rank, v)
              case Some(error) => Err(error)
              case None => Ok(v)
  }

  // ---------------------------------------------------------------- names and paths

  // A path with a component that is too long.
  ghost predicate LongName(path: string)
  {
    exists i: nat :: LongAt(path, i)
  }

  predicate LongAt(path: string, i: nat)
  {
    i + FILENAME_MAX < |path| && '/' !in path[i..i + FILENAME_MAX + 1]
  }

  lemma LongPart(path: string, i: nat, e: nat)
    requires i <= e <= |path| && '/' !in path[i..e] && e - i > FILENAME_MAX
    ensures LongName(path)
  {
    var part := path[i..i + FILENAME_MAX + 1];
    assert forall k :: 0 <= k < |part| ==> part[k] == path[i..e][k];
    assert LongAt(path, i);
  }

  lemma LongPrefix(path: string, k: nat)
    requires k <= |path| && LongName(path[..k])
    ensures LongName(path)
  {
    var p := path[..k];
    var i: nat :| LongAt(p, i);
    assert p[i..i + FILENAME_MAX + 1] == path[i..i + FILENAME_MAX + 1];
    assert LongAt(path, i);
  }

  // The dentry that is in a directory under a path.
  ghost predicate Entered(n: Nodes, rank: map<nat, nat>, path: string, d: nat)
  {
    d in n && !n[d].deleted && d != ROOT && PathOf(n, rank, d) == path
  }

  // The dentry that a path has before its last slash.
  ghost predicate Houses(n: Nodes, rank: map<nat, nat>, path: string, d: nat)
    requires '/' in path
  {
    d in n && !n[d].deleted && path == Prefix(n, rank, d) + FileName(path)
  }

  lemma SplitIs(path: string, before: string, name: string)
    requires path == before + name && before != "" && before[|before| - 1] == '/' && '/' !in name
    ensures '/' in path && FileName(path) == name && DirPath(path) + "/" == before
  {
    assert path[|before| - 1] == '/';
    var s := LastSlash(path);
    assert forall i :: |before| <= i < |path| ==> path[i] == name[i - |before|];
    assert s == |before| - 1;
    assert before == path[..s] + "/";
  }

  lemma PrefixEnds(n: Nodes, rank: map<nat, nat>, d: nat)
    requires d in n
    ensures var p := Prefix(n, rank, d); p != "" && p[|p| - 1] == '/'
  {
  }

  lemma NoSlash(path: string)
    requires '/' in path
    ensures '/' !in FileName(path) && path == DirPath(path) + "/" + FileName(path)
  {
  }

  lemma HousesIs(n: Nodes, rank: map<nat, nat>, path: string, d: nat)
    requires TreeOk(n, rank) && Rooted(path)
    ensures ROOT in n && (Lookup(n, DirPath(path)) == Ok(d) <==> Houses(n, rank, path, d))
  {
    LookupLive(n, rank, DirPath(path));
    if Lookup(n, DirPath(path)) == Ok(d) {
      PathSplit(n, rank, path, d);
    }
    if Houses(n, rank, path, d) {
      var before := Prefix(n, rank, d);
      PrefixEnds(n, rank, d);
      NoSlash(path);
      SplitIs(path, before, FileName(path));
      assert DirPath(path) == before[..|before| - 1];
      if d == ROOT {
        RootPrefix(n, rank);
        assert DirPath(path) == "";
      } else {
        PrefixStep(n, rank, d);
        assert DirPath(path) == PathOf(n, rank, d);
        PathRoundTrip(n, rank, d);
      }
    }
  }

  // The entry of that dentry under the last name is the one entered under the path.
  lemma EnteredIs(n: Nodes, rank: map<nat, nat>, path: string, t: nat, y: nat)
    requires TreeOk(n, rank) && Rooted(path) && Houses(n, rank, path, t)
    ensures (FileName(path) in n[t].children && n[t].children[FileName(path)] == y) <==> Entered(n, rank, path, y)
    ensures Entered(n, rank, path, y) ==> n[y].parent == Some(t) && |FileName(path)| <= FILENAME_MAX
  {
    var name := FileName(path);
    if name in n[t].children && n[t].children[name] == y {
      ChildAt(n, rank, ROOT, t, name);
      RootNoParent(n, rank);
      PrefixStep(n, rank, y);
    }
    if Entered(n, rank, path, y) {
      PrefixStep(n, rank, y);
      var p := n[y].parent.value;
      PrefixEnds(n, rank, p);
      SplitIs(path, Prefix(n, rank, p), n[y].name);
      assert Houses(n, rank, path, p);
      HousesIs(n, rank, path, p);
      HousesIs(n, rank, path, t);
    }
  }

  lemma RootNoParent(n: Nodes, rank: map<nat, nat>)
    requires TreeOk(n, rank)
    ensures ROOT in n && n[ROOT].parent == None
  {
  }

  // What is entered under a path is entered in some directory.
  lemma EnteredSomewhere(n: Nodes, rank: map<nat, nat>, path: string, y: nat)
    requires TreeOk(n, rank) && Entered(n, rank, path, y)
    ensures '/' in path && n[y].parent.Some? && Houses(n, rank, path, n[y].parent.value)
    ensures |FileName(path)| <= FILENAME_MAX
  {
    PrefixStep(n, rank, y);
    var p := n[y].parent.value;
    PrefixEnds(n, rank, p);
    SplitIs(path, Prefix(n, rank, p), n[y].name);
  }

  // Where a lookup fails, nothing has that name, or a component is too long for one.
  ghost predicate Missing<T>(r: Result<T>, path: string)
  {
    r.Err? && (r.error == NoDentry || (r.error == NameTooLong && LongName(path)))
  }

  lemma {:induction false} WalkFails(n: Nodes, d: nat, path: string, i: nat)
    requires d in n && i <= |path| && Walk(n, d, path, i).Err?
    ensures Missing(Walk(n, d, path, i), path)
    decreases |path| - i
  {
    var e := NextSlash(path, i);
    var name := path[i..e];
    if |name| > FILENAME_MAX {
      assert forall k :: 0 <= k < |name| ==> name[k] == path[i + k];
      LongPart(path, i, e);
    } else if name in n[d].children && e < |path| && n[d].children[name] in n {
      WalkFails(n, n[d].children[name], path, e + 1);
    }
  }

  lemma LookupFails(n: Nodes, path: string)
    requires ROOT in n && Lookup(n, path).Err?
    ensures Missing(Lookup(n, path), path)
  {
    WalkFails(n, ROOT, path, 1);
  }

  lemma DirFails(n: Nodes, path: string)
    requires ROOT in n && '/' in path && Lookup(n, DirPath(path)).Err?
    ensures Missing(Lookup(n, DirPath(path)), path)
  {
    LookupFails(n, DirPath(path));
    if LongName(DirPath(path)) {
      LongPrefix(path, LastSlash(path));
    }
  }

  lemma LongFile(path: string)
    requires '/' in path && |FileName(path)| > FILENAME_MAX
    ensures LongName(path)
  {
    NoSlash(path);
    LongPart(path, LastSlash(path) + 1, |path|);
  }

  // ---------------------------------------------------------------- create

  // An entry can be made under a path if the directory is there, the name is short enough and there is no
  // such entry yet.
  ghost predicate CreateAnswers(n: Nodes, rank: map<nat, nat>, path: string, r: Result<nat>)
    requires '/' in path
  {
    && (forall t: nat {:trigger Houses(n, rank, path, t)} :: Houses(n, rank, path, t) ==>
          if |FileName(path)| > FILENAME_MAX then r == Err(NameTooLong)
          else if exists y: nat :: Entered(n, rank, path, y) then r == Err(Exists)
          else r.Ok?)
    && ((forall t: nat {:trigger Houses(n, rank, path, t)} :: !Houses(n, rank, path, t)) ==> Missing(r, path))
  }

  lemma VacancyAnswers(n: Nodes, rank: map<nat, nat>, path: string)
    requires TreeOk(n, rank) && Rooted(path)
    ensures ROOT in n && CreateAnswers(n, rank, path, Vacancy(n, path))
    ensures Vacancy(n, path).Ok? ==> Houses(n, rank, path, Vacancy(n, path).value)
    ensures Vacancy(n, path).Ok? ==> forall t: nat {:trigger Houses(n, rank, path, t)} :: Houses(n, rank, path, t) ==>
              t == Vacancy(n, path).value
  {
    hide TreeOk, Houses, Entered, Lookup, LongName, LastSlash;
    LookupLive(n, rank, DirPath(path));
    var dir := Lookup(n, DirPath(path));
    if dir.Err? {
      DirFails(n, path);
    } else {
      HousesIs(n, rank, path, dir.value);
    }
    forall t: nat | Houses(n, rank, path, t)
      ensures Vacancy(n, path) == if |FileName(path)| > FILENAME_MAX then Err(NameTooLong)
                                  else if exists y: nat :: Entered(n, rank, path, y) then Err(Exists)
                                  else Ok(t)
    {
      HousesIs(n, rank, path, t);
      if FileName(path) in n[t].children {
        EnteredIs(n, rank, path, t, n[t].children[FileName(path)]);
      }
      forall y: nat | Entered(n, rank, path, y)
        ensures FileName(path) in n[t].children
      {
        EnteredIs(n, rank, path, t, y);
      }
    }
  }

  // ---------------------------------------------------------------- unlink

  // What is entered under a path can be unlinked unless it has entries of its own.
  ghost predicate UnlinkAnswers(n: Nodes, rank: map<nat, nat>, path: string, r: Result<nat>)
  {
    && (forall d: nat {:trigger Entered(n, rank, path, d)} :: Entered(n, rank, path, d) ==>
          r == if n[d].children == map[] then Ok(d) else Err(DirNotEmpty))
    && (path == "/" ==> r == Err(UnlinkRoot))
    && (path != "/" && (forall d: nat {:trigger Entered(n, rank, path, d)} :: !Entered(n, rank, path, d)) ==>
          Missing(r, path))
  }

  lemma RemovalAnswers(n: Nodes, rank: map<nat, nat>, path: string)
    requires TreeOk(n, rank) && |path| > 0 && path[0] == '/'
    ensures ROOT in n && UnlinkAnswers(n, rank, path, Removal(n, path))
  {
    hide TreeOk, Lookup, LongName, PathOf;
    LookupLive(n, rank, path);
    var f := Lookup(n, path);
    if f.Err? {
      LookupFails(n, path);
    } else {
      LookupIsPath(n, rank, path, f.value);
      assert path != "/" ==> Entered(n, rank, path, f.value);
    }
    forall d: nat | Entered(n, rank, path, d)
      ensures path != "/" && Removal(n, path) == if n[d].children == map[] then Ok(d) else Err(DirNotEmpty)
    {
      LookupIsPath(n, rank, path, d);
      EnteredSomewhere(n, rank, path, d);
      NotRootPath(n, rank, d);
      FilesBare(n, rank, d);
    }
  }

  lemma NotRootPath(n: Nodes, rank: map<nat, nat>, d: nat)
    requires TreeOk(n, rank) && d in n && !n[d].deleted && d != ROOT
    ensures PathOf(n, rank, d) != "/"
  {
    PrefixStep(n, rank, d);
    PrefixEnds(n, rank, n[d].parent.value);
  }

  lemma FilesBare(n: Nodes, rank: map<nat, nat>, d: nat)
    requires TreeOk(n, rank) && d in n
    ensures !n[d].isdir ==> n[d].children == map[]
  {
    CountsAt(n, rank, ROOT, d);
  }

  // ---------------------------------------------------------------- rename

  // Something with entries of its own, and not x itself, is entered where x is to go.
  ghost predicate InWay(n: Nodes, rank: map<nat, nat>, x: nat, to: string, y: nat)
  {
    Entered(n, rank, to, y) && y != x && n[y].children != map[]
  }

  // Whether x may move to where `to` says, in directory t.  It may not move below itself; and what is
  // there must be without entries, or x itself, and then it gives way.
  ghost predicate MoveAnswers(n: Nodes, rank: map<nat, nat>, x: nat, t: nat, to: string, r: Result<Move>)
    requires x in n && n[x].parent.Some?
  {
    var f, loop := n[x].parent.value, Above(n, rank, x, t);
    && (r == Err(RenameLoop) <==> loop)
    && (r == Err(IsFile) <==>
          !loop && !n[x].isdir && exists y: nat :: InWay(n, rank, x, to, y) && Above(n, rank, y, f))
    && (r == Err(DirNotEmpty) <==>
          !loop && exists y: nat :: InWay(n, rank, x, to, y) && (n[x].isdir || !Above(n, rank, y, f)))
    && (r.Ok? <==> !loop && forall y: nat :: !InWay(n, rank, x, to, y))
    && (r.Ok? ==> r.value == Move(f, t, x, r.value.over))
    && (r.Ok? ==> forall y: nat :: Entered(n, rank, to, y) <==> r.value.over == Some(y))
  }

  // What a rename answers.
  ghost predicate RenameAnswers(n: Nodes, rank: map<nat, nat>, from: string, to: string, r: Result<Move>)
    requires '/' in from && '/' in to
  {
    && (forall x: nat, t: nat {:trigger Entered(n, rank, from, x), Houses(n, rank, to, t)} ::
          Entered(n, rank, from, x) && Houses(n, rank, to, t) ==>
            if |FileName(to)| > FILENAME_MAX then r == Err(NameTooLong)
            else x in n && n[x].parent.Some? && MoveAnswers(n, rank, x, t, to, r))
    && ((forall x: nat :: !Entered(n, rank, from, x)) || (forall t: nat :: !Houses(n, rank, to, t)) ==>
          Missing(r, from) || Missing(r, to))
  }

  // What is found under a name in a directory.
  lemma EntryIs(n: Nodes, rank: map<nat, nat>, path: string, t: nat)
    requires TreeOk(n, rank) && Rooted(path) && Houses(n, rank, path, t)
    ensures var e := Entry(n, t, FileName(path));
            if |FileName(path)| > FILENAME_MAX then e == Err(NameTooLong)
            else e.Ok? && forall y: nat :: Entered(n, rank, path, y) <==> e.value == Some(y)
  {
    hide TreeOk, LastSlash, PathOf, Prefix;
    forall y: nat
      ensures Entered(n, rank, path, y) <==>
                FileName(path) in n[t].children && n[t].children[FileName(path)] == y
    {
      EnteredIs(n, rank, path, t, y);
    }
  }

  // Something above the directory that x comes from has entries.
  lemma AboveHasEntries(n: Nodes, rank: map<nat, nat>, x: nat, f: nat, y: nat)
    requires TreeOk(n, rank) && x in n && !n[x].deleted && x != ROOT && n[x].parent == Some(f)
    requires y in n && Above(n, rank, y, f)
    ensures y != x && n[y].children != map[]
  {
    PrefixStep(n, rank, x);
    NotAboveParent(n, rank, x);
    if n[y].children == map[] && y != f {
      ChildlessAbove(n, rank, y, f);
    }
  }

  lemma RefusalIs(n: Nodes, rank: map<nat, nat>, v: Move, to: string)
    requires TreeOk(n, rank) && v.what in n && !n[v.what].deleted && v.what != ROOT
             && n[v.what].parent == Some(v.fromDir)
    requires forall y: nat :: Entered(n, rank, to, y) <==> v.over == Some(y)
    ensures v.over.Some? ==> v.over.value in n
    ensures MoveAnswers(n, rank, v.what, v.toDir, to,
            match Refusal(n, rank, v) case Some(error) => Err(error) case None => Ok(v))
  {
    if v.over.Some? {
      var y := v.over.value;
      assert Entered(n, rank, to, y);
      FilesBare(n, rank, y);
      if Above(n, rank, y, v.fromDir) {
        AboveHasEntries(n, rank, v.what, v.fromDir, y);
      }
      assert InWay(n, rank, v.what, to, y) <==> y != v.what && n[y].children != map[];
      hide TreeOk, Above, PathOf, Entered;
      assert forall z: nat :: InWay(n, rank, v.what, to, z) ==> z == y;
    } else {
      assert forall z: nat :: !InWay(n, rank, v.what, to, z);
    }
  }

  // With both directories and both names found.
  lemma MoveIs(n: Nodes, rank: map<nat, nat>, from: string, to: string, x: nat, t: nat)
    requires TreeOk(n, rank) && Rooted(from) && Rooted(to) && Entered(n, rank, from, x) && Houses(n, rank, to, t)
    ensures ROOT in n && x in n && n[x].parent.Some?
    ensures if |FileName(to)| > FILENAME_MAX then Ruling(n, rank, from, to) == Err(NameTooLong)
            else MoveAnswers(n, rank, x, t, to, Ruling(n, rank, from, to))
  {
    EnteredSomewhere(n, rank, from, x);
    var f := n[x].parent.value;
    HousesIs(n, rank, from, f);
    HousesIs(n, rank, to, t);
    EntryIs(n, rank, from, f);
    EntryIs(n, rank, to, t);
    hide TreeOk, Above, PathOf, Prefix, LastSlash, Lookup, Entry, MoveAnswers, Refusal;
    if |FileName(to)| <= FILENAME_MAX {
      RefusalIs(n, rank, Move(f, t, x, Entry(n, t, FileName(to)).value), to);
    }
  }

  // With one of them not found.
  lemma NoMove(n: Nodes, rank: map<nat, nat>, from: string, to: string)
    requires TreeOk(n, rank) && Rooted(from) && Rooted(to)
    requires (forall x: nat :: !Entered(n, rank, from, x)) || (forall t: nat :: !Houses(n, rank, to, t))
    ensures ROOT in n
    ensures Missing(Ruling(n, rank, from, to), from) || Missing(Ruling(n, rank, from, to), to)
  {
    LookupLive(n, rank, DirPath(from));
    var f, t := Lookup(n, DirPath(from)), Lookup(n, DirPath(to));
    if f.Err? {
      DirFails(n, from);
    } else if t.Err? {
      DirFails(n, to);
    } else {
      HousesIs(n, rank, from, f.value);
      HousesIs(n, rank, to, t.value);
      EntryIs(n, rank, from, f.value);
      EntryIs(n, rank, to, t.value);
      hide TreeOk, Above, PathOf, Prefix, LastSlash, Lookup, Entry, LongName;
      if |FileName(from)| > FILENAME_MAX {
        LongFile(from);
      }
      if |FileName(to)| > FILENAME_MAX {
        LongFile(to);
      }
    }
  }

  lemma RulingAnswers(n: Nodes, rank: map<nat, nat>, from: string, to: string)
    requires TreeOk(n, rank) && Rooted(from) && Rooted(to)
    ensures ROOT in n && RenameAnswers(n, rank, from, to, Ruling(n, rank, from, to))
  {
    hide TreeOk, Ruling, Entered, Houses, Missing, MoveAnswers, Lookup;
    LookupLive(n, rank, "");
    forall x: nat, t: nat | Entered(n, rank, from, x) && Houses(n, rank, to, t)
      ensures if |FileName(to)| > FILENAME_MAX then Ruling(n, rank, from, to) == Err(NameTooLong)
              else x in n && n[x].parent.Some? && MoveAnswers(n, rank, x, t, to, Ruling(n, rank, from, to))
    {
      MoveIs(n, rank, from, to, x, t);
    }
    if (forall x: nat :: !Entered(n, rank, from, x)) || (forall t: nat :: !Houses(n, rank, to, t)) {
      NoMove(n, rank, from, to);
    }
  }
}
