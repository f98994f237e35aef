// What shows after a write, whether it is clean or not: the bytes written, unless it hides one.
module Showing {
  import opened Medium
  import opened Flat
  import opened Queues
  import opened Requests
  import opened Sweep
  import opened Placing
  import opened Keeping

  // The bytes placed so far show, and those outside the write show as before.
  ghost predicate Shown(w: Put, orig: seq<Request>, reqs: seq<Request>, c: nat)
  {
    forall x: nat {:trigger Look(reqs, x)} ::
      && (w.off <= x < c && x < w.End() ==> Look(reqs, x) == Some(w.data[x - w.off]))
      && (!(w.off <= x < w.End()) ==> Look(reqs, x) == Look(orig, x))
  }

  // Requests before i, other than p, end at or before x.
  ghost predicate BackFrom(reqs: seq<Request>, i: nat, p: int, x: nat)
  {
    forall j {:trigger reqs[j]} :: 0 <= j < i && j < |reqs| && j != p ==> reqs[j].End() <= x
  }

  ghost predicate NoTwo(reqs: seq<Request>, i: nat, off: nat, cap: nat)
  {
    forall k: nat {:trigger TwoIp(reqs, k, off, cap)} :: i <= k < |reqs| ==> !TwoIp(reqs, k, off, cap)
  }

  // What the traversal leaves behind it: the previous request reaches up to the cursor, nothing else
  // reaches beyond that, and nothing can be merged into it but in front of the write.
  ghost predicate Trail(w: Put, s: Spot)
  {
    && -1 <= s.p < s.i <= |s.reqs| && (s.c > w.off ==> s.p >= 0)
    && (s.p >= 0 ==> s.reqs[s.p].End() >= s.c && (s.i < |s.reqs| ==> w.off <= s.reqs[s.i].offset))
    && (if s.c < w.End() then
          && BackFrom(s.reqs, s.i, -1, s.c)
          && (s.p >= 0 ==> |s.reqs[s.p].data| == w.cap
                           || (s.c == w.off && s.reqs[s.p].state == Ip && s.p == s.i - 1))
        else s.p >= 0 && BackFrom(s.reqs, s.i, s.p, s.reqs[s.p].End()))
    && (s.c == w.off ==> NoTwo(s.reqs, s.i, w.off, w.cap))
  }

  ghost predicate Going(w: Put, orig: seq<Request>, s: Spot)
  {
    && w.data != [] && Kept(w, s) && Trail(w, s) && Shown(w, orig, s.reqs, s.c)
    && (s.c == w.off ==> s.reqs == orig || s.i == |s.reqs| || s.reqs[s.i].offset > w.off)
  }

  // The last two requests became one before anything was placed: the write starts over.
  ghost predicate Over(w: Put, orig: seq<Request>, s: Spot)
  {
    && s.c == w.off && s.i == |s.reqs| > 0 && s.reqs[|s.reqs| - 1].End() > w.off
    && forall x: nat {:trigger Look(s.reqs, x)} :: Look(s.reqs, x) == Look(orig, x)
  }

  lemma StartGoing(w: Put, reqs: seq<Request>)
    requires w.data != [] && Kept(w, Spot(reqs, 0, -1, w.off)) && !Hides(reqs, w.off, w.cap)
    ensures Going(w, reqs, Spot(reqs, 0, -1, w.off))
  {
    hide Look, TwoIp;
  }

  // Behind the write's start, no two requests meet there.
  lemma NoTwoBehind(reqs: seq<Request>, i: nat, off: nat, cap: nat)
    requires InOrder(reqs) && (i < |reqs| ==> off < reqs[i].offset)
    ensures NoTwo(reqs, i, off, cap)
  {
  }

  // ---------------------------------------------------------------- inserting

  lemma InsertShown(w: Put, orig: seq<Request>, reqs: seq<Request>, i: nat, c: nat)
    requires i <= |reqs| && Shown(w, orig, reqs, c) && BackFrom(reqs, i, -1, c) && w.off <= c < w.End() && 0 < w.cap
    ensures Shown(w, orig, Insert(reqs, i, Chunk(w, c)), Chunk(w, c).End())
  {
    var r := Chunk(w, c);
    assert forall x: nat :: r.Covers(x) ==> One(r, x) == Some(w.data[x - w.off]);
    ChunkSize(w, c);
    hide LookIn, Insert, Look, Chunk, One;
    forall x: nat
      ensures w.off <= x < r.End() && x < w.End() ==> Look(Insert(reqs, i, r), x) == Some(w.data[x - w.off])
      ensures !(w.off <= x < w.End()) ==> Look(Insert(reqs, i, r), x) == Look(orig, x)
    {
      InsertLook(reqs, i, r, x);
      LookWhole(reqs, i, x);
      OneCovers(r, x);
      if r.Covers(x) {
        LookMiss(reqs, 0, i, x);
      }
    }
  }

  lemma OneCovers(r: Request, x: nat)
    ensures One(r, x).Some? <==> r.Covers(x)
  {
  }

  lemma InsertedTrail(w: Put, s: Spot)
    requires w.data != [] && Kept(w, s) && Trail(w, s) && Inserts(w, s)
    ensures Trail(w, Inserted(w, s))
  {
    var r, t := Chunk(w, s.c), Inserted(w, s);
    ChunkSize(w, s.c);
    assert t.c < w.End() ==> |r.data| == w.cap;
    hide Chunk, Insert, TwoIp;
    forall j | 0 <= j < t.i && j != s.i
      ensures t.reqs[j].End() <= s.c
    {
      assert t.reqs[j] == s.reqs[j];
    }
  }

  lemma {:induction false} InsertRunGoing(w: Put, orig: seq<Request>, s: Spot)
    requires Going(w, orig, s) && s.i < |s.reqs|
    ensures var t := InsertRun(w, s); Going(w, orig, t) && t.i < |t.reqs|
    decreases w.End() - s.c
  {
    hide Trail, Shown, Kept, Inserted;
    if Inserts(w, s) {
      InsertedKept(w, s);
      InsertedTrail(w, s);
      InsertedShown(w, orig, s);
      InsertRunGoing(w, orig, Inserted(w, s));
    }
  }

  lemma InsertedShown(w: Put, orig: seq<Request>, s: Spot)
    requires Going(w, orig, s) && Inserts(w, s)
    ensures Shown(w, orig, Inserted(w, s).reqs, Inserted(w, s).c)
  {
    hide Shown, Insert, Chunk;
    InsertShown(w, orig, s.reqs, s.i, s.c);
  }

  // ---------------------------------------------------------------- merging

  // Where a request between two others shows, the first of them does, if it reaches as far.
  lemma BetweenLook(reqs: seq<Request>, p: nat, i: nat, x: nat)
    requires p < i < |reqs| && InOrder(reqs) && forall j {:trigger reqs[j]} :: p < j < i ==>
             reqs[j].End() <= reqs[p].End()
    ensures Or(One(reqs[p], x), LookIn(reqs, p + 1, i, x)) == One(reqs[p], x)
  {
    hide LookIn;
    LookMiss(reqs, p + 1, i, x);
  }

  // Around two positions.
  lemma TwoLook(reqs: seq<Request>, p: nat, i: nat, x: nat)
    requires p < i < |reqs|
    ensures Look(reqs, x) == Or(LookIn(reqs, 0, p, x),
              Or(Or(One(reqs[p], x), LookIn(reqs, p + 1, i, x)), Or(One(reqs[i], x), LookIn(reqs, i + 1, |reqs|, x))))
  {
    LookAt(reqs, p, x);
    LookSplit(reqs, p + 1, i, |reqs|, x);
    LookSplit(reqs, i, i + 1, |reqs|, x);
  }

  // Merging a request into one that reaches further than all between them does not show.
  lemma MergeFarLook(reqs: seq<Request>, p: nat, i: nat, cap: nat, x: nat)
    requires Sized(reqs, cap) && InOrder(reqs) && p < i < |reqs|
    requires forall j {:trigger reqs[j]} :: p < j < i ==> reqs[j].End() <= reqs[p].End()
    ensures Look(Merged(reqs, p, i, cap), x) == Look(reqs, x)
  {
    hide LookIn, Merged, NewDest, Cut, Look, One, Remove, Behead;
    var d, k, m := NewDest(reqs[p], reqs[i], cap), Cut(reqs[p], reqs[i], cap), Merged(reqs, p, i, cap);
    MergedShape(reqs, p, i, cap);
    MergePair(reqs[p], reqs[i], cap);
    TwoLook(reqs, p, i, x);
    BetweenLook(reqs, p, i, x);
    assert reqs[p].End() <= d.End() && d.offset == reqs[p].offset;
    if k < |reqs[i].data| {
      var s := reqs[p := d][i := Behead(reqs[i], k)];
      LookAlike(m, s, x);
      TwoLook(s, p, i, x);
      FarSame(reqs, s, p, i, 0, x);
      assert One(s[p], x) == One(d, x);
    } else {
      var s := Remove(reqs[p := d], i);
      LookAlike(m, s, x);
      LookAt(s, p, x);
      LookSplit(s, p + 1, i, |s|, x);
      FarSame(reqs, s, p, i, 1, x);
      assert One(s[p], x) == One(d, x);
    }
  }

  // The rest of the list as it was, and what is between still does not show.
  lemma FarSame(reqs: seq<Request>, s: seq<Request>, p: nat, i: nat, gone: nat, x: nat)
    requires InOrder(reqs) && p < i < |reqs| && gone <= 1 && |s| == |reqs| - gone
    requires forall j {:trigger reqs[j]} :: p < j < i ==> reqs[j].End() <= reqs[p].End()
    requires s[p].offset == reqs[p].offset && reqs[p].End() <= s[p].End()
    requires forall j {:trigger s[j]} :: 0 <= j < i && j != p ==> s[j] == reqs[j]
    requires forall j {:trigger s[j]} :: i + 1 - gone <= j < |s| ==> s[j] == reqs[j + gone]
    ensures LookIn(s, 0, p, x) == LookIn(reqs, 0, p, x)
    ensures LookIn(s, i + 1 - gone, |s|, x) == LookIn(reqs, i + 1, |reqs|, x)
    ensures Or(One(s[p], x), LookIn(s, p + 1, i, x)) == One(s[p], x)
  {
    hide LookIn;
    LookSame(s, reqs, 0, 0, p, x);
    LookSame(s, reqs, gone, i + 1 - gone, |s|, x);
    LookMiss(s, p + 1, i, x);
  }

  // Request i is where the write goes on, if it does.
  ghost predicate Arrived(w: Put, s: Spot)
  {
    && s.i < |s.reqs|
    && (s.c < w.End() ==> s.c <= s.reqs[s.i].End() && (s.p >= 0 ==> s.c <= s.reqs[s.i].offset))
  }

  lemma MergeShown(w: Put, orig: seq<Request>, s: Spot)
    requires Going(w, orig, s) && 0 <= s.p < s.i < |s.reqs|
    ensures Shown(w, orig, MergeRun(w, s).reqs, s.c)
    ensures forall x: nat {:trigger Look(MergeRun(w, s).reqs, x)} :: Look(MergeRun(w, s).reqs, x) == Look(s.reqs, x)
  {
    hide Look, Merged, TwoIp;
    forall x: nat
      ensures Look(MergeRun(w, s).reqs, x) == Look(s.reqs, x)
    {
      if Merges(w, s) {
        MergeFarLook(s.reqs, s.p, s.i, w.cap, x);
      }
    }
  }

  // In front of the write nothing is merged, but for the last two requests of the list.
  lemma MergeAtStart(w: Put, orig: seq<Request>, s: Spot)
    requires Going(w, orig, s) && 0 <= s.p < s.i < |s.reqs| && s.c == w.off
    ensures if MergeDid(w, s) == 0 then MergeRun(w, s) == s && s.c <= s.reqs[s.i].offset
            else MergeDid(w, s) == 2 && Over(w, orig, MergeRun(w, s))
  {
    AtStart(w, orig, s);
    if MergeDid(w, s) == 0 {
      hide Shown, Look, Fill, Remove, NewDest, Kept;
    } else {
      MergeShown(w, orig, s);
      LastTwo(s.reqs, s.p, s.i, w.cap);
      hide Look, Merged, Kept, Cut;
    }
  }

  lemma AtStart(w: Put, orig: seq<Request>, s: Spot)
    requires Going(w, orig, s) && 0 <= s.p < s.i < |s.reqs| && s.c == w.off
    ensures 0 < |s.reqs[s.p].data| <= w.cap && 0 < |s.reqs[s.i].data| <= w.cap && w.off <= s.reqs[s.i].offset
    ensures s.reqs[s.p].End() == w.off
    ensures var k := Cut(s.reqs[s.p], s.reqs[s.i], w.cap);
            k != 0 ==> k >= |s.reqs[s.i].data| && s.reqs[s.i].offset == w.off && s.p + 1 == s.i == |s.reqs| - 1
                       && s.reqs == orig
  {
    hide Shown, Look, Fill, NewDest, Kept, InOrder, RightApart;
    KeptSized(w, s);
    SizedPair(s.reqs, s.p, s.i, w.cap);
    assert !TwoIp(s.reqs, s.i, w.off, w.cap);
  }

  lemma KeptSized(w: Put, s: Spot)
    requires Kept(w, s)
    ensures Sized(s.reqs, w.cap)
  {
  }

  // The last two requests become one.
  lemma LastTwo(reqs: seq<Request>, p: nat, i: nat, cap: nat)
    requires p + 1 == i == |reqs| - 1 && 0 < |reqs[p].data| <= cap && 0 < |reqs[i].data| <= cap
    requires reqs[i].offset == reqs[p].End() && Cut(reqs[p], reqs[i], cap) >= |reqs[i].data|
    ensures var m := Merged(reqs, p, i, cap); |m| == i && m[i - 1].End() > reqs[p].End()
  {
    hide Merged, Remove, Fill, NewDest;
    MergedShape(reqs, p, i, cap);
    UnluckyReach(reqs[p], reqs[i], cap);
    FreeFacts(reqs, p, i, NewDest(reqs[p], reqs[i], cap), Merged(reqs, p, i, cap));
  }

  // Behind it, request i loses what the previous one covers.
  lemma MergeBehindStart(w: Put, orig: seq<Request>, s: Spot)
    requires Going(w, orig, s) && 0 <= s.p < s.i < |s.reqs| && s.c > w.off
    ensures Trail(w, MergeRun(w, s)) && (MergeDid(w, s) != 2 ==> Arrived(w, MergeRun(w, s)))
  {
    hide Shown, Fill, Remove, NewDest, Merged, Cut, TwoIp, InOrder, Behead;
    var p, i := s.p, s.i;
    SizedPair(s.reqs, p, i, w.cap);
    OrderAt(s.reqs, p, i);
    MergedShape(s.reqs, p, i, w.cap);
    MergePair(s.reqs[p], s.reqs[i], w.cap);
    var d, k, m := NewDest(s.reqs[p], s.reqs[i], w.cap), Cut(s.reqs[p], s.reqs[i], w.cap), MergeRun(w, s).reqs;
    FullStays(s.reqs[p], s.reqs[i], w.cap);
    if k < |s.reqs[i].data| {
      TrimFacts(s.reqs, p, i, d, k, m);
      hide SameBytes;
      TrimTrail(w, s, d, k, m);
    } else {
      FreeFacts(s.reqs, p, i, d, m);
      hide SameBytes;
      FreeTrail(w, s, d, m);
    }
  }

  // A full request takes in nothing.
  lemma FullStays(dest: Request, src: Request, cap: nat)
    requires |dest.data| <= cap
    ensures |dest.data| == cap ==> NewDest(dest, src, cap) == dest
    ensures dest.End() > src.offset ==> Cut(dest, src, cap) > 0
  {
  }

  lemma TrimTrail(w: Put, s: Spot, d: Request, k: nat, m: seq<Request>)
    requires Trail(w, s) && 0 <= s.p < s.i < |s.reqs| == |m| && w.off < s.c
    requires Alike(m[s.p], d) && s.reqs[s.p].End() <= d.End() && (s.c < w.End() ==> d == s.reqs[s.p])
    requires m[s.i].offset == s.reqs[s.i].offset + k && s.reqs[s.p].End() <= m[s.i].offset <= m[s.i].End()
    requires forall j {:trigger m[j]} :: 0 <= j < |m| && j != s.p && j != s.i ==> Alike(m[j], s.reqs[j])
    ensures Trail(w, s.(reqs := m)) && Arrived(w, s.(reqs := m))
  {
    hide TwoIp;
  }

  lemma FreeTrail(w: Put, s: Spot, d: Request, m: seq<Request>)
    requires Trail(w, s) && 0 <= s.p < s.i < |s.reqs| == |m| + 1 && w.off < s.c && RightApart(s.reqs, s.i)
    requires Alike(m[s.p], d) && s.reqs[s.p].End() <= d.End() && (s.c < w.End() ==> d == s.reqs[s.p])
    requires forall j {:trigger m[j]} :: 0 <= j < s.i && j != s.p ==> Alike(m[j], s.reqs[j])
    requires forall j {:trigger m[j]} :: s.i <= j < |m| ==> Alike(m[j], s.reqs[j + 1])
    ensures Trail(w, s.(reqs := m))
  {
    hide TwoIp;
    assert s.i < |m| ==> s.reqs[s.i].End() <= s.reqs[s.i + 1].offset;
  }

  lemma MergeRunGoing(w: Put, orig: seq<Request>, s: Spot)
    requires Going(w, orig, s) && s.i < |s.reqs| && (s.p < 0 ==> s.c <= s.reqs[s.i].End())
    ensures var b := MergeRun(w, s);
            || (MergeDid(w, s) == 2 && Over(w, orig, b))
            || (Going(w, orig, b) && (MergeDid(w, s) != 2 ==> Arrived(w, b)))
    ensures MergeRun(w, s).c == s.c && MergeDid(w, s) <= 2
  {
    MergeRunKept(w, s);
    if s.p >= 0 {
      MergeShown(w, orig, s);
      if s.c == w.off {
        MergeAtStart(w, orig, s);
      } else {
        MergeBehindStart(w, orig, s);
      }
    }
    hide Shown, Trail, Kept, Look, Holds, Over;
  }

  // ---------------------------------------------------------------- resolving an overlap

  // Request i takes the next bytes.
  lemma UpdateGoing(w: Put, orig: seq<Request>, s: Spot)
    requires Going(w, orig, s) && Arrived(w, s) && Meets(w, s) && s.reqs[s.i].state != Ip
    requires var q := s.reqs[s.i]; s.c < q.End() || (s.c == q.End() && |q.data| < w.cap)
    ensures Going(w, orig, ResolveRun(w, s).0)
  {
    hide Kept, Shown, Trail, Updated, Room, TwoIp;
    var q, rest := s.reqs[s.i], w.data[s.c - w.off..];
    ResolveUpdate(w, s);
    ResolveRunKept(w, s);
    BehindAll(w, s);
    UpdatedShown(w, orig, s.reqs, s.i, s.c);
    UpdateTrail(w, s);
    UpdateMoves(w, s);
  }

  lemma UpdateMoves(w: Put, s: Spot)
    requires Kept(w, s) && Meets(w, s)
    requires var q := s.reqs[s.i]; s.c < q.End() || (s.c == q.End() && |q.data| < w.cap)
    ensures 0 < Room(s.reqs[s.i], s.c, |w.data[s.c - w.off..]|, w.cap)
  {
  }

  // Bytes that go into request i, which they continue or overlap, show.
  lemma UpdatedShown(w: Put, orig: seq<Request>, reqs: seq<Request>, i: nat, c: nat)
    requires i < |reqs| && w.off <= c < w.End() && Shown(w, orig, reqs, c) && BackFrom(reqs, i, -1, c)
    requires reqs[i].offset <= c <= reqs[i].End() && |reqs[i].data| <= w.cap
    ensures var rest := w.data[c - w.off..];
            Shown(w, orig, Updated(reqs, i, c, rest, w.cap), c + Room(reqs[i], c, |rest|, w.cap))
  {
    var rest := w.data[c - w.off..];
    var f, n, u := Fill(reqs[i], c, rest, w.cap), Room(reqs[i], c, |rest|, w.cap), Updated(reqs, i, c, rest, w.cap);
    FillOne(reqs[i], c, rest, w.cap);
    hide Fill, Updated, One, SameBytes, LookIn, Look;
    forall x: nat
      ensures w.off <= x < c + n && x < w.End() ==> Look(u, x) == Some(w.data[x - w.off])
      ensures !(w.off <= x < w.End()) ==> Look(u, x) == Look(orig, x)
    {
      LookAlike(u, reqs[i := f], x);
      ReplaceLook(reqs, i, f, x);
      LookAt(reqs, i, x);
      LookMiss(reqs, 0, i, x);
    }
  }

  lemma BehindAll(w: Put, s: Spot)
    requires Trail(w, s) && s.c < w.End()
    ensures BackFrom(s.reqs, s.i, -1, s.c)
  {
    hide TwoIp;
  }

  lemma UpdateTrail(w: Put, s: Spot)
    requires w.data != [] && Kept(w, s) && Trail(w, s) && Arrived(w, s) && Meets(w, s)
    requires var q := s.reqs[s.i]; s.c < q.End() || (s.c == q.End() && |q.data| < w.cap)
    ensures var q, rest := s.reqs[s.i], w.data[s.c - w.off..];
            Trail(w, Spot(Updated(s.reqs, s.i, s.c, rest, w.cap), s.i + 1, s.i, s.c + Room(q, s.c, |rest|, w.cap)))
  {
    var q, rest := s.reqs[s.i], w.data[s.c - w.off..];
    var f, u := Fill(q, s.c, rest, w.cap), Updated(s.reqs, s.i, s.c, rest, w.cap);
    FillOne(q, s.c, rest, w.cap);
    NextApart(w, s);
    assert forall k {:trigger u[k]} :: 0 <= k < |u| ==> Alike(u[k], if k == s.i then f else s.reqs[k]);
    hide Fill, Updated, One, TwoIp, SameBytes, Kept, Trail;
    FilledTrail(w, s, f, u, s.c + Room(q, s.c, |rest|, w.cap));
  }

  lemma FilledTrail(w: Put, s: Spot, f: Request, u: seq<Request>, c: nat)
    requires Trail(w, s) && s.i < |s.reqs| == |u| && w.off <= s.c < c && s.c < w.End() && s.c <= s.reqs[s.i].End()
    requires f.offset == s.reqs[s.i].offset && c <= f.End() && (c < w.End() ==> f.End() == c && |f.data| == w.cap)
    requires forall k {:trigger u[k]} :: 0 <= k < |u| ==> Alike(u[k], if k == s.i then f else s.reqs[k])
    requires s.i + 1 < |s.reqs| ==> s.reqs[s.i].End() <= s.reqs[s.i + 1].offset
    ensures Trail(w, Spot(u, s.i + 1, s.i, c))
  {
    hide TwoIp;
  }

  // The write covers request i, which is bound for the index partition.
  lemma RemoveGoing(w: Put, orig: seq<Request>, s: Spot)
    requires Going(w, orig, s) && Arrived(w, s) && Meets(w, s)
    requires s.c == s.reqs[s.i].offset && s.reqs[s.i].End() <= w.End()
    ensures Going(w, orig, s.(reqs := Remove(s.reqs, s.i)))
  {
    var n := Remove(s.reqs, s.i);
    RemoveKept(w, s);
    GapShown(w, orig, s, n);
    hide Kept, Shown, Remove, Holds, TwoIp;
    RemoveTrail(w, s, n);
  }

  lemma RemoveTrail(w: Put, s: Spot, n: seq<Request>)
    requires w.data != [] && Kept(w, s) && Trail(w, s) && s.i < |s.reqs| && s.c == s.reqs[s.i].offset < w.End()
    requires n == Remove(s.reqs, s.i) && InOrder(n)
    ensures Trail(w, s.(reqs := n)) && (s.i < |n| ==> s.c < n[s.i].offset)
  {
    hide Remove, TwoIp;
    if s.i < |n| {
      assert s.reqs[s.i].End() <= s.reqs[s.i + 1].offset;
    }
    NoTwoBehind(n, s.i, s.c, w.cap);
  }

  // Bytes that the write has yet to place may go.
  lemma GapShown(w: Put, orig: seq<Request>, s: Spot, n: seq<Request>)
    requires Going(w, orig, s) && Meets(w, s) && n == Remove(s.reqs, s.i)
    requires s.c <= s.reqs[s.i].offset && s.reqs[s.i].End() <= w.End()
    ensures Shown(w, orig, n, s.c)
  {
    hide LookIn, Look, Remove, Kept, Trail;
    forall x: nat
      ensures w.off <= x < s.c || !(w.off <= x < w.End()) ==> Look(n, x) == Look(s.reqs, x)
    {
      RemoveLook(s.reqs, s.i, x);
      LookAt(s.reqs, s.i, x);
    }
  }

  lemma ReplaceShown(w: Put, orig: seq<Request>, s: Spot, r: Request)
    requires Going(w, orig, s) && Meets(w, s)
    requires forall x: nat :: !(s.c <= x < w.End()) ==> One(r, x) == One(s.reqs[s.i], x)
    ensures Shown(w, orig, s.reqs[s.i := r], s.c)
  {
    hide LookIn, Look, Kept, Trail, One;
    var n := s.reqs[s.i := r];
    forall x: nat
      ensures w.off <= x < s.c || !(w.off <= x < w.End()) ==> Look(n, x) == Look(s.reqs, x)
    {
      ReplaceLook(s.reqs, s.i, r, x);
      LookAt(s.reqs, s.i, x);
    }
  }

  // It covers the front of request i.
  lemma BeheadGoing(w: Put, orig: seq<Request>, s: Spot)
    requires Going(w, orig, s) && Arrived(w, s) && Meets(w, s)
    requires s.c == s.reqs[s.i].offset && w.End() < s.reqs[s.i].End() && s.reqs[s.i].state == Ip
    ensures var t := s.(reqs := s.reqs[s.i := Behead(s.reqs[s.i], w.End() - s.c)]);
            Going(w, orig, t) && t.i < |t.reqs| && t.c < t.reqs[t.i].offset
  {
    var q := s.reqs[s.i];
    var r := Behead(q, w.End() - s.c);
    TrimKept(w, s, r);
    ReplaceShown(w, orig, s, r);
    NoTwoBehind(s.reqs[s.i := r], s.i, s.c, w.cap);
    hide Shown, Behead, Holds, TwoIp, InOrder, Sized;
  }

  // It covers the end of request i.
  lemma ShortenGoing(w: Put, orig: seq<Request>, s: Spot)
    requires Going(w, orig, s) && Arrived(w, s) && Meets(w, s)
    requires s.reqs[s.i].offset < s.c < s.reqs[s.i].End() <= w.End() && s.reqs[s.i].state == Ip
    ensures Going(w, orig, Spot(s.reqs[s.i := Shorten(s.reqs[s.i], s.c)], s.i + 1, s.i, s.c))
  {
    hide Shown, Shorten, Holds, TwoIp, InOrder, Sized, RightApart, NoTwo, One;
    var q := s.reqs[s.i];
    var r := Shorten(q, s.c);
    NextApart(w, s);
    ShortenParts(q, s.c, w.End(), w.cap);
    TrimKept(w, s, r);
    ReplaceShown(w, orig, s, r);
    NoTwoBehind(s.reqs[s.i := r], s.i + 1, s.c, w.cap);
    RightOn(s.reqs[s.i := r], s.i);
  }

  lemma ShortenParts(q: Request, c: nat, end: nat, cap: nat)
    requires q.offset < c < q.End() <= end && |q.data| <= cap
    ensures var r := Shorten(q, c);
            && r.offset == q.offset && r.End() == c && r.state == q.state && 0 < |r.data| <= cap
            && (forall x: nat :: q.Covers(x) && !(c <= x < end) ==> r.Covers(x))
            && (forall x: nat :: !(c <= x < end) ==> One(r, x) == One(q, x))
  {
  }

  // It lies within request i.
  lemma SplitGoing(w: Put, orig: seq<Request>, s: Spot)
    requires Going(w, orig, s) && Arrived(w, s) && Meets(w, s)
    requires s.reqs[s.i].offset < s.c && w.End() < s.reqs[s.i].End() && s.reqs[s.i].state == Ip
    ensures var q := s.reqs[s.i];
            var t := Spot(Insert(s.reqs[s.i := Shorten(q, s.c)], s.i + 1, Tail(q, w.End())), s.i + 1, s.p, s.c);
            Going(w, orig, t) && t.i < |t.reqs| && t.c < t.reqs[t.i].offset
  {
    var q := s.reqs[s.i];
    var n := Insert(s.reqs[s.i := Shorten(q, s.c)], s.i + 1, Tail(q, w.End()));
    SplitKept(w, s);
    SplitShown(w, orig, s);
    NoTwoBehind(n, s.i + 1, s.c, w.cap);
    BehindAll(w, s);
    hide Shown, Holds, TwoIp, InOrder, Sized, RightApart, Insert;
    assert forall j {:trigger n[j]} :: 0 <= j < s.i ==> n[j] == s.reqs[j];
  }

  lemma SplitShown(w: Put, orig: seq<Request>, s: Spot)
    requires Going(w, orig, s) && Meets(w, s) && s.reqs[s.i].offset < s.c && w.End() < s.reqs[s.i].End()
    ensures var q := s.reqs[s.i];
            Shown(w, orig, Insert(s.reqs[s.i := Shorten(q, s.c)], s.i + 1, Tail(q, w.End())), s.c)
  {
    var q := s.reqs[s.i];
    var r, t := Shorten(q, s.c), Tail(q, w.End());
    assert forall x: nat :: !(s.c <= x < w.End()) ==> Or(One(r, x), One(t, x)) == One(q, x);
    hide LookIn, Look, Kept, Trail, One, Insert, Shorten, Tail;
    var n := Insert(s.reqs[s.i := r], s.i + 1, t);
    forall x: nat
      ensures w.off <= x < s.c || !(w.off <= x < w.End()) ==> Look(n, x) == Look(s.reqs, x)
    {
      if w.off <= x < s.c || !(w.off <= x < w.End()) {
        SplitLook(s.reqs, s.i, r, t, x);
      }
    }
  }

  lemma SplitLook(reqs: seq<Request>, i: nat, r: Request, t: Request, x: nat)
    requires i < |reqs| && Or(One(r, x), One(t, x)) == One(reqs[i], x)
    ensures Look(Insert(reqs[i := r], i + 1, t), x) == Look(reqs, x)
  {
    hide LookIn, Look, Insert, One;
    var m := reqs[i := r];
    InsertLook(m, i + 1, t, x);
    LookSplit(m, 0, i, i + 1, x);
    LookSame(m, reqs, 0, 0, i, x);
    LookSame(m, reqs, 0, i + 1, |m|, x);
    LookAt(reqs, i, x);
    LookOne(m, i, x);
  }

  lemma LookOne(reqs: seq<Request>, i: nat, x: nat)
    requires i < |reqs|
    ensures LookIn(reqs, i, i + 1, x) == One(reqs[i], x)
  {
    assert LookIn(reqs, i + 1, i + 1, x) == None;
  }

  // The write goes on behind request i.
  lemma PassGoing(w: Put, orig: seq<Request>, s: Spot)
    requires Going(w, orig, s) && Arrived(w, s) && Meets(w, s) && s.c == s.reqs[s.i].End()
    requires s.reqs[s.i].state == Ip || |s.reqs[s.i].data| >= w.cap
    ensures Going(w, orig, Spot(s.reqs, s.i + 1, s.i, s.c))
  {
    hide Shown, Holds, TwoIp, InOrder, ResolveRun, Sized, RightApart;
    ResolvePass(w, s);
    ResolveRunKept(w, s);
    NextApart(w, s);
  }

  // What comes after request i starts behind it.
  lemma NextApart(w: Put, s: Spot)
    requires Kept(w, s) && s.i < |s.reqs|
    ensures 0 < |s.reqs[s.i].data| <= w.cap
    ensures s.i + 1 < |s.reqs| ==> s.reqs[s.i].End() <= s.reqs[s.i + 1].offset
  {
  }

  lemma ResolveRunGoing(w: Put, orig: seq<Request>, s: Spot)
    requires Going(w, orig, s) && Arrived(w, s) && s.c < w.End() && s.reqs[s.i].offset <= s.c
    ensures var (t, next) := ResolveRun(w, s);
            Going(w, orig, t) && (next == InFront ==> t.i < |t.reqs| && t.c < w.End() && t.c < t.reqs[t.i].offset)
  {
    hide Going, Updated, Remove, Insert, ResolveRun;
    MeetsHere(w, orig, s);
    var q := s.reqs[s.i];
    if q.state != Ip && (s.c < q.End() || (s.c == q.End() && |q.data| < w.cap)) {
      ResolveUpdate(w, s);
      UpdateGoing(w, orig, s);
    } else if q.state == Ip && s.c < q.End() {
      ResolveIp(w, s);
      if s.c == q.offset && w.End() >= q.End() {
        RemoveGoing(w, orig, s);
      } else if s.c == q.offset {
        BeheadGoing(w, orig, s);
      } else if w.End() >= q.End() {
        ShortenGoing(w, orig, s);
      } else {
        SplitGoing(w, orig, s);
      }
    } else {
      ResolvePass(w, s);
      PassGoing(w, orig, s);
    }
  }

  lemma MeetsHere(w: Put, orig: seq<Request>, s: Spot)
    requires Going(w, orig, s) && Arrived(w, s) && s.c < w.End() && s.reqs[s.i].offset <= s.c
    ensures Meets(w, s)
  {
    hide Shown, Trail;
  }

  // ---------------------------------------------------------------- the traversal

  ghost predicate GoingOrOver(w: Put, orig: seq<Request>, s: Spot)
  {
    Going(w, orig, s) || Over(w, orig, s)
  }

  lemma {:induction false} VisitRunGoing(w: Put, orig: seq<Request>, s: Spot, first: bool)
    requires Going(w, orig, s) && s.i < |s.reqs| && (s.p < 0 && !Inserts(w, s) ==> s.c <= s.reqs[s.i].End())
    ensures GoingOrOver(w, orig, VisitRun(w, s, first).0)
    decreases w.End() - s.c, first
  {
    hide Going, Over, ResolveRun, MergeRun, MergeDid, InsertRun;
    var a := InsertRun(w, s);
    var did, b := MergeDid(w, a), MergeRun(w, a);
    InsertRunGoing(w, orig, s);
    InsertedNear(w, orig, s);
    MergeRunGoing(w, orig, a);
    if did == 2 {
    } else if b.c < w.End() {
      if b.c < b.reqs[b.i].offset {
        AgainGoing(w, orig, s, first, b);
      } else {
        ResolveRunGoing(w, orig, b);
        var (d, next) := ResolveRun(w, b);
        if next == InFront {
          AgainGoing(w, orig, s, first, d);
        }
      }
    } else if did != 0 {
      MergedPast(w, orig, a);
    }
  }

  // With nothing inserted, the request is where it was.
  lemma InsertedNear(w: Put, orig: seq<Request>, s: Spot)
    requires Going(w, orig, s) && s.i < |s.reqs| && (s.p < 0 && !Inserts(w, s) ==> s.c <= s.reqs[s.i].End())
    ensures var a := InsertRun(w, s); a.i < |a.reqs| && (a.p < 0 ==> a.c <= a.reqs[a.i].End())
  {
    InsertRunGoing(w, orig, s);
    if Inserts(w, s) {
      InsertedMore(w, s);
    }
    hide Shown, Kept, Inserted;
  }

  lemma {:induction false} InsertedMore(w: Put, s: Spot)
    requires Inserts(w, s)
    ensures s.c < InsertRun(w, s).c && InsertRun(w, s).p >= 0
    decreases w.End() - s.c
  {
    hide Chunk, Insert;
    if Inserts(w, Inserted(w, s)) {
      InsertedMore(w, Inserted(w, s));
    }
  }

  // With everything placed, what is left of a merged request reaches further than the previous one.
  lemma MergedPast(w: Put, orig: seq<Request>, s: Spot)
    requires Going(w, orig, s) && s.i < |s.reqs| && s.c >= w.End() && MergeDid(w, s) == 1
    requires Going(w, orig, MergeRun(w, s))
    ensures var b := MergeRun(w, s); b.i < |b.reqs| && Going(w, orig, Spot(b.reqs, b.i + 1, b.i, b.c))
  {
    MergedReach(w, s);
    var b := MergeRun(w, s);
    NextApart(w, b);
    RightOn(b.reqs, b.i);
    hide Shown, MergeRun, MergeDid, TwoIp, InOrder, Sized, RightApart;
  }

  lemma MergedReach(w: Put, s: Spot)
    requires Kept(w, s) && Trail(w, s) && s.i < |s.reqs| && MergeDid(w, s) == 1
    ensures var b := MergeRun(w, s); s.p >= 0 && b.i < |b.reqs| && b.reqs[b.p].End() <= b.reqs[b.i].offset
  {
    hide Merged, Cut, NewDest, InOrder, TwoIp, Trail, Behead;
    var p, i := s.p, s.i;
    SizedPair(s.reqs, p, i, w.cap);
    OrderAt(s.reqs, p, i);
    MergedShape(s.reqs, p, i, w.cap);
    MergePair(s.reqs[p], s.reqs[i], w.cap);
    var d, k := NewDest(s.reqs[p], s.reqs[i], w.cap), Cut(s.reqs[p], s.reqs[i], w.cap);
    SomeCut(s.reqs[p], s.reqs[i], w.cap);
    TrimFacts(s.reqs, p, i, d, k, MergeRun(w, s).reqs);
  }

  lemma SomeCut(dest: Request, src: Request, cap: nat)
    requires Cut(dest, src, cap) > 0
    ensures src.offset <= dest.End()
  {
  }

  lemma {:induction false} AgainGoing(w: Put, orig: seq<Request>, s: Spot, first: bool, t: Spot)
    requires Going(w, orig, t) && t.i < |t.reqs| && t.c < w.End() && t.c < t.reqs[t.i].offset
    ensures GoingOrOver(w, orig, Again(w, s, first, t).0)
    decreases w.End() - s.c, first, 0
  {
    hide Going, Over, VisitRun;
    if s.c < t.c <= w.End() || (first && t.c == s.c) {
      VisitRunGoing(w, orig, t, false);
    }
  }

  lemma SkipGoing(w: Put, orig: seq<Request>, s: Spot)
    requires Going(w, orig, s) && s.i < |s.reqs| && s.c > s.reqs[s.i].End()
    ensures Going(w, orig, s.(i := s.i + 1))
  {
    NextApart(w, s);
    RightOn(s.reqs, s.i);
    hide Shown, TwoIp, Sized, RightApart;
  }

  lemma {:induction false} TraverseRunGoing(w: Put, orig: seq<Request>, s: Spot)
    requires GoingOrOver(w, orig, s)
    ensures GoingOrOver(w, orig, TraverseRun(w, s))
    decreases |s.reqs| - s.i
  {
    hide Going, Over, VisitRun;
    if s.i < |s.reqs| {
      NotOver(w, orig, s);
      if s.c > s.reqs[s.i].End() {
        SkipGoing(w, orig, s);
        TraverseRunGoing(w, orig, s.(i := s.i + 1));
      } else {
        var (t, stop) := VisitRun(w, s, true);
        VisitRunGoing(w, orig, s, true);
        if !stop && |t.reqs| - t.i < |s.reqs| - s.i {
          TraverseRunGoing(w, orig, t);
        }
      }
    }
  }

  lemma NotOver(w: Put, orig: seq<Request>, s: Spot)
    requires s.i < |s.reqs|
    ensures !Over(w, orig, s)
  {
  }

  // What the whole traversal shows.
  lemma TraverseShown(w: Put, orig: seq<Request>)
    requires w.data != [] && Kept(w, Spot(orig, 0, -1, w.off)) && !Hides(orig, w.off, w.cap)
    ensures var t := TraverseRun(w, Spot(orig, 0, -1, w.off));
            Shown(w, orig, t.reqs, t.c)
                && (t.c < w.End() && PastAll(t.reqs, t.c) ==> BackFrom(t.reqs, |t.reqs|, -1, t.c))
  {
    hide TraverseRun, Look, TwoIp, Sized, InOrder;
    StartGoing(w, orig);
    TraverseRunGoing(w, orig, Spot(orig, 0, -1, w.off));
    var t := TraverseRun(w, Spot(orig, 0, -1, w.off));
    if Going(w, orig, t) && t.c < w.End() && PastAll(t.reqs, t.c) {
      PastEnds(t.reqs, t.i, t.c);
    }
  }

  lemma PastEnds(reqs: seq<Request>, i: nat, c: nat)
    requires i <= |reqs| && BackFrom(reqs, i, -1, c) && RightApart(reqs, i) && PastAll(reqs, c)
    ensures BackFrom(reqs, |reqs|, -1, c)
  {
    forall j | i <= j < |reqs|
      ensures reqs[j].End() <= c
    {
      assert j < |reqs| - 1 ==> reqs[j].End() <= reqs[|reqs| - 1].offset;
    }
  }

  // ---------------------------------------------------------------- appending

  lemma {:induction false} AppendMoreShown(w: Put, orig: seq<Request>, reqs: seq<Request>, c: nat)
    requires 0 < w.cap && w.off <= c <= w.End() && Shown(w, orig, reqs, c) && BackFrom(reqs, |reqs|, -1, c)
    ensures Shown(w, orig, AppendMore(w, reqs, c), w.End())
    decreases w.End() - c
  {
    hide Insert, Chunk, Shown;
    if c < w.End() {
      ChunkSize(w, c);
      InsertShown(w, orig, reqs, |reqs|, c);
      AppendMoreShown(w, orig, Insert(reqs, |reqs|, Chunk(w, c)), Chunk(w, c).End());
    }
  }

  lemma AppendRunShown(w: Put, orig: seq<Request>, reqs: seq<Request>, c: nat)
    requires 0 < w.cap && w.off <= c < w.End() && Shown(w, orig, reqs, c) && BackFrom(reqs, |reqs|, -1, c)
    ensures Shown(w, orig, AppendRun(w, reqs, c), w.End())
  {
    hide AppendMore, Updated, Shown, Room;
    if Fills(w, reqs, c) {
      var l, rest := |reqs| - 1, w.data[c - w.off..];
      FillShown(w, orig, reqs, c);
      AppendMoreShown(w, orig, Updated(reqs, l, c, rest, w.cap), c + Room(reqs[l], c, |rest|, w.cap));
    } else {
      AppendMoreShown(w, orig, reqs, c);
    }
  }

  lemma FillShown(w: Put, orig: seq<Request>, reqs: seq<Request>, c: nat)
    requires 0 < w.cap && Fills(w, reqs, c) && Shown(w, orig, reqs, c) && BackFrom(reqs, |reqs|, -1, c)
    ensures var l, rest := |reqs| - 1, w.data[c - w.off..];
            var u, c' := Updated(reqs, l, c, rest, w.cap), c + Room(reqs[l], c, |rest|, w.cap);
            c' <= w.End() && Shown(w, orig, u, c') && BackFrom(u, |u|, -1, c')
  {
    var l, rest := |reqs| - 1, w.data[c - w.off..];
    var f, n, u := Fill(reqs[l], c, rest, w.cap), Room(reqs[l], c, |rest|, w.cap), Updated(reqs, l, c, rest, w.cap);
    UpdatedShown(w, orig, reqs, l, c);
    FillOne(reqs[l], c, rest, w.cap);
    assert forall k {:trigger u[k]} :: 0 <= k < |u| ==> Alike(u[k], if k == l then f else reqs[k]);
    hide Fill, Updated, One, SameBytes, Shown;
  }

  // ---------------------------------------------------------------- clean writes hide nothing

  // A clean write hides no byte.
  lemma CleanShows(reqs: seq<Request>, off: nat, n: nat, cap: nat)
    requires 0 < cap && Sized(reqs, cap) && Apart(reqs) && Clean(reqs, off, n, cap)
    ensures !Hides(reqs, off, cap)
  {
    hide Clean, TwoIp, Sized, Apart;
    forall k: nat | k < |reqs|
      ensures !TwoIp(reqs, k, off, cap)
    {
      if TwoIp(reqs, k, off, cap) {
        TwoUnclean(reqs, k, off, n, cap);
      }
    }
  }

  lemma TwoUnclean(reqs: seq<Request>, k: nat, off: nat, n: nat, cap: nat)
    requires 0 < cap && Sized(reqs, cap) && Apart(reqs) && k < |reqs| && TwoIp(reqs, k, off, cap)
    ensures !Clean(reqs, off, n, cap)
  {
    assert forall j {:trigger reqs[j]} :: 0 <= j < k - 1 ==> reqs[j].End() <= reqs[k - 1].offset < off;
    CleanSkip(reqs, 0, k - 1, off, off + n, cap);
    ComesThere(reqs, k, off, off + n, cap);
    hide TwoIp, Sized, Apart, CleanFrom, Advance;
    VisitUnfold(reqs, k, off, off, off + n, cap);
    VisitUnfold(reqs, k - 1, off, off, off + n, cap);
  }

  lemma ComesThere(reqs: seq<Request>, k: nat, off: nat, end: nat, cap: nat)
    requires 0 < cap && off <= end && k < |reqs| && TwoIp(reqs, k, off, cap) && Sized(reqs, cap)
    ensures 0 < k && Advance(reqs[k - 1], off, off, end, cap) == off == reqs[k - 1].End() && off <= reqs[k].End()
  {
  }
}
