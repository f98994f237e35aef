// What every write keeps of a request list, whether it is clean or not: the order of the
// requests, and that they hold every byte that was waiting or that the write placed.
module Keeping {
  import opened Medium
  import opened Flat
  import opened Queues
  import opened Requests
  import opened Sweep
  import opened Placing

  ghost predicate Hit(reqs: seq<Request>, x: nat)
  {
    exists k {:trigger reqs[k]} :: 0 <= k < |reqs| && reqs[k].Covers(x)
  }

  lemma HitShows(reqs: seq<Request>, x: nat)
    ensures Hit(reqs, x) <==> Look(reqs, x).Some?
  {
    LookMiss(reqs, 0, |reqs|, x);
  }

  // From cursor c on to cursor c': all that was held still is, but for bytes that the write has
  // yet to place, and so is what was placed in between.
  ghost predicate Holds(w: Put, was: seq<Request>, c: nat, now: seq<Request>, c': nat)
  {
    && c <= c'
    && forall x: nat {:trigger Hit(now, x)} :: (Hit(was, x) && !(c <= x < w.End())) || c <= x < c' ==> Hit(now, x)
  }

  lemma HoldsSelf(w: Put, reqs: seq<Request>, c: nat)
    ensures Holds(w, reqs, c, reqs, c)
  {
  }

  lemma HoldsTwice(w: Put, a: seq<Request>, c0: nat, b: seq<Request>, c1: nat, d: seq<Request>, c2: nat)
    requires Holds(w, a, c0, b, c1) && Holds(w, b, c1, d, c2)
    ensures Holds(w, a, c0, d, c2)
  {
    hide Hit;
  }

  // Holds wherever the traversal stands.
  ghost predicate Kept(w: Put, s: Spot)
  {
    && 0 < w.cap && w.off <= s.c <= w.End() && -1 <= s.p < s.i <= |s.reqs|
    && Sized(s.reqs, w.cap) && InOrder(s.reqs) && RightApart(s.reqs, s.i)
    && (s.c < w.End() && s.i > 0 ==> s.reqs[s.i - 1].offset <= s.c)
  }

  ghost predicate Follows(w: Put, s: Spot, t: Spot)
  {
    Kept(w, t) && Holds(w, s.reqs, s.c, t.reqs, t.c)
  }

  // ---------------------------------------------------------------- inserting

  lemma InsertHits(reqs: seq<Request>, i: nat, r: Request, x: nat)
    requires i <= |reqs|
    ensures Hit(Insert(reqs, i, r), x) <==> Hit(reqs, x) || r.Covers(x)
  {
    hide Insert;
    var s := Insert(reqs, i, r);
    if Hit(reqs, x) {
      var k :| 0 <= k < |reqs| && reqs[k].Covers(x);
      assert s[if k < i then k else k + 1] == reqs[k];
    }
  }

  lemma ChunkSize(w: Put, c: nat)
    requires w.off <= c < w.End() && 0 < w.cap
    ensures Chunk(w, c).offset == c && 0 < |Chunk(w, c).data| <= w.cap && Chunk(w, c).End() <= w.End()
  {
  }

  lemma InsertedKept(w: Put, s: Spot)
    requires Kept(w, s) && Inserts(w, s)
    ensures Follows(w, s, Inserted(w, s)) && Inserted(w, s).i < |Inserted(w, s).reqs|
  {
    hide Chunk, Insert, Hit;
    var r, t := Chunk(w, s.c), Inserted(w, s);
    ChunkSize(w, s.c);
    forall x: nat
      ensures Hit(t.reqs, x) <==> Hit(s.reqs, x) || r.Covers(x)
    {
      InsertHits(s.reqs, s.i, r, x);
    }
    assert s.i > 0 ==> forall k :: 0 <= k < s.i ==> s.reqs[k].offset <= s.reqs[s.i - 1].offset;
  }

  lemma {:induction false} InsertRunKept(w: Put, s: Spot)
    requires Kept(w, s) && s.i < |s.reqs|
    ensures var t := InsertRun(w, s); Follows(w, s, t) && t.i < |t.reqs|
    decreases w.End() - s.c
  {
    hide Kept, Holds, Inserted;
    if Inserts(w, s) {
      var t := Inserted(w, s);
      InsertedKept(w, s);
      InsertRunKept(w, t);
      HoldsTwice(w, s.reqs, s.c, t.reqs, t.c, InsertRun(w, t).reqs, InsertRun(w, t).c);
    } else {
      HoldsSelf(w, s.reqs, s.c);
    }
  }

  // ---------------------------------------------------------------- merging

  lemma SameHits(a: seq<Request>, b: seq<Request>, x: nat)
    requires SameBytes(a, b)
    ensures Hit(a, x) <==> Hit(b, x)
  {
    if Hit(a, x) {
      var k :| 0 <= k < |a| && a[k].Covers(x);
      assert Alike(a[k], b[k]);
    }
    if Hit(b, x) {
      var k :| 0 <= k < |b| && b[k].Covers(x);
      assert Alike(a[k], b[k]);
    }
  }

  lemma MergePairHits(dest: Request, src: Request, cap: nat, x: nat)
    requires 0 < |dest.data| <= cap && 0 < |src.data| <= cap && dest.offset <= src.offset
    ensures var d, k := NewDest(dest, src, cap), Cut(dest, src, cap);
            dest.Covers(x) || src.Covers(x) ==> d.Covers(x) || (k < |src.data| && Behead(src, k).Covers(x))
  {
    MergePair(dest, src, cap);
    hide NewDest, Cut;
    var d, k := NewDest(dest, src, cap), Cut(dest, src, cap);
    assert Or(One(d, x), if k < |src.data| then One(Behead(src, k), x) else None) == Or(One(dest, x), One(src, x));
  }

  lemma MergeHits(reqs: seq<Request>, p: nat, i: nat, cap: nat, x: nat)
    requires Sized(reqs, cap) && p < i < |reqs| && reqs[p].offset <= reqs[i].offset && Hit(reqs, x)
    ensures Hit(Merged(reqs, p, i, cap), x)
  {
    hide Merged, NewDest, Cut, Behead, Remove;
    var d, k, m := NewDest(reqs[p], reqs[i], cap), Cut(reqs[p], reqs[i], cap), Merged(reqs, p, i, cap);
    MergedShape(reqs, p, i, cap);
    MergePairHits(reqs[p], reqs[i], cap, x);
    var j :| 0 <= j < |reqs| && reqs[j].Covers(x);
    if k < |reqs[i].data| {
      var t := reqs[p := d][i := Behead(reqs[i], k)];
      SameHits(m, t, x);
      assert t[p] == d && t[i] == Behead(reqs[i], k) && (j != p && j != i ==> t[j] == reqs[j]);
    } else {
      var t := Remove(reqs[p := d], i);
      SameHits(m, t, x);
      assert t[p] == d && (j != p && j != i ==> t[if j < i then j else j - 1] == reqs[j]);
    }
  }

  lemma MergeOrder(reqs: seq<Request>, p: nat, i: nat, cap: nat)
    requires Sized(reqs, cap) && InOrder(reqs) && RightApart(reqs, i) && p < i < |reqs|
    ensures var m, k := Merged(reqs, p, i, cap), Cut(reqs[p], reqs[i], cap);
            && Sized(m, cap) && InOrder(m) && RightApart(m, i) && i <= |m| && m[i - 1].offset == reqs[i - 1].offset
            && (k < |reqs[i].data| ==> |m| == |reqs|)
  {
    var d, k, m := NewDest(reqs[p], reqs[i], cap), Cut(reqs[p], reqs[i], cap), Merged(reqs, p, i, cap);
    MergedShape(reqs, p, i, cap);
    MergePair(reqs[p], reqs[i], cap);
    hide Merged, NewDest, Cut, Remove;
    if k < |reqs[i].data| {
      TrimFacts(reqs, p, i, d, k, m);
      hide SameBytes;
      TrimOrder(reqs, p, i, d, m, cap);
    } else {
      FreeFacts(reqs, p, i, d, m);
      hide SameBytes;
      FreeOrder(reqs, p, i, d, m, cap);
    }
  }

  lemma TrimOrder(reqs: seq<Request>, p: nat, i: nat, d: Request, m: seq<Request>, cap: nat)
    requires Sized(reqs, cap) && InOrder(reqs) && RightApart(reqs, i) && p < i < |reqs| == |m|
    requires Alike(m[p], d) && d.offset == reqs[p].offset && 0 < |d.data| <= cap
    requires reqs[i].offset <= m[i].offset < m[i].End() == reqs[i].End()
    requires forall j {:trigger m[j]} :: 0 <= j < |m| && j != p && j != i ==> Alike(m[j], reqs[j])
    ensures Sized(m, cap) && InOrder(m) && RightApart(m, i) && m[i - 1].offset == reqs[i - 1].offset
  {
    assert forall j :: i < j < |reqs| ==> reqs[i].End() <= reqs[j].offset;
    assert forall j :: 0 <= j < |m| && j != i ==> m[j].offset == reqs[j].offset;
  }

  lemma FreeOrder(reqs: seq<Request>, p: nat, i: nat, d: Request, m: seq<Request>, cap: nat)
    requires Sized(reqs, cap) && InOrder(reqs) && RightApart(reqs, i) && p < i < |reqs| == |m| + 1
    requires Alike(m[p], d) && d.offset == reqs[p].offset && 0 < |d.data| <= cap
    requires forall k {:trigger m[k]} :: 0 <= k < i && k != p ==> Alike(m[k], reqs[k])
    requires forall k {:trigger m[k]} :: i <= k < |m| ==> Alike(m[k], reqs[k + 1])
    ensures Sized(m, cap) && InOrder(m) && RightApart(m, i) && m[i - 1].offset == reqs[i - 1].offset
  {
    assert forall j :: 0 <= j < i ==> m[j].offset == reqs[j].offset;
  }

  lemma MergeRunKept(w: Put, s: Spot)
    requires Kept(w, s) && s.i < |s.reqs|
    ensures var t := MergeRun(w, s);
            && Follows(w, s, t) && t.i == s.i && t.p == s.p && t.c == s.c
            && (MergeDid(w, s) != 2 ==> t.i < |t.reqs|)
  {
    hide Hit, Merged, Cut, Sized, InOrder, RightApart;
    if Merges(w, s) {
      SizedPair(s.reqs, s.p, s.i, w.cap);
      OrderAt(s.reqs, s.p, s.i);
      MergeOrder(s.reqs, s.p, s.i, w.cap);
      forall x: nat | Hit(s.reqs, x)
        ensures Hit(MergeRun(w, s).reqs, x)
      {
        MergeHits(s.reqs, s.p, s.i, w.cap, x);
      }
    }
  }

  lemma OrderAt(reqs: seq<Request>, i: nat, j: nat)
    requires InOrder(reqs) && i <= j < |reqs|
    ensures reqs[i].offset <= reqs[j].offset
  {
  }

  // ---------------------------------------------------------------- resolving an overlap

  lemma ReplaceHits(reqs: seq<Request>, i: nat, r: Request, x: nat)
    requires i < |reqs|
    ensures Hit(reqs, x) && !reqs[i].Covers(x) ==> Hit(reqs[i := r], x)
    ensures r.Covers(x) ==> Hit(reqs[i := r], x)
  {
    var s := reqs[i := r];
    if Hit(reqs, x) && !reqs[i].Covers(x) {
      var k :| 0 <= k < |reqs| && reqs[k].Covers(x);
      assert s[k] == reqs[k];
    }
    if r.Covers(x) {
      assert s[i].Covers(x);
    }
  }

  // Request i is another one now, in the same place.
  lemma ReplaceOrder(reqs: seq<Request>, i: nat, r: Request, s: seq<Request>, cap: nat)
    requires Sized(reqs, cap) && InOrder(reqs) && RightApart(reqs, i) && i < |reqs| && SameBytes(s, reqs[i := r])
    requires reqs[i].offset <= r.offset <= reqs[i].End() && (r.offset == reqs[i].offset || r.End() <= reqs[i].End())
    requires 0 < |r.data| <= cap
    ensures Sized(s, cap) && InOrder(s) && RightApart(s, i + 1) && s[i].offset == r.offset
    ensures r.End() <= reqs[i].End() ==> RightApart(s, i)
    ensures i > 0 ==> s[i - 1].offset == reqs[i - 1].offset
  {
    assert forall k :: 0 <= k < |s| ==> Alike(s[k], if k == i then r else reqs[k]);
    hide SameBytes;
    assert forall k :: i < k < |reqs| ==> reqs[i].End() <= reqs[k].offset;
  }

  // Request i takes the next bytes.
  lemma UpdateKept(w: Put, s: Spot)
    requires Kept(w, s) && Meets(w, s)
    requires var q := s.reqs[s.i]; s.c < q.End() || (s.c == q.End() && |q.data| < w.cap)
    ensures var q, rest := s.reqs[s.i], w.data[s.c - w.off..];
            Follows(w, s, Spot(Updated(s.reqs, s.i, s.c, rest, w.cap), s.i + 1, s.i, s.c + Room(q, s.c, |rest|, w.cap)))
  {
    var q, rest := s.reqs[s.i], w.data[s.c - w.off..];
    var f, n, u := Fill(q, s.c, rest, w.cap), Room(q, s.c, |rest|, w.cap), Updated(s.reqs, s.i, s.c, rest, w.cap);
    FillOne(q, s.c, rest, w.cap);
    hide Fill, Updated, Hit, One, SameBytes;
    ReplaceOrder(s.reqs, s.i, f, u, w.cap);
    forall x: nat
      ensures Hit(s.reqs, x) || s.c <= x < s.c + n ==> Hit(u, x)
    {
      SameHits(u, s.reqs[s.i := f], x);
      ReplaceHits(s.reqs, s.i, f, x);
    }
  }

  lemma RemoveHits(reqs: seq<Request>, i: nat, x: nat)
    requires i < |reqs| && Hit(reqs, x) && !reqs[i].Covers(x)
    ensures Hit(Remove(reqs, i), x)
  {
    hide Remove;
    var k :| 0 <= k < |reqs| && reqs[k].Covers(x);
    assert Remove(reqs, i)[if k < i then k else k - 1] == reqs[k];
  }

  lemma RemoveKept(w: Put, s: Spot)
    requires Kept(w, s) && Meets(w, s) && s.c == s.reqs[s.i].offset && s.reqs[s.i].End() <= w.End()
    ensures Follows(w, s, s.(reqs := Remove(s.reqs, s.i)))
  {
    hide Hit, Remove;
    forall x: nat | Hit(s.reqs, x) && !(s.c <= x < w.End())
      ensures Hit(Remove(s.reqs, s.i), x)
    {
      RemoveHits(s.reqs, s.i, x);
    }
  }

  // Request i loses bytes that the write has yet to place.
  lemma TrimKept(w: Put, s: Spot, r: Request)
    requires Kept(w, s) && Meets(w, s) && 0 < |r.data| <= w.cap && s.reqs[s.i].offset <= r.offset
             && r.End() <= s.reqs[s.i].End()
    requires forall x: nat :: s.reqs[s.i].Covers(x) && !(s.c <= x < w.End()) ==> r.Covers(x)
    ensures var t := s.reqs[s.i := r];
            && Sized(t, w.cap) && InOrder(t) && RightApart(t, s.i) && Holds(w, s.reqs, s.c, t, s.c)
            && (s.i > 0 ==> t[s.i - 1].offset == s.reqs[s.i - 1].offset)
  {
    hide Hit;
    ReplaceOrder(s.reqs, s.i, r, s.reqs[s.i := r], w.cap);
    forall x: nat | Hit(s.reqs, x) && !(s.c <= x < w.End())
      ensures Hit(s.reqs[s.i := r], x)
    {
      ReplaceHits(s.reqs, s.i, r, x);
    }
  }

  // Request i is split around the write.
  lemma SplitKept(w: Put, s: Spot)
    requires Kept(w, s) && Meets(w, s) && s.reqs[s.i].offset < s.c && w.End() < s.reqs[s.i].End()
    ensures var q := s.reqs[s.i];
            Follows(w, s, Spot(Insert(s.reqs[s.i := Shorten(q, s.c)], s.i + 1, Tail(q, w.End())), s.i + 1, s.p, s.c))
  {
    hide Hit, Insert;
    var q := s.reqs[s.i];
    var r, t := Shorten(q, s.c), Tail(q, w.End());
    var m := s.reqs[s.i := r];
    var n := Insert(m, s.i + 1, t);
    ReplaceOrder(s.reqs, s.i, r, m, w.cap);
    assert forall k :: s.i < k < |s.reqs| ==> q.End() <= s.reqs[k].offset;
    forall x: nat | Hit(s.reqs, x) && !(s.c <= x < w.End())
      ensures Hit(n, x)
    {
      ReplaceHits(s.reqs, s.i, r, x);
      InsertHits(m, s.i + 1, t, x);
    }
    SplitOrder(m, s.i, t, n, w.cap);
  }

  lemma SplitOrder(m: seq<Request>, i: nat, t: Request, n: seq<Request>, cap: nat)
    requires Sized(m, cap) && InOrder(m) && RightApart(m, i) && i < |m| && n == Insert(m, i + 1, t)
    requires m[i].End() <= t.offset && 0 < |t.data| <= cap && forall k {:trigger m[k]} :: i < k < |m| ==>
             t.End() <= m[k].offset
    ensures Sized(n, cap) && InOrder(n) && RightApart(n, i + 1) && n[i] == m[i]
  {
    hide Insert;
    assert forall k :: 0 <= k <= i ==> m[k].offset <= m[i].offset;
  }

  lemma ResolveRunKept(w: Put, s: Spot)
    requires Kept(w, s) && s.i < |s.reqs|
    ensures Follows(w, s, ResolveRun(w, s).0)
  {
    hide Hit, Updated, Remove, Insert, Holds, SameBytes, InOrder;
    HoldsSelf(w, s.reqs, s.c);
    if Meets(w, s) {
      var q, rest := s.reqs[s.i], w.data[s.c - w.off..];
      RightOn(s.reqs, s.i);
      if q.state != Ip && (s.c < q.End() || (s.c == q.End() && |q.data| < w.cap)) {
        UpdateKept(w, s);
      } else if q.state == Ip && s.c < q.End() {
        if s.c == q.offset && |rest| >= |q.data| {
          RemoveKept(w, s);
        } else if s.c == q.offset {
          TrimKept(w, s, Behead(q, |rest|));
        } else if s.c + |rest| >= q.End() {
          TrimKept(w, s, Shorten(q, s.c));
          RightOn(s.reqs[s.i := Shorten(q, s.c)], s.i);
        } else {
          SplitKept(w, s);
        }
      }
    }
  }

  lemma RightOn(reqs: seq<Request>, i: nat)
    requires RightApart(reqs, i)
    ensures RightApart(reqs, i + 1)
  {
  }

  // ---------------------------------------------------------------- the traversal

  lemma {:induction false} VisitRunKept(w: Put, s: Spot, first: bool)
    requires Kept(w, s) && s.i < |s.reqs|
    ensures Follows(w, s, VisitRun(w, s, first).0)
    decreases w.End() - s.c, first
  {
    hide Holds, ResolveRun, MergeRun, InsertRun, Sized, InOrder, RightApart;
    var a := InsertRun(w, s);
    var did, b := MergeDid(w, a), MergeRun(w, a);
    InsertRunKept(w, s);
    MergeRunKept(w, a);
    HoldsTwice(w, s.reqs, s.c, a.reqs, a.c, b.reqs, b.c);
    if did == 2 {
    } else if b.c < w.End() {
      if b.c < b.reqs[b.i].offset {
        AgainKept(w, s, first, b);
      } else {
        var (d, next) := ResolveRun(w, b);
        ResolveRunKept(w, b);
        HoldsTwice(w, s.reqs, s.c, b.reqs, b.c, d.reqs, d.c);
        if next == InFront {
          ResolvedInFront(w, b);
          AgainKept(w, s, first, d);
        }
      }
    } else {
      RightOn(b.reqs, b.i);
    }
  }

  lemma ResolvedInFront(w: Put, s: Spot)
    requires ResolveRun(w, s).1 == InFront
    ensures var t := ResolveRun(w, s).0; t.i < |t.reqs|
  {
    hide Updated, Remove;
  }

  lemma {:induction false} AgainKept(w: Put, s: Spot, first: bool, t: Spot)
    requires Kept(w, s) && Follows(w, s, t) && t.i < |t.reqs|
    ensures Follows(w, s, Again(w, s, first, t).0)
    decreases w.End() - s.c, first, 0
  {
    hide Holds, VisitRun, Sized, InOrder, RightApart;
    if s.c < t.c <= w.End() || (first && t.c == s.c) {
      VisitRunKept(w, t, false);
      var u := VisitRun(w, t, false).0;
      HoldsTwice(w, s.reqs, s.c, t.reqs, t.c, u.reqs, u.c);
    }
  }

  lemma {:induction false} TraverseRunKept(w: Put, s: Spot)
    requires Kept(w, s)
    ensures Follows(w, s, TraverseRun(w, s))
    decreases |s.reqs| - s.i
  {
    hide Holds, VisitRun, Sized, InOrder;
    HoldsSelf(w, s.reqs, s.c);
    if s.i >= |s.reqs| {
    } else if s.c > s.reqs[s.i].End() {
      TraverseRunKept(w, s.(i := s.i + 1));
    } else {
      var (t, stop) := VisitRun(w, s, true);
      VisitRunKept(w, s, true);
      if !stop && |t.reqs| - t.i < |s.reqs| - s.i {
        TraverseRunKept(w, t);
        var u := TraverseRun(w, t);
        HoldsTwice(w, s.reqs, s.c, t.reqs, t.c, u.reqs, u.c);
      }
    }
  }

  // ---------------------------------------------------------------- appending

  lemma {:induction false} AppendMoreKept(w: Put, reqs: seq<Request>, c: nat)
    requires Kept(w, Spot(reqs, |reqs|, -1, c))
    ensures var n := AppendMore(w, reqs, c); Sized(n, w.cap) && InOrder(n) && Holds(w, reqs, c, n, w.End())
    decreases w.End() - c
  {
    hide Insert, Chunk, Hit;
    if c < w.End() {
      var r := Chunk(w, c);
      var m := Insert(reqs, |reqs|, r);
      ChunkSize(w, c);
      assert reqs != [] ==> forall k :: 0 <= k < |reqs| ==> reqs[k].offset <= reqs[|reqs| - 1].offset;
      forall x: nat
        ensures Hit(m, x) <==> Hit(reqs, x) || r.Covers(x)
      {
        InsertHits(reqs, |reqs|, r, x);
      }
      AppendMoreKept(w, m, r.End());
      HoldsTwice(w, reqs, c, m, r.End(), AppendMore(w, m, r.End()), w.End());
    }
  }

  lemma AppendRunKept(w: Put, reqs: seq<Request>, c: nat)
    requires 0 < w.cap && w.off <= c <= w.End() && Sized(reqs, w.cap) && InOrder(reqs) && PastAll(reqs, c)
    ensures var n := AppendRun(w, reqs, c); Sized(n, w.cap) && InOrder(n) && Holds(w, reqs, c, n, w.End())
  {
    hide Hit, AppendMore, Updated, InOrder, Sized, Holds;
    var l := |reqs| - 1;
    if reqs != [] && c < w.End() && |reqs[l].data| < w.cap && c == reqs[l].End() && reqs[l].state != Ip {
      var rest := w.data[c - w.off..];
      var m, c' := Updated(reqs, l, c, rest, w.cap), c + Room(reqs[l], c, |rest|, w.cap);
      if l > 0 {
        OrderAt(reqs, l - 1, l);
      }
      UpdateKept(w, Spot(reqs, l, -1, c));
      AppendMoreKept(w, m, c');
      HoldsTwice(w, reqs, c, m, c', AppendMore(w, m, c'), w.End());
    } else {
      AppendMoreKept(w, reqs, c);
    }
  }
}
