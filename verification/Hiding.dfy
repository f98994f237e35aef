// How a merge in passing hides a byte of the write: two requests bound for the index partition, the
// second one starting where the write does.
module Hiding {
  import opened Medium
  import opened Flat
  import opened Queues
  import opened Requests
  import opened Sweep
  import opened Placing
  import opened Keeping

  // The first k requests hold the bytes they held.
  ghost predicate Fixed(was: seq<Request>, k: nat, now: seq<Request>)
  {
    k <= |was| && k <= |now| && forall j {:trigger now[j]} :: 0 <= j < k ==> Alike(was[j], now[j])
  }

  lemma FixedTwice(a: seq<Request>, k: nat, b: seq<Request>, c: seq<Request>)
    requires Fixed(a, k, b) && Fixed(b, k, c)
    ensures Fixed(a, k, c)
  {
    forall j | 0 <= j < k
      ensures Alike(a[j], c[j])
    {
      assert Alike(a[j], b[j]);
    }
  }

  lemma FixedSame(a: seq<Request>, k: nat, b: seq<Request>, c: seq<Request>)
    requires k <= |a| && k <= |b| && SameBytes(c, b) && forall j {:trigger b[j]} :: 0 <= j < k ==> b[j] == a[j]
    ensures Fixed(a, k, c)
  {
    forall j | 0 <= j < k
      ensures Alike(a[j], c[j])
    {
      assert Alike(c[j], b[j]);
    }
  }

  // The traversal is past request k, and placed something there.
  ghost predicate Past(w: Put, s: Spot, k: nat)
  {
    k <= s.p < s.i && w.off < s.c
  }

  lemma {:induction false} InsertRunFixed(w: Put, s: Spot, k: nat)
    requires k <= s.i <= |s.reqs| && (Past(w, s, k) || Inserts(w, s))
    ensures var t := InsertRun(w, s); Past(w, t, k) && Fixed(s.reqs, k, t.reqs)
    decreases w.End() - s.c
  {
    hide Insert, Chunk;
    if Inserts(w, s) {
      var t := Inserted(w, s);
      InsertRunFixed(w, t, k);
      FixedTwice(s.reqs, k, t.reqs, InsertRun(w, t).reqs);
    }
  }

  lemma MergeRunFixed(w: Put, s: Spot, k: nat)
    requires Past(w, s, k) && k <= |s.reqs|
    ensures Fixed(s.reqs, k, MergeRun(w, s).reqs)
  {
    if Merges(w, s) {
      var p, i := s.p, s.i;
      var d, c, m := NewDest(s.reqs[p], s.reqs[i], w.cap), Cut(s.reqs[p], s.reqs[i], w.cap),
          Merged(s.reqs, p, i, w.cap);
      MergedShape(s.reqs, p, i, w.cap);
      hide Merged, NewDest, Cut, Remove, Behead, SameBytes;
      if c < |s.reqs[i].data| {
        FixedSame(s.reqs, k, s.reqs[p := d][i := Behead(s.reqs[i], c)], m);
      } else if |s.reqs[i].data| > 0 {
        FixedSame(s.reqs, k, Remove(s.reqs[p := d], i), m);
      } else {
        MergedEmpty(s.reqs, p, i, w.cap);
      }
    }
  }

  lemma MergedEmpty(reqs: seq<Request>, p: nat, i: nat, cap: nat)
    requires p < i < |reqs| && |reqs[p].data| <= cap && reqs[i].data == []
    ensures forall k: nat :: k <= p ==> Fixed(reqs, k, Merged(reqs, p, i, cap))
  {
    hide Remove;
  }

  lemma ResolveRunFixed(w: Put, s: Spot, k: nat)
    requires Past(w, s, k) && k <= |s.reqs|
    ensures var t := ResolveRun(w, s).0; Past(w, t, k) && Fixed(s.reqs, k, t.reqs)
  {
    hide Updated, Insert, Remove, SameBytes;
    if Meets(w, s) {
      var q, rest := s.reqs[s.i], w.data[s.c - w.off..];
      if q.state != Ip && (s.c < q.End() || (s.c == q.End() && |q.data| < w.cap)) {
        var f := Fill(q, s.c, rest, w.cap);
        FixedSame(s.reqs, k, s.reqs[s.i := f], Updated(s.reqs, s.i, s.c, rest, w.cap));
      }
    }
  }

  lemma {:induction false} VisitRunFixed(w: Put, s: Spot, first: bool, k: nat)
    requires k <= s.i <= |s.reqs| && (Past(w, s, k) || Inserts(w, s))
    ensures var t := VisitRun(w, s, first).0; Past(w, t, k) && Fixed(s.reqs, k, t.reqs)
    decreases w.End() - s.c, first
  {
    hide Fixed, InsertRun, ResolveRun, Merged;
    var a := InsertRun(w, s);
    var did, b := MergeDid(w, a), MergeRun(w, a);
    InsertRunFixed(w, s, k);
    FixedLength(s.reqs, k, a.reqs);
    MergeRunFixed(w, a, k);
    FixedLength(a.reqs, k, b.reqs);
    FixedTwice(s.reqs, k, a.reqs, b.reqs);
    if did == 2 || b.c >= w.End() {
    } else if b.i < |b.reqs| && b.c < b.reqs[b.i].offset {
      AgainFixed(w, s, first, b, k);
    } else {
      var (d, next) := ResolveRun(w, b);
      ResolveRunFixed(w, b, k);
      FixedLength(b.reqs, k, d.reqs);
      FixedTwice(s.reqs, k, b.reqs, d.reqs);
      if next == InFront {
        ResolvedIndex(w, b);
        AgainFixed(w, s, first, d, k);
      }
    }
  }

  lemma ResolvedIndex(w: Put, s: Spot)
    requires ResolveRun(w, s).1 == InFront
    ensures var t := ResolveRun(w, s).0; t.i <= |t.reqs|
  {
    hide Updated, Remove;
  }

  lemma FixedLength(was: seq<Request>, k: nat, now: seq<Request>)
    requires Fixed(was, k, now)
    ensures k <= |was| && k <= |now|
  {
  }

  lemma {:induction false} AgainFixed(w: Put, s: Spot, first: bool, t: Spot, k: nat)
    requires Past(w, t, k) && t.i <= |t.reqs| && Fixed(s.reqs, k, t.reqs)
    ensures var u := Again(w, s, first, t).0; Past(w, u, k) && Fixed(s.reqs, k, u.reqs)
    decreases w.End() - s.c, first, 0
  {
    hide Fixed, VisitRun;
    if s.c < t.c <= w.End() || (first && t.c == s.c) {
      VisitRunFixed(w, t, false, k);
      FixedTwice(s.reqs, k, t.reqs, VisitRun(w, t, false).0.reqs);
    }
  }

  lemma {:induction false} TraverseRunFixed(w: Put, s: Spot, k: nat)
    requires k <= |s.reqs| && k <= s.i
    requires Past(w, s, k) || (Inserts(w, s) && s.c <= s.reqs[s.i].End())
    ensures var t := TraverseRun(w, s); Past(w, t, k) && Fixed(s.reqs, k, t.reqs)
    decreases |s.reqs| - s.i
  {
    hide VisitRun;
    if s.i < |s.reqs| {
      if s.c > s.reqs[s.i].End() {
        TraverseRunFixed(w, s.(i := s.i + 1), k);
      } else {
        var (t, stop) := VisitRun(w, s, true);
        VisitRunFixed(w, s, true, k);
        if !stop && |t.reqs| - t.i < |s.reqs| - s.i {
          TraverseRunFixed(w, t, k);
          FixedTwice(s.reqs, k, t.reqs, TraverseRun(w, t).reqs);
        }
      }
    }
  }

  lemma {:induction false} AppendMoreFixed(w: Put, reqs: seq<Request>, c: nat, k: nat)
    requires k <= |reqs|
    ensures Fixed(reqs, k, AppendMore(w, reqs, c))
    decreases w.End() - c
  {
    hide Insert, Chunk;
    if w.off <= c < w.End() && 0 < w.cap {
      var r := Chunk(w, c);
      ChunkSize(w, c);
      AppendMoreFixed(w, Insert(reqs, |reqs|, r), r.End(), k);
      FixedTwice(reqs, k, Insert(reqs, |reqs|, r), AppendMore(w, Insert(reqs, |reqs|, r), r.End()));
    }
  }

  lemma AppendRunFixed(w: Put, reqs: seq<Request>, c: nat, k: nat)
    requires k < |reqs|
    ensures Fixed(reqs, k, AppendRun(w, reqs, c))
  {
    hide AppendMore, Updated, SameBytes, Fixed;
    var l := |reqs| - 1;
    AppendMoreFixed(w, reqs, c, k);
    if w.off <= c < w.End() && |reqs[l].data| < w.cap && c == reqs[l].End() && reqs[l].state != Ip {
      var rest := w.data[c - w.off..];
      var m := Updated(reqs, l, c, rest, w.cap);
      FixedSame(reqs, k, reqs[l := Fill(reqs[l], c, rest, w.cap)], m);
      FixedLength(reqs, k, m);
      AppendMoreFixed(w, m, c + Room(reqs[l], c, |rest|, w.cap), k);
      FixedTwice(reqs, k, m, AppendMore(w, m, c + Room(reqs[l], c, |rest|, w.cap)));
    }
  }

  // Requests that end before the write are skipped.
  lemma {:induction false} SkippedTo(w: Put, reqs: seq<Request>, j: nat, k: nat)
    requires j <= k <= |reqs| && forall i {:trigger reqs[i]} :: j <= i < k ==> reqs[i].End() < w.off
    ensures TraverseRun(w, Spot(reqs, j, -1, w.off)) == TraverseRun(w, Spot(reqs, k, -1, w.off))
    decreases k - j
  {
    if j < k {
      TraverseSkip(w, Spot(reqs, j, -1, w.off));
      SkippedTo(w, reqs, j + 1, k);
    }
  }

  // The one that ends where the write starts is passed by.
  lemma PassedBy(w: Put, reqs: seq<Request>, k: nat)
    requires 0 < k < |reqs| && reqs[k - 1].End() == w.off < w.End() && reqs[k - 1].state == Ip
    requires 0 < |reqs[k - 1].data| <= w.cap
    ensures TraverseRun(w, Spot(reqs, k - 1, -1, w.off)) == TraverseRun(w, Spot(reqs, k, k - 1, w.off))
  {
    var s, t := Spot(reqs, k - 1, -1, w.off), Spot(reqs, k, k - 1, w.off);
    InsertDone(w, s);
    hide Updated, Remove, Insert;
    assert ResolveRun(w, s) == (t, GoOn);
    hide ResolveRun, InsertRun;
    VisitMeets(w, s, true, s, t, GoOn);
    TraverseVisit(w, s, t, false);
  }

  // The merge, and all that follows it.
  lemma MergedThenFixed(w: Put, reqs: seq<Request>, k: nat)
    requires Sized(reqs, w.cap) && Apart(reqs) && k < |reqs| && TwoIp(reqs, k, w.off, w.cap) && w.data != []
    ensures var t := TraverseRun(w, Spot(reqs, k, k - 1, w.off));
            Past(w, t, k) && Fixed(Merged(reqs, k - 1, k, w.cap), k, t.reqs)
  {
    hide Merged, Cut, VisitRun, Again, ResolveRun, InsertRun;
    var s := Spot(reqs, k, k - 1, w.off);
    var b := MergeRun(w, s);
    SizedPair(reqs, k - 1, k, w.cap);
    InsertDone(w, s);
    MergedAhead(w, reqs, k);
    if MergeDid(w, s) == 2 {
      VisitFreed(w, s, true);
      TraverseVisit(w, s, b, false);
      TraverseRunFixed(w, b, k);
    } else {
      VisitBehind(w, s, true, b);
      VisitRunFixed(w, b, false, k);
      var (t, stop) := VisitRun(w, b, false);
      TraverseVisit(w, s, t, stop);
      GoesOnFixed(w, s, t, stop, k, b.reqs);
    }
  }

  lemma GoesOnFixed(w: Put, s: Spot, t: Spot, stop: bool, k: nat, was: seq<Request>)
    requires s.i < |s.reqs| && s.c <= s.reqs[s.i].End() && (t, stop) == VisitRun(w, s, true)
    requires Past(w, t, k) && Fixed(was, k, t.reqs)
    ensures var u := TraverseRun(w, s); Past(w, u, k) && Fixed(was, k, u.reqs)
  {
    hide VisitRun;
    if !stop && |t.reqs| - t.i < |s.reqs| - s.i {
      TraverseRunFixed(w, t, k);
      FixedTwice(was, k, t.reqs, TraverseRun(w, t).reqs);
    }
  }

  // After it the write stands in front of what is left, and goes there.
  lemma MergedAhead(w: Put, reqs: seq<Request>, k: nat)
    requires Sized(reqs, w.cap) && Apart(reqs) && k < |reqs| && TwoIp(reqs, k, w.off, w.cap) && w.data != []
    ensures var s := Spot(reqs, k, k - 1, w.off);
            var b := MergeRun(w, s);
            && 0 < MergeDid(w, s) && b.i == k < |b.reqs| && Inserts(w, b) && b.c == w.off <= b.reqs[k].End()
            && (if MergeDid(w, s) == 2 then |b.reqs| == |reqs| - 1 else |b.reqs| == |reqs|)
  {
    hide Merged, NewDest, Remove, Cut, Sized, Apart, TwoIp, SameBytes, PassOn;
    TwoIpCut(reqs, k, w.off, w.cap);
    var dest, src := reqs[k - 1], reqs[k];
    MergedShape(reqs, k - 1, k, w.cap);
    var d, c, m := NewDest(dest, src, w.cap), Cut(dest, src, w.cap), Merged(reqs, k - 1, k, w.cap);
    if c < |src.data| {
      TrimFacts(reqs, k - 1, k, d, c, m);
    } else {
      FreeFacts(reqs, k - 1, k, d, m);
    }
  }

  lemma TwoIpCut(reqs: seq<Request>, k: nat, off: nat, cap: nat)
    requires Sized(reqs, cap) && Apart(reqs) && k < |reqs| && TwoIp(reqs, k, off, cap)
    ensures 0 < k && 0 < |reqs[k - 1].data| <= cap && reqs[k].offset == off < reqs[k].End()
    ensures var c := Cut(reqs[k - 1], reqs[k], cap);
            0 < c && (c >= |reqs[k].data| ==> k + 1 < |reqs| && off < reqs[k + 1].offset <= reqs[k + 1].End())
  {
    if k + 1 < |reqs| {
      assert reqs[k].End() <= reqs[k + 1].offset;
    }
  }

  lemma MergedReaches(reqs: seq<Request>, k: nat, off: nat, cap: nat)
    requires Sized(reqs, cap) && Apart(reqs) && k < |reqs| && TwoIp(reqs, k, off, cap)
    ensures var m := Merged(reqs, k - 1, k, cap); k <= |m| && m[k - 1].Covers(off)
  {
    hide Merged, NewDest, Remove;
    var dest, src := reqs[k - 1], reqs[k];
    MergedShape(reqs, k - 1, k, cap);
    UnluckyReach(dest, src, cap);
    MergePair(dest, src, cap);
    var d, c, m := NewDest(dest, src, cap), Cut(dest, src, cap), Merged(reqs, k - 1, k, cap);
    if c < |src.data| {
      TrimFacts(reqs, k - 1, k, d, c, m);
    } else {
      FreeFacts(reqs, k - 1, k, d, m);
    }
  }

  lemma FixedLook(m: seq<Request>, k: nat, n: seq<Request>, x: nat)
    requires Fixed(m, k, n) && 0 < k && m[k - 1].Covers(x)
    ensures Look(n, x) == Look(m, x)
  {
    hide LookIn;
    LookSplit(m, 0, k, |m|, x);
    LookSplit(n, 0, k, |n|, x);
    LookSame(n, m, 0, 0, k, x);
    LookMiss(m, 0, k, x);
  }

  // What the whole write leaves in front of request k is what the merge left there.
  lemma PlacedFixed(w: Put, reqs: seq<Request>, k: nat)
    requires Sized(reqs, w.cap) && Apart(reqs) && k < |reqs| && TwoIp(reqs, k, w.off, w.cap) && w.data != []
    ensures Fixed(Merged(reqs, k - 1, k, w.cap), k, Placed(w, reqs))
  {
    hide Merged, TraverseRun, AppendRun, TwoIp;
    NotPastAll(reqs, k, w.off, w.cap);
    SkippedTo(w, reqs, 0, k - 1);
    PassedBy(w, reqs, k);
    MergedThenFixed(w, reqs, k);
    var t := TraverseRun(w, Spot(reqs, 0, -1, w.off));
    TraverseInside(w, Spot(reqs, 0, -1, w.off), k);
    if t.c < w.End() && PastAll(t.reqs, t.c) {
      AppendRunFixed(w, t.reqs, t.c, k);
      FixedTwice(Merged(reqs, k - 1, k, w.cap), k, t.reqs, AppendRun(w, t.reqs, t.c));
    }
  }

  lemma NotPastAll(reqs: seq<Request>, k: nat, off: nat, cap: nat)
    requires Sized(reqs, cap) && Apart(reqs) && k < |reqs| && TwoIp(reqs, k, off, cap)
    ensures !PastAll(reqs, off) && 0 < k && reqs[k - 1].End() == off && reqs[k - 1].state == Ip
    ensures forall i {:trigger reqs[i]} :: 0 <= i < k - 1 ==> reqs[i].End() < off
  {
    assert k < |reqs| - 1 ==> reqs[k].End() <= reqs[|reqs| - 1].offset;
  }

  // A traversal ends inside the list.
  lemma TraverseInside(w: Put, s: Spot, k: nat)
    requires Kept(w, s) && Past(w, TraverseRun(w, s), k)
    ensures k < |TraverseRun(w, s).reqs|
  {
    hide TraverseRun;
    TraverseRunKept(w, s);
  }

  // The second of two index partition requests side by side starts where the write does and is
  // merged into the first one, which then hides the first byte of the write: the old one shows.
  lemma HiddenByMerge(w: Put, reqs: seq<Request>, k: nat)
    requires Sized(reqs, w.cap) && Apart(reqs) && k < |reqs| && TwoIp(reqs, k, w.off, w.cap) && w.data != []
    ensures Look(Placed(w, reqs), w.off) == Look(reqs, w.off) == One(reqs[k], w.off)
  {
    hide LookIn, Merged, Placed, TwoIp, Look, Fixed;
    NotPastAll(reqs, k, w.off, w.cap);
    PlacedFixed(w, reqs, k);
    MergedReaches(reqs, k, w.off, w.cap);
    FixedLook(Merged(reqs, k - 1, k, w.cap), k, Placed(w, reqs), w.off);
    TwoIpMeets(reqs, k, w.off, w.cap);
    MergeLook(reqs, k, w.cap, w.off);
    LookHit(reqs, k, w.off);
  }

  lemma TwoIpMeets(reqs: seq<Request>, k: nat, off: nat, cap: nat)
    requires Sized(reqs, cap) && Apart(reqs) && k < |reqs| && TwoIp(reqs, k, off, cap)
    ensures 0 < k && reqs[k].Covers(off) && reqs[k - 1].offset <= reqs[k].offset
  {
  }
}
