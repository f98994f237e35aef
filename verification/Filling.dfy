// What becomes of requests that a write fills up: none of them goes on counting as partly filled,
// so a pass over full requests finds them all.
module Filling {
  import opened Medium
  import opened Flat
  import opened Queues
  import opened Requests
  import opened Sweep
  import opened Placing
  import opened Keeping

  lemma InsertShort(reqs: seq<Request>, i: nat, r: Request, cap: nat)
    requires i <= |reqs| && Short(reqs, cap) && |r.data| <= cap && (r.state == Partial ==> |r.data| < cap)
    ensures Short(Insert(reqs, i, r), cap)
  {
    hide Insert;
  }

  lemma RemoveShort(reqs: seq<Request>, i: nat, cap: nat)
    requires i < |reqs| && Short(reqs, cap)
    ensures Short(Remove(reqs, i), cap)
  {
    hide Remove;
  }

  lemma {:induction false} InsertRunShort(w: Put, s: Spot)
    requires Short(s.reqs, w.cap)
    ensures Short(InsertRun(w, s).reqs, w.cap)
    decreases w.End() - s.c
  {
    hide Insert, Short;
    if Inserts(w, s) {
      ChunkSize(w, s.c);
      InsertShort(s.reqs, s.i, Chunk(w, s.c), w.cap);
      InsertRunShort(w, Inserted(w, s));
    }
  }

  lemma MergeRunShort(w: Put, s: Spot)
    requires Short(s.reqs, w.cap)
    ensures Short(MergeRun(w, s).reqs, w.cap)
  {
    hide Merged;
    if Merges(w, s) {
      MergedShort(s.reqs, s.p, s.i, w.cap);
    }
  }

  lemma ResolveRunShort(w: Put, s: Spot)
    requires Short(s.reqs, w.cap)
    ensures Short(ResolveRun(w, s).0.reqs, w.cap)
  {
    hide Updated, Insert, Remove;
    if Meets(w, s) {
      var q, rest := s.reqs[s.i], w.data[s.c - w.off..];
      if q.state != Ip && (s.c < q.End() || (s.c == q.End() && |q.data| < w.cap)) {
        UpdatedShort(s.reqs, s.i, s.c, rest, w.cap);
      } else if q.state == Ip && s.c < q.End() {
        RemoveShort(s.reqs, s.i, w.cap);
        if q.offset < s.c && s.c + |rest| < q.End() {
          InsertShort(s.reqs[s.i := Shorten(q, s.c)], s.i + 1, Tail(q, w.End()), w.cap);
        }
      }
    }
  }

  lemma {:induction false} VisitRunShort(w: Put, s: Spot, first: bool)
    requires Short(s.reqs, w.cap)
    ensures Short(VisitRun(w, s, first).0.reqs, w.cap)
    decreases w.End() - s.c, first
  {
    hide ResolveRun, MergeRun, InsertRun, Short;
    var a := InsertRun(w, s);
    var did, b := MergeDid(w, a), MergeRun(w, a);
    InsertRunShort(w, s);
    MergeRunShort(w, a);
    if did != 2 && b.c < w.End() {
      if b.i < |b.reqs| && b.c < b.reqs[b.i].offset {
        AgainShort(w, s, first, b);
      } else {
        ResolveRunShort(w, b);
        AgainShort(w, s, first, ResolveRun(w, b).0);
      }
    }
  }

  lemma {:induction false} AgainShort(w: Put, s: Spot, first: bool, t: Spot)
    requires Short(t.reqs, w.cap)
    ensures Short(Again(w, s, first, t).0.reqs, w.cap)
    decreases w.End() - s.c, first, 0
  {
    hide VisitRun, Short;
    if s.c < t.c <= w.End() || (first && t.c == s.c) {
      VisitRunShort(w, t, false);
    }
  }

  lemma {:induction false} TraverseRunShort(w: Put, s: Spot)
    requires Short(s.reqs, w.cap)
    ensures Short(TraverseRun(w, s).reqs, w.cap)
    decreases |s.reqs| - s.i
  {
    hide VisitRun, Short;
    if s.i < |s.reqs| {
      if s.c > s.reqs[s.i].End() {
        TraverseRunShort(w, s.(i := s.i + 1));
      } else {
        var (t, stop) := VisitRun(w, s, true);
        VisitRunShort(w, s, true);
        if !stop && |t.reqs| - t.i < |s.reqs| - s.i {
          TraverseRunShort(w, t);
        }
      }
    }
  }

  lemma {:induction false} AppendMoreShort(w: Put, reqs: seq<Request>, c: nat)
    requires Short(reqs, w.cap)
    ensures Short(AppendMore(w, reqs, c), w.cap)
    decreases w.End() - c
  {
    hide Insert, Short;
    if w.off <= c < w.End() && 0 < w.cap {
      ChunkSize(w, c);
      InsertShort(reqs, |reqs|, Chunk(w, c), w.cap);
      AppendMoreShort(w, Insert(reqs, |reqs|, Chunk(w, c)), Chunk(w, c).End());
    }
  }

  lemma AppendRunShort(w: Put, reqs: seq<Request>, c: nat)
    requires Short(reqs, w.cap)
    ensures Short(AppendRun(w, reqs, c), w.cap)
  {
    hide AppendMore, Updated, Short, Room;
    if Fills(w, reqs, c) {
      var l, rest := |reqs| - 1, w.data[c - w.off..];
      UpdatedShort(reqs, l, c, rest, w.cap);
      AppendMoreShort(w, Updated(reqs, l, c, rest, w.cap), c + Room(reqs[l], c, |rest|, w.cap));
    } else {
      AppendMoreShort(w, reqs, c);
    }
  }

  // No write leaves a full request that counts as partly filled, clean or not.
  lemma {:induction false} PlacedShort(w: Put, reqs: seq<Request>)
    requires Short(reqs, w.cap)
    ensures Short(Placed(w, reqs), w.cap)
    decreases |reqs|
  {
    hide AppendRun, TraverseRun, Short;
    AppendRunShort(w, reqs, w.off);
    if !PastAll(reqs, w.off) {
      var t := TraverseRun(w, Spot(reqs, 0, -1, w.off));
      TraverseRunShort(w, Spot(reqs, 0, -1, w.off));
      AppendRunShort(w, t.reqs, t.c);
      if t.c == w.off && |t.reqs| < |reqs| {
        PlacedShort(w, t.reqs);
      }
    }
  }
}
