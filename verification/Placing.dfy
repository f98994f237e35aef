// What a write leaves of a request list: the traversal as a function.
module Placing {
  import opened Medium
  import opened Flat
  import opened Queues
  import opened Requests
  import opened Sweep

  // A write of `data` to offset `off`, with cache blocks of size `cap`.
  datatype Put = Put(off: nat, data: seq<byte>, cap: nat)
  {
    function End(): nat
    {
      off + |data|
    }
  }

  // Where the traversal stands: at request i of a list, with the previous one at p or -1, and
  // the cursor at c.
  datatype Spot = Spot(reqs: seq<Request>, i: nat, p: int, c: nat)

  // How the traversal goes on after an overlap is resolved: with the next request, with the
  // next request even if nothing is left to place, or by inserting in front of this one.
  datatype Next = GoOn | MergeOn | InFront

  // The state of a new request.
  function NewState(n: nat, ip: bool, cap: nat): State
  {
    if ip then Ip else if n == cap then Dp else Partial
  }

  // Nothing in the list reaches beyond c.
  predicate PastAll(reqs: seq<Request>, c: nat)
  {
    reqs == [] || reqs[|reqs| - 1].End() <= c
  }

  // The next bytes of the write, as a new request.
  function Chunk(w: Put, c: nat): Request
    requires w.off <= c < w.End() && 0 < w.cap
  {
    var n := Min(w.End() - c, w.cap);
    Request(c, w.data[c - w.off..][..n], NewState(n, false, w.cap))
  }

  // There are bytes left to place in front of request i.
  predicate Inserts(w: Put, s: Spot)
  {
    0 < w.cap && w.off <= s.c < w.End() && s.i < |s.reqs| && s.c < s.reqs[s.i].offset
  }

  function Inserted(w: Put, s: Spot): (t: Spot)
    requires Inserts(w, s)
    ensures s.c < t.c <= w.End()
  {
    Spot(Insert(s.reqs, s.i, Chunk(w, s.c)), s.i + 1, s.i, Chunk(w, s.c).End())
  }

  function InsertRun(w: Put, s: Spot): (t: Spot)
    ensures s.c <= t.c && (s.c <= w.End() ==> t.c <= w.End())
    decreases w.End() - s.c
  {
    if Inserts(w, s) then InsertRun(w, Inserted(w, s)) else s
  }

  predicate Merges(w: Put, s: Spot)
  {
    0 <= s.p < s.i < |s.reqs| && |s.reqs[s.p].data| <= w.cap
  }

  // How much of request i merging leaves: all, a part, nothing.
  function MergeDid(w: Put, s: Spot): nat
  {
    if !Merges(w, s) then 0
    else
      var k := Cut(s.reqs[s.p], s.reqs[s.i], w.cap);
      if k == 0 then 0 else if k < |s.reqs[s.i].data| then 1 else 2
  }

  function MergeRun(w: Put, s: Spot): Spot
  {
    if Merges(w, s) then s.(reqs := Merged(s.reqs, s.p, s.i, w.cap)) else s
  }

  // Request i meets the cursor.
  predicate Meets(w: Put, s: Spot)
  {
    w.off <= s.c < w.End() && s.i < |s.reqs| && s.reqs[s.i].offset <= s.c && |s.reqs[s.i].data| <= w.cap
  }

  function ResolveRun(w: Put, s: Spot): (Spot, Next)
  {
    if !Meets(w, s) then (s, GoOn)
    else
      var q, rest := s.reqs[s.i], w.data[s.c - w.off..];
      if q.state != Ip && (s.c < q.End() || (s.c == q.End() && |q.data| < w.cap)) then
        (Spot(Updated(s.reqs, s.i, s.c, rest, w.cap), s.i + 1, s.i, s.c + Room(q, s.c, |rest|, w.cap)), MergeOn)
      else if q.state == Ip && s.c < q.End() then
        if s.c == q.offset && |rest| >= |q.data| then (s.(reqs := Remove(s.reqs, s.i)), GoOn)
        else if s.c == q.offset then (s.(reqs := s.reqs[s.i := Behead(q, |rest|)]), InFront)
        else if s.c + |rest| >= q.End() then (Spot(s.reqs[s.i := Shorten(q, s.c)], s.i + 1, s.i, s.c), GoOn)
        else (Spot(Insert(s.reqs[s.i := Shorten(q, s.c)], s.i + 1, Tail(q, w.End())), s.i + 1, s.p, s.c), InFront)
      else (Spot(s.reqs, s.i + 1, s.i, s.c), GoOn)
  }

  // One request that is not skipped; the answer says whether the write is complete.
  function VisitRun(w: Put, s: Spot, first: bool): (Spot, bool)
    decreases w.End() - s.c, first
  {
    var a := InsertRun(w, s);
    var did, b := MergeDid(w, a), MergeRun(w, a);
    if did == 2 then (b, false)
    else if b.c < w.End() then
      if b.i < |b.reqs| && b.c < b.reqs[b.i].offset then Again(w, s, first, b)
      else
        var (d, next) := ResolveRun(w, b);
        if next == InFront then Again(w, s, first, d) else (d, false)
    else if did == 0 then (b, true)
    else (Spot(b.reqs, b.i + 1, b.i, b.c), false)
  }

  // Once more in front of the same request, which now starts behind the cursor.
  function Again(w: Put, s: Spot, first: bool, t: Spot): (Spot, bool)
    decreases w.End() - s.c, first, 0
  {
    if s.c < t.c <= w.End() || (first && t.c == s.c) then VisitRun(w, t, false) else (t, false)
  }

  function TraverseRun(w: Put, s: Spot): Spot
    decreases |s.reqs| - s.i
  {
    if s.i >= |s.reqs| then s
    else if s.c > s.reqs[s.i].End() then TraverseRun(w, s.(i := s.i + 1))
    else
      var (t, stop) := VisitRun(w, s, true);
      if !stop && |t.reqs| - t.i < |s.reqs| - s.i then TraverseRun(w, t) else t
  }

  // The last request takes the next bytes.
  predicate Fills(w: Put, reqs: seq<Request>, c: nat)
  {
    var l := |reqs| - 1;
    reqs != [] && w.off <= c < w.End() && |reqs[l].data| < w.cap && c == reqs[l].End() && reqs[l].state != Ip
  }

  // Behind the last request, after filling that up.
  function AppendRun(w: Put, reqs: seq<Request>, c: nat): seq<Request>
  {
    if Fills(w, reqs, c) then
      var l, rest := |reqs| - 1, w.data[c - w.off..];
      AppendMore(w, Updated(reqs, l, c, rest, w.cap), c + Room(reqs[l], c, |rest|, w.cap))
    else AppendMore(w, reqs, c)
  }

  function AppendMore(w: Put, reqs: seq<Request>, c: nat): seq<Request>
    decreases w.End() - c
  {
    if w.off <= c < w.End() && 0 < w.cap then AppendMore(w, Insert(reqs, |reqs|, Chunk(w, c)), Chunk(w, c).End())
        else reqs
  }

  // The list after the whole write.
  function Placed(w: Put, reqs: seq<Request>): seq<Request>
    decreases |reqs|
  {
    if PastAll(reqs, w.off) then AppendRun(w, reqs, w.off)
    else
      var t := TraverseRun(w, Spot(reqs, 0, -1, w.off));
      if t.c < w.End() && PastAll(t.reqs, t.c) then AppendRun(w, t.reqs, t.c)
      else if t.c == w.off && |t.reqs| < |reqs| then Placed(w, t.reqs)
      else t.reqs
  }

  // ---------------------------------------------------------------- one step of each

  lemma InsertNext(w: Put, s: Spot)
    requires Inserts(w, s)
    ensures InsertRun(w, s) == InsertRun(w, Inserted(w, s))
  {
  }

  lemma InsertDone(w: Put, s: Spot)
    requires !Inserts(w, s)
    ensures InsertRun(w, s) == s
  {
  }

  // The ways through one visit: the request is gone, everything is placed, the request starts
  // behind the cursor, or it is met.
  lemma VisitFreed(w: Put, s: Spot, first: bool)
    requires MergeDid(w, InsertRun(w, s)) == 2
    ensures VisitRun(w, s, first) == (MergeRun(w, InsertRun(w, s)), false)
  {
    hide InsertRun, MergeDid, MergeRun, ResolveRun;
  }

  lemma VisitOver(w: Put, s: Spot, first: bool, b: Spot)
    requires MergeDid(w, InsertRun(w, s)) != 2 && b == MergeRun(w, InsertRun(w, s)) && b.c >= w.End()
    ensures VisitRun(w, s, first) ==
            if MergeDid(w, InsertRun(w, s)) == 0 then (b, true) else (Spot(b.reqs, b.i + 1, b.i, b.c), false)
  {
    hide InsertRun, MergeDid, MergeRun, ResolveRun;
  }

  lemma VisitBehind(w: Put, s: Spot, first: bool, b: Spot)
    requires MergeDid(w, InsertRun(w, s)) != 2 && b == MergeRun(w, InsertRun(w, s)) && b.c < w.End()
    requires b.i < |b.reqs| && b.c < b.reqs[b.i].offset && (s.c < b.c || (first && b.c == s.c))
    ensures VisitRun(w, s, first) == VisitRun(w, b, false)
  {
    hide InsertRun, MergeDid, MergeRun, ResolveRun, VisitRun;
    VisitUnfolds(w, s, first, b);
    AgainVisits(w, s, first, b);
  }

  lemma VisitMeets(w: Put, s: Spot, first: bool, b: Spot, d: Spot, next: Next)
    requires MergeDid(w, InsertRun(w, s)) != 2 && b == MergeRun(w, InsertRun(w, s)) && b.c < w.End()
    requires b.i < |b.reqs| && b.c >= b.reqs[b.i].offset && (d, next) == ResolveRun(w, b)
    ensures next != InFront ==> VisitRun(w, s, first) == (d, false)
    ensures next == InFront && (s.c < d.c <= w.End() || (first && d.c == s.c)) ==>
              VisitRun(w, s, first) == VisitRun(w, d, false)
  {
    hide InsertRun, MergeDid, MergeRun, ResolveRun, VisitRun;
    VisitUnfolds(w, s, first, b);
    if next == InFront && (s.c < d.c <= w.End() || (first && d.c == s.c)) {
      AgainVisits(w, s, first, d);
    }
  }

  lemma VisitUnfolds(w: Put, s: Spot, first: bool, b: Spot)
    requires MergeDid(w, InsertRun(w, s)) != 2 && b == MergeRun(w, InsertRun(w, s)) && b.c < w.End() && b.i < |b.reqs|
    ensures if b.c < b.reqs[b.i].offset then VisitRun(w, s, first) == Again(w, s, first, b)
            else
              var (d, next) := ResolveRun(w, b);
              VisitRun(w, s, first) == if next == InFront then Again(w, s, first, d) else (d, false)
  {
    hide InsertRun, MergeDid, MergeRun, ResolveRun;
  }

  // The cases of an overlap.
  lemma ResolveUpdate(w: Put, s: Spot)
    requires Meets(w, s) && s.reqs[s.i].state != Ip
    requires var q := s.reqs[s.i]; s.c < q.End() || (s.c == q.End() && |q.data| < w.cap)
    ensures var q, rest := s.reqs[s.i], w.data[s.c - w.off..];
            ResolveRun(w, s) ==
            (Spot(Updated(s.reqs, s.i, s.c, rest, w.cap), s.i + 1, s.i, s.c + Room(q, s.c, |rest|, w.cap)), MergeOn)
  {
    hide Updated, Room;
  }

  lemma ResolveIp(w: Put, s: Spot)
    requires Meets(w, s) && s.reqs[s.i].state == Ip && s.c < s.reqs[s.i].End()
    ensures var q, n := s.reqs[s.i], w.End() - s.c;
            ResolveRun(w, s) ==
            if s.c == q.offset && n >= |q.data| then (s.(reqs := Remove(s.reqs, s.i)), GoOn)
            else if s.c == q.offset then (s.(reqs := s.reqs[s.i := Behead(q, n)]), InFront)
            else if s.c + n >= q.End() then (Spot(s.reqs[s.i := Shorten(q, s.c)], s.i + 1, s.i, s.c), GoOn)
            else (Spot(Insert(s.reqs[s.i := Shorten(q, s.c)], s.i + 1, Tail(q, w.End())), s.i + 1, s.p, s.c), InFront)
  {
    hide Insert, Remove, Behead, Shorten, Tail;
  }

  lemma ResolvePass(w: Put, s: Spot)
    requires Meets(w, s)
    requires var q := s.reqs[s.i];
             if q.state == Ip then s.c >= q.End() else s.c > q.End() || (s.c == q.End() && |q.data| >= w.cap)
    ensures ResolveRun(w, s) == (Spot(s.reqs, s.i + 1, s.i, s.c), GoOn)
  {
    hide Insert, Remove, Updated;
  }

  lemma AgainVisits(w: Put, s: Spot, first: bool, t: Spot)
    requires s.c < t.c <= w.End() || (first && t.c == s.c)
    ensures Again(w, s, first, t) == VisitRun(w, t, false)
  {
    hide VisitRun;
  }

  lemma TraverseSkip(w: Put, s: Spot)
    requires s.i < |s.reqs| && s.c > s.reqs[s.i].End()
    ensures TraverseRun(w, s) == TraverseRun(w, s.(i := s.i + 1))
  {
    hide VisitRun;
  }

  lemma TraverseVisit(w: Put, s: Spot, t: Spot, stop: bool)
    requires s.i < |s.reqs| && s.c <= s.reqs[s.i].End() && (t, stop) == VisitRun(w, s, true)
    ensures stop ==> TraverseRun(w, s) == t
    ensures !stop && |t.reqs| - t.i < |s.reqs| - s.i ==> TraverseRun(w, s) == TraverseRun(w, t)
  {
    hide VisitRun;
  }

  lemma TraverseEnd(w: Put, s: Spot)
    requires s.i >= |s.reqs|
    ensures TraverseRun(w, s) == s
  {
  }

  lemma AppendFill(w: Put, reqs: seq<Request>, c: nat, rest: seq<byte>)
    requires Fills(w, reqs, c) && rest == w.data[c - w.off..]
    ensures var l := |reqs| - 1;
            AppendRun(w, reqs, c) ==
            AppendMore(w, Updated(reqs, l, c, rest, w.cap), c + Room(reqs[l], c, |rest|, w.cap))
  {
    hide AppendMore, Updated, Room;
  }

  lemma AppendOnly(w: Put, reqs: seq<Request>, c: nat)
    requires !Fills(w, reqs, c)
    ensures AppendRun(w, reqs, c) == AppendMore(w, reqs, c)
  {
    hide AppendMore, Updated, Room;
  }

  lemma AppendNext(w: Put, reqs: seq<Request>, c: nat)
    requires w.off <= c <= w.End() && 0 < w.cap
    ensures AppendMore(w, reqs, c) ==
            if c == w.End() then reqs else AppendMore(w, Insert(reqs, |reqs|, Chunk(w, c)), Chunk(w, c).End())
  {
  }

  // What is to come of a list at which the write stands with its cursor at c.
  function Rest(w: Put, reqs: seq<Request>, c: nat): seq<Request>
  {
    if c >= w.End() then reqs else if PastAll(reqs, c) then AppendRun(w, reqs, c) else Placed(w, reqs)
  }

  lemma RestFirst(w: Put, reqs: seq<Request>)
    requires w.off < w.End()
    ensures Rest(w, reqs, w.off) == Placed(w, reqs)
  {
    hide AppendRun, TraverseRun;
  }

  lemma RestAppend(w: Put, reqs: seq<Request>, c: nat)
    requires PastAll(reqs, c) && c < w.End()
    ensures Rest(w, reqs, c) == Rest(w, AppendRun(w, reqs, c), w.End())
  {
    hide AppendRun, Placed;
  }

  lemma RestTraverse(w: Put, reqs: seq<Request>)
    requires w.off < w.End() && !PastAll(reqs, w.off)
    ensures var t := TraverseRun(w, Spot(reqs, 0, -1, w.off));
            t.c >= w.End() || PastAll(t.reqs, t.c) || (t.c == w.off && |t.reqs| < |reqs|) ==>
              Rest(w, t.reqs, t.c) == Rest(w, reqs, w.off)
  {
    hide AppendRun, TraverseRun;
  }

  lemma RestDone(w: Put, reqs: seq<Request>, c: nat)
    requires c >= w.End()
    ensures Rest(w, reqs, c) == reqs
  {
    hide AppendRun, Placed;
  }
}
