// Writing into a request list: the invariants of the traversal, on values.
//
// The traversal walks over the list with a cursor c, the file offset of the next byte to
// place.  `i` is the request under inspection and `p` the previous one, or -1.
module Sweep {
  import opened Medium
  import opened Flat
  import opened Queues
  import opened Requests

  // A write: `data` for offset `off`, into list `orig` of a file that shows `size` bytes and
  // whose extent store holds `under`; `cap` is the size of a cache block.
  datatype Job = Job(orig: seq<Request>, off: nat, data: seq<byte>, cap: nat, under: seq<byte>, size: nat)
  {
    function End(): nat
    {
      off + |data|
    }
  }

  // ---------------------------------------------------------------- when a write goes well

  // The cursor after inserting blocks in front of offset `upTo`.
  function InsertTo(c: nat, upTo: nat, end: nat, cap: nat): nat
    requires 0 < cap && c <= end
    ensures c <= InsertTo(c, upTo, end, cap) <= end
    ensures InsertTo(c, upTo, end, cap) < end ==> upTo <= InsertTo(c, upTo, end, cap)
    decreases end - c
  {
    if c < upTo && c < end then InsertTo(c + Min(cap, end - c), upTo, end, cap) else c
  }

  // The cursor after request q, when it arrives at q as c.
  function Advance(q: Request, c: nat, off: nat, end: nat, cap: nat): nat
    requires 0 < cap && c <= end
    ensures c <= Advance(q, c, off, end, cap) <= end
  {
    var c1 := InsertTo(c, q.offset, end, cap);
    if c1 >= end then c1
    else if q.state == Ip then (if c1 < q.End() && end < q.End() then end else c1)
    else if q.offset < off || c1 < q.End() then Min(end, Max(c1, (if q.offset < off then q.offset else c1) + cap))
    else c1
  }

  // Two index partition requests side by side, the first not full, the second starting just
  // where the write does.  Merging them in passing leaves the first one in the way of the
  // write, unless the second one was the last of the list and is used up.
  predicate TwoIp(reqs: seq<Request>, k: nat, off: nat, cap: nat)
    requires k < |reqs|
  {
    && 0 < k && reqs[k - 1].state == Ip && reqs[k].state == Ip
    && reqs[k - 1].End() == off == reqs[k].offset && |reqs[k - 1].data| < cap
    && !(k == |reqs| - 1 && |reqs[k - 1].data| + |reqs[k].data| <= cap)
  }

  // The write meets two such requests, so that an old byte will go on showing.
  predicate Hides(reqs: seq<Request>, off: nat, cap: nat)
  {
    exists k: nat {:trigger TwoIp(reqs, k, off, cap)} :: k < |reqs| && TwoIp(reqs, k, off, cap)
  }

  // From request k on, with the cursor at c: every request that is skipped because the cursor
  // is past its end ended before the write started, so none was overtaken by the write itself.
  predicate CleanFrom(reqs: seq<Request>, k: nat, c: nat, off: nat, end: nat, cap: nat)
    requires 0 < cap && k <= |reqs| && c <= end
    decreases |reqs| - k
  {
    if k == |reqs| then true
    else if c > reqs[k].End() then reqs[k].End() < off && CleanFrom(reqs, k + 1, c, off, end, cap)
    else
      && !(c == off && TwoIp(reqs, k, off, cap))
      && CleanFrom(reqs, k + 1, Advance(reqs[k], c, off, end, cap), off, end, cap)
  }

  predicate Clean(reqs: seq<Request>, off: nat, n: nat, cap: nat)
    requires 0 < cap
  {
    CleanFrom(reqs, 0, off, off, off + n, cap)
  }

  // ---------------------------------------------------------------- invariants

  // Apart but for request p, which may reach over the start of later ones.
  ghost predicate ApartBut(reqs: seq<Request>, p: int)
  {
    forall a, b {:trigger reqs[a], reqs[b]} :: 0 <= a < b < |reqs| ==>
      if a == p then reqs[a].offset < reqs[b].offset else reqs[a].End() <= reqs[b].offset
  }

  ghost predicate RightApart(reqs: seq<Request>, i: nat)
  {
    forall a, b {:trigger reqs[a], reqs[b]} :: i <= a < b < |reqs| ==> reqs[a].End() <= reqs[b].offset
  }

  // Two requests before i overlap.
  ghost predicate Overlap(reqs: seq<Request>, i: nat)
  {
    exists a, b {:trigger reqs[a], reqs[b]} :: 0 <= a < b < i && b < |reqs| && reqs[a].End() > reqs[b].offset
  }

  // Index partition requests hold what the store holds.
  ghost predicate Held(reqs: seq<Request>, under: seq<byte>)
  {
    forall k {:trigger reqs[k]} :: 0 <= k < |reqs| && reqs[k].state == Ip ==> HeldOne(reqs[k], under)
  }

  ghost predicate HeldOne(r: Request, under: seq<byte>)
  {
    r.End() <= |under| && forall x: nat {:trigger One(r, x)} :: r.Covers(x) ==> One(r, x) == Some(under[x])
  }

  ghost predicate Within(reqs: seq<Request>, size: nat)
  {
    forall k {:trigger reqs[k]} :: 0 <= k < |reqs| ==> reqs[k].End() <= size
  }

  ghost predicate From(reqs: seq<Request>, i: nat, off: nat)
  {
    forall k {:trigger reqs[k]} :: i <= k < |reqs| ==> off <= reqs[k].offset
  }

  // The bytes placed so far show, and those outside the write show as before.
  ghost predicate Shows(job: Job, reqs: seq<Request>, c: nat)
  {
    forall x: nat {:trigger Look(reqs, x)} ::
      && (job.off <= x < c && x < job.End() ==> Look(reqs, x) == Some(job.data[x - job.off]))
      && (!(job.off <= x < job.End()) ==> Look(reqs, x) == Look(job.orig, x))
  }

  ghost predicate JobOk(job: Job)
  {
    0 < job.cap && job.data != [] && Sized(job.orig, job.cap) && Apart(job.orig) && Held(job.orig, job.under)
        && Within(job.orig, job.size)
  }

  // Holds however the traversal goes.
  ghost predicate Common(job: Job, reqs: seq<Request>, i: nat, p: int, c: nat, size: nat)
  {
    && i <= |reqs| && -1 <= p < i && job.off <= c <= job.End()
    && Sized(reqs, job.cap) && RightApart(reqs, i) && Held(reqs, job.under)
    && size == (if c > job.off then Max(job.size, c) else job.size) && Within(reqs, size)
    && (c > job.off ==> p >= 0 && reqs[p].End() >= c)
    && (p >= 0 ==> From(reqs, i, job.off) && (i < |reqs| ==> reqs[p].offset <= reqs[i].offset))
    && (c < job.End() && i > 0 ==> reqs[i - 1].End() <= c)
    && (c < job.End() && p >= 0 ==>
        reqs[p].End() == c && (|reqs[p].data| == job.cap || (c == job.off && reqs[p].state == Ip)))
    && (c == job.off ==> reqs == job.orig || i == |reqs| || reqs[i].offset > c)
  }

  // All is well so far; `clean` says how the rest will go.
  ghost predicate Good(job: Job, reqs: seq<Request>, i: nat, p: int, c: nat, clean: bool)
    requires 0 < job.cap
  {
    && (p == -1 || p == i - 1)
    && ApartBut(reqs, p) && Shows(job, reqs, c)
    && (p == -1 && i < |reqs| ==> !TwoIp(reqs, i, job.off, job.cap))
    && (clean <==> Clean(job.orig, job.off, |job.data|, job.cap))
  }

  // A request was overtaken; the overlap is there to stay.
  ghost predicate Bad(job: Job, reqs: seq<Request>, i: nat, c: nat)
    requires 0 < job.cap
  {
    c > job.off && Overlap(reqs, i) && !Clean(job.orig, job.off, |job.data|, job.cap)
  }

  // Between requests.
  ghost predicate Head(job: Job, reqs: seq<Request>, i: nat, p: int, c: nat, size: nat)
    requires 0 < job.cap
  {
    && Common(job, reqs, i, p, c, size)
    && (Good(job, reqs, i, p, c, CleanFrom(reqs, i, c, job.off, job.End(), job.cap)) || Bad(job, reqs, i, c))
  }

  // Request i was not skipped.
  ghost predicate Mid(job: Job, reqs: seq<Request>, i: nat, p: int, c: nat, size: nat)
    requires 0 < job.cap
  {
    && Common(job, reqs, i, p, c, size) && i < |reqs| && (p == -1 ==> c <= reqs[i].End())
    && (Good(job, reqs, i, p, c, CleanPast(job, reqs, i, c) && !(c == job.off && TwoIp(reqs, i, job.off, job.cap)))
        || Bad(job, reqs, i, c))
  }

  ghost predicate CleanPast(job: Job, reqs: seq<Request>, i: nat, c: nat)
    requires 0 < job.cap && i < |reqs| && c <= job.End()
  {
    CleanFrom(reqs, i + 1, Advance(reqs[i], c, job.off, job.End(), job.cap), job.off, job.End(), job.cap)
  }

  // Request i was merged with the previous one, and something is left of it.
  ghost predicate Post(job: Job, reqs: seq<Request>, i: nat, p: int, c: nat, size: nat)
    requires 0 < job.cap
  {
    && Common(job, reqs, i, p, c, size) && i < |reqs| && c <= reqs[i].End()
    && (p >= 0 && c < job.End() ==> c <= reqs[i].offset)
    && ((Good(job, reqs, i, p, c, CleanPast(job, reqs, i, c)) && Apart(reqs)) || Bad(job, reqs, i, c))
  }

  // The previous request just took bytes that the write is about to place again.
  ghost predicate Pending(job: Job, reqs: seq<Request>, i: nat, p: int, c: nat, size: nat)
    requires 0 < job.cap
  {
    && 0 < i < |reqs| && p == i - 1 && c == job.off && size == job.size
    && Sized(reqs, job.cap) && RightApart(reqs, i) && Held(reqs, job.under) && Within(reqs, size)
    && reqs[p].End() > c && reqs[i].offset > c
    && !Clean(job.orig, job.off, |job.data|, job.cap)
  }

  // The last two requests became one and nothing was placed: start over.
  ghost predicate Restart(job: Job, reqs: seq<Request>, i: nat, p: int, c: nat, size: nat)
    requires 0 < job.cap
  {
    && 0 < i == |reqs| < |job.orig| && p == i - 1 && c == job.off && size == job.size
    && Sized(reqs, job.cap) && Apart(reqs) && Held(reqs, job.under) && Within(reqs, size)
    && (forall x: nat {:trigger Look(reqs, x)} :: Look(reqs, x) == Look(job.orig, x))
    && reqs[i - 1].End() > c
    && Clean(job.orig, job.off, |job.data|, job.cap) && Clean(reqs, job.off, |job.data|, job.cap)
  }

  // ---------------------------------------------------------------- the rest of the list

  // From i on, a is what b is from j on.
  ghost predicate SameFrom(a: seq<Request>, i: nat, b: seq<Request>, j: nat)
  {
    |a| - i == |b| - j && forall k {:trigger a[k]} :: i <= k < |a| ==> Alike(a[k], b[k - i + j]) && |a[k].data| > 0
  }

  lemma {:induction false} CleanSame(a: seq<Request>, i: nat, b: seq<Request>, j: nat, c: nat, off: nat, end: nat,
      cap: nat)
    requires 0 < cap && off <= c <= end && i <= |a| && j <= |b| && |a| - i == |b| - j
    requires SameFrom(a, i, b, j)
    requires RightApart(a, i) && (c > off || i == |a| || a[i].offset > off)
    ensures CleanFrom(a, i, c, off, end, cap) == CleanFrom(b, j, c, off, end, cap)
    decreases |a| - i
  {
    if i < |a| {
      assert Alike(a[i], b[i - i + j]);
      AdvanceSame(a, i, b, j, c, off, end, cap);
      hide Advance, TwoIp, Alike;
      var c' := if c > a[i].End() then c else Advance(a[i], c, off, end, cap);
      CleanSame(a, i + 1, b, j + 1, c', off, end, cap);
    }
  }

  lemma AdvanceSame(a: seq<Request>, i: nat, b: seq<Request>, j: nat, c: nat, off: nat, end: nat, cap: nat)
    requires 0 < cap && off <= c <= end && i < |a| && j < |b| && |a| - i == |b| - j && Alike(a[i], b[j])
             && |a[i].data| > 0
    requires (c > off || a[i].offset > off) && RightApart(a, i)
    ensures Advance(a[i], c, off, end, cap) == Advance(b[j], c, off, end, cap)
    ensures c == off ==> !TwoIp(a, i, off, cap) && !TwoIp(b, j, off, cap)
    ensures i + 1 < |a| && c == off ==> a[i + 1].offset > off
    ensures a[i].End() == b[j].End()
  {
    assert i + 1 < |a| ==> a[i].End() <= a[i + 1].offset;
  }

  // Once everything is placed, nothing beyond the cursor is skipped.
  lemma {:induction false} CleanRest(reqs: seq<Request>, i: nat, off: nat, end: nat, cap: nat)
    requires 0 < cap && off < end && i <= |reqs| && forall k {:trigger reqs[k]} :: i <= k < |reqs| ==>
             end <= reqs[k].End()
    ensures CleanFrom(reqs, i, end, off, end, cap)
    decreases |reqs| - i
  {
    if i < |reqs| {
      CleanRest(reqs, i + 1, off, end, cap);
    }
  }

  // Requests that end before the write starts do not matter.
  lemma {:induction false} CleanSkip(reqs: seq<Request>, k: nat, i: nat, off: nat, end: nat, cap: nat)
    requires 0 < cap && off <= end && k <= i <= |reqs| && forall j {:trigger reqs[j]} :: k <= j < i ==>
             reqs[j].End() < off
    ensures CleanFrom(reqs, k, off, off, end, cap) == CleanFrom(reqs, i, off, off, end, cap)
    decreases i - k
  {
    if k < i {
      CleanSkip(reqs, k + 1, i, off, end, cap);
    }
  }

  // Appending is always clean.
  lemma CleanAppend(reqs: seq<Request>, off: nat, n: nat, cap: nat)
    requires 0 < cap && Sized(reqs, cap) && Apart(reqs) && (reqs == [] || reqs[|reqs| - 1].End() <= off)
    ensures Clean(reqs, off, n, cap)
  {
    if reqs != [] {
      var l := |reqs| - 1;
      assert forall j :: 0 <= j < l ==> reqs[j].End() <= reqs[l].offset < reqs[l].End();
      CleanSkip(reqs, 0, l, off, off + n, cap);
      assert CleanFrom(reqs, l, off, off, off + n, cap);
    }
  }

  // ---------------------------------------------------------------- skipping

  lemma SkipCommon(job: Job, reqs: seq<Request>, i: nat, p: int, c: nat, size: nat)
    requires JobOk(job) && Common(job, reqs, i, p, c, size) && i < |reqs| && c > reqs[i].End()
    ensures Common(job, reqs, i + 1, p, c, size)
    ensures reqs[i].End() < job.off ==> c == job.off && p == -1
  {
    hide Held, Within, JobOk;
    assert i + 1 < |reqs| ==> reqs[i].End() <= reqs[i + 1].offset;
    assert p >= 0 ==> job.off <= reqs[i].offset;
  }

  // Skip a request that ends before the cursor: either it ended before the write, or the
  // write itself has overtaken it and it overlaps the request that did.
  lemma SkipStep(job: Job, reqs: seq<Request>, i: nat, p: int, c: nat, size: nat)
    requires JobOk(job) && Head(job, reqs, i, p, c, size) && i < |reqs| && c > reqs[i].End()
    ensures Head(job, reqs, i + 1, p, c, size)
  {
    hide Shows, CleanFrom, Clean, Held, Within, From, Sized, RightApart, ApartBut;
    SkipUnfold(reqs, i, c, job.off, job.End(), job.cap);
    SkipCommon(job, reqs, i, p, c, size);
    if Bad(job, reqs, i, c) {
      OverlapStays(reqs, reqs, i, i + 1);
    } else if reqs[i].End() >= job.off {
      NotSkipped(job, reqs, i, p, c, size);
      assert reqs[p].End() > reqs[i].offset;
    }
  }

  lemma NotSkipped(job: Job, reqs: seq<Request>, i: nat, p: int, c: nat, size: nat)
    requires JobOk(job) && Common(job, reqs, i, p, c, size) && i < |reqs| && job.off <= reqs[i].End() < c
    ensures 0 <= p < i && reqs[p].End() > reqs[i].offset && c > job.off
  {
  }

  lemma SkipUnfold(reqs: seq<Request>, i: nat, c: nat, off: nat, end: nat, cap: nat)
    requires 0 < cap && c <= end && i < |reqs| && c > reqs[i].End()
    ensures CleanFrom(reqs, i, c, off, end, cap) == (reqs[i].End() < off && CleanFrom(reqs, i + 1, c, off, end, cap))
  {
  }

  lemma VisitUnfold(reqs: seq<Request>, i: nat, c: nat, off: nat, end: nat, cap: nat)
    requires 0 < cap && c <= end && i < |reqs| && c <= reqs[i].End()
    ensures CleanFrom(reqs, i, c, off, end, cap) ==
            (!(c == off && TwoIp(reqs, i, off, cap))
                && CleanFrom(reqs, i + 1, Advance(reqs[i], c, off, end, cap), off, end, cap))
  {
  }

  lemma EnterStep(job: Job, reqs: seq<Request>, i: nat, p: int, c: nat, size: nat)
    requires JobOk(job) && Head(job, reqs, i, p, c, size) && i < |reqs| && c <= reqs[i].End()
    ensures Mid(job, reqs, i, p, c, size)
  {
    hide Shows, CleanFrom, Clean, Held, Within, ApartBut, Overlap, Sized, RightApart, From;
    VisitUnfold(reqs, i, c, job.off, job.End(), job.cap);
  }

  // ---------------------------------------------------------------- inserting in front

  // The request that holds the next bytes of the write.
  ghost predicate NextChunk(job: Job, c: nat, r: Request)
  {
    && job.off <= c < job.End() && r.offset == c && r.state != Ip
    && |r.data| == Min(job.cap, job.End() - c)
    && forall x: nat {:trigger One(r, x)} :: r.Covers(x) ==> One(r, x) == Some(job.data[x - job.off])
  }

  // What inserting needs to know of the list.
  ghost predicate Insertable(job: Job, reqs: seq<Request>, i: nat, c: nat, size: nat)
  {
    && i < |reqs| && job.off <= c < job.End() && c < reqs[i].offset
    && Sized(reqs, job.cap) && RightApart(reqs, i) && Held(reqs, job.under) && Within(reqs, size)
    && size == (if c > job.off then Max(job.size, c) else job.size)
  }

  lemma InsertCommon(job: Job, reqs: seq<Request>, i: nat, c: nat, size: nat, r: Request)
    requires JobOk(job) && Insertable(job, reqs, i, c, size) && NextChunk(job, c, r)
    ensures Common(job, Insert(reqs, i, r), i + 1, i, r.End(), Max(size, r.End()))
  {
    hide HeldOne, Insert, One;
    var s := Insert(reqs, i, r);
    assert forall k :: i + 1 <= k < |s| ==> s[k] == reqs[k - 1];
    assert From(s, i + 1, job.off) by {
      forall k | i + 1 <= k < |s|
        ensures job.off <= s[k].offset
      {
        assert k - 1 > i ==> reqs[i].End() <= reqs[k - 1].offset;
      }
    }
  }

  lemma InsertShows(job: Job, reqs: seq<Request>, i: nat, c: nat, r: Request)
    requires i <= |reqs| && Shows(job, reqs, c) && NextChunk(job, c, r)
    requires forall a {:trigger reqs[a]} :: 0 <= a < i ==> reqs[a].End() <= c
    ensures Shows(job, Insert(reqs, i, r), r.End())
  {
    hide LookIn, Insert, Look;
    var s := Insert(reqs, i, r);
    forall x: nat
      ensures job.off <= x < r.End() && x < job.End() ==> Look(s, x) == Some(job.data[x - job.off])
      ensures !(job.off <= x < job.End()) ==> Look(s, x) == Look(job.orig, x)
    {
      InsertLook(reqs, i, r, x);
      LookWhole(reqs, i, x);
      if r.Covers(x) {
        LookMiss(reqs, 0, i, x);
      }
    }
  }

  lemma LookWhole(reqs: seq<Request>, i: nat, x: nat)
    requires i <= |reqs|
    ensures Look(reqs, x) == Or(LookIn(reqs, 0, i, x), LookIn(reqs, i, |reqs|, x))
  {
    LookSplit(reqs, 0, i, |reqs|, x);
  }

  lemma InsertApart(reqs: seq<Request>, i: nat, r: Request, cap: nat)
    requires i < |reqs| && Apart(reqs) && r.offset < reqs[i].offset && Sized(reqs, cap)
    requires i > 0 ==> reqs[i - 1].End() <= r.offset
    ensures ApartBut(Insert(reqs, i, r), i)
    ensures forall a {:trigger reqs[a]} :: 0 <= a < i ==> reqs[a].End() <= r.offset
  {
    hide Insert;
    assert forall a :: 0 <= a < i - 1 ==> reqs[a].End() <= reqs[i - 1].offset;
    assert forall b :: i < b < |reqs| ==> reqs[i].End() <= reqs[b].offset;
  }

  lemma InsertClean(job: Job, reqs: seq<Request>, i: nat, c: nat, r: Request)
    requires JobOk(job) && i < |reqs| && RightApart(reqs, i) && Sized(reqs, job.cap) && NextChunk(job, c, r)
             && c < reqs[i].offset
    ensures CleanPast(job, Insert(reqs, i, r), i + 1, r.End()) == CleanPast(job, reqs, i, c)
    ensures !TwoIp(reqs, i, job.off, job.cap) && !TwoIp(Insert(reqs, i, r), i + 1, job.off, job.cap)
  {
    hide Insert, CleanFrom;
    var s := Insert(reqs, i, r);
    var q := reqs[i];
    assert s[i + 1] == q;
    assert Advance(q, c, job.off, job.End(), job.cap) == Advance(q, r.End(), job.off, job.End(), job.cap);
    CleanSame(reqs, i + 1, s, i + 2, Advance(q, c, job.off, job.End(), job.cap), job.off, job.End(), job.cap);
  }

  // Insert the next bytes of the write in front of request i.
  lemma InsertStep(job: Job, reqs: seq<Request>, i: nat, p: int, c: nat, size: nat, r: Request)
    requires JobOk(job) && (Mid(job, reqs, i, p, c, size) || Pending(job, reqs, i, p, c, size))
    requires NextChunk(job, c, r) && i < |reqs| && c < reqs[i].offset
    ensures Mid(job, Insert(reqs, i, r), i + 1, i, r.End(), Max(size, r.End()))
  {
    hide Shows, CleanFrom, Clean, Held, Within, Insert, Sized, RightApart, From, CleanPast, TwoIp;
    InsertCommon(job, reqs, i, c, size, r);
    if Pending(job, reqs, i, p, c, size) {
      InsertPending(job, reqs, i, p, c, size, r);
    } else if Bad(job, reqs, i, c) {
      OverlapStays(reqs, Insert(reqs, i, r), i, i + 1);
    } else {
      WasApart(job, reqs, i, p, c, size);
      InsertApart(reqs, i, r, job.cap);
      InsertShows(job, reqs, i, c, r);
      InsertClean(job, reqs, i, c, r);
    }
  }

  // While bytes are left to place, the previous request reaches no further than the cursor.
  lemma WasApart(job: Job, reqs: seq<Request>, i: nat, p: int, c: nat, size: nat)
    requires JobOk(job) && Common(job, reqs, i, p, c, size) && ApartBut(reqs, p) && (p == -1 || p == i - 1)
    requires c < job.End() && i < |reqs| && c <= reqs[i].offset
    ensures Apart(reqs)
  {
    assert forall b :: i < b < |reqs| ==> reqs[i].End() <= reqs[b].offset;
  }

  lemma OverlapStays(reqs: seq<Request>, s: seq<Request>, i: nat, j: nat)
    requires Overlap(reqs, i) && i <= |reqs| && i <= j && i <= |s|
    requires forall k {:trigger s[k]} :: 0 <= k < i ==> s[k].offset == reqs[k].offset && s[k].End() >= reqs[k].End()
    ensures Overlap(s, j)
  {
    var a, b :| 0 <= a < b < i && b < |reqs| && reqs[a].End() > reqs[b].offset;
    assert s[a].End() > s[b].offset;
  }

  lemma InsertPending(job: Job, reqs: seq<Request>, i: nat, p: int, c: nat, size: nat, r: Request)
    requires JobOk(job) && Pending(job, reqs, i, p, c, size) && NextChunk(job, c, r)
    ensures Bad(job, Insert(reqs, i, r), i + 1, r.End())
  {
    hide Clean;
    var s := Insert(reqs, i, r);
    assert s[i - 1].End() > s[i].offset;
  }

  // ---------------------------------------------------------------- merging

  // There is no previous request to merge with.
  lemma NoMergeStep(job: Job, reqs: seq<Request>, i: nat, c: nat, size: nat)
    requires JobOk(job) && Mid(job, reqs, i, -1, c, size)
    ensures Post(job, reqs, i, -1, c, size)
  {
    hide Shows, CleanFrom, Clean, Held, Within, Sized, RightApart, CleanPast, TwoIp;
  }

  // The two requests do not meet, or have nothing to pass on.
  lemma MergeNone(job: Job, reqs: seq<Request>, i: nat, p: int, c: nat, size: nat)
    requires JobOk(job) && Mid(job, reqs, i, p, c, size) && p >= 0 && Cut(reqs[p], reqs[i], job.cap) == 0
    ensures Merged(reqs, p, i, job.cap) == reqs && Post(job, reqs, i, p, c, size)
  {
    MergesNothing(reqs, p, i, job.cap);
    hide Shows, CleanFrom, Clean, Held, Within, CleanPast, Merged, Cut, Sized, From, RightApart;
    if !Bad(job, reqs, i, c) {
      hide Overlap;
      MeetsApart(reqs, i, job.cap);
    }
  }

  lemma MergesNothing(reqs: seq<Request>, p: nat, i: nat, cap: nat)
    requires p < i < |reqs| && Sized(reqs, cap) && Cut(reqs[p], reqs[i], cap) == 0
    ensures Merged(reqs, p, i, cap) == reqs && reqs[p].End() <= reqs[i].offset
    ensures reqs[p].state == reqs[i].state == Ip && reqs[p].End() == reqs[i].offset ==> |reqs[p].data| == cap
    ensures reqs[i].offset < reqs[i].End()
  {
    hide Updated;
  }

  lemma MeetsApart(reqs: seq<Request>, i: nat, cap: nat)
    requires 0 < i < |reqs| && ApartBut(reqs, i - 1) && Sized(reqs, cap) && reqs[i - 1].End() <= reqs[i].offset
    ensures Apart(reqs)
  {
    assert forall b :: i < b < |reqs| ==> reqs[i].End() <= reqs[b].offset;
  }

  lemma HeldSame(s: seq<Request>, t: seq<Request>, under: seq<byte>)
    requires SameBytes(s, t) && Held(t, under)
    ensures Held(s, under)
  {
    forall k | 0 <= k < |s| && s[k].state == Ip
      ensures HeldOne(s[k], under)
    {
      assert HeldOne(t[k], under);
      forall x: nat | s[k].Covers(x)
        ensures One(s[k], x) == Some(under[x])
      {
        assert One(t[k], x) == Some(under[x]);
      }
    }
  }

  lemma HeldMerge(dest: Request, src: Request, cap: nat, under: seq<byte>)
    requires 0 < |dest.data| <= cap && 0 < |src.data| <= cap && dest.offset <= src.offset
    requires (dest.state == Ip ==> HeldOne(dest, under)) && (src.state == Ip ==> HeldOne(src, under))
    ensures var d, k := NewDest(dest, src, cap), Cut(dest, src, cap);
            && (dest.state == Ip ==> HeldOne(d, under))
            && (src.state == Ip && k < |src.data| ==> HeldOne(Behead(src, k), under))
  {
    var d, k := NewDest(dest, src, cap), Cut(dest, src, cap);
    MergePair(dest, src, cap);
    if dest.state == Ip {
      forall x: nat | d.Covers(x)
        ensures One(d, x) == Some(under[x])
      {
        assert Or(One(d, x), if k < |src.data| then One(Behead(src, k), x) else None) == Or(One(dest, x), One(src, x));
        assert One(d, x).Some?;
        if !dest.Covers(x) {
          assert One(dest, x) == None && src.Covers(x);
          assert One(src, x) == Some(under[x]);
        } else {
          assert One(dest, x) == Some(under[x]);
        }
      }
    }
    if src.state == Ip && k < |src.data| {
      HeldPart(src, Behead(src, k), under);
    }
  }

  // Part of a request that is held is held.
  lemma HeldPart(r: Request, q: Request, under: seq<byte>)
    requires HeldOne(r, under) && r.offset <= q.offset && q.End() <= r.End()
    requires forall j :: 0 <= j < |q.data| ==> q.data[j] == r.data[j + q.offset - r.offset]
    ensures HeldOne(q, under)
  {
    forall x: nat | q.Covers(x)
      ensures One(q, x) == Some(under[x])
    {
      assert One(r, x) == Some(under[x]);
      assert q.data[x - q.offset] == r.data[x - q.offset + q.offset - r.offset];
    }
  }

  lemma TrimHeld(reqs: seq<Request>, p: nat, i: nat, cap: nat, under: seq<byte>)
    requires p < i < |reqs| && Sized(reqs, cap) && reqs[p].offset <= reqs[i].offset && Held(reqs, under)
    ensures var d, k := NewDest(reqs[p], reqs[i], cap), Cut(reqs[p], reqs[i], cap);
            && (k < |reqs[i].data| ==> Held(reqs[p := d][i := Behead(reqs[i], k)], under))
            && Held(Remove(reqs[p := d], i), under)
  {
    hide HeldOne, One, NewDest, Cut, Remove;
    HeldMerge(reqs[p], reqs[i], cap, under);
    MergePair(reqs[p], reqs[i], cap);
  }

  // Request i loses its first k bytes.
  lemma TrimCommon(job: Job, reqs: seq<Request>, i: nat, p: int, c: nat, size: nat, d: Request, k: nat, s: seq<Request>)
    requires JobOk(job) && Common(job, reqs, i, p, c, size) && 0 <= p && i < |reqs| && c > job.off
    requires d == NewDest(reqs[p], reqs[i], job.cap) && k == Cut(reqs[p], reqs[i], job.cap) && 0 < k < |reqs[i].data|
    requires SameBytes(s, reqs[p := d][i := Behead(reqs[i], k)])
    requires c < job.End() ==> d.End() == reqs[p].End()
    ensures Common(job, s, i, p, c, size) && c <= s[i].End() && (c < job.End() ==> c <= s[i].offset)
    ensures s[p].End() == s[i].offset && (c < job.End() ==> s[i].offset == c)
  {
    var t := reqs[p := d][i := Behead(reqs[i], k)];
    TrimHeld(reqs, p, i, job.cap, job.under);
    HeldSame(s, t, job.under);
    hide HeldOne, One, NewDest, Cut, Held;
    MergePair(reqs[p], reqs[i], job.cap);
    assert s[p].offset == t[p].offset && s[p].data == t[p].data;
  }

  lemma TrimApart(reqs: seq<Request>, i: nat, d: Request, k: nat, s: seq<Request>, cap: nat)
    requires Sized(reqs, cap) && 0 < i < |reqs| && ApartBut(reqs, i - 1)
    requires d == NewDest(reqs[i - 1], reqs[i], cap) && k == Cut(reqs[i - 1], reqs[i], cap) && 0 < k < |reqs[i].data|
    requires SameBytes(s, reqs[i - 1 := d][i := Behead(reqs[i], k)])
    ensures Apart(s)
  {
    hide NewDest, Cut;
    MergePair(reqs[i - 1], reqs[i], cap);
    var t := reqs[i - 1 := d][i := Behead(reqs[i], k)];
    assert Apart(t);
  }

  lemma TrimClean(job: Job, reqs: seq<Request>, s: seq<Request>, i: nat, c: nat)
    requires JobOk(job) && i < |reqs| == |s| && job.off < c <= job.End() && RightApart(reqs, i) && Sized(reqs, job.cap)
    requires forall k {:trigger s[k]} :: i < k < |s| ==> Alike(s[k], reqs[k])
    requires s[i].End() == reqs[i].End() && (s[i].state == Ip <==> reqs[i].state == Ip)
    requires c == job.End() || (job.off <= reqs[i].offset <= c == s[i].offset)
    ensures CleanPast(job, s, i, c) == CleanPast(job, reqs, i, c)
  {
    hide CleanFrom;
    var a := Advance(reqs[i], c, job.off, job.End(), job.cap);
    assert Advance(s[i], c, job.off, job.End(), job.cap) == a;
    SuffixSame(reqs, s, i + 1, job.cap);
    RightNext(reqs, i);
    hide Advance, SameFrom, Sized, RightApart, Alike;
    CleanSame(reqs, i + 1, s, i + 1, a, job.off, job.End(), job.cap);
  }

  lemma MergeShows(job: Job, reqs: seq<Request>, i: nat, c: nat)
    requires JobOk(job) && Sized(reqs, job.cap) && 0 < i < |reqs| && reqs[i - 1].offset <= reqs[i].offset
             && Shows(job, reqs, c)
    ensures Shows(job, Merged(reqs, i - 1, i, job.cap), c)
  {
    hide Look, Merged;
    var s := Merged(reqs, i - 1, i, job.cap);
    forall x: nat
      ensures Look(s, x) == Look(reqs, x)
    {
      MergeLook(reqs, i, job.cap, x);
    }
  }

  // Bytes only move to the previous request while some are left to place if both are bound
  // for the index partition; then nothing was placed yet.
  ghost predicate TwoIpMerge(job: Job, reqs: seq<Request>, i: nat, p: int, c: nat)
  {
    0 <= p < i < |reqs| && c < job.End() && c == job.off && |reqs[p].data| < job.cap
        && Cut(reqs[p], reqs[i], job.cap) > 0
  }

  // Outside that case, a merge that changes something does so behind the first placed byte.
  lemma MergeLate(job: Job, reqs: seq<Request>, i: nat, p: int, c: nat, size: nat)
    requires JobOk(job) && Mid(job, reqs, i, p, c, size) && p >= 0 && !TwoIpMerge(job, reqs, i, p, c)
    requires Cut(reqs[p], reqs[i], job.cap) > 0
    ensures c > job.off && (c < job.End() ==>
            NewDest(reqs[p], reqs[i], job.cap) == reqs[p] && job.off <= reqs[i].offset <= c)
  {
    hide Good, Bad;
  }

  lemma MergeTrim(job: Job, reqs: seq<Request>, i: nat, p: int, c: nat, size: nat)
    requires JobOk(job) && Mid(job, reqs, i, p, c, size) && p >= 0 && !TwoIpMerge(job, reqs, i, p, c)
    requires 0 < Cut(reqs[p], reqs[i], job.cap) < |reqs[i].data|
    ensures Post(job, Merged(reqs, p, i, job.cap), i, p, c, size)
  {
    hide Shows, CleanFrom, Clean, Held, Within, CleanPast, NewDest, Cut, Merged, RightApart, From;
    var d, k, s := NewDest(reqs[p], reqs[i], job.cap), Cut(reqs[p], reqs[i], job.cap), Merged(reqs, p, i, job.cap);
    MergeLate(job, reqs, i, p, c, size);
    MergedShape(reqs, p, i, job.cap);
    TrimCommon(job, reqs, i, p, c, size, d, k, s);
    if Bad(job, reqs, i, c) {
      MergePair(reqs[p], reqs[i], job.cap);
      OverlapStays(reqs, s, i, i);
    } else {
      TrimApart(reqs, i, d, k, s, job.cap);
      MergeShows(job, reqs, i, c);
      TrimClean(job, reqs, s, i, c);
    }
  }

  // Request i is used up and goes.
  lemma FreeCommon(job: Job, reqs: seq<Request>, i: nat, p: int, c: nat, size: nat, d: Request, s: seq<Request>)
    requires JobOk(job) && Common(job, reqs, i, p, c, size) && 0 <= p && i < |reqs| && c > job.off
    requires d == NewDest(reqs[p], reqs[i], job.cap) && Cut(reqs[p], reqs[i], job.cap) >= |reqs[i].data|
    requires SameBytes(s, Remove(reqs[p := d], i))
    requires c < job.End() ==> d == reqs[p]
    ensures Common(job, s, i, p, c, size)
  {
    FreeHeld(job, reqs, p, i, d, s);
    FreeFacts(reqs, p, i, d, s);
    MergePair(reqs[p], reqs[i], job.cap);
    FreeShape(reqs, p, i, d, s, job.cap, size, job.off);
    hide NewDest, Cut, Held, Remove, JobOk, SameBytes, Sized, RightApart, Within, From;
    assert i < |s| ==> Alike(s[i], reqs[i + 1]);
    assert p < i - 1 ==> Alike(s[i - 1], reqs[i - 1]);
  }

  lemma FreeShape(reqs: seq<Request>, p: nat, i: nat, d: Request, s: seq<Request>, cap: nat, size: nat, off: nat)
    requires p < i < |reqs| == |s| + 1 && Sized(reqs, cap) && RightApart(reqs, i) && Within(reqs, size)
             && From(reqs, i, off)
    requires Alike(s[p], d) && d.offset == reqs[p].offset
             && reqs[p].End() <= d.End() <= Max(reqs[p].End(), reqs[i].End()) && |d.data| <= cap
    requires forall k {:trigger s[k]} :: 0 <= k < i && k != p ==> Alike(s[k], reqs[k])
    requires forall k {:trigger s[k]} :: i <= k < |s| ==> Alike(s[k], reqs[k + 1])
    ensures Sized(s, cap) && RightApart(s, i) && Within(s, size) && From(s, i, off)
    ensures i < |s| ==> s[i].offset > reqs[i].offset
  {
    assert i < |s| ==> reqs[i].End() <= reqs[i + 1].offset;
  }

  lemma FreeHeld(job: Job, reqs: seq<Request>, p: nat, i: nat, d: Request, s: seq<Request>)
    requires p < i < |reqs| && Sized(reqs, job.cap) && reqs[p].offset <= reqs[i].offset && Held(reqs, job.under)
    requires d == NewDest(reqs[p], reqs[i], job.cap) && SameBytes(s, Remove(reqs[p := d], i))
    ensures Held(s, job.under)
  {
    TrimHeld(reqs, p, i, job.cap, job.under);
    HeldSame(s, Remove(reqs[p := d], i), job.under);
  }

  lemma FreeFacts(reqs: seq<Request>, p: nat, i: nat, d: Request, s: seq<Request>)
    requires p < i < |reqs| && SameBytes(s, Remove(reqs[p := d], i))
    ensures |s| == |reqs| - 1 && Alike(s[p], d)
    ensures forall k {:trigger s[k]} :: 0 <= k < i && k != p ==> Alike(s[k], reqs[k])
    ensures forall k {:trigger s[k]} :: i <= k < |s| ==> Alike(s[k], reqs[k + 1])
  {
    hide Remove;
  }

  lemma FreeApart(reqs: seq<Request>, i: nat, d: Request, s: seq<Request>, cap: nat)
    requires Sized(reqs, cap) && 0 < i < |reqs| && ApartBut(reqs, i - 1) && d.offset == reqs[i - 1].offset
    requires SameBytes(s, Remove(reqs[i - 1 := d], i))
    ensures ApartBut(s, i - 1)
  {
    hide Remove;
    var t := Remove(reqs[i - 1 := d], i);
    assert ApartBut(t, i - 1);
  }

  lemma FreeClean(job: Job, reqs: seq<Request>, s: seq<Request>, i: nat, c: nat)
    requires JobOk(job) && i < |reqs| == |s| + 1 && job.off <= c <= job.End() && RightApart(reqs, i)
             && Sized(reqs, job.cap)
    requires forall k {:trigger s[k]} :: i <= k < |s| ==> Alike(s[k], reqs[k + 1])
    requires c > job.off || i == |s| || reqs[i + 1].offset > job.off
    requires Advance(reqs[i], c, job.off, job.End(), job.cap) == c
    ensures CleanFrom(s, i, c, job.off, job.End(), job.cap) == CleanPast(job, reqs, i, c)
  {
    hide CleanFrom, Advance, CleanPast, SameFrom;
    FreeSame(reqs, s, i, job.cap);
    RightNext(reqs, i);
    FreeRest(job, reqs, s, i, c);
  }

  lemma FreeRest(job: Job, reqs: seq<Request>, s: seq<Request>, i: nat, c: nat)
    requires 0 < job.cap && i < |reqs| == |s| + 1 && job.off <= c <= job.End()
    requires RightApart(reqs, i + 1) && SameFrom(reqs, i + 1, s, i)
    requires c > job.off || i == |s| || reqs[i + 1].offset > job.off
    requires Advance(reqs[i], c, job.off, job.End(), job.cap) == c
    ensures CleanFrom(s, i, c, job.off, job.End(), job.cap) == CleanPast(job, reqs, i, c)
  {
    hide CleanFrom, Advance, SameFrom, RightApart;
    CleanSame(reqs, i + 1, s, i, c, job.off, job.End(), job.cap);
  }

  lemma RightNext(reqs: seq<Request>, i: nat)
    requires RightApart(reqs, i)
    ensures RightApart(reqs, i + 1)
  {
  }

  lemma FreeSame(reqs: seq<Request>, s: seq<Request>, i: nat, cap: nat)
    requires i < |reqs| == |s| + 1 && Sized(reqs, cap)
    requires forall k {:trigger s[k]} :: i <= k < |s| ==> Alike(s[k], reqs[k + 1])
    ensures SameFrom(reqs, i + 1, s, i)
  {
    forall k | i + 1 <= k < |reqs|
      ensures Alike(reqs[k], s[k - (i + 1) + i]) && |reqs[k].data| > 0
    {
      assert Alike(s[k - 1], reqs[k]);
    }
  }

  lemma MergeFree(job: Job, reqs: seq<Request>, i: nat, p: int, c: nat, size: nat)
    requires JobOk(job) && Mid(job, reqs, i, p, c, size) && p >= 0 && !TwoIpMerge(job, reqs, i, p, c)
    requires Cut(reqs[p], reqs[i], job.cap) >= |reqs[i].data|
    ensures Head(job, Merged(reqs, p, i, job.cap), i, p, c, size)
  {
    hide Shows, CleanFrom, Clean, Held, Within, CleanPast, NewDest, Cut, Merged, RightApart, From, Remove;
    var d, s := NewDest(reqs[p], reqs[i], job.cap), Merged(reqs, p, i, job.cap);
    MergeLate(job, reqs, i, p, c, size);
    MergedShape(reqs, p, i, job.cap);
    FreeCommon(job, reqs, i, p, c, size, d, s);
    MergePair(reqs[p], reqs[i], job.cap);
    if Bad(job, reqs, i, c) {
      OverlapStays(reqs, s, i, i);
    } else {
      FreeApart(reqs, i, d, s, job.cap);
      MergeShows(job, reqs, i, c);
      FreeEnd(job, reqs, i, p, c, size);
      FreeClean(job, reqs, s, i, c);
    }
  }

  lemma FreeEnd(job: Job, reqs: seq<Request>, i: nat, p: int, c: nat, size: nat)
    requires JobOk(job) && Common(job, reqs, i, p, c, size) && i < |reqs| && 0 <= p && c > job.off
    requires Cut(reqs[p], reqs[i], job.cap) >= |reqs[i].data|
    requires c < job.End() ==> NewDest(reqs[p], reqs[i], job.cap) == reqs[p]
    ensures Advance(reqs[i], c, job.off, job.End(), job.cap) == c
  {
    hide Held, Within;
    MergePair(reqs[p], reqs[i], job.cap);
  }

  // ---------------------------------------------------------------- the unlucky merge

  lemma TwoIpFacts(job: Job, reqs: seq<Request>, i: nat, p: int, c: nat, size: nat)
    requires JobOk(job) && Mid(job, reqs, i, p, c, size) && TwoIpMerge(job, reqs, i, p, c)
    ensures p == i - 1 && reqs == job.orig && size == job.size && reqs[p].End() == c == reqs[i].offset
    ensures reqs[p].state == Ip && reqs[i].state == Ip && Cut(reqs[p], reqs[i], job.cap) ==
            Min(job.cap - |reqs[p].data|, |reqs[i].data|)
    ensures Clean(job.orig, job.off, |job.data|, job.cap) <==>
            !TwoIp(reqs, i, job.off, job.cap) && CleanPast(job, reqs, i, c)
  {
    hide Shows, CleanFrom, Clean, Held, Within, Overlap, CleanPast, TwoIp;
  }

  lemma TrimFacts(reqs: seq<Request>, p: nat, i: nat, d: Request, k: nat, s: seq<Request>)
    requires p < i < |reqs| && k <= |reqs[i].data| && SameBytes(s, reqs[p := d][i := Behead(reqs[i], k)])
    ensures |s| == |reqs| && Alike(s[p], d) && s[i].offset == reqs[i].offset + k && s[i].End() == reqs[i].End()
    ensures forall j {:trigger s[j]} :: 0 <= j < |s| && j != p && j != i ==> Alike(s[j], reqs[j])
  {
  }

  lemma UnluckyTrim(job: Job, reqs: seq<Request>, i: nat, p: int, c: nat, d: Request, k: nat, s: seq<Request>)
    requires 0 <= p == i - 1 && i < |reqs| && Sized(reqs, job.cap) && RightApart(reqs, i) && Within(reqs, job.size)
    requires 0 < |d.data| <= job.cap && d.End() == c + k && k < |reqs[i].data| && c == reqs[i].offset
    requires SameBytes(s, reqs[p := d][i := Behead(reqs[i], k)])
    ensures Sized(s, job.cap) && RightApart(s, i) && Within(s, job.size)
  {
    TrimFacts(reqs, p, i, d, k, s);
    hide SameBytes;
  }

  lemma UnluckyFree(job: Job, reqs: seq<Request>, i: nat, p: int, c: nat, d: Request, s: seq<Request>)
    requires 0 <= p == i - 1 && i + 1 < |reqs| && Sized(reqs, job.cap) && RightApart(reqs, i) && Within(reqs, job.size)
    requires 0 < |d.data| <= job.cap && c < d.End() <= reqs[i].End()
    requires SameBytes(s, Remove(reqs[p := d], i))
    ensures Sized(s, job.cap) && RightApart(s, i) && Within(s, job.size) && c < s[i].offset
  {
    FreeFacts(reqs, p, i, d, s);
    hide SameBytes, Remove;
    assert reqs[i].End() <= reqs[i + 1].offset;
  }

  lemma UnluckyPending(job: Job, reqs: seq<Request>, i: nat, p: int, c: nat, size: nat)
    requires JobOk(job) && Mid(job, reqs, i, p, c, size) && TwoIpMerge(job, reqs, i, p, c)
    requires Cut(reqs[p], reqs[i], job.cap) < |reqs[i].data| || i + 1 < |reqs|
    ensures Pending(job, Merged(reqs, p, i, job.cap), i, p, c, size)
  {
    TwoIpFacts(job, reqs, i, p, c, size);
    assert TwoIp(reqs, i, job.off, job.cap);
    hide Shows, CleanFrom, Clean, Held, CleanPast, Merged, TwoIp, NewDest, Cut, Remove, HeldOne, One, SameBytes;
    hide Sized, RightApart, Within, Good, Bad;
    var d, k, s := NewDest(reqs[p], reqs[i], job.cap), Cut(reqs[p], reqs[i], job.cap), Merged(reqs, p, i, job.cap);
    MergedShape(reqs, p, i, job.cap);
    SizedPair(reqs, p, i, job.cap);
    MergePair(reqs[p], reqs[i], job.cap);
    TrimHeld(reqs, p, i, job.cap, job.under);
    UnluckyReach(reqs[p], reqs[i], job.cap);
    if k < |reqs[i].data| {
      TrimFacts(reqs, p, i, d, k, s);
      UnluckyTrim(job, reqs, i, p, c, d, k, s);
      HeldSame(s, reqs[p := d][i := Behead(reqs[i], k)], job.under);
    } else {
      FreeFacts(reqs, p, i, d, s);
      UnluckyFree(job, reqs, i, p, c, d, s);
      HeldSame(s, Remove(reqs[p := d], i), job.under);
    }
  }

  lemma SizedPair(reqs: seq<Request>, p: nat, i: nat, cap: nat)
    requires Sized(reqs, cap) && p < |reqs| && i < |reqs|
    ensures 0 < |reqs[p].data| <= cap && 0 < |reqs[i].data| <= cap
  {
  }

  lemma UnluckyReach(dest: Request, src: Request, cap: nat)
    requires 0 < |dest.data| <= cap && 0 < |src.data| <= cap && src.offset == dest.End() && Cut(dest, src, cap) > 0
    ensures NewDest(dest, src, cap).End() == dest.End() + Cut(dest, src, cap)
  {
    FillOne(dest, dest.End(), src.data[0..], cap);
  }

  // The last two requests became one: the traversal ends, and the write starts over.
  lemma LuckyRestart(job: Job, reqs: seq<Request>, i: nat, p: int, c: nat, size: nat)
    requires JobOk(job) && Mid(job, reqs, i, p, c, size) && TwoIpMerge(job, reqs, i, p, c)
    requires Cut(reqs[p], reqs[i], job.cap) >= |reqs[i].data| && i + 1 == |reqs|
    ensures Restart(job, Merged(reqs, p, i, job.cap), i, p, c, size)
  {
    TwoIpFacts(job, reqs, i, p, c, size);
    assert !TwoIp(reqs, i, job.off, job.cap) && CleanPast(job, reqs, i, c);
    hide Shows, CleanFrom, Held, CleanPast, Merged, TwoIp, NewDest, Cut, Remove, HeldOne, One, Look;
    var d, s := NewDest(reqs[p], reqs[i], job.cap), Merged(reqs, p, i, job.cap);
    MergedShape(reqs, p, i, job.cap);
    MergePair(reqs[p], reqs[i], job.cap);
    UnluckyReach(reqs[p], reqs[i], job.cap);
    FreeFacts(reqs, p, i, d, s);
    FreeHeld(job, reqs, p, i, d, s);
    forall x: nat
      ensures Look(s, x) == Look(job.orig, x)
    {
      MergeLook(reqs, i, job.cap, x);
    }
    RestartClean(s, p, job.off, job.End(), job.cap);
  }

  lemma RestartClean(s: seq<Request>, p: nat, off: nat, end: nat, cap: nat)
    requires 0 < cap && off <= end && |s| == p + 1 && s[p].offset < off <= s[p].End() && s[p].state == Ip
    requires forall k {:trigger s[k]} :: 0 <= k < p ==> s[k].End() < off
    ensures CleanFrom(s, 0, off, off, end, cap)
  {
    CleanSkip(s, 0, p, off, end, cap);
    assert CleanFrom(s, p + 1, Advance(s[p], off, off, end, cap), off, end, cap);
    VisitUnfold(s, p, off, off, end, cap);
  }

  // ---------------------------------------------------------------- updating in place

  // Request i takes the next bytes.
  ghost predicate Updatable(job: Job, q: Request, c: nat)
  {
    q.state != Ip && q.offset <= c < job.End() && (c < q.End() || (c == q.End() && |q.data| < job.cap))
  }

  lemma UpdateAdvance(job: Job, reqs: seq<Request>, i: nat, p: int, c: nat, size: nat)
    requires JobOk(job) && Post(job, reqs, i, p, c, size) && Updatable(job, reqs[i], c) && !Bad(job, reqs, i, c)
    ensures Advance(reqs[i], c, job.off, job.End(), job.cap) == c + Room(reqs[i], c, job.End() - c, job.cap)
  {
    hide Shows, CleanFrom, Clean, Held, Within, CleanPast, TwoIp, Apart, ApartBut, RightApart, From;
  }

  lemma UpdateCommon(job: Job, reqs: seq<Request>, i: nat, c: nat, size: nat, f: Request, n: nat, s: seq<Request>)
    requires JobOk(job) && i < |reqs| && job.off <= c && reqs[i].offset <= c && c + n <= job.End() && 0 < n
    requires Sized(reqs, job.cap) && RightApart(reqs, i) && Within(reqs, size) && Held(reqs, job.under)
             && c <= reqs[i].End()
    requires size == (if c > job.off then Max(job.size, c) else job.size)
    requires f.offset == reqs[i].offset && f.state == reqs[i].state != Ip && f.End() == Max(reqs[i].End(), c + n)
             && |f.data| <= job.cap
    requires c + n < job.End() ==> c + n == f.offset + job.cap
    requires SameBytes(s, reqs[i := f])
    ensures Common(job, s, i + 1, i, c + n, Max(size, c + n))
  {
    HeldSame(s, reqs[i := f], job.under);
    UpdateShape(reqs, i, f, s, job.cap, size, Max(size, c + n), job.off);
    hide Held, JobOk, SameBytes, Sized, RightApart, Within, From;
  }

  lemma UpdateShape(reqs: seq<Request>, i: nat, f: Request, s: seq<Request>, cap: nat, size: nat, size': nat, off: nat)
    requires i < |reqs| && Sized(reqs, cap) && RightApart(reqs, i) && Within(reqs, size) && SameBytes(s, reqs[i := f])
    requires f.offset == reqs[i].offset && 0 < |f.data| <= cap && size <= size' && f.End() <= size'
             && off <= reqs[i].End()
    ensures Sized(s, cap) && RightApart(s, i + 1) && Within(s, size') && From(s, i + 1, off) && Alike(s[i], f)
    ensures i + 1 < |s| ==> f.offset <= s[i + 1].offset
  {
    assert forall k :: 0 <= k < |s| && k != i ==> Alike(s[k], reqs[k]);
    assert forall k :: i + 1 <= k < |s| ==> reqs[i].End() <= reqs[k].offset;
  }

  lemma UpdateShows(job: Job, reqs: seq<Request>, i: nat, c: nat, f: Request, n: nat, s: seq<Request>)
    requires i < |reqs| && Apart(reqs) && Shows(job, reqs, c) && job.off <= c && c + n <= job.End()
             && reqs[i].offset <= c
    requires Takes(job, reqs[i], c, n, f) && SameBytes(s, reqs[i := f])
    ensures Shows(job, s, c + n)
  {
    hide LookIn, Look, One, SameBytes;
    forall x: nat
      ensures job.off <= x < c + n && x < job.End() ==> Look(s, x) == Some(job.data[x - job.off])
      ensures !(job.off <= x < job.End()) ==> Look(s, x) == Look(job.orig, x)
    {
      LookAlike(s, reqs[i := f], x);
      ReplaceLook(reqs, i, f, x);
      LookAt(reqs, i, x);
      LookMiss(reqs, 0, i, x);
    }
  }

  lemma UpdateApart(reqs: seq<Request>, i: nat, f: Request, s: seq<Request>, cap: nat)
    requires i < |reqs| && Apart(reqs) && Sized(reqs, cap) && f.offset == reqs[i].offset && SameBytes(s, reqs[i := f])
    ensures ApartBut(s, i)
  {
    var t := reqs[i := f];
    assert ApartBut(t, i);
  }

  lemma UpdateStep(job: Job, reqs: seq<Request>, i: nat, p: int, c: nat, size: nat, rest: seq<byte>, s: seq<Request>)
    requires JobOk(job) && Post(job, reqs, i, p, c, size) && Updatable(job, reqs[i], c)
             && rest == job.data[c - job.off..]
    requires job.off <= c && i < |reqs| && |reqs[i].data| <= job.cap
             && SameBytes(s, reqs[i := Fill(reqs[i], c, rest, job.cap)])
    ensures var c' := c + Room(reqs[i], c, |rest|, job.cap);
            c < c' && Head(job, s, i + 1, i, c', Max(size, c'))
  {
    hide Post, Head, Apart, Sized, Held, Within, Takes, SameBytes, Fill;
    var f, n := Fill(reqs[i], c, rest, job.cap), Room(reqs[i], c, |rest|, job.cap);
    FillNext(job, reqs[i], c, rest);
    UpdatePlaced(job, reqs, i, p, c, size, f, n, s);
  }

  lemma UpdatePlaced(job: Job, reqs: seq<Request>, i: nat, p: int, c: nat, size: nat, f: Request, n: nat,
      s: seq<Request>)
    requires JobOk(job) && Post(job, reqs, i, p, c, size) && Updatable(job, reqs[i], c) && SameBytes(s, reqs[i := f])
    requires 0 < n == Room(reqs[i], c, job.End() - c, job.cap) && c + n <= job.End() && Takes(job, reqs[i], c, n, f)
    requires c + n < job.End() ==> c + n == f.offset + job.cap
    requires f.offset == reqs[i].offset && f.state == reqs[i].state && f.End() == Max(reqs[i].End(), c + n)
             && |f.data| <= job.cap
    ensures Head(job, s, i + 1, i, c + n, Max(size, c + n))
  {
    hide Shows, CleanFrom, Clean, Held, Within, Fill, Sized, RightApart, From, TwoIp, Look, Advance, Takes, SameBytes,
         Overlap, CleanPast, Apart, ApartBut, Room;
    UpdateCommon(job, reqs, i, c, size, f, n, s);
    if Bad(job, reqs, i, c) {
      UpdateOverlap(reqs, i, f, s);
    } else {
      UpdateApart(reqs, i, f, s, job.cap);
      UpdateShows(job, reqs, i, c, f, n, s);
      UpdateAdvance(job, reqs, i, p, c, size);
      UpdateClean(job, reqs, i, c, f, n, s);
    }
  }

  // After filling, a request shows n bytes of the write more.
  ghost predicate Takes(job: Job, q: Request, c: nat, n: nat, f: Request)
  {
    && job.off <= c && c + n <= job.End()
    && forall x: nat {:trigger One(f, x)} :: One(f, x) == if c <= x < c + n then Some(job.data[x - job.off])
        else One(q, x)
  }

  lemma FillNext(job: Job, q: Request, c: nat, rest: seq<byte>)
    requires job.off <= c < job.End() && rest == job.data[c - job.off..] && Updatable(job, q, c) && |q.data| <= job.cap
    ensures |rest| == job.End() - c
    ensures var f, n := Fill(q, c, rest, job.cap), Room(q, c, |rest|, job.cap);
            && 0 < n && Takes(job, q, c, n, f) && (c + n < job.End() ==> c + n == f.offset + job.cap)
            && f.offset == q.offset && f.state == q.state && f.End() == Max(q.End(), c + n) && |f.data| <= job.cap
  {
    FillOne(q, c, rest, job.cap);
    hide One, Fill;
  }

  lemma UpdateOverlap(reqs: seq<Request>, i: nat, f: Request, s: seq<Request>)
    requires Overlap(reqs, i) && i < |reqs| && SameBytes(s, reqs[i := f])
    ensures Overlap(s, i + 1)
  {
    OverlapStays(reqs, s, i, i + 1);
  }

  lemma UpdateClean(job: Job, reqs: seq<Request>, i: nat, c: nat, f: Request, n: nat, s: seq<Request>)
    requires JobOk(job) && i < |reqs| && RightApart(reqs, i) && Sized(reqs, job.cap) && job.off <= c && 0 < n
             && c + n <= job.End()
    requires SameBytes(s, reqs[i := f]) && Advance(reqs[i], c, job.off, job.End(), job.cap) == c + n
    ensures CleanFrom(s, i + 1, c + n, job.off, job.End(), job.cap) == CleanPast(job, reqs, i, c)
  {
    SuffixClean(job, reqs, s, i + 1, c + n);
  }

  lemma SuffixSame(reqs: seq<Request>, s: seq<Request>, j: nat, cap: nat)
    requires j <= |reqs| == |s| && Sized(reqs, cap)
    requires forall k {:trigger s[k]} :: j <= k < |s| ==> Alike(s[k], reqs[k])
    ensures SameFrom(reqs, j, s, j)
  {
    forall k | j <= k < |reqs|
      ensures Alike(reqs[k], s[k - j + j]) && |reqs[k].data| > 0
    {
      assert Alike(s[k], reqs[k]);
    }
  }

  // Later requests are as they were.
  lemma SuffixClean(job: Job, reqs: seq<Request>, s: seq<Request>, j: nat, c: nat)
    requires JobOk(job) && 0 < j <= |reqs| == |s| && RightApart(reqs, j - 1) && Sized(reqs, job.cap)
             && job.off <= c <= job.End()
    requires forall k {:trigger s[k]} :: j <= k < |s| ==> Alike(s[k], reqs[k])
    requires c > job.off || j == |reqs| || reqs[j].offset > job.off
    ensures CleanFrom(s, j, c, job.off, job.End(), job.cap) == CleanFrom(reqs, j, c, job.off, job.End(), job.cap)
  {
    SuffixSame(reqs, s, j, job.cap);
    hide SameFrom, Sized;
    CleanSame(reqs, j, s, j, c, job.off, job.End(), job.cap);
  }

  // ---------------------------------------------------------------- index partition requests

  // Request i is bound for the index partition and in the way of the next bytes.
  ghost predicate InTheWay(job: Job, q: Request, c: nat)
  {
    q.state == Ip && q.offset <= c < job.End() && c < q.End()
  }

  // With a previous request, the one in the way starts at the cursor; without, nothing has
  // been placed yet.
  lemma WayFacts(job: Job, reqs: seq<Request>, i: nat, p: int, c: nat, size: nat)
    requires JobOk(job) && Post(job, reqs, i, p, c, size) && InTheWay(job, reqs[i], c)
    ensures c > reqs[i].offset ==> p == -1 && c == job.off && !Bad(job, reqs, i, c)
    ensures i + 1 < |reqs| ==> c < reqs[i + 1].offset
    ensures job.off <= c && reqs[i].End() <= size && 0 < |reqs[i].data| <= job.cap && HeldOne(reqs[i], job.under)
    ensures i > 0 ==> reqs[i - 1].End() <= c
  {
    hide Shows, CleanFrom, Clean, CleanPast, HeldOne, One, Look;
    assert i + 1 < |reqs| ==> reqs[i].End() <= reqs[i + 1].offset;
  }

  // The write covers the request: remove it.
  lemma RemoveStep(job: Job, reqs: seq<Request>, i: nat, p: int, c: nat, size: nat)
    requires JobOk(job) && Post(job, reqs, i, p, c, size) && InTheWay(job, reqs[i], c)
    requires c == reqs[i].offset && reqs[i].End() <= job.End()
    ensures Head(job, Remove(reqs, i), i, p, c, size)
  {
    WayFacts(job, reqs, i, p, c, size);
    hide Shows, CleanFrom, Clean, Held, Within, Sized, RightApart, From, TwoIp, Look, Remove, Overlap, CleanPast,
         Apart, ApartBut;
    var s := Remove(reqs, i);
    RemoveCommon(job, reqs, i, p, c, size);
    if Bad(job, reqs, i, c) {
      OverlapStays(reqs, s, i, i);
    } else {
      RemoveGood(job, reqs, i, c);
    }
  }

  lemma RemoveCommon(job: Job, reqs: seq<Request>, i: nat, p: int, c: nat, size: nat)
    requires JobOk(job) && Common(job, reqs, i, p, c, size) && i < |reqs| && reqs[i].offset <= c
    requires i + 1 < |reqs| ==> c < reqs[i + 1].offset
    ensures Common(job, Remove(reqs, i), i, p, c, size)
  {
    hide Remove, HeldOne, JobOk;
  }

  lemma RemoveGood(job: Job, reqs: seq<Request>, i: nat, c: nat)
    requires JobOk(job) && i < |reqs| && Apart(reqs) && Shows(job, reqs, c) && job.off <= c && Sized(reqs, job.cap)
    requires InTheWay(job, reqs[i], c) && c == reqs[i].offset && reqs[i].End() <= job.End()
    ensures ApartBut(Remove(reqs, i), -1) && ApartBut(Remove(reqs, i), i - 1) && Shows(job, Remove(reqs, i), c)
    ensures CleanFrom(Remove(reqs, i), i, c, job.off, job.End(), job.cap) == CleanPast(job, reqs, i, c)
    ensures i + 1 < |reqs| ==> !TwoIp(Remove(reqs, i), i, job.off, job.cap)
  {
    RemoveApart(reqs, i, job.cap);
    RemoveShows(job, reqs, i, c);
    RemoveClean(job, reqs, i, c);
    hide Remove, Shows, CleanFrom, CleanPast, ApartBut;
    assert i + 1 < |reqs| ==> reqs[i].End() <= reqs[i + 1].offset;
  }

  lemma RemoveApart(reqs: seq<Request>, i: nat, cap: nat)
    requires i < |reqs| && Apart(reqs) && Sized(reqs, cap)
    ensures Apart(Remove(reqs, i)) && ApartBut(Remove(reqs, i), -1) && ApartBut(Remove(reqs, i), i - 1)
  {
    hide Remove;
    assert Apart(Remove(reqs, i));
  }

  lemma RemoveShows(job: Job, reqs: seq<Request>, i: nat, c: nat)
    requires i < |reqs| && Shows(job, reqs, c) && job.off <= c
    requires c <= reqs[i].offset && reqs[i].End() <= job.End()
    ensures Shows(job, Remove(reqs, i), c)
  {
    hide LookIn, Look, Remove;
    var s := Remove(reqs, i);
    forall x: nat
      ensures job.off <= x < c && x < job.End() ==> Look(s, x) == Some(job.data[x - job.off])
      ensures !(job.off <= x < job.End()) ==> Look(s, x) == Look(job.orig, x)
    {
      LookAt(reqs, i, x);
      RemoveLook(reqs, i, x);
    }
  }

  lemma RemoveClean(job: Job, reqs: seq<Request>, i: nat, c: nat)
    requires JobOk(job) && i < |reqs| && Apart(reqs) && job.off <= c && Sized(reqs, job.cap)
    requires InTheWay(job, reqs[i], c) && c == reqs[i].offset && reqs[i].End() <= job.End()
    ensures CleanFrom(Remove(reqs, i), i, c, job.off, job.End(), job.cap) == CleanPast(job, reqs, i, c)
  {
    hide CleanFrom, Remove;
    assert Advance(reqs[i], c, job.off, job.End(), job.cap) == c;
    assert i + 1 < |reqs| ==> reqs[i].End() <= reqs[i + 1].offset;
    assert RightApart(reqs, i);
    FreeClean(job, reqs, Remove(reqs, i), i, c);
  }

  // The write covers the front of the request: cut that off.  The rest of the write then
  // goes in front of it.
  lemma FrontStep(job: Job, reqs: seq<Request>, i: nat, p: int, c: nat, size: nat)
    requires JobOk(job) && Post(job, reqs, i, p, c, size) && InTheWay(job, reqs[i], c)
    requires c == reqs[i].offset && job.End() < reqs[i].End()
    ensures Mid(job, reqs[i := Behead(reqs[i], job.End() - c)], i, p, c, size)
    ensures job.End() == Behead(reqs[i], job.End() - c).offset
  {
    WayFacts(job, reqs, i, p, c, size);
    hide Shows, CleanFrom, Clean, Held, Within, Sized, RightApart, From, Look, Overlap, CleanPast, Apart, ApartBut;
    var r := Behead(reqs[i], job.End() - c);
    var s := reqs[i := r];
    FrontCommon(job, reqs, i, p, c, size, r);
    if Bad(job, reqs, i, c) {
      OverlapStays(reqs, s, i, i);
    } else {
      FrontApart(reqs, i, r, p);
      FrontShows(job, reqs, i, c, r);
      FrontClean(job, reqs, i, c, r);
    }
  }

  lemma FrontCommon(job: Job, reqs: seq<Request>, i: nat, p: int, c: nat, size: nat, r: Request)
    requires JobOk(job) && Common(job, reqs, i, p, c, size) && i < |reqs|
    requires InTheWay(job, reqs[i], c) && c == reqs[i].offset && job.End() < reqs[i].End()
             && r == Behead(reqs[i], job.End() - c)
    ensures Common(job, reqs[i := r], i, p, c, size)
  {
    HeldPart(reqs[i], r, job.under);
    hide HeldOne, JobOk;
  }

  lemma FrontApart(reqs: seq<Request>, i: nat, r: Request, p: int)
    requires i < |reqs| && Apart(reqs) && reqs[i].offset <= r.offset && r.End() <= reqs[i].End() && p < i
             && |r.data| > 0
    requires forall k {:trigger reqs[k]} :: 0 <= k < |reqs| ==> |reqs[k].data| > 0
    ensures Apart(reqs[i := r]) && ApartBut(reqs[i := r], p) && ApartBut(reqs[i := r], i)
  {
    assert Apart(reqs[i := r]);
  }

  lemma FrontShows(job: Job, reqs: seq<Request>, i: nat, c: nat, r: Request)
    requires i < |reqs| && Shows(job, reqs, c) && job.off <= c
    requires forall x: nat {:trigger One(r, x)} :: x < c || x >= job.End() ==> One(r, x) == One(reqs[i], x)
    ensures Shows(job, reqs[i := r], c)
  {
    hide LookIn, Look, One;
    var s := reqs[i := r];
    forall x: nat
      ensures x < c || x >= job.End() ==> Look(s, x) == Look(reqs, x)
    {
      LookAt(reqs, i, x);
      ReplaceLook(reqs, i, r, x);
    }
    assert Shows(job, s, c);
  }

  lemma FrontClean(job: Job, reqs: seq<Request>, i: nat, c: nat, r: Request)
    requires JobOk(job) && i < |reqs| && Apart(reqs) && job.off <= c && Sized(reqs, job.cap)
    requires InTheWay(job, reqs[i], c) && c == reqs[i].offset && job.End() < reqs[i].End() && r.offset == job.End()
             && r.End() == reqs[i].End()
    requires r.state == Ip
    ensures CleanPast(job, reqs[i := r], i, c) == CleanPast(job, reqs, i, c)
    ensures !TwoIp(reqs[i := r], i, job.off, job.cap)
  {
    hide CleanFrom;
    assert RightApart(reqs, i);
    SuffixClean(job, reqs, reqs[i := r], i + 1, job.End());
  }

  // The front of a request, up to offset `c`.
  function Shorten(r: Request, c: nat): Request
    requires r.offset <= c <= r.End()
  {
    r.(data := r.data[..c - r.offset])
  }

  // The write covers the end of the request: cut that off and go on behind it.
  lemma BackStep(job: Job, reqs: seq<Request>, i: nat, p: int, c: nat, size: nat)
    requires JobOk(job) && Post(job, reqs, i, p, c, size) && InTheWay(job, reqs[i], c)
    requires c > reqs[i].offset && reqs[i].End() <= job.End()
    ensures Head(job, reqs[i := Shorten(reqs[i], c)], i + 1, i, c, size)
  {
    WayFacts(job, reqs, i, p, c, size);
    hide Shows, CleanFrom, Clean, Held, Within, Sized, RightApart, From, Look, CleanPast, Apart, ApartBut, Overlap,
         TwoIp;
    var r := Shorten(reqs[i], c);
    BackCommon(job, reqs, i, c, size, r);
    BackApart(reqs, i, r, job.cap);
    FrontShows(job, reqs, i, c, r);
    BackClean(job, reqs, i, c, r);
  }

  lemma BackApart(reqs: seq<Request>, i: nat, r: Request, cap: nat)
    requires i < |reqs| && Apart(reqs) && Sized(reqs, cap) && reqs[i].offset <= r.offset && r.End() <= reqs[i].End()
             && |r.data| > 0
    ensures ApartBut(reqs[i := r], i)
  {
    FrontApart(reqs, i, r, -1);
  }

  lemma BackCommon(job: Job, reqs: seq<Request>, i: nat, c: nat, size: nat, r: Request)
    requires JobOk(job) && i < |reqs| && c == job.off && size == job.size && Sized(reqs, job.cap) && RightApart(reqs, i)
    requires Held(reqs, job.under) && Within(reqs, size) && InTheWay(job, reqs[i], c)
    requires c > reqs[i].offset && r == Shorten(reqs[i], c)
    ensures Common(job, reqs[i := r], i + 1, i, c, size)
  {
    HeldPart(reqs[i], r, job.under);
    hide HeldOne, JobOk;
    assert forall k :: i < k < |reqs| ==> reqs[i].End() <= reqs[k].offset;
  }

  lemma BackClean(job: Job, reqs: seq<Request>, i: nat, c: nat, r: Request)
    requires JobOk(job) && i < |reqs| && Apart(reqs) && c == job.off && Sized(reqs, job.cap)
    requires InTheWay(job, reqs[i], c) && reqs[i].End() <= job.End()
    ensures CleanFrom(reqs[i := r], i + 1, c, job.off, job.End(), job.cap) == CleanPast(job, reqs, i, c)
  {
    hide CleanFrom;
    assert RightApart(reqs, i);
    assert i + 1 < |reqs| ==> reqs[i].End() <= reqs[i + 1].offset;
    SuffixClean(job, reqs, reqs[i := r], i + 1, c);
  }

  // The write lies within the request: split it, and go on in front of the second part.
  function Tail(r: Request, end: nat): Request
    requires r.offset <= end <= r.End()
  {
    Request(end, r.data[end - r.offset..], Ip)
  }

  lemma SplitStep(job: Job, reqs: seq<Request>, i: nat, p: int, c: nat, size: nat)
    requires JobOk(job) && Post(job, reqs, i, p, c, size) && InTheWay(job, reqs[i], c)
    requires c > reqs[i].offset && job.End() < reqs[i].End()
    ensures p == -1 && Mid(job, Insert(reqs[i := Shorten(reqs[i], c)], i + 1, Tail(reqs[i], job.End())), i + 1, p, c,
            size)
  {
    WayFacts(job, reqs, i, p, c, size);
    hide Shows, CleanFrom, Clean, Held, Within, Sized, RightApart, From, Look, CleanPast, Apart, ApartBut, Overlap,
         Insert;
    var r, t := Shorten(reqs[i], c), Tail(reqs[i], job.End());
    var s := Insert(reqs[i := r], i + 1, t);
    SplitParts(reqs[i], c, job.End());
    hide Shorten, Tail;
    SplitCommon(job, reqs, i, c, size, r, t, s);
    SplitApart(reqs, i, r, t, s);
    SplitShows(job, reqs, i, c, r, t, s);
    SplitClean(job, reqs, i, c, r, t, s);
  }

  lemma SplitParts(q: Request, c: nat, end: nat)
    requires q.offset < c <= end < q.End() && q.state == Ip
    ensures var r, t := Shorten(q, c), Tail(q, end);
            && r.offset == q.offset && r.End() == c && t.offset == end && t.End() == q.End() && t.state == r.state == Ip
            && forall x: nat {:trigger One(r, x)} :: x < c || x >= end ==> Or(One(r, x), One(t, x)) == One(q, x)
  {
  }

  lemma SplitCommon(job: Job, reqs: seq<Request>, i: nat, c: nat, size: nat, r: Request, t: Request, s: seq<Request>)
    requires JobOk(job) && i < |reqs| && c == job.off && size == job.size && Sized(reqs, job.cap) && RightApart(reqs, i)
    requires Held(reqs, job.under) && Within(reqs, size) && InTheWay(job, reqs[i], c)
    requires c > reqs[i].offset && job.End() < reqs[i].End() && r == Shorten(reqs[i], c)
             && t == Tail(reqs[i], job.End())
    requires s == Insert(reqs[i := r], i + 1, t)
    ensures Common(job, s, i + 1, -1, c, size)
  {
    HeldPart(reqs[i], r, job.under);
    HeldPart(reqs[i], t, job.under);
    hide HeldOne, JobOk, Insert;
    assert forall k :: i < k < |reqs| ==> reqs[i].End() <= reqs[k].offset;
  }

  lemma SplitApart(reqs: seq<Request>, i: nat, r: Request, t: Request, s: seq<Request>)
    requires i < |reqs| && Apart(reqs) && r.offset == reqs[i].offset && r.End() <= t.offset && t.End() == reqs[i].End()
    requires s == Insert(reqs[i := r], i + 1, t)
    ensures Apart(s) && ApartBut(s, -1)
  {
    hide Insert;
    assert Apart(s);
  }

  lemma SplitShows(job: Job, reqs: seq<Request>, i: nat, c: nat, r: Request, t: Request, s: seq<Request>)
    requires i < |reqs| && Shows(job, reqs, c) && job.off <= c && s == Insert(reqs[i := r], i + 1, t)
    requires forall x: nat {:trigger One(r, x)} :: x < c || x >= job.End() ==>
             Or(One(r, x), One(t, x)) == One(reqs[i], x)
    ensures Shows(job, s, c)
  {
    hide LookIn, Look, One, Insert;
    forall x: nat
      ensures x < c || x >= job.End() ==> Look(s, x) == Look(reqs, x)
    {
      LookAt(reqs, i, x);
      PairLook(s, i + 1, x);
      LookSame(s, reqs, 0, 0, i, x);
      LookSame(s, reqs, -1, i + 2, |s|, x);
    }
    assert Shows(job, s, c);
  }

  lemma SplitClean(job: Job, reqs: seq<Request>, i: nat, c: nat, r: Request, t: Request, s: seq<Request>)
    requires JobOk(job) && i < |reqs| && Apart(reqs) && c == job.off && Sized(reqs, job.cap)
    requires InTheWay(job, reqs[i], c) && job.End() < reqs[i].End() && t.offset == job.End()
             && t.End() == reqs[i].End() && t.state == Ip
    requires s == Insert(reqs[i := r], i + 1, t)
    ensures CleanPast(job, s, i + 1, c) == CleanPast(job, reqs, i, c)
    ensures !TwoIp(s, i + 1, job.off, job.cap)
  {
    hide CleanFrom, Insert;
    assert RightApart(reqs, i + 1);
    forall k | i + 1 <= k < |reqs|
      ensures Alike(reqs[k], s[k - (i + 1) + (i + 2)])
    {
      assert s[k + 1] == reqs[k];
    }
    CleanSame(reqs, i + 1, s, i + 2, job.End(), job.off, job.End(), job.cap);
  }

  // ---------------------------------------------------------------- going on

  // Nothing to do at request i: it ends where the next bytes go, and cannot take them.
  lemma PassStep(job: Job, reqs: seq<Request>, i: nat, p: int, c: nat, size: nat)
    requires JobOk(job) && Post(job, reqs, i, p, c, size) && c < job.End() && reqs[i].offset <= c
    requires !Updatable(job, reqs[i], c) && !InTheWay(job, reqs[i], c)
    ensures Head(job, reqs, i + 1, i, c, size)
  {
    PassCommon(job, reqs, i, p, c, size);
    hide Shows, CleanFrom, Clean, Held, Within, Sized, RightApart, From, Look, TwoIp;
    PassApart(job, reqs, i);
  }

  lemma PassApart(job: Job, reqs: seq<Request>, i: nat)
    requires Apart(reqs) && Sized(reqs, job.cap)
    ensures ApartBut(reqs, i)
  {
  }

  lemma PassCommon(job: Job, reqs: seq<Request>, i: nat, p: int, c: nat, size: nat)
    requires JobOk(job) && Post(job, reqs, i, p, c, size) && c < job.End() && reqs[i].offset <= c
    requires !Updatable(job, reqs[i], c) && !InTheWay(job, reqs[i], c)
    ensures Common(job, reqs, i + 1, i, c, size) && Advance(reqs[i], c, job.off, job.End(), job.cap) == c == job.off
  {
    hide Shows, CleanFrom, Clean, Held, Within, Look, TwoIp, CleanPast, Overlap, ApartBut, Apart;
    assert forall k :: i < k < |reqs| ==> reqs[i].End() <= reqs[k].offset;
  }

  // Everything is placed already: go on to see whether more requests can be merged.
  lemma RestStep(job: Job, reqs: seq<Request>, i: nat, p: int, c: nat, size: nat)
    requires JobOk(job) && Post(job, reqs, i, p, c, size) && c == job.End()
    ensures Head(job, reqs, i + 1, i, c, size)
  {
    RestCommon(job, reqs, i, p, c, size);
    hide Shows, CleanFrom, Clean, Held, Within, Sized, RightApart, From, Look, TwoIp;
    if Bad(job, reqs, i, c) {
      OverlapStays(reqs, reqs, i, i + 1);
    } else {
      PassApart(job, reqs, i);
    }
  }

  lemma RestCommon(job: Job, reqs: seq<Request>, i: nat, p: int, c: nat, size: nat)
    requires JobOk(job) && Post(job, reqs, i, p, c, size) && c == job.End()
    ensures Common(job, reqs, i + 1, i, c, size) && Advance(reqs[i], c, job.off, job.End(), job.cap) == c
  {
    hide Shows, CleanFrom, Clean, Held, Within, Look, TwoIp, CleanPast, Overlap, ApartBut, Apart;
    assert forall k :: i < k < |reqs| ==> reqs[i].End() <= reqs[k].offset;
  }

  // How a traversal can end.
  ghost predicate Done(job: Job, reqs: seq<Request>, c: nat, size: nat)
    requires 0 < job.cap
  {
    && job.off <= c <= job.End() && Sized(reqs, job.cap) && Within(reqs, size)
    && size == (if c > job.off then Max(job.size, c) else job.size)
    && (Clean(job.orig, job.off, |job.data|, job.cap) ==> Apart(reqs) && Shows(job, reqs, c) && Held(reqs, job.under))
    && (!Clean(job.orig, job.off, |job.data|, job.cap) ==> c > job.off && !Apart(reqs))
    && (c < job.End() && reqs != [] && c < reqs[|reqs| - 1].End() ==>
        c == job.off && |reqs| < |job.orig| && Clean(reqs, job.off, |job.data|, job.cap)
        && forall x: nat {:trigger Look(reqs, x)} :: Look(reqs, x) == Look(job.orig, x))
  }

  // At the end of the list.
  lemma EndStep(job: Job, reqs: seq<Request>, i: nat, p: int, c: nat, size: nat)
    requires JobOk(job) && i == |reqs|
    requires Head(job, reqs, i, p, c, size) || Restart(job, reqs, i, p, c, size)
    ensures Done(job, reqs, c, size)
  {
    hide Look, Clean, Held, Within, Sized, From, RightApart;
    if Head(job, reqs, i, p, c, size) && !Bad(job, reqs, i, c) {
      assert CleanFrom(reqs, i, c, job.off, job.End(), job.cap);
      assert Apart(reqs);
    }
  }

  // Or at the first request that needed no merge, with everything placed.
  lemma StopStep(job: Job, reqs: seq<Request>, i: nat, p: int, c: nat, size: nat)
    requires JobOk(job) && Post(job, reqs, i, p, c, size) && c == job.End()
    ensures Done(job, reqs, c, size)
  {
    RestCommon(job, reqs, i, p, c, size);
    hide Look, Clean, Held, Within, From, CleanFrom, Shows, TwoIp;
    if !Bad(job, reqs, i, c) {
      forall k | i + 1 <= k < |reqs|
        ensures job.End() <= reqs[k].End()
      {
        assert reqs[i].End() <= reqs[k].offset;
      }
      CleanRest(reqs, i + 1, job.off, job.End(), job.cap);
    }
  }

  // ---------------------------------------------------------------- appending

  // The rest of the write goes behind everything.
  ghost predicate Appending(job: Job, reqs: seq<Request>, c: nat, size: nat)
    requires 0 < job.cap
  {
    && job.off <= c <= job.End() && Sized(reqs, job.cap) && Within(reqs, size)
        && (reqs == [] || reqs[|reqs| - 1].End() <= c)
    && size == (if c > job.off then Max(job.size, c) else job.size)
    && (Clean(job.orig, job.off, |job.data|, job.cap) ==> Apart(reqs) && Shows(job, reqs, c) && Held(reqs, job.under))
    && (!Clean(job.orig, job.off, |job.data|, job.cap) ==> c > job.off && !Apart(reqs))
  }

  lemma AppendStart(job: Job)
    requires JobOk(job) && (job.orig == [] || job.orig[|job.orig| - 1].End() <= job.off)
    ensures Appending(job, job.orig, job.off, job.size)
  {
    CleanAppend(job.orig, job.off, |job.data|, job.cap);
  }

  lemma NotApart(reqs: seq<Request>, s: seq<Request>)
    requires !Apart(reqs) && |reqs| <= |s|
    requires forall k {:trigger s[k]} :: 0 <= k < |reqs| ==>
             s[k].offset == reqs[k].offset && s[k].End() >= reqs[k].End()
    ensures !Apart(s)
  {
    var a, b :| 0 <= a < b < |reqs| && reqs[a].End() > reqs[b].offset;
    assert s[a].End() > s[b].offset;
  }

  lemma BeforeLast(reqs: seq<Request>, cap: nat, c: nat)
    requires Apart(reqs) && Sized(reqs, cap) && (reqs == [] || reqs[|reqs| - 1].End() <= c)
    ensures forall a {:trigger reqs[a]} :: 0 <= a < |reqs| ==> reqs[a].End() <= c
  {
    assert forall a :: 0 <= a < |reqs| - 1 ==> reqs[a].End() <= reqs[|reqs| - 1].offset;
  }

  lemma AppendInsert(job: Job, reqs: seq<Request>, c: nat, size: nat, r: Request)
    requires JobOk(job) && Appending(job, reqs, c, size) && NextChunk(job, c, r)
    ensures Appending(job, Insert(reqs, |reqs|, r), r.End(), Max(size, r.End()))
  {
    hide HeldOne, Insert, One, Clean, Shows;
    var s := Insert(reqs, |reqs|, r);
    if Clean(job.orig, job.off, |job.data|, job.cap) {
      BeforeLast(reqs, job.cap, c);
      InsertShows(job, reqs, |reqs|, c, r);
    } else {
      NotApart(reqs, s);
    }
  }

  lemma AppendUpdate(job: Job, reqs: seq<Request>, c: nat, size: nat, rest: seq<byte>, s: seq<Request>)
    requires JobOk(job) && Appending(job, reqs, c, size) && reqs != [] && c < job.End()
             && rest == job.data[c - job.off..]
    requires var q := reqs[|reqs| - 1];
             Updatable(job, q, c) && c == q.End() && SameBytes(s, reqs[|reqs| - 1 := Fill(q, c, rest, job.cap)])
    ensures var c' := c + Room(reqs[|reqs| - 1], c, |rest|, job.cap); c < c' && Appending(job, s, c', Max(size, c'))
  {
    var l := |reqs| - 1;
    var q := reqs[l];
    FillNext(job, q, c, rest);
    var f, n := Fill(q, c, rest, job.cap), Room(q, c, |rest|, job.cap);
    AppendFilled(job, reqs, c, size, f, n, s);
  }

  lemma AppendFilled(job: Job, reqs: seq<Request>, c: nat, size: nat, f: Request, n: nat, s: seq<Request>)
    requires JobOk(job) && Appending(job, reqs, c, size) && reqs != [] && c < job.End() && 0 < n && c + n <= job.End()
    requires var q := reqs[|reqs| - 1];
             c == q.End() && Takes(job, q, c, n, f) && f.offset == q.offset && f.state == q.state != Ip
                 && f.End() == c + n && |f.data| <= job.cap
    requires SameBytes(s, reqs[|reqs| - 1 := f])
    ensures Appending(job, s, c + n, Max(size, c + n))
  {
    hide Clean, Shows, Takes, Held, Sized, Within, Apart, SameBytes;
    var l := |reqs| - 1;
    AppendShape(reqs, f, s, job.cap, size, Max(size, c + n));
    if Clean(job.orig, job.off, |job.data|, job.cap) {
      UpdateShows(job, reqs, l, c, f, n, s);
      AppendHeld(reqs, l, f, s, job.under);
    } else {
      AppendNotApart(reqs, l, f, s);
    }
  }

  lemma AppendShape(reqs: seq<Request>, f: Request, s: seq<Request>, cap: nat, size: nat, size': nat)
    requires reqs != [] && Sized(reqs, cap) && Within(reqs, size) && SameBytes(s, reqs[|reqs| - 1 := f])
    requires f.offset == reqs[|reqs| - 1].offset && 0 < |f.data| <= cap && size <= size' && f.End() <= size'
    ensures Sized(s, cap) && Within(s, size') && |s| == |reqs| && s[|s| - 1].End() == f.End()
    ensures Apart(reqs) ==> Apart(s)
  {
    assert Alike(s[|s| - 1], f);
    assert forall k :: 0 <= k < |s| - 1 ==> Alike(s[k], reqs[k]);
  }

  lemma AppendHeld(reqs: seq<Request>, l: nat, f: Request, s: seq<Request>, under: seq<byte>)
    requires l < |reqs| && Held(reqs, under) && f.state != Ip && SameBytes(s, reqs[l := f])
    ensures Held(s, under)
  {
    HeldSame(s, reqs[l := f], under);
  }

  lemma AppendNotApart(reqs: seq<Request>, l: nat, f: Request, s: seq<Request>)
    requires l < |reqs| && !Apart(reqs) && f.offset == reqs[l].offset && f.End() >= reqs[l].End()
             && SameBytes(s, reqs[l := f])
    ensures !Apart(s)
  {
    var t := reqs[l := f];
    forall k | 0 <= k < |reqs|
      ensures s[k].offset == reqs[k].offset && s[k].End() >= reqs[k].End()
    {
      assert Alike(s[k], t[k]);
    }
    NotApart(reqs, s);
  }

  // ---------------------------------------------------------------- for the traversal itself

  // Where a traversal can stand in front of request i, or at the end of the list.
  ghost predicate Standing(job: Job, reqs: seq<Request>, i: nat, p: int, c: nat, size: nat)
    requires 0 < job.cap
  {
    Head(job, reqs, i, p, c, size) || Pending(job, reqs, i, p, c, size) || Restart(job, reqs, i, p, c, size)
  }

  ghost predicate Visiting(job: Job, reqs: seq<Request>, i: nat, p: int, c: nat, size: nat)
    requires 0 < job.cap
  {
    Mid(job, reqs, i, p, c, size) || Pending(job, reqs, i, p, c, size)
  }

  lemma VisitingFacts(job: Job, reqs: seq<Request>, i: nat, p: int, c: nat, size: nat)
    requires JobOk(job) && Visiting(job, reqs, i, p, c, size)
    ensures i < |reqs| && -1 <= p < i && job.off <= c <= job.End() && 0 < |reqs[i].data| <= job.cap
    ensures p >= 0 ==> 0 < |reqs[p].data| <= job.cap && (reqs[p].offset <= reqs[i].offset || c < reqs[i].offset)
    ensures p >= 0 ==> NewDest(reqs[p], reqs[i], job.cap).End() <= size || c < reqs[i].offset
    ensures reqs[i].End() <= size
  {
    if p >= 0 && reqs[p].offset <= reqs[i].offset {
      MergePair(reqs[p], reqs[i], job.cap);
    }
  }

  lemma PostFacts(job: Job, reqs: seq<Request>, i: nat, p: int, c: nat, size: nat)
    requires JobOk(job) && Post(job, reqs, i, p, c, size)
    ensures i < |reqs| && -1 <= p < i && job.off <= c <= job.End() && 0 < |reqs[i].data| <= job.cap
            && c <= reqs[i].End() <= size
  {
  }

  lemma StandingFacts(job: Job, reqs: seq<Request>, i: nat, p: int, c: nat, size: nat)
    requires JobOk(job) && Standing(job, reqs, i, p, c, size)
    ensures i <= |reqs| && -1 <= p < i && job.off <= c <= job.End()
    ensures Restart(job, reqs, i, p, c, size) ==> i == |reqs|
    ensures Pending(job, reqs, i, p, c, size) ==> i < |reqs| && c <= reqs[i].End() && c < reqs[i].offset
  {
  }

  // The traversal starts in front of the first request.
  lemma StartStep(job: Job)
    requires JobOk(job)
    ensures Head(job, job.orig, 0, -1, job.off, job.size)
  {
    hide Look, CleanFrom, Held, Within, Sized;
  }

  // What a merge leaves behind.
  lemma MergeStep(job: Job, reqs: seq<Request>, i: nat, p: int, c: nat, size: nat)
    requires JobOk(job) && Mid(job, reqs, i, p, c, size) && p >= 0
    ensures var k, s := Cut(reqs[p], reqs[i], job.cap), Merged(reqs, p, i, job.cap);
            && (k < |reqs[i].data| ==> Post(job, s, i, p, c, size) || Pending(job, s, i, p, c, size))
            && (k >= |reqs[i].data| ==> Standing(job, s, i, p, c, size))
            && (k == 0 ==> s == reqs)
  {
    hide Post, Head, Pending, Restart, Merged, Good, Bad;
    var k := Cut(reqs[p], reqs[i], job.cap);
    if k == 0 {
      MergeNone(job, reqs, i, p, c, size);
    } else if TwoIpMerge(job, reqs, i, p, c) {
      if k < |reqs[i].data| || i + 1 < |reqs| {
        UnluckyPending(job, reqs, i, p, c, size);
      } else {
        LuckyRestart(job, reqs, i, p, c, size);
      }
    } else if k < |reqs[i].data| {
      MergeTrim(job, reqs, i, p, c, size);
    } else {
      MergeFree(job, reqs, i, p, c, size);
    }
  }

  lemma ChunkOf(job: Job, c: nat, rest: seq<byte>, n: nat, s: State)
    requires 0 < job.cap && job.off <= c < job.End() && rest == job.data[c - job.off..] && n == Min(|rest|, job.cap)
             && s != Ip
    ensures NextChunk(job, c, Request(c, rest[..n], s)) && |rest| == job.End() - c && 0 < n
    ensures rest[n..] == job.data[c + n - job.off..]
  {
  }

  lemma VisitingMid(job: Job, reqs: seq<Request>, i: nat, p: int, c: nat, size: nat)
    requires 0 < job.cap && Mid(job, reqs, i, p, c, size)
    ensures Visiting(job, reqs, i, p, c, size) && i < |reqs|
  {
  }

  lemma VisitingCases(job: Job, reqs: seq<Request>, i: nat, p: int, c: nat, size: nat)
    requires JobOk(job) && Visiting(job, reqs, i, p, c, size)
    ensures Mid(job, reqs, i, p, c, size)
            || (Pending(job, reqs, i, p, c, size) && i < |reqs| && c < job.End() && c < reqs[i].offset)
  {
    hide Mid;
  }

  lemma MergedLength(reqs: seq<Request>, p: nat, i: nat, cap: nat)
    requires p < i < |reqs| && |reqs[p].data| <= cap && 0 < |reqs[i].data|
    ensures |Merged(reqs, p, i, cap)| == if Cut(reqs[p], reqs[i], cap) < |reqs[i].data| then |reqs| else |reqs| - 1
  {
    hide Merged, NewDest, Cut, Remove;
    MergedShape(reqs, p, i, cap);
  }

  lemma MidWithin(job: Job, reqs: seq<Request>, i: nat, p: int, c: nat, size: nat)
    requires JobOk(job) && Mid(job, reqs, i, p, c, size) && p >= 0
    ensures reqs[p].offset <= reqs[i].offset && NewDest(reqs[p], reqs[i], job.cap).End() <= size
  {
    MergePair(reqs[p], reqs[i], job.cap);
  }

  lemma HeadStanding(job: Job, reqs: seq<Request>, i: nat, p: int, c: nat, size: nat)
    requires 0 < job.cap && Head(job, reqs, i, p, c, size)
    ensures Standing(job, reqs, i, p, c, size)
  {
  }

  lemma PostOrPending(job: Job, reqs: seq<Request>, i: nat, p: int, c: nat, size: nat)
    requires JobOk(job) && (Post(job, reqs, i, p, c, size) || Pending(job, reqs, i, p, c, size))
    ensures i < |reqs| && (Pending(job, reqs, i, p, c, size) ==>
            c < job.End() && c < reqs[i].offset && Visiting(job, reqs, i, p, c, size))
    ensures !Pending(job, reqs, i, p, c, size) ==> Post(job, reqs, i, p, c, size)
    ensures c < reqs[i].offset && c < job.End() ==> Visiting(job, reqs, i, p, c, size)
  {
  }

  lemma StandingSkip(job: Job, reqs: seq<Request>, i: nat, p: int, c: nat, size: nat)
    requires JobOk(job) && Standing(job, reqs, i, p, c, size) && i < |reqs| && c > reqs[i].End()
    ensures Standing(job, reqs, i + 1, p, c, size)
  {
    StandingFacts(job, reqs, i, p, c, size);
    hide Head, Pending, Restart;
    SkipStep(job, reqs, i, p, c, size);
  }

  lemma StandingVisit(job: Job, reqs: seq<Request>, i: nat, p: int, c: nat, size: nat)
    requires JobOk(job) && Standing(job, reqs, i, p, c, size) && i < |reqs| && c <= reqs[i].End()
    ensures Visiting(job, reqs, i, p, c, size)
  {
    StandingFacts(job, reqs, i, p, c, size);
    hide Head, Pending, Restart, Mid;
    if !Pending(job, reqs, i, p, c, size) {
      EnterStep(job, reqs, i, p, c, size);
    }
  }

  lemma StandingEnd(job: Job, reqs: seq<Request>, i: nat, p: int, c: nat, size: nat)
    requires JobOk(job) && Standing(job, reqs, i, p, c, size) && i == |reqs|
    ensures Done(job, reqs, c, size)
  {
    StandingFacts(job, reqs, i, p, c, size);
    hide Head, Pending, Restart;
    EndStep(job, reqs, i, p, c, size);
  }

  lemma LastFacts(job: Job, reqs: seq<Request>, c: nat, size: nat)
    requires JobOk(job) && Appending(job, reqs, c, size) && reqs != []
    ensures 0 < |reqs[|reqs| - 1].data| <= job.cap && reqs[|reqs| - 1].End() <= c && job.off <= c
  {
  }

  // ---------------------------------------------------------------- the whole write

  // Requests `now` show the write over requests `was`.
  ghost predicate Written(was: seq<Request>, off: nat, data: seq<byte>, now: seq<Request>)
  {
    forall x: nat {:trigger Look(now, x)} :: Look(now, x) == if off <= x < off + |data| then Some(data[x - off])
        else Look(was, x)
  }

  // A write that has placed nothing yet, and shows what the first job showed.
  ghost predicate Fresh(first: Job, job: Job, reqs: seq<Request>, c: nat, size: nat)
    requires 0 < job.cap && first.cap == job.cap
  {
    && c == job.off && job.orig == reqs && job.size == size && JobOk(job)
    && job.off == first.off && job.data == first.data && job.size == first.size && job.under == first.under
    && (forall x: nat {:trigger Look(job.orig, x)} :: Look(job.orig, x) == Look(first.orig, x))
    && (Clean(job.orig, job.off, |job.data|, job.cap) <==> Clean(first.orig, first.off, |first.data|, first.cap))
  }

  // The outcome of a traversal: finished, to be appended, or to be started over.
  lemma AfterTraverse(first: Job, job: Job, reqs: seq<Request>, c: nat, size: nat)
    requires JobOk(job) && 0 < first.cap == job.cap && Fresh(first, job, job.orig, job.off, job.size)
             && Done(job, reqs, c, size)
    ensures job.off <= c <= job.End()
    ensures c == job.End() || reqs == [] || reqs[|reqs| - 1].End() <= c ==>
            reqs == [] || c == job.End() || Appending(job, reqs, c, size)
    ensures c < job.End() && reqs == [] ==> Appending(job, reqs, c, size)
    ensures var next := job.(orig := reqs);
            c < job.End() && reqs != [] && c < reqs[|reqs| - 1].End() ==>
              c == job.off && size == job.size && Fresh(first, next, reqs, c, size) && |reqs| < |job.orig|
                  && JobOk(next)
  {
    hide Clean, Look, Apart, Sized, Held, Within;
  }

  lemma WholeWrite(first: Job, job: Job, reqs: seq<Request>, size: nat)
    requires JobOk(job) && 0 < first.cap == job.cap && Fresh(first, job, job.orig, job.off, job.size)
    requires Appending(job, reqs, job.End(), size) || Done(job, reqs, job.End(), size)
    ensures Sized(reqs, first.cap) && Within(reqs, size) && size == Max(first.size, first.off + |first.data|)
    ensures Apart(reqs) <==> Clean(first.orig, first.off, |first.data|, first.cap)
    ensures Apart(reqs) ==> Held(reqs, first.under) && Written(first.orig, first.off, first.data, reqs)
  {
    hide Clean, Look, Sized, Held, Within;
    if Apart(reqs) {
      forall x: nat
        ensures Look(reqs, x) == if first.off <= x < first.off + |first.data| then Some(first.data[x - first.off])
                else Look(first.orig, x)
      {
        assert Look(job.orig, x) == Look(first.orig, x);
      }
    }
  }

  lemma FreshFirst(first: Job)
    requires JobOk(first)
    ensures Fresh(first, first, first.orig, first.off, first.size)
  {
  }

  lemma FreshFacts(first: Job, job: Job, reqs: seq<Request>, c: nat, size: nat)
    requires JobOk(job) && 0 < first.cap == job.cap && Fresh(first, job, reqs, c, size)
    ensures job.orig == reqs && job.size == size && c == job.off
    ensures reqs == [] || reqs[|reqs| - 1].End() <= c ==> Appending(job, reqs, c, size)
  {
    hide Clean, Apart, Sized, Held, Within;
    if reqs == [] || reqs[|reqs| - 1].End() <= c {
      AppendStart(job);
    }
  }
}
