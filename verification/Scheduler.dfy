// The unified I/O scheduler: per file, a write-back cache of requests over the extent store.
module Scheduler {
  import opened Medium
  import opened Volume
  import opened Extents
  import opened Flat
  import opened RawFile
  import opened Queues
  import opened Requests
  import opened Sweep
  import opened Placing
  import opened Keeping
  import opened Showing
  import opened Hiding
  import opened AltList
  import opened Carrying
  import opened Filling
  import opened View
  import opened Homing
  import opened Reading

  // Only file `id` changed its counters.
  ghost predicate OnlyMine(was: seq<Counters>, now: seq<Counters>, id: nat)
  {
    |was| == |now| && forall j {:trigger now[j]} :: 0 <= j < |now| && j != id ==> now[j] == was[j]
  }

  lemma OnlyMineSelf(a: seq<Counters>, id: nat)
    ensures OnlyMine(a, a, id)
  {
  }

  lemma OnlyMineOne(a: seq<Counters>, b: seq<Counters>, id: nat)
    requires id < |a| && |b| == |a| && b == a[id := b[id]]
    ensures OnlyMine(a, b, id)
  {
  }

  lemma OnlyMineTwice(a: seq<Counters>, b: seq<Counters>, c: seq<Counters>, id: nat)
    requires OnlyMine(a, b, id) && OnlyMine(b, c, id)
    ensures OnlyMine(a, c, id)
  {
  }

  // The write that a traversal is for.
  function PutOf(job: Job): Put
  {
    Put(job.off, job.data, job.cap)
  }

  // Between the rounds of a write, which start with a traversal of the list or append to it.
  ghost predicate Round(first: Job, job: Job, reqs: seq<Request>, c: nat, size: nat)
    requires 0 < first.cap == job.cap
  {
    && job.off == first.off && job.data == first.data && JobOk(job) && Fresh(first, job, job.orig, job.off, job.size)
    && job.off <= c <= job.End()
    && (if c == job.End() then Appending(job, reqs, c, size) || Done(job, reqs, c, size)
        else if PastAll(reqs, c) then Appending(job, reqs, c, size)
        else Fresh(first, job, reqs, c, size))
    && InOrder(reqs) && Holds(PutOf(first), first.orig, first.off, reqs, c)
    && Rest(PutOf(first), reqs, c) == Placed(PutOf(first), first.orig)
    && (!Hides(first.orig, first.off, first.cap) ==> Visible(first, job, reqs, c))
  }

  // What was placed shows, and what is to come will.
  ghost predicate Visible(first: Job, job: Job, reqs: seq<Request>, c: nat)
  {
    && !Hides(job.orig, job.off, job.cap) && Shown(PutOf(first), first.orig, reqs, c)
    && (c < job.End() && PastAll(reqs, c) ==> BackFrom(reqs, |reqs|, -1, c))
  }

  lemma VisibleFirst(first: Job)
    requires JobOk(first) && !Hides(first.orig, first.off, first.cap)
    ensures Visible(first, first, first.orig, first.off)
  {
    hide Look, Hides, Held, Within;
    if PastAll(first.orig, first.off) {
      BeforeLast(first.orig, first.cap, first.off);
    }
  }

  lemma VisibleAppended(first: Job, job: Job, reqs: seq<Request>, c: nat)
    requires 0 < first.cap == job.cap && first.off == job.off <= c < job.End() && first.data == job.data
    requires Visible(first, job, reqs, c) && PastAll(reqs, c)
    ensures Visible(first, job, AppendRun(PutOf(first), reqs, c), job.End())
  {
    hide Hides, Shown, AppendRun;
    AppendRunShown(PutOf(first), first.orig, reqs, c);
  }

  lemma VisibleTraversed(first: Job, job: Job, now: seq<Request>, c: nat, size: nat)
    requires 0 < first.cap == job.cap && Fresh(first, job, job.orig, job.off, job.size)
    requires !Hides(job.orig, job.off, job.cap) && Done(job, now, c, size)
    requires var t := TraverseRun(PutOf(job), Spot(job.orig, 0, -1, job.off)); now == t.reqs && c == t.c
    ensures Visible(first, NextJob(job, now, c), now, c)
  {
    hide Hides, TraverseRun, Kept, Clean, Apart, Sized, Held, Within, Look;
    StartKept(job);
    TraverseShown(PutOf(job), job.orig);
    assert Shown(PutOf(first), first.orig, now, c) by {
      forall x: nat
        ensures Look(job.orig, x) == Look(first.orig, x)
      {
      }
    }
    if c < job.End() && !PastAll(now, c) {
      CleanShows(now, job.off, |job.data|, job.cap);
    }
  }

  lemma VisibleJob(first: Job, job: Job, reqs: seq<Request>, size: nat)
    requires 0 < first.cap == job.cap && Round(first, job, reqs, job.off, size) && job.data != []
    requires !Hides(first.orig, first.off, first.cap)
    ensures !Hides(job.orig, job.off, job.cap) && Fresh(first, job, job.orig, job.off, job.size)
  {
    hide JobOk, Appending, Done, Rest, Placed, Holds, InOrder, Clean, Hides, Fresh;
  }

  lemma VisibleDone(first: Job, job: Job, reqs: seq<Request>)
    requires Visible(first, job, reqs, first.End())
    ensures Written(first.orig, first.off, first.data, reqs)
  {
    hide Look, Hides;
  }

  lemma RoundFirst(first: Job)
    requires JobOk(first)
    ensures Round(first, first, first.orig, first.off, first.size)
  {
    StartKept(first);
    hide Kept, Rest, Placed, Holds, InOrder, Appending, Clean, Apart, Sized, Held, Within;
    FreshFirst(first);
    FreshFacts(first, first, first.orig, first.off, first.size);
    HoldsSelf(PutOf(first), first.orig, first.off);
    RestFirst(PutOf(first), first.orig);
    hide Hides, Visible, JobOk, Fresh;
    if !Hides(first.orig, first.off, first.cap) {
      VisibleFirst(first);
    }
  }

  lemma RoundAppended(first: Job, job: Job, reqs: seq<Request>, c: nat, size: nat, now: seq<Request>, size': nat)
    requires 0 < first.cap == job.cap && Round(first, job, reqs, c, size) && c < job.End() && PastAll(reqs, c)
    requires now == AppendRun(PutOf(job), reqs, c) && Appending(job, now, job.End(), size')
    ensures Round(first, job, now, job.End(), size')
  {
    hide JobOk, Fresh, Appending, Done, AppendRun, Rest, Placed, Holds, InOrder, PastAll, Hides, Visible;
    if !Hides(first.orig, first.off, first.cap) {
      VisibleAppended(first, job, reqs, c);
    }
    AppendingSized(job, reqs, c, size);
    AppendRunKept(PutOf(first), reqs, c);
    HoldsTwice(PutOf(first), first.orig, first.off, reqs, c, now, job.End());
    RestAppend(PutOf(first), reqs, c);
  }

  lemma RoundFacts(first: Job, job: Job, reqs: seq<Request>, c: nat, size: nat)
    requires 0 < first.cap == job.cap && Round(first, job, reqs, c, size) && c < job.End()
    ensures JobOk(job) && job.off <= c && job.data == first.data && job.off == first.off
    ensures PastAll(reqs, c) ==> Appending(job, reqs, c, size)
    ensures !PastAll(reqs, c) ==> job.orig == reqs && job.size == size && c == job.off
  {
    hide JobOk, Appending, Done, Rest, Placed, Holds, InOrder, Clean, Hides, Visible;
  }

  // The job of the next round.
  ghost function NextJob(job: Job, reqs: seq<Request>, c: nat): Job
  {
    if c < job.End() && !PastAll(reqs, c) then job.(orig := reqs) else job
  }

  lemma RoundTraversed(first: Job, job: Job, reqs: seq<Request>, size: nat, now: seq<Request>, c: nat, size': nat)
    requires 0 < first.cap == job.cap && Round(first, job, reqs, job.off, size) && !PastAll(reqs, job.off)
             && job.data != []
    requires var t := TraverseRun(PutOf(job), Spot(reqs, 0, -1, job.off)); now == t.reqs && c == t.c
    requires Done(job, now, c, size')
    ensures job.off <= c <= job.End() && Round(first, NextJob(job, now, c), now, c, size')
    ensures c < job.End() && !PastAll(now, c) ==> |now| < |reqs|
  {
    hide TraverseRun, Rest, Placed, Holds, InOrder, Kept, Clean, Apart, Sized, Held, Within, Look, Hides, Visible;
    if !Hides(first.orig, first.off, first.cap) {
      VisibleJob(first, job, reqs, size);
      VisibleTraversed(first, job, now, c, size');
    }
    StartKept(job);
    TraverseRunKept(PutOf(job), Spot(reqs, 0, -1, job.off));
    FollowsFacts(PutOf(job), Spot(reqs, 0, -1, job.off), TraverseRun(PutOf(job), Spot(reqs, 0, -1, job.off)));
    HoldsTwice(PutOf(first), first.orig, first.off, reqs, job.off, now, c);
    AfterTraverse(first, job, now, c, size');
    RestTraverse(PutOf(first), reqs);
    hide JobOk, Fresh, Appending, Done;
  }

  lemma RoundDone(first: Job, job: Job, reqs: seq<Request>, size: nat)
    requires 0 < first.cap == job.cap && Round(first, job, reqs, job.End(), size)
    ensures Sized(reqs, first.cap) && Within(reqs, size) && size == Max(first.size, first.End())
    ensures Apart(reqs) <==> Clean(first.orig, first.off, |first.data|, first.cap)
    ensures Apart(reqs) ==> Held(reqs, first.under) && Written(first.orig, first.off, first.data, reqs)
    ensures !Hides(first.orig, first.off, first.cap) ==> Written(first.orig, first.off, first.data, reqs)
    ensures reqs == Placed(PutOf(first), first.orig) && InOrder(reqs)
    ensures Holds(PutOf(first), first.orig, first.off, reqs, first.End())
  {
    hide JobOk, Fresh, Appending, Done, Rest, Placed, Holds, InOrder, Clean, Apart, Sized, Held, Within, Written, Hides,
         Visible;
    if !Hides(first.orig, first.off, first.cap) {
      VisibleDone(first, job, reqs);
    }
    WholeWrite(first, job, reqs, size);
    RestDone(PutOf(first), reqs, job.End());
  }

  lemma StartKept(job: Job)
    requires JobOk(job)
    ensures Kept(PutOf(job), Spot(job.orig, 0, -1, job.off)) && InOrder(job.orig)
  {
  }

  lemma AppendingSized(job: Job, reqs: seq<Request>, c: nat, size: nat)
    requires 0 < job.cap && Appending(job, reqs, c, size)
    ensures Sized(reqs, job.cap)
  {
  }

  lemma FollowsFacts(w: Put, s: Spot, t: Spot)
    requires Follows(w, s, t)
    ensures InOrder(t.reqs) && Holds(w, s.reqs, s.c, t.reqs, t.c)
  {
  }

  // What is left of the write when the cursor is at c.
  ghost predicate Left(job: Job, c: nat, rest: seq<byte>)
  {
    job.off <= c <= job.End() && rest == job.data[c - job.off..]
  }

  lemma LeftFacts(job: Job, c: nat, rest: seq<byte>)
    requires Left(job, c, rest)
    ensures job.off <= c <= job.End() && |rest| == job.End() - c
  {
  }

  // The bytes that a new request takes from the rest of a write.
  lemma ChunkTaken(job: Job, c: nat, rest: seq<byte>, n: nat)
    requires 0 < job.cap && job.off <= c < job.End() && rest == job.data[c - job.off..] && n == Min(|rest|, job.cap)
    ensures Request(c, rest[..n], NewState(n, false, job.cap)) == Chunk(PutOf(job), c)
  {
  }

  // The last request takes in bytes of the write.
  lemma ExtendFacts(job: Job, reqs: seq<Request>, c: nat, rest: seq<byte>, size: nat)
    requires JobOk(job) && Appending(job, reqs, c, size) && c < job.End() && rest == job.data[c - job.off..]
    requires reqs != [] && |reqs[|reqs| - 1].data| < job.cap && c == reqs[|reqs| - 1].End()
             && reqs[|reqs| - 1].state != Ip
    ensures var l, n := |reqs| - 1, Room(reqs[|reqs| - 1], c, |rest|, job.cap);
            var s := Updated(reqs, l, c, rest, job.cap);
            && n <= |rest| && rest != [] && c < c + n <= job.End() && rest[n..] == job.data[c + n - job.off..]
            && Fill(reqs[l], c, rest, job.cap).End() == c + n && Appending(job, s, c + n, Max(size, c + n))
            && AppendRun(PutOf(job), reqs, c) == AppendMore(PutOf(job), s, c + n)
  {
    hide JobOk, Appending, Updated, Fill, AppendRun, AppendMore;
    var l := |reqs| - 1;
    LastFacts(job, reqs, c, size);
    FillNext(job, reqs[l], c, rest);
    AppendFill(PutOf(job), reqs, c, rest);
    AppendUpdate(job, reqs, c, size, rest, Updated(reqs, l, c, rest, job.cap));
  }

  lemma SplitLists(reqs: seq<Request>, i: nat, q: Request, c: nat, end: nat, cap: nat)
    requires i < |reqs| && reqs[i] == q && q.offset <= c <= end < q.End() && |q.data| <= cap && q.state == Ip
    ensures var t := q.data[end - q.offset..];
            Insert(reqs, i + 1, Request(end, t[..|t|], Ip))[i := Shorten(q, c)] ==
                Insert(reqs[i := Shorten(q, c)], i + 1, Tail(q, end))
  {
    var t := q.data[end - q.offset..];
    assert t[..|t|] == t;
  }

  // What a write makes of the visible content: that with the bytes written, unless it hides its first
  // byte; then the old one shows.
  ghost predicate AfterWrite(was: seq<byte>, off: nat, data: seq<byte>, hides: bool, now: seq<byte>)
  {
    if hides then off < |was| && off < |now| && now[off] == was[off] else now == WriteAt(was, off, data)
  }

  // Where the write hides its first byte, the old one shows.
  lemma HiddenShows(was: seq<Request>, inflight: seq<Request>, store: seq<byte>, size: nat, cap: nat, w: Put)
    requires Cached(was, inflight, store, size, cap) && w.cap == cap && w.data != [] && Hides(was, w.off, cap)
    ensures w.off < size
    ensures ViewOf(Placed(w, was), inflight, store, Max(size, w.End()))[w.off] ==
            ViewOf(was, inflight, store, size)[w.off]
  {
    hide Look, Placed, TwoIp, Held, WrittenOut;
    var k: nat :| k < |was| && TwoIp(was, k, w.off, cap);
    HiddenByMerge(w, was, k);
    TwoIpMeets(was, k, w.off, cap);
  }

  class DentryPriv {
    const file: Dentry
    const sched: UnifiedData
    const id: nat
    const cap: nat

    // Waiting requests, sorted by offset, and those the background writer took off the list
    // and is writing out.
    var requests: seq<Request>
    var inflight: seq<Request>

    // Where the file's bytes lie on the index partition.
    var alt: seq<Extent>

    // The size of the file with everything that waits.
    var fileSize: nat

    // The counters of this file count its requests, but for those in paused states.
    ghost predicate Counts(paused: set<State>)
      reads this, sched
    {
      sched.Valid() && id < |sched.counters| && sched.counters[id] == Masked(Tally(requests), paused)
    }

    ghost predicate Exact()
      reads this, sched
    {
      Counts({})
    }

    // The first write to a file sets up its scheduler data.
    constructor (d: Dentry, u: UnifiedData, matchesName: bool, maxFileSize: nat)
      requires d.Valid() && u.Valid()
      modifies u
      ensures Valid() && View() == d.Contents() && file == d && sched == u && fresh(this)
      ensures requests == inflight == [] && alt == [] && fileSize == d.size
      ensures sched.counters == old(u.counters) + [NONE] && id == |old(u.counters)|
      ensures sched.writeIp == old(u.writeIp) + [matchesName && maxFileSize > 0 && d.size <= maxFileSize]
    {
      file, sched, cap := d, u, d.vol.blocksize;
      requests, inflight, alt, fileSize := [], [], [], d.size;
      id := |u.counters|;
      new;
      hide Volume.Valid, UnifiedData.Valid, Sorted, Mapped, Sum, Content, Settled, Cached, AltFits, ViewOf, OnTape;
      var _ := sched.AddFile(matchesName && maxFileSize > 0 && d.size <= maxFileSize);
      NothingWaits(d.Contents(), cap);
      NoAltFits([], Settled(d.vol.drive), d.Contents(), cap);
    }

    // ---------------------------------------------------------------- editing the list

    // Copy bytes into a new request in front of request i.
    method InsertNewRequest(i: nat, off: nat, bytes: seq<byte>, ip: bool) returns (n: nat)
      requires Exact() && i <= |requests| && bytes != [] && 0 < cap
      modifies this`requests, this`fileSize, sched
      ensures Exact() && OnlyMine(old(sched.counters), sched.counters, id) && sched.writeIp == old(sched.writeIp)
      ensures n == Min(|bytes|, cap)
      ensures requests == Insert(old(requests), i, Request(off, bytes[..n], NewState(n, ip, cap)))
      ensures requests[i].state == if ip then Ip else if |bytes| >= cap then Dp else Partial
      ensures fileSize == Max(old(fileSize), off + n)
    {
      hide UnifiedData.Valid, Count;
      n := if |bytes| > cap then cap else |bytes|;
      var r := Request(off, bytes[..n], NewState(n, ip, cap));
      TallyInsert(requests, i, r);
      requests := Insert(requests, i, r);
      sched.UpdateQueueMembership(true, false, r.state, id);
      if r.End() > fileSize {
        fileSize := r.End();
      }
    }

    method RemoveRequest(i: nat, ghost paused: set<State>)
      requires Counts(paused) && i < |requests|
      modifies this`requests, sched
      ensures Counts(paused) && OnlyMine(old(sched.counters), sched.counters, id) && sched.writeIp == old(sched.writeIp)
      ensures requests == Remove(old(requests), i)
    {
      hide UnifiedData.Valid, Count;
      var s := requests[i].state;
      TallyRemove(requests, i);
      requests := Remove(requests, i);
      sched.UpdateQueueMembership(false, false, s, id);
    }

    // Move a request to another state.
    method ChangeState(i: nat, s: State, ghost paused: set<State>)
      requires Counts(paused) && i < |requests| && requests[i].state != s && s !in paused
      modifies this`requests, sched
      ensures Counts(paused) && OnlyMine(old(sched.counters), sched.counters, id) && sched.writeIp == old(sched.writeIp)
      ensures requests == old(requests)[i := old(requests)[i].(state := s)]
    {
      hide UnifiedData.Valid, Count;
      TallyReplace(requests, i, requests[i].(state := s));
      sched.UpdateQueueMembership(false, false, requests[i].state, id);
      requests := requests[i := requests[i].(state := s)];
      sched.UpdateQueueMembership(true, false, s, id);
    }

    // Partly filled requests up to an offset are ready to be written.
    method PromotePartial(off: nat)
      requires Exact()
      modifies this`requests, sched
      ensures Exact() && OnlyMine(old(sched.counters), sched.counters, id) && sched.writeIp == old(sched.writeIp)
      ensures requests == Promote(old(requests), off)
    {
      hide UnifiedData.Valid, Tally;
      ghost var was := requests;
      for i := 0 to |requests|
        invariant |requests| == |was| && Exact() && OnlyMine(old(sched.counters), sched.counters, id)
                  && sched.writeIp == old(sched.writeIp)
        invariant forall k {:trigger requests[k]} :: 0 <= k < |was| ==>
                  requests[k] == if k < i then Promoted(was[k], off) else was[k]
      {
        if requests[i].state == Partial && requests[i].offset <= off {
          ChangeState(i, Dp, {});
        }
      }
    }

    // Give request i as many bytes as it has room for.
    method UpdateRequest(i: nat, off: nat, bytes: seq<byte>, ghost paused: set<State>) returns (n: nat)
      requires Counts(paused) && i < |requests| && (paused == {} || requests[i].state == Ip)
               && requests[i].offset <= off <= requests[i].End() && |requests[i].data| <= cap
      modifies this`requests, this`fileSize, sched
      ensures Counts(paused) && OnlyMine(old(sched.counters), sched.counters, id) && sched.writeIp == old(sched.writeIp)
      ensures n == Room(old(requests)[i], off, |bytes|, cap)
      ensures bytes == [] ==> requests == old(requests) && fileSize == old(fileSize)
      ensures bytes != [] ==> requests == Updated(old(requests), i, off, bytes, cap)
      ensures bytes != [] ==> fileSize == Max(old(fileSize), Fill(old(requests)[i], off, bytes, cap).End())
    {
      hide UnifiedData.Valid, Count;
      n := 0;
      if bytes == [] {
        return;
      }
      var r := requests[i];
      n := Room(r, off, |bytes|, cap);
      var f := Fill(r, off, bytes, cap);
      TallyReplace(requests, i, f);
      requests := requests[i := f];
      if f.state == Partial && |f.data| == cap {
        PromotePartial(off);
      }
      if f.End() > fileSize {
        fileSize := f.End();
      }
    }

    // Merge request i into request p: 0 if nothing changed, 1 if request i lost its front,
    // 2 if it is gone.
    method MergeRequests(p: nat, i: nat, ghost paused: set<State>) returns (did: nat)
      requires Counts(paused) && p < i < |requests|
               && (paused == {} || requests[p].state == requests[i].state == Ip
               || Cut(requests[p], requests[i], cap) == 0) && 0 < |requests[p].data| <= cap
               && 0 < |requests[i].data| <= cap
      modifies this`requests, this`fileSize, sched
      ensures Counts(paused) && OnlyMine(old(sched.counters), sched.counters, id) && sched.writeIp == old(sched.writeIp)
      ensures requests == Merged(old(requests), p, i, cap)
      ensures var k := Cut(old(requests)[p], old(requests)[i], cap);
              did == if k == 0 then 0 else if k < |old(requests)[i].data| then 1 else 2
      ensures fileSize == Max(old(fileSize), NewDest(old(requests)[p], old(requests)[i], cap).End())
              || fileSize == old(fileSize)
    {
      hide UnifiedData.Valid, Count, Tally, Masked, OnlyMine, Updated, Fill, Behead, Remove;
      OnlyMineSelf(sched.counters, id);
      ghost var was := sched.counters;
      did := 0;
      var dest, src := requests[p], requests[i];
      if src.offset > dest.End() {
        return;
      }
      var overlap := dest.End() - src.offset;
      var copied := 0;
      if dest.state != src.state && (dest.state == Ip || src.state == Ip) {
        copied := 0;
      } else if |dest.data| < cap && |src.data| > overlap {
        copied := UpdateRequest(p, dest.End(), src.data[overlap..], paused);
      }
      var cut := overlap + copied;
      if cut > 0 {
        ghost var mid := sched.counters;
        if cut < |src.data| {
          did := 1;
          BeheadRequest(i, cut, paused);
        } else {
          did := 2;
          RemoveRequest(i, paused);
        }
        OnlyMineTwice(was, mid, sched.counters, id);
      }
    }

    // Drop the first k bytes of request i; a full request becomes a partly filled one.
    method BeheadRequest(i: nat, k: nat, ghost paused: set<State>)
      requires Counts(paused) && i < |requests| && (paused == {} || requests[i].state == Ip) && k <= |requests[i].data|
      modifies this`requests, sched
      ensures Counts(paused) && OnlyMine(old(sched.counters), sched.counters, id) && sched.writeIp == old(sched.writeIp)
      ensures requests == old(requests)[i := Behead(old(requests)[i], k)]
    {
      hide UnifiedData.Valid, Count;
      var r := requests[i];
      TallyReplace(requests, i, Request(r.offset + k, r.data[k..], r.state));
      requests := requests[i := Request(r.offset + k, r.data[k..], r.state)];
      if r.state == Dp {
        ChangeState(i, Partial, paused);
      }
    }

    // Cut request i at offset c.
    method ShortenRequest(i: nat, c: nat)
      requires Exact() && i < |requests| && requests[i].offset <= c <= requests[i].End()
      modifies this`requests
      ensures Exact() && requests == old(requests)[i := Shorten(old(requests)[i], c)]
    {
      hide UnifiedData.Valid, Count;
      TallyReplace(requests, i, Shorten(requests[i], c));
      requests := requests[i := Shorten(requests[i], c)];
    }

    // ---------------------------------------------------------------- writing

    // Insert blocks of the write in front of request i until the cursor reaches it.
    method InsertBefore(i0: nat, p0: int, c0: nat, rest0: seq<byte>, ghost job: Job)
        returns (i: nat, p: int, c: nat, rest: seq<byte>)
      requires Exact() && JobOk(job) && cap == job.cap && 0 < job.cap && Visiting(job, requests, i0, p0, c0, fileSize)
      requires Left(job, c0, rest0)
      modifies this`requests, this`fileSize, sched
      ensures Exact() && OnlyMine(old(sched.counters), sched.counters, id) && sched.writeIp == old(sched.writeIp)
      ensures Mid(job, requests, i, p, c, fileSize) && c0 <= c && Left(job, c, rest)
      ensures i < |requests| && (c < job.End() ==> requests[i].offset <= c) && |requests| - i == |old(requests)| - i0
      ensures i0 < |old(requests)| && (c0 < job.End() && c0 < old(requests)[i0].offset ==> c0 < c)
      ensures Spot(requests, i, p, c) == InsertRun(PutOf(job), Spot(old(requests), i0, p0, c0))
    {
      hide JobOk, Mid, Pending, NextChunk, Visiting, UnifiedData.Valid, Count, Tally, InsertRun, Chunk;
      i, p, c, rest := i0, p0, c0, rest0;
      OnlyMineSelf(sched.counters, id);
      VisitingFacts(job, requests, i, p, c, fileSize);
      VisitingCases(job, requests, i, p, c, fileSize);
      while rest != [] && c < requests[i].offset
        invariant Exact() && OnlyMine(old(sched.counters), sched.counters, id) && sched.writeIp == old(sched.writeIp)
        invariant Visiting(job, requests, i, p, c, fileSize) && c0 <= c && Left(job, c, rest)
        invariant i < |requests| && |requests| - i == |old(requests)| - i0
        invariant Mid(job, requests, i, p, c, fileSize)
                  || (Pending(job, requests, i, p, c, fileSize) && c < job.End() && c < requests[i].offset)
        invariant c == c0 ==> requests == old(requests) && i == i0
        invariant InsertRun(PutOf(job), Spot(requests, i, p, c)) ==
                  InsertRun(PutOf(job), Spot(old(requests), i0, p0, c0))
        decreases |rest|
      {
        ghost var was, size := requests, fileSize;
        InsertNext(PutOf(job), Spot(was, i, p, c));
        ChunkTaken(job, c, rest, Min(|rest|, cap));
        var n := InsertNewRequest(i, c, rest, false);
        ChunkOf(job, c, rest, n, NewState(n, false, cap));
        InsertStep(job, was, i, p, c, size, Request(c, rest[..n], NewState(n, false, cap)));
        p, i, c, rest := i, i + 1, c + n, rest[n..];
        VisitingMid(job, requests, i, p, c, fileSize);
      }
      InsertDone(PutOf(job), Spot(requests, i, p, c));
    }

    // Merge request i into the previous one, if there is one.
    method MergeWithPrevious(i: nat, p: int, c: nat, ghost job: Job) returns (did: nat)
      requires Exact() && JobOk(job) && cap == job.cap && 0 < job.cap && Mid(job, requests, i, p, c, fileSize)
      modifies this`requests, this`fileSize, sched
      ensures Exact() && OnlyMine(old(sched.counters), sched.counters, id) && sched.writeIp == old(sched.writeIp)
      ensures did == 2 ==> Standing(job, requests, i, p, c, fileSize) && |requests| + 1 == |old(requests)|
      ensures did != 2 ==> Post(job, requests, i, p, c, fileSize) || Pending(job, requests, i, p, c, fileSize)
      ensures did != 2 ==> |requests| == |old(requests)|
      ensures Spot(requests, i, p, c) == MergeRun(PutOf(job), Spot(old(requests), i, p, c))
      ensures did == MergeDid(PutOf(job), Spot(old(requests), i, p, c))
    {
      hide JobOk, Mid, Pending, Post, Standing, UnifiedData.Valid, Count, Tally, Merged, Cut, NewDest;
      OnlyMineSelf(sched.counters, id);
      VisitingMid(job, requests, i, p, c, fileSize);
      VisitingFacts(job, requests, i, p, c, fileSize);
      if p < 0 {
        NoMergeStep(job, requests, i, c, fileSize);
        return 0;
      }
      MergeStep(job, requests, i, p, c, fileSize);
      MergedLength(requests, p, i, cap);
      MidWithin(job, requests, i, p, c, fileSize);
      did := MergeRequests(p, i, {});
    }

    // Request i is bound for the index partition and in the way of the rest of the write: remove,
    // trim or split it.
    method CutOut(i0: nat, p0: int, c: nat, rest: seq<byte>, ghost job: Job) returns (next: Next, i: nat, p: int)
      requires Exact() && JobOk(job) && cap == job.cap && 0 < job.cap && Post(job, requests, i0, p0, c, fileSize)
      requires Left(job, c, rest) && c < job.End() && i0 < |requests|
      requires InTheWay(job, requests[i0], c)
      modifies this`requests, this`fileSize, sched
      ensures Exact() && OnlyMine(old(sched.counters), sched.counters, id) && sched.writeIp == old(sched.writeIp)
      ensures next == GoOn ==>
                Head(job, requests, i, p, c, fileSize) && |requests| + i0 < |old(requests)| + i && i <= |requests|
      ensures next != GoOn ==>
                next == InFront && Mid(job, requests, i, p, c, fileSize)
                && |requests| + i0 == |old(requests)| + i && i < |requests| && c < requests[i].offset
      ensures (Spot(requests, i, p, c), next) == ResolveRun(PutOf(job), Spot(old(requests), i0, p0, c))
    {
      hide JobOk, Head, Mid, Pending, Post, UnifiedData.Valid, Count, Tally, Insert, Remove, OnlyMine, Masked, Behead,
           ResolveRun;
      OnlyMineSelf(sched.counters, id);
      next, i, p := GoOn, i0, p0;
      PostFacts(job, requests, i, p, c, fileSize);
      ResolveIp(PutOf(job), Spot(requests, i, p, c));
      ghost var was := requests;
      var q := requests[i];
      if c == q.offset && |rest| >= |q.data| {
        RemoveStep(job, requests, i, p, c, fileSize);
        RemoveRequest(i, {});
      } else if c == q.offset {
        FrontStep(job, requests, i, p, c, fileSize);
        BeheadRequest(i, |rest|, {});
        next := InFront;
      } else if c + |rest| >= q.End() {
        BackStep(job, requests, i, p, c, fileSize);
        ShortenRequest(i, c);
        p, i := i, i + 1;
      } else {
        SplitStep(job, requests, i, p, c, fileSize);
        var copyOffset := c - q.offset + |rest|;
        var n := InsertNewRequest(i + 1, q.offset + copyOffset, q.data[copyOffset..], true);
        ShortenRequest(i, c);
        SplitLists(was, i, q, c, job.End(), cap);
        i := i + 1;
        next := InFront;
      }
    }

    // Handle the overlap between the rest of the write and request i, which has been merged:
    // update it, or cut the write out of it if it is bound for the index partition.  `next`
    // says how to go on.
    method ResolveOverlap(i0: nat, p0: int, c0: nat, rest0: seq<byte>, ghost job: Job)
        returns (next: Next, i: nat, p: int, c: nat, rest: seq<byte>)
      requires Exact() && JobOk(job) && cap == job.cap && 0 < job.cap && Post(job, requests, i0, p0, c0, fileSize)
      requires Left(job, c0, rest0) && c0 < job.End() && i0 < |requests|
               && requests[i0].offset <= c0
      modifies this`requests, this`fileSize, sched
      ensures Exact() && OnlyMine(old(sched.counters), sched.counters, id) && sched.writeIp == old(sched.writeIp)
      ensures c0 <= c && Left(job, c, rest)
      ensures next != InFront ==>
              Head(job, requests, i, p, c, fileSize) && |requests| + i0 < |old(requests)| + i && i <= |requests|
      ensures next == InFront ==>
              Mid(job, requests, i, p, c, fileSize) && |requests| + i0 == |old(requests)| + i && i < |requests|
      ensures next == InFront ==> c < job.End() && c < requests[i].offset
      ensures (Spot(requests, i, p, c), next) == ResolveRun(PutOf(job), Spot(old(requests), i0, p0, c0))
    {
      hide JobOk, Head, Mid, Pending, Post, UnifiedData.Valid, Count, Tally, Updated, Fill, OnlyMine, Masked,
           ResolveRun;
      OnlyMineSelf(sched.counters, id);
      next, i, p, c, rest := GoOn, i0, p0, c0, rest0;
      PostFacts(job, requests, i, p, c, fileSize);
      ghost var was, size, s := requests, fileSize, Spot(requests, i, p, c);
      var q := requests[i];
      if q.state != Ip && (c < q.End() || (c == q.End() && |q.data| < cap)) {
        FillNext(job, q, c, rest);
        ResolveUpdate(PutOf(job), s);
        var n := UpdateRequest(i, c, rest, {});
        UpdateStep(job, was, i, p, c, size, rest, requests);
        c, rest, p, i := c + n, rest[n..], i, i + 1;
        next := MergeOn;
      } else if q.state == Ip && c < q.End() {
        next, i, p := CutOut(i, p, c, rest, job);
      } else {
        PassStep(job, requests, i, p, c, fileSize);
        ResolvePass(PutOf(job), s);
        p, i := i, i + 1;
      }
    }

    // Once through the steps for one request: insert in front of it, merge it, resolve the overlap.
    // `again` says that the write goes on in front of it.
    method VisitOnce(i0: nat, p0: int, c0: nat, rest0: seq<byte>, ghost first: bool, ghost job: Job)
        returns (again: bool, stop: bool, i: nat, p: int, c: nat, rest: seq<byte>)
      requires Exact() && JobOk(job) && cap == job.cap && 0 < job.cap && Visiting(job, requests, i0, p0, c0, fileSize)
      requires Left(job, c0, rest0) && i0 < |requests|
      requires first || (c0 < job.End() && c0 < requests[i0].offset)
      modifies this`requests, this`fileSize, sched
      ensures Exact() && OnlyMine(old(sched.counters), sched.counters, id) && sched.writeIp == old(sched.writeIp)
      ensures c0 <= c && Left(job, c, rest) && (first || c0 < c)
      ensures again ==>
                && Visiting(job, requests, i, p, c, fileSize) && i < |requests|
                    && |requests| + i0 == |old(requests)| + i
                && c < job.End() && c < requests[i].offset
                && VisitRun(PutOf(job), Spot(old(requests), i0, p0, c0), first) ==
                   VisitRun(PutOf(job), Spot(requests, i, p, c), false)
      ensures !again ==> VisitRun(PutOf(job), Spot(old(requests), i0, p0, c0), first) == (Spot(requests, i, p, c), stop)
      ensures !again && stop ==> Done(job, requests, c, fileSize)
      ensures !again && !stop ==>
              Standing(job, requests, i, p, c, fileSize) && i <= |requests| && |requests| + i0 < |old(requests)| + i
    {
      hide JobOk, Head, Mid, Pending, Post, Standing, Visiting, Done, UnifiedData.Valid, Count, Tally, OnlyMine;
      hide InsertRun, MergeRun, MergeDid, ResolveRun, VisitRun, Again, Left;
      LeftFacts(job, c0, rest0);
      again, stop := false, false;
      ghost var s := Spot(requests, i0, p0, c0);
      i, p, c, rest := InsertBefore(i0, p0, c0, rest0, job);
      LeftFacts(job, c, rest);
      ghost var counters := sched.counters;
      var did := MergeWithPrevious(i, p, c, job);
      ghost var b := Spot(requests, i, p, c);
      OnlyMineTwice(old(sched.counters), counters, sched.counters, id);
      if did == 2 {
        VisitFreed(PutOf(job), s, first);
        StandingFacts(job, requests, i, p, c, fileSize);
        return;
      }
      counters := sched.counters;
      PostOrPending(job, requests, i, p, c, fileSize);
      if rest != [] {
        if c < requests[i].offset {
          VisitBehind(PutOf(job), s, first, b);
          again := true;  // back to inserting in front of it
          return;
        }
        var next;
        next, i, p, c, rest := ResolveOverlap(i, p, c, rest, job);
        LeftFacts(job, c, rest);
        OnlyMineTwice(old(sched.counters), counters, sched.counters, id);
        VisitMeets(PutOf(job), s, first, b, Spot(requests, i, p, c), next);
        if next == InFront {
          VisitingMid(job, requests, i, p, c, fileSize);
          again := true;
        } else {
          HeadStanding(job, requests, i, p, c, fileSize);
        }
      } else if did == 0 {
        VisitOver(PutOf(job), s, first, b);
        StopStep(job, requests, i, p, c, fileSize);
        stop := true;
      } else {
        VisitOver(PutOf(job), s, first, b);
        RestStep(job, requests, i, p, c, fileSize);
        p, i := i, i + 1;
        HeadStanding(job, requests, i, p, c, fileSize);
        StandingFacts(job, requests, i, p, c, fileSize);
      }
    }

    // One request on the way through the list, which is not skipped.  `stop` says that the
    // write is complete.
    method VisitRequest(i0: nat, p0: int, c0: nat, rest0: seq<byte>, ghost job: Job)
        returns (stop: bool, i: nat, p: int, c: nat, rest: seq<byte>)
      requires Exact() && JobOk(job) && cap == job.cap && 0 < job.cap && Visiting(job, requests, i0, p0, c0, fileSize)
      requires Left(job, c0, rest0)
      modifies this`requests, this`fileSize, sched
      ensures Exact() && OnlyMine(old(sched.counters), sched.counters, id) && sched.writeIp == old(sched.writeIp)
      ensures c0 <= c && Left(job, c, rest)
      ensures stop ==> Done(job, requests, c, fileSize)
      ensures !stop ==>
              Standing(job, requests, i, p, c, fileSize) && i <= |requests| && |requests| + i0 < |old(requests)| + i
      ensures (Spot(requests, i, p, c), stop) == VisitRun(PutOf(job), Spot(old(requests), i0, p0, c0), true)
    {
      hide JobOk, Standing, Visiting, Done, UnifiedData.Valid, Count, Tally, OnlyMine, VisitRun, Left;
      OnlyMineSelf(sched.counters, id);
      VisitingFacts(job, requests, i0, p0, c0, fileSize);
      stop, i, p, c, rest := false, i0, p0, c0, rest0;
      var again := true;
      ghost var first := true;
      while again
        invariant Exact() && OnlyMine(old(sched.counters), sched.counters, id) && sched.writeIp == old(sched.writeIp)
        invariant c0 <= c && Left(job, c, rest)
        invariant again ==> Visiting(job, requests, i, p, c, fileSize) && i < |requests|
        invariant again ==> |requests| + i0 == |old(requests)| + i
        invariant again ==> first || (c < job.End() && c < requests[i].offset)
        invariant again ==> VisitRun(PutOf(job), Spot(old(requests), i0, p0, c0), true) ==
                            VisitRun(PutOf(job), Spot(requests, i, p, c), first)
        invariant !again ==>
                    VisitRun(PutOf(job), Spot(old(requests), i0, p0, c0), true) == (Spot(requests, i, p, c), stop)
        invariant !again && stop ==> Done(job, requests, c, fileSize)
        invariant !again && !stop ==> Standing(job, requests, i, p, c, fileSize) && i <= |requests|
        invariant !again && !stop ==> |requests| + i0 < |old(requests)| + i
        decreases again, job.End() - c, first
      {
        ghost var was := sched.counters;
        LeftFacts(job, c, rest);
        again, stop, i, p, c, rest := VisitOnce(i, p, c, rest, first, job);
        LeftFacts(job, c, rest);
        OnlyMineTwice(old(sched.counters), was, sched.counters, id);
        first := false;
      }
    }

    // Traverse the request list, placing the bytes of the write among the requests.
    method Traverse(off: nat, data: seq<byte>, ghost job: Job) returns (c: nat)
      requires Exact() && JobOk(job) && cap == job.cap && 0 < job.cap
      requires job.orig == requests && job.size == fileSize && job.off == off && job.data == data
      modifies this`requests, this`fileSize, sched
      ensures Exact() && OnlyMine(old(sched.counters), sched.counters, id) && sched.writeIp == old(sched.writeIp)
      ensures Done(job, requests, c, fileSize)
      ensures var t := TraverseRun(PutOf(job), Spot(old(requests), 0, -1, off)); requests == t.reqs && c == t.c
    {
      hide JobOk, Head, Mid, Pending, Post, Standing, Visiting, Done, UnifiedData.Valid, Count, Tally, OnlyMine;
      hide VisitRun, TraverseRun;
      OnlyMineSelf(sched.counters, id);
      var i: nat, p, rest := 0, -1, data;
      c := off;
      assert data[0..] == data;
      StartStep(job);
      HeadStanding(job, requests, i, p, c, fileSize);
      while i < |requests|
        invariant Exact() && OnlyMine(old(sched.counters), sched.counters, id) && sched.writeIp == old(sched.writeIp)
        invariant i <= |requests| && Standing(job, requests, i, p, c, fileSize)
        invariant Left(job, c, rest)
        invariant TraverseRun(PutOf(job), Spot(requests, i, p, c)) ==
                  TraverseRun(PutOf(job), Spot(old(requests), 0, -1, off))
        decreases |requests| - i
      {
        ghost var s := Spot(requests, i, p, c);
        if c > requests[i].End() {
          TraverseSkip(PutOf(job), s);
          StandingSkip(job, requests, i, p, c, fileSize);
          i := i + 1;  // the write belongs farther down the queue
        } else {
          StandingVisit(job, requests, i, p, c, fileSize);
          ghost var was := sched.counters;
          var stop;
          stop, i, p, c, rest := VisitRequest(i, p, c, rest, job);
          TraverseVisit(PutOf(job), s, Spot(requests, i, p, c), stop);
          OnlyMineTwice(old(sched.counters), was, sched.counters, id);
          if stop {
            return;
          }
        }
      }
      TraverseEnd(PutOf(job), Spot(requests, i, p, c));
      StandingEnd(job, requests, i, p, c, fileSize);
    }

    // Try to put bytes of the write into the last request.
    method ExtendLast(c0: nat, rest0: seq<byte>, ghost job: Job) returns (c: nat, rest: seq<byte>)
      requires Exact() && JobOk(job) && cap == job.cap && 0 < job.cap && Appending(job, requests, c0, fileSize)
      requires Left(job, c0, rest0)
      modifies this`requests, this`fileSize, sched
      ensures Exact() && OnlyMine(old(sched.counters), sched.counters, id) && sched.writeIp == old(sched.writeIp)
      ensures c0 <= c && Left(job, c, rest) && Appending(job, requests, c, fileSize)
      ensures AppendMore(PutOf(job), requests, c) == AppendRun(PutOf(job), old(requests), c0)
    {
      hide AppendRun, AppendMore, Room, JobOk, Appending, UnifiedData.Valid, Count, Tally, Fill, Updated;
      OnlyMineSelf(sched.counters, id);
      c, rest := c0, rest0;
      if requests != [] {
        var l := |requests| - 1;
        var req := requests[l];
        if |req.data| < cap && c == req.End() && req.state != Ip && rest != [] {
          ExtendFacts(job, requests, c, rest, fileSize);
          var n := UpdateRequest(l, c, rest, {});
          c, rest := c + n, rest[n..];
          return;
        }
      }
      AppendOnly(PutOf(job), requests, c);
    }

    // Put the rest of the write behind the last request.
    method AppendRequests(c0: nat, rest0: seq<byte>, ghost job: Job)
      requires Exact() && JobOk(job) && cap == job.cap && 0 < job.cap && Appending(job, requests, c0, fileSize)
      requires Left(job, c0, rest0)
      modifies this`requests, this`fileSize, sched
      ensures Exact() && OnlyMine(old(sched.counters), sched.counters, id) && sched.writeIp == old(sched.writeIp)
      ensures Appending(job, requests, job.End(), fileSize) && requests == AppendRun(PutOf(job), old(requests), c0)
    {
      hide AppendRun, AppendMore, Chunk;
      hide JobOk, Appending, UnifiedData.Valid, Count, Tally, OnlyMine, NextChunk;
      var c: nat, rest: seq<byte> := ExtendLast(c0, rest0, job);
      while rest != []
        invariant Exact() && OnlyMine(old(sched.counters), sched.counters, id) && sched.writeIp == old(sched.writeIp)
        invariant Appending(job, requests, c, fileSize) && Left(job, c, rest)
        invariant AppendMore(PutOf(job), requests, c) == AppendRun(PutOf(job), old(requests), c0)
        decreases |rest|
      {
        AppendNext(PutOf(job), requests, c);
        ChunkTaken(job, c, rest, Min(|rest|, cap));
        ghost var was, size, counters := requests, fileSize, sched.counters;
        var n := InsertNewRequest(|requests|, c, rest, false);
        OnlyMineTwice(old(sched.counters), counters, sched.counters, id);
        ChunkOf(job, c, rest, n, NewState(n, false, cap));
        AppendInsert(job, was, c, size, Request(c, rest[..n], NewState(n, false, cap)));
        c, rest := c + n, rest[n..];
      }
      AppendNext(PutOf(job), requests, c);
    }

    // Place all bytes of a write in the list: append them if they go behind everything, else
    // traverse the list.
    method PlaceBytes(off: nat, data: seq<byte>, ghost under: seq<byte>)
      requires Exact() && 0 < cap && data != []
      requires Sized(requests, cap) && Apart(requests) && Held(requests, under) && Within(requests, fileSize)
      modifies this`requests, this`fileSize, sched
      ensures Exact() && OnlyMine(old(sched.counters), sched.counters, id) && sched.writeIp == old(sched.writeIp)
      ensures Sized(requests, cap) && Within(requests, fileSize) && fileSize == Max(old(fileSize), off + |data|)
      ensures Apart(requests) <==> Clean(old(requests), off, |data|, cap)
      ensures Apart(requests) ==> Held(requests, under) && Written(old(requests), off, data, requests)
      ensures !Hides(old(requests), off, cap) ==> Written(old(requests), off, data, requests)
      ensures requests == Placed(Put(off, data, cap), old(requests))
      ensures InOrder(requests) && Holds(Put(off, data, cap), old(requests), off, requests, off + |data|)
    {
      ghost var first := Job(requests, off, data, cap, under, fileSize);
      RoundFirst(first);
      hide Round, AppendRun, TraverseRun, Placed, InOrder, Holds, Appending, Done, JobOk, UnifiedData.Valid, Count,
           Tally,
           OnlyMine, Apart, Sized, Held, Within, Clean, Written, PastAll, Hides;
      ghost var job := first;
      OnlyMineSelf(sched.counters, id);
      var c: nat := off;
      while c < off + |data|
        invariant Exact() && OnlyMine(old(sched.counters), sched.counters, id) && sched.writeIp == old(sched.writeIp)
        invariant job.cap == cap && job.off == off && job.data == data && c <= off + |data|
        invariant Round(first, job, requests, c, fileSize)
        decreases off + |data| - c, if PastAll(requests, c) then 0 else 1 + |requests|
      {
        ghost var was, reqs, c0, size := sched.counters, requests, c, fileSize;
        RoundFacts(first, job, requests, c, fileSize);
        if PastAll(requests, c) {
          AppendRequests(c, data[c - off..], job);
          c := off + |data|;
          RoundAppended(first, job, reqs, c0, size, requests, fileSize);
        } else {
          c := Traverse(off, data, job);
          RoundTraversed(first, job, reqs, size, requests, c, fileSize);
          job := NextJob(job, requests, c);
        }
        OnlyMineTwice(old(sched.counters), was, sched.counters, id);
      }
      RoundDone(first, job, requests, fileSize);
    }

    // ---------------------------------------------------------------- the invariant

    ghost predicate Valid()
      reads this, sched, file, file.vol
    {
      Steady({})
    }

    // As above, while requests in some states are not counted.
    ghost predicate Steady(paused: set<State>)
      reads this, sched, file, file.vol
    {
      && file.Valid() && Counts(paused) && cap == file.vol.blocksize && id < |sched.writeIp|
      && Cached(requests, inflight, file.Contents(), fileSize, cap) && Short(requests, cap)
      && (!sched.writeIp[id] ==> NoIp(requests))
      && (!sched.writeIp[id] || inflight != [] ==> alt == [])
      && AltFits(alt, requests, Settled(file.vol.drive), file.Contents(), cap)
    }

    // What the file shows, whatever is where.
    ghost function View(): (v: seq<byte>)
      requires file.Valid()
      reads this, file, file.vol
      ensures |v| == fileSize
    {
      ViewOf(requests, inflight, file.Contents(), fileSize)
    }

    // What a read relies on: requests sorted by offset, overlapping or not.
    ghost predicate Legible()
      reads this, file, file.vol
    {
      file.Valid() && cap == file.vol.blocksize && Readable(requests, inflight, file.Contents(), fileSize, cap)
    }

    lemma SteadyIsLegible(paused: set<State>)
      requires Steady(paused)
      ensures Legible()
    {
      hide Dentry.Valid, AltFits, Cached, Readable;
      CachedIsReadable(requests, inflight, file.Contents(), fileSize, cap);
    }

    lemma LegibleOrder()
      requires Legible()
      ensures InOrder(requests)
    {
    }

    // The file's own part of the invariant, for a tape, a stored content and a placement.
    ghost predicate Own(t: Tape, store: seq<byte>, ip: bool)
      reads this, file
    {
      && cap == file.vol.blocksize && 0 < cap
      && Sorted(file.extents, cap) && file.realsize == Sum(file.extents) && Mapped(t, file.extents, file.size, cap)
      && store == Content(t, file.extents, file.size, cap)
      && Cached(requests, inflight, store, fileSize, cap) && Short(requests, cap)
      && (!ip ==> NoIp(requests)) && (!ip || inflight != [] ==> alt == [])
      && AltFits(alt, requests, t, store, cap)
    }

    lemma ItsOwn()
      requires Valid()
      ensures file.vol.drive.appendIp <= |file.vol.drive.ip|
      ensures Own(Settled(file.vol.drive), file.Contents(), sched.writeIp[id])
    {
    }

    // What others do to the scheduler and the tape does not disturb the file.
    lemma Undisturbed(t: Tape, store: seq<byte>, ip: bool)
      requires Own(t, store, ip) && Exact() && id < |sched.writeIp| && sched.writeIp[id] == ip
      requires file.vol.Valid() && file.vol.drive.appendIp <= |file.vol.drive.ip| && Extends(t, Settled(file.vol.drive))
      ensures Valid() && View() == ViewOf(requests, inflight, store, fileSize)
    {
      hide UnifiedData.Valid, Volume.Valid, Sorted, Mapped, Sum, Content, Cached, ViewOf, Settled, Extends, Look,
           LookIn, Find, FindIn, AltFits;
      var t' := Settled(file.vol.drive);
      ContentKept(t, t', file.extents, file.size, cap);
      AltStays(alt, requests, t, store, requests, t', store, cap);
    }

    // ---------------------------------------------------------------- data placement

    // Keep the file's data off the index partition from now on.
    method UnsetWriteIp()
      requires Valid() && sched.writeIp[id]
      modifies this`requests, this`alt, sched
      ensures Valid() && View() == old(View()) && !sched.writeIp[id] && alt == []
      ensures requests == NonIp(old(requests), |old(requests)|)
      ensures OnlyMine(old(sched.counters), sched.counters, id) && sched.writeIp == old(sched.writeIp)[id := false]
    {
      hide UnifiedData.Valid, Volume.Valid, Sorted, Mapped, Sum, Content, Cached, AltFits, Count, ViewOf, NonIp,
           Short;
      OnlyMineSelf(sched.counters, id);
      NonIpInvisible(requests, inflight, file.Contents(), fileSize, cap);
      NonIpTally(requests);
      NonIpShort(requests, |requests|, cap);
      sched.UnsetWriteIp(id);
      if sched.counters[id].ip > 0 {
        ghost var was := requests;
        var kept: seq<Request>, i := [], 0;
        NonIpAll(requests, 0);
        while i < |requests|
          invariant i <= |requests| && kept == NonIp(requests, i)
          modifies {}
        {
          NonIpNext(requests, i);
          if requests[i].state != Ip {
            kept := kept + [requests[i]];
          }
          i := i + 1;
        }
        requests := kept;
        sched.UpdateQueueMembership(false, true, Ip, id);
      } else {
        CountZero(requests, |requests|, Ip);
        NonIpAll(requests, |requests|);
        assert requests[..|requests|] == requests;
      }
      NonIpKeepsAll(old(requests), fileSize, cap, inflight, file.Contents());
      alt := [];
      NoAltFits(requests, Settled(file.vol.drive), file.Contents(), cap);
    }

    // Let the file's data go on to the index partition.
    method SetWriteIp()
      requires Valid() && !sched.writeIp[id]
      modifies sched
      ensures Valid() && View() == old(View()) && sched.writeIp == old(sched.writeIp)[id := true]
              && sched.counters == old(sched.counters)
    {
      hide UnifiedData.Valid, Volume.Valid, Sorted, Mapped, Sum, Content, Cached, AltFits, Count, ViewOf;
      sched.SetWriteIp(id);
    }

    // The list that a write works on: leaving the index partition comes first.
    function Prepared(end: nat, maxFileSize: nat, lowSpace: bool): seq<Request>
      requires id < |sched.writeIp|
      reads this, sched
    {
      if sched.writeIp[id] && (end > maxFileSize || lowSpace) then NonIp(requests, |requests|) else requests
    }

    // Write to the file.  It leaves the index partition if it grows too large for it, or if
    // space there runs low.
    method Write(off: nat, data: seq<byte>, maxFileSize: nat, lowSpace: bool)
      requires Valid()
      modifies this`requests, this`fileSize, this`alt, sched
      ensures data == [] ==> Valid() && View() == old(View()) && requests == old(requests)
      ensures data != [] ==> (Valid() <==> Clean(old(Prepared(off + |data|, maxFileSize, lowSpace)), off, |data|, cap))
      ensures data != [] && Valid() ==> View() == WriteAt(old(View()), off, data)
      ensures data != [] ==>
              AfterWrite(old(View()), off, data, Hides(old(Prepared(off + |data|, maxFileSize, lowSpace)), off, cap),
                  View())
      ensures data != [] ==> requests == Placed(Put(off, data, cap), old(Prepared(off + |data|, maxFileSize, lowSpace)))
      ensures InOrder(requests) && Legible() && fileSize == Max(old(fileSize), if data == [] then 0 else off + |data|)
      ensures sched.writeIp == if data != [] && old(sched.writeIp)[id] && (off + |data| > maxFileSize || lowSpace)
                               then old(sched.writeIp)[id := false] else old(sched.writeIp)
      ensures alt == if sched.writeIp[id] then old(alt) else []
      ensures Exact() && OnlyMine(old(sched.counters), sched.counters, id)
    {
      hide UnifiedData.Valid, Volume.Valid, Sorted, Mapped, Sum, Content, Cached, AltFits, Count, ViewOf, NonIp,
           Written, OnlyMine, Clean, NoIp, Held, Sized, Within, Settled, Placed, InOrder, Holds, Readable, Hides,
           Short;
      OnlyMineSelf(sched.counters, id);
      if data == [] {
        SteadyIsLegible({});
        LegibleOrder();
        return;
      }
      if sched.writeIp[id] && (off + |data| > maxFileSize || lowSpace) {
        UnsetWriteIp();
      }
      ghost var was, counters, size, store := requests, sched.counters, fileSize, file.Contents();
      CachedParts(requests, inflight, store, fileSize, cap);
      ghost var under := if NoIp(requests) then [] else store;
      PlacedShort(Put(off, data, cap), was);
      PlaceBytes(off, data, under);
      WriteReadable(was, requests, inflight, store, size, cap, Put(off, data, cap));
      OnlyMineTwice(old(sched.counters), counters, sched.counters, id);
      if Hides(was, off, cap) {
        HiddenShows(was, inflight, store, size, cap, Put(off, data, cap));
      } else {
        WriteLooks(was, requests, inflight, store, size, cap, off, data);
      }
      if Apart(requests) {
        HeldEnough(requests, cap, store, under);
        WriteShows(was, requests, inflight, store, size, cap, off, data);
        AltWritten(alt, was, Settled(file.vol.drive), store, off, data, requests, cap);
      } else if Cached(requests, inflight, file.Contents(), fileSize, cap) {
        CachedParts(requests, inflight, file.Contents(), fileSize, cap);
      }
    }

    // ---------------------------------------------------------------- writing out

    // Write a request to the data partition.
    method WriteOut(r: Request)
      requires file.Valid() && r.data != []
      modifies file, file.vol
      ensures file.Valid() && file.Contents() == WriteAt(old(file.Contents()), r.offset, r.data)
      ensures OutTo(old(file.extents), file.extents, [r], DP, old(file.vol.drive), file.vol.drive, file.vol.blocksize)
      ensures Grows(old(file.vol.drive), old(file.vol.log), file.vol.drive, file.vol.log)
    {
      hide Dentry.Valid, Grows, Content, PutOn, Carried;
      TapeIs(file);
      var ok := file.Write(r.data, r.offset, DP, true, true);
      TapeIs(file);
      OutPut(old(file.extents), file.extents, r, DP, old(file.vol.drive), file.vol.drive, file.vol.blocksize);
    }

    // The background writer writes the next of the requests that it took off the list.
    method WriteNext(ghost paused: set<State>)
      requires Legible() && inflight != []
      modifies this`inflight, file, file.vol
      ensures Legible() && View() == old(View()) && inflight == Remove(old(inflight), 0)
      ensures old(Steady(paused)) ==> Steady(paused)
      ensures var r := old(inflight)[0]; file.Contents() == WriteAt(old(file.Contents()), r.offset, r.data)
      ensures OutTo(old(file.extents), file.extents, [old(inflight)[0]], DP, old(file.vol.drive), file.vol.drive, cap)
      ensures Grows(old(file.vol.drive), old(file.vol.log), file.vol.drive, file.vol.log)
    {
      hide UnifiedData.Valid, Volume.Valid, Sorted, Mapped, Sum, Content, AltFits, Count, ViewOf, Grows, Settled, OutTo,
           Short;
      ghost var steady := Steady(paused);
      if steady {
        WriteNextInvisible(requests, inflight, file.Contents(), fileSize, cap);
      }
      ReadableSizes(requests, inflight, file.Contents(), fileSize, cap);
      WriteNextReadable(requests, inflight, file.Contents(), fileSize, cap);
      hide Cached, Readable;
      WriteOut(inflight[0]);
      inflight := Remove(inflight, 0);
      if steady {
        NoAltFits(requests, Settled(file.vol.drive), file.Contents(), cap);
      }
    }

    // Wait until the background writer is done with this file.
    method Drain(ghost paused: set<State>)
      requires Legible()
      modifies this`inflight, file, file.vol
      ensures Legible() && View() == old(View()) && inflight == [] && (old(Steady(paused)) ==> Steady(paused))
      ensures file.Contents() == WrittenOut(old(inflight), |old(inflight)|, old(file.Contents()))
      ensures OutTo(old(file.extents), file.extents, old(inflight), DP, old(file.vol.drive), file.vol.drive, cap)
      ensures old(inflight) == [] ==> file.Contents() == old(file.Contents()) && file.extents == old(file.extents)
                                      && file.vol.drive == old(file.vol.drive)
      ensures Grows(old(file.vol.drive), old(file.vol.log), file.vol.drive, file.vol.log)
    {
      hide UnifiedData.Valid, Dentry.Valid, AltFits, Count, ViewOf, Grows, Cached, Readable, DentryPriv.Steady, OutTo,
           OutSoFar, WrittenOut, Remove, DentryPriv.Legible;
      LegibleTape();
      DriveGrows(file);
      OutSoFarStart(inflight, file.Contents());
      OutNone(file.extents, DP, file.vol.drive, cap);
      ghost var out: seq<Request> := [];
      while inflight != []
        invariant file.Valid() && 0 < cap && Legible() && View() == old(View())
        invariant old(Steady(paused)) ==> Steady(paused)
        invariant OutSoFar(old(inflight), inflight, old(file.Contents()), file.Contents())
        invariant out + inflight == old(inflight)
                  && OutTo(old(file.extents), file.extents, out, DP, old(file.vol.drive), file.vol.drive, cap)
        invariant old(inflight) == [] ==> file.Contents() == old(file.Contents())
                                          && file.extents == old(file.extents) && file.vol.drive == old(file.vol.drive)
        invariant Grows(old(file.vol.drive), old(file.vol.log), file.vol.drive, file.vol.log)
        decreases |inflight|
      {
        ghost var d, log, exts, was := file.vol.drive, file.vol.log, file.extents, inflight;
        OutSoFarNext(old(inflight), inflight, old(file.Contents()), file.Contents());
        WriteNext(paused);
        LegibleTape();
        GrowsTwice(old(file.vol.drive), old(file.vol.log), d, log, file.vol.drive, file.vol.log);
        OutTwice(old(file.extents), exts, file.extents, out, [was[0]], DP, old(file.vol.drive), old(file.vol.log), d,
            log,
            file.vol.drive, file.vol.log, cap);
        FirstOut(out, was);
        out := out + [was[0]];
      }
      assert out + [] == out;
      OutSoFarDone(old(inflight), old(file.Contents()), file.Contents());
    }

    lemma LegibleTape()
      requires Legible()
      ensures file.Valid() && 0 < cap && cap == file.vol.blocksize && file.vol.drive.appendIp <= |file.vol.drive.ip|
    {
    }

    // Merge a request bound for the index partition into the one before it.
    method MergeBack(i: nat, ghost paused: set<State>) returns (did: nat)
      requires Steady(paused) && inflight == [] && i < |requests| && requests[i].state == Ip
      modifies this`requests, this`fileSize, sched
      ensures Steady(paused) && View() == old(View()) && fileSize == old(fileSize)
      ensures StatesKept(old(requests), requests, i, did == 2) && (did == 2 ==> i > 0)
      ensures requests == MergedBack(old(requests), i, cap) && |requests| ==
              |old(requests)| - (if did == 2 then 1 else 0)
      ensures SameWaiting(old(requests), requests)
      ensures forall x: nat {:trigger Look(requests, x)} :: Look(requests, x) == Look(old(requests), x)
      ensures OnlyMine(old(sched.counters), sched.counters, id) && sched.writeIp == old(sched.writeIp)
    {
      hide UnifiedData.Valid, Volume.Valid, Sorted, Mapped, Sum, Content, AltFits, Count, Tally, ViewOf, Settled,
           Merged, StatesKept, NoIp, Look, LookIn, SameWaiting, Short;
      hide Sized, Apart, Held, Within, OnlyMine, Masked;
      OnlyMineSelf(sched.counters, id);
      StatesSelf(requests, i);
      did := 0;
      MergedBackShort(requests, i, cap);
      MergeBackWaits(requests, i, file.Contents(), fileSize, cap);
      if i > 0 {
        MergeBackFacts(requests, i, file.Contents(), fileSize, cap);
        MergeBackKeeps(alt, requests, i, Settled(file.vol.drive), file.Contents(), fileSize, cap);
        hide Cached, Cut, NewDest;
        did := MergeRequests(i - 1, i, paused);
      }
    }

    // Write request i to the data partition.  It stays for the index partition, or goes.
    method FlushRequest(i: nat, ghost paused: set<State>) returns (next: nat)
      requires Steady(paused) && inflight == [] && i < |requests| && requests[i].state != Ip
               && requests[i].state in paused && Ip !in paused
      modifies this`requests, this`fileSize, sched, file, file.vol
      ensures Steady(paused) && View() == old(View()) && fileSize == old(fileSize)
      ensures next <= |requests| && |requests| - next == |old(requests)| - i - 1
      ensures Flushed(old(requests), i, requests, next)
      ensures var r := old(requests)[i]; file.Contents() == WriteAt(old(file.Contents()), r.offset, r.data)
      ensures if sched.writeIp[id] then requests ==
              MergedBack(old(requests)[i := old(requests)[i].(state := Ip)], i, cap)
              else next == i && requests == Remove(old(requests), i)
      ensures OutTo(old(file.extents), file.extents, [old(requests)[i]], DP, old(file.vol.drive), file.vol.drive, cap)
      ensures SameWaiting(Remove(old(requests), i), requests)
      ensures sched.writeIp[id] ==>
                forall x: nat {:trigger Look(requests, x)} :: Look(requests, x) == Look(old(requests), x)
      ensures OnlyMine(old(sched.counters), sched.counters, id) && sched.writeIp == old(sched.writeIp)
      ensures Grows(old(file.vol.drive), old(file.vol.log), file.vol.drive, file.vol.log)
    {
      hide UnifiedData.Valid, Volume.Valid, Sorted, Mapped, Sum, Content, AltFits, Count, ViewOf, Settled, Merged,
           StatesKept, NoIp, Look, LookIn, OutTo, SameWaiting, Short, Remove;
      hide Sized, Apart, Held, Within, OnlyMine, Grows, Flushed, MergedBack;
      OnlyMineSelf(sched.counters, id);
      ghost var was, store, t := requests, file.Contents(), Settled(file.vol.drive);
      CachedSizes(requests, store, fileSize, cap);
      WriteOut(requests[i]);
      GrowsExtends(old(file.vol.drive), old(file.vol.log), file.vol.drive, file.vol.log);
      FlushKeeps(alt, requests, i, t, store, Settled(file.vol.drive), fileSize, cap);
      hide Cached;
      RemoveShort(requests, i, cap);
      if sched.writeIp[id] {
        KeepForIp(requests, i, cap);
        TallyReplace(requests, i, requests[i].(state := Ip));
        requests := requests[i := requests[i].(state := Ip)];
        sched.UpdateQueueMembership(true, false, Ip, id);
        ghost var counters, mid := sched.counters, requests;
        OnlyMineOne(old(sched.counters), counters, id);
        var did := MergeBack(i, paused);
        OnlyMineTwice(old(sched.counters), counters, sched.counters, id);
        FlushedMerged(was, mid, requests, i, did == 2);
        WaitingTwice(Remove(was, i), mid, requests);
        next := if did == 2 then i else i + 1;
      } else {
        RemovedSame(Remove(requests, i));
        TallyRemove(requests, i);
        FlushedRemoved(requests, i);
        NoAltFits(Remove(requests, i), Settled(file.vol.drive), file.Contents(), cap);
        requests := Remove(requests, i);
        next := i;
      }
    }

    // Write the requests out in list order, as a flush does with a file whose data stays on the
    // data partition, whether they overlap or not.
    method WriteAllOut()
      requires file.Valid() && forall k {:trigger requests[k]} :: 0 <= k < |requests| ==> requests[k].data != []
      modifies this`requests, file, file.vol
      ensures file.Valid() && requests == []
      ensures file.Contents() == WrittenOut(old(requests), |old(requests)|, old(file.Contents()))
      ensures OutTo(old(file.extents), file.extents, old(requests), DP, old(file.vol.drive), file.vol.drive,
              file.vol.blocksize)
    {
      hide Dentry.Valid, Content, Grows, OutSoFar, OutTo, WrittenOut, Remove;
      TapeIs(file);
      DriveGrows(file);
      OutSoFarStart(requests, file.Contents());
      OutNone(file.extents, DP, file.vol.drive, file.vol.blocksize);
      ghost var out: seq<Request> := [];
      while requests != []
        invariant file.Valid() && OutSoFar(old(requests), requests, old(file.Contents()), file.Contents())
        invariant forall k {:trigger requests[k]} :: 0 <= k < |requests| ==> requests[k].data != []
        invariant Grows(old(file.vol.drive), old(file.vol.log), file.vol.drive, file.vol.log)
        invariant 0 < file.vol.blocksize && out + requests == old(requests)
        invariant OutTo(old(file.extents), file.extents, out, DP, old(file.vol.drive), file.vol.drive,
                  file.vol.blocksize)
        decreases |requests|
      {
        ghost var d, log, exts := file.vol.drive, file.vol.log, file.extents;
        OutSoFarNext(old(requests), requests, old(file.Contents()), file.Contents());
        WriteOut(requests[0]);
        GrowsTwice(old(file.vol.drive), old(file.vol.log), d, log, file.vol.drive, file.vol.log);
        OutTwice(old(file.extents), exts, file.extents, out, [requests[0]], DP, old(file.vol.drive), old(file.vol.log),
            d, log, file.vol.drive, file.vol.log, file.vol.blocksize);
        FirstOut(out, requests);
        out := out + [requests[0]];
        requests := Remove(requests, 0);
      }
      assert out + [] == out;
      OutSoFarDone(old(requests), old(file.Contents()), file.Contents());
    }

    // Go through the list: requests for the data partition are written there, and stay for the
    // index partition or go.
    method FlushList(ghost paused: set<State>)
      requires paused == {Partial, Dp} && Steady(paused) && inflight == []
      modifies this`requests, this`fileSize, sched, file, file.vol
      ensures Steady(paused) && View() == old(View()) && AllIp(requests, |requests|)
      ensures if sched.writeIp[id] then
                && requests == PassRun(old(requests), 0, {Partial, Dp}, cap)
                && forall x: nat {:trigger Look(requests, x)} :: Look(requests, x) == Look(old(requests), x)
              else OutSoFar(old(requests), requests, old(file.Contents()), file.Contents())
      ensures OutTo(old(file.extents), file.extents, Having(old(requests), |old(requests)|, {Partial, Dp}), DP,
              old(file.vol.drive), file.vol.drive, cap)
      ensures OnlyMine(old(sched.counters), sched.counters, id) && sched.writeIp == old(sched.writeIp)
      ensures Grows(old(file.vol.drive), old(file.vol.log), file.vol.drive, file.vol.log)
    {
      hide UnifiedData.Valid, Volume.Valid, Sorted, Mapped, Sum, Content, AltFits, Count, ViewOf, Settled, NoIp, Look,
           LookIn;
      hide Sized, Apart, Held, Within, OnlyMine, Grows, Flushed, Cached, AllIp, OutSoFar, Remove, MergedBack,
           PassRun, OutTo, Halfway, SameWaiting, Short;
      OnlyMineSelf(sched.counters, id);
      DriveGrows(file);
      TapeIs(file);
      OutSoFarStart(requests, file.Contents());
      OutNone(file.extents, DP, file.vol.drive, cap);
      HalfwayStart(requests, {Partial, Dp});
      ghost var out: seq<Request> := [];
      var i: nat := 0;
      AllIpNone(requests);
      while i < |requests|
        invariant i <= |requests| && Steady(paused) && View() == old(View()) && inflight == [] && AllIp(requests, i)
        invariant if sched.writeIp[id] then
                    && PassRun(requests, i, {Partial, Dp}, cap) == PassRun(old(requests), 0, {Partial, Dp}, cap)
                    && forall x: nat {:trigger Look(requests, x)} :: Look(requests, x) == Look(old(requests), x)
                  else i == 0 && OutSoFar(old(requests), requests, old(file.Contents()), file.Contents())
        invariant OnlyMine(old(sched.counters), sched.counters, id) && sched.writeIp == old(sched.writeIp)
        invariant Grows(old(file.vol.drive), old(file.vol.log), file.vol.drive, file.vol.log)
        invariant Halfway(old(requests), out, requests, {Partial, Dp})
                  && OutTo(old(file.extents), file.extents, out, DP, old(file.vol.drive), file.vol.drive, cap)
        decreases |requests| - i
      {
        ghost var was, counters, d, log, exts := requests, sched.counters, file.vol.drive, file.vol.log, file.extents;
        AllIpNot(requests, i);
        if NoIp(requests) {
          NoIpAt(requests, i);
        }
        if requests[i].state == Ip {
          assert was[i := was[i].(state := Ip)] == was;
          var did := MergeBack(i, paused);
          AllIpMerged(was, requests, i, did == 2);
          PassNext(was, i, {Partial, Dp}, cap, requests, if did == 2 then i else i + 1);
          HalfwaySame(old(requests), out, was, requests, {Partial, Dp});
          i := if did == 2 then i else i + 1;
        } else {
          if !sched.writeIp[id] {
            OutSoFarNext(old(requests), requests, old(file.Contents()), file.Contents());
          }
          var next := FlushRequest(i, paused);
          AllIpFlushed(was, i, requests, next);
          if sched.writeIp[id] {
            PassNext(was, i, {Partial, Dp}, cap, requests, next);
          }
          HalfwayNext(old(requests), out, was, i, requests, {Partial, Dp});
          OutTwice(old(file.extents), exts, file.extents, out, [was[i]], DP, old(file.vol.drive), old(file.vol.log), d,
              log,
              file.vol.drive, file.vol.log, cap);
          out := out + [was[i]];
          i := next;
          GrowsTwice(old(file.vol.drive), old(file.vol.log), d, log, file.vol.drive, file.vol.log);
        }
        OnlyMineTwice(old(sched.counters), counters, sched.counters, id);
      }
      PassEnd(requests, {Partial, Dp}, cap);
      AllIpNot(requests, |requests|);
      HalfwayEnd(old(requests), out, requests, {Partial, Dp});
    }

    // Write everything that waits to the data partition.  With nothing on the list there is
    // nothing to do, even if the background writer is still writing requests that it took off
    // the list: then, and only then, the file has not reached the tape afterwards.
    method Flush()
      requires Valid()
      modifies this`requests, this`inflight, this`fileSize, sched, file, file.vol
      ensures Valid() && View() == old(View()) && AllIp(requests, |requests|) && (!sched.writeIp[id] ==> requests == [])
      ensures inflight == [] <==> old(requests) != [] || old(inflight) == []
      ensures inflight == [] ==> file.Contents() == View()
      ensures sched.writeIp[id] ==>
                && requests == PassRun(old(requests), 0, {Partial, Dp}, cap)
                && forall x: nat {:trigger Look(requests, x)} :: Look(requests, x) == Look(old(requests), x)
      ensures old(requests) != [] ==>
                OutTo(old(file.extents), file.extents,
                    old(inflight) + Having(old(requests), |old(requests)|, {Partial, Dp}), DP,
                    old(file.vol.drive), file.vol.drive, cap)
      ensures old(inflight) == [] && !old(sched.writeIp)[id] ==>
              file.Contents() == WrittenOut(old(requests), |old(requests)|, old(file.Contents()))
      ensures old(requests) == [] ==>
              requests == [] && inflight == old(inflight) && file.Contents() == old(file.Contents())
              && file.extents == old(file.extents) && file.vol.drive == old(file.vol.drive)
      ensures OnlyMine(old(sched.counters), sched.counters, id) && sched.writeIp == old(sched.writeIp)
      ensures Grows(old(file.vol.drive), old(file.vol.log), file.vol.drive, file.vol.log)
    {
      hide UnifiedData.Valid, Volume.Valid, Sorted, Mapped, Sum, Content, AltFits, Count, ViewOf, Settled, NoIp, Look,
           LookIn;
      hide Sized, Apart, Held, Within, OnlyMine, Grows, Cached, AllIp, OutSoFar, WrittenOut, MergedBack, OutTo,
           Having, Short;
      OnlyMineSelf(sched.counters, id);
      DriveGrows(file);
      ghost var paused := {Partial, Dp};
      if requests == [] {
        OutSoFarStart(requests, file.Contents());
        OutSoFarDone(requests, file.Contents(), file.Contents());
        AllIpNone(requests);
        if inflight == [] {
          StoreIsView(requests, file.Contents(), fileSize, cap);
        }
        return;
      }
      sched.UpdateQueueMembership(false, true, Dp, id);
      sched.UpdateQueueMembership(false, true, Partial, id);
      OnlyMineOne(old(sched.counters), sched.counters, id);
      SteadyIsLegible(paused);
      Drain(paused);
      ghost var counters, d, log, exts := sched.counters, file.vol.drive, file.vol.log, file.extents;
      FlushList(paused);
      OnlyMineTwice(old(sched.counters), counters, sched.counters, id);
      TapeIs(file);
      OutTwice(old(file.extents), exts, file.extents, old(inflight),
          Having(old(requests), |old(requests)|, {Partial, Dp}), DP, old(file.vol.drive), old(file.vol.log), d, log,
          file.vol.drive, file.vol.log, cap);
      GrowsTwice(old(file.vol.drive), old(file.vol.log), d, log, file.vol.drive, file.vol.log);
      StoreIsView(requests, file.Contents(), fileSize, cap);
      AllIpCounts(requests);
      if old(inflight) == [] && !sched.writeIp[id] {
        OutSoFarDone(old(requests), old(file.Contents()), file.Contents());
      }
    }

    // Take request i off the list, to be written by the background writer.
    method DetachRequest(i: nat, ghost paused: set<State>)
      requires Steady(paused) && i < |requests| && requests[i].state != Ip && requests[i].state in paused
      requires !sched.writeIp[id] && NoneLeft(requests, i, paused) && OutBefore(inflight, requests, i)
      modifies this`requests, this`inflight
      ensures Steady(paused) && View() == old(View()) && requests == Remove(old(requests), i)
      ensures inflight == old(inflight) + [old(requests)[i]]
      ensures NoneLeft(requests, i, paused) && OutBefore(inflight, requests, i)
    {
      hide UnifiedData.Valid, Volume.Valid, Sorted, Mapped, Sum, Content, AltFits, Count, ViewOf, Settled, NoIp, Look,
           LookIn, Cached, NoneLeft, OutBefore;
      NoneLeftDetached(requests, i, inflight, file.Contents(), fileSize, cap, paused);
      DetachInvisible(requests, i, inflight, file.Contents(), fileSize, cap);
      TallyRemove(requests, i);
      NoAltFits(Remove(requests, i), Settled(file.vol.drive), file.Contents(), cap);
      inflight, requests := inflight + [requests[i]], Remove(requests, i);
    }

    lemma SteadyFacts(paused: set<State>)
      requires Steady(paused)
      ensures file.Valid() && 0 < cap && cap == file.vol.blocksize && id < |sched.writeIp| && Short(requests, cap)
      ensures file.vol.drive.appendIp <= |file.vol.drive.ip| && (!sched.writeIp[id] ==> NoIp(requests))
    {
    }

    // The requests that a pass is about leave the queues.
    method StartPass(partialToo: bool)
      requires Valid()
      modifies sched
      ensures Steady(PassOver(partialToo)) && View() == old(View())
      ensures OnlyMine(old(sched.counters), sched.counters, id) && sched.writeIp == old(sched.writeIp)
    {
      hide UnifiedData.Valid, Volume.Valid, Sorted, Mapped, Sum, Content, AltFits, Count, ViewOf, Settled, NoIp, Cached,
           Short;
      sched.UpdateQueueMembership(false, true, if partialToo then Partial else Dp, id);
      if partialToo {
        sched.UpdateQueueMembership(false, true, Dp, id);
      }
      OnlyMineOne(old(sched.counters), sched.counters, id);
    }

    lemma EndPass(paused: set<State>)
      requires Steady(paused) && NoneLeft(requests, |requests|, paused)
      ensures Valid()
    {
      hide UnifiedData.Valid, Volume.Valid, Sorted, Mapped, Sum, Content, AltFits, Count, ViewOf, Settled, NoIp, Cached,
           Short, NoneLeft, Tally;
      NoneLeftCounts(requests, paused);
    }

    // The first half of a background pass over the file's requests: full ones, and partly
    // filled ones if asked for.  Those that go on to the index partition are written at once;
    // the others are taken off the list, to be written without holding the file's lock.
    method ProcessDataQueue(partialToo: bool)
      requires Valid() && inflight == []
      modifies this`requests, this`inflight, this`fileSize, sched, file, file.vol
      ensures Valid() && View() == old(View())
      ensures NoneLeft(requests, |requests|, PassOver(partialToo))
      ensures forall k {:trigger requests[k]} :: 0 <= k < |requests| && |requests[k].data| == cap ==>
                requests[k].state == Ip
      ensures var out := Having(old(requests), |old(requests)|, PassOver(partialToo));
              if sched.writeIp[id] then
                && inflight == [] && requests == PassRun(old(requests), 0, PassOver(partialToo), cap)
                && OutTo(old(file.extents), file.extents, out, DP, old(file.vol.drive), file.vol.drive, cap)
              else
                && inflight == out && requests == Having(old(requests), |old(requests)|, Others(PassOver(partialToo)))
                && file.extents == old(file.extents) && file.vol.drive == old(file.vol.drive)
      ensures OnlyMine(old(sched.counters), sched.counters, id) && sched.writeIp == old(sched.writeIp)
      ensures Grows(old(file.vol.drive), old(file.vol.log), file.vol.drive, file.vol.log)
    {
      hide UnifiedData.Valid, Volume.Valid, Sorted, Mapped, Sum, Content, AltFits, Count, ViewOf, Settled, NoIp, Look,
           LookIn;
      hide Sized, Apart, Held, Within, OnlyMine, Grows, Flushed, Cached, NoneLeft, OutBefore, Remove,
           WriteAt, Having, Passing, OutTo, PassRun, MergedBack, SameWaiting, Short, DentryPriv.Steady;
      SteadyFacts({});
      DriveGrows(file);
      ghost var paused := PassOver(partialToo);
      StartPass(partialToo);
      SteadyFacts(paused);
      var i: nat := 0;
      NoneLeftStart(requests, paused);
      OutNone(file.extents, DP, file.vol.drive, cap);
      PassingStart(requests, paused, cap, sched.writeIp[id]);
      ghost var out: seq<Request> := [];
      while i < |requests|
        invariant i <= |requests| && 0 < cap && id < |sched.writeIp| && file.Valid()
        invariant Steady(paused) && View() == old(View()) && NoneLeft(requests, i, paused)
        invariant if sched.writeIp[id] then inflight == [] else inflight == out && OutBefore(inflight, requests, i)
        invariant OnlyMine(old(sched.counters), sched.counters, id) && sched.writeIp == old(sched.writeIp)
        invariant Grows(old(file.vol.drive), old(file.vol.log), file.vol.drive, file.vol.log)
        invariant Passing(old(requests), out, requests, i, paused, cap, sched.writeIp[id])
        invariant if sched.writeIp[id] then
                    OutTo(old(file.extents), file.extents, out, DP, old(file.vol.drive), file.vol.drive, cap)
                  else file.extents == old(file.extents) && file.vol.drive == old(file.vol.drive)
        decreases |requests| - i
      {
        ghost var was, counters, d, log, exts := requests, sched.counters, file.vol.drive, file.vol.log, file.extents;
        if requests[i].state == Ip {
          SteadyFacts(paused);
          if NoIp(requests) {
            NoIpAt(requests, i);
          }
          var did := MergeBack(i, paused);
          NoneLeftMerged(was, requests, i, did == 2, paused);
          PassingMerged(old(requests), out, was, i, paused, cap, requests, if did == 2 then i else i + 1);
          i := if did == 2 then i else i + 1;
          OnlyMineTwice(old(sched.counters), counters, sched.counters, id);
        } else if requests[i].state == Dp || partialToo {
          NoneLeftIs(was, i, paused);
          if sched.writeIp[id] {
            var next := FlushRequest(i, paused);
            NoneLeftFlushed(was, i, requests, next, paused);
            PassingFlushed(old(requests), out, was, i, paused, cap, requests, next);
            OutTwice(old(file.extents), exts, file.extents, out, [was[i]], DP, old(file.vol.drive), old(file.vol.log),
                d,
                log, file.vol.drive, file.vol.log, cap);
            out := out + [was[i]];
            i := next;
            OnlyMineTwice(old(sched.counters), counters, sched.counters, id);
            GrowsTwice(old(file.vol.drive), old(file.vol.log), d, log, file.vol.drive, file.vol.log);
          } else {
            PassingDetached(old(requests), out, was, i, paused, cap);
            DetachRequest(i, paused);
            out := out + [was[i]];
          }
        } else {
          PassingSkipped(old(requests), out, requests, i, paused, cap, sched.writeIp[id]);
          OutStart(inflight, requests, i);
          NoneLeftSkipped(requests, i, inflight, paused);
          i := i + 1;
        }
        SteadyFacts(paused);
      }
      SteadyFacts(paused);
      EndPass(paused);
      NoneLeftIs(requests, |requests|, paused);
      PassingEnd(old(requests), out, requests, paused, cap, sched.writeIp[id]);
      NoneFull(requests, paused, cap);
    }

    // Write one request to the index partition and note where it went.
    method IndexRequest(i: nat)
      requires Steady({Ip}) && inflight == [] && i < |requests| && requests[i].state == Ip
      modifies this`requests, this`alt, file.vol
      ensures Steady({Ip}) && View() == old(View()) && requests == Remove(old(requests), i)
      ensures OutTo(old(alt), alt, [old(requests)[i]], IP, old(file.vol.drive), file.vol.drive, cap)
      ensures Grows(old(file.vol.drive), old(file.vol.log), file.vol.drive, file.vol.log)
              && file.Contents() == old(file.Contents())
    {
      hide UnifiedData.Valid, Volume.Valid, Sorted, Mapped, Sum, Content, Count, ViewOf, Look, LookIn, Find, FindIn;
      hide Sized, Apart, Held, Within, Grows, Carries, Newest, AltOk, Overlaid, Settled, GroundOf, Extends, Carried,
           Short;
      ghost var was, store, t := requests, file.Contents(), Settled(file.vol.drive);
      CachedSizes(requests, store, fileSize, cap);
      var ext := file.AppendData(requests[i].data, requests[i].offset, IP);
      GrowsExtends(old(file.vol.drive), old(file.vol.log), file.vol.drive, file.vol.log);
      JustNewest(t, Settled(file.vol.drive), ext, was[i].data, cap);
      ghost var oldAlt := alt;
      alt := UpdateAltExtentList(alt, ext, cap, GroundOf(t, cap), GroundOf(Settled(file.vol.drive), cap));
      CarriedOne(oldAlt, alt, was[i], ext, IP, |t.Recs(IP)|, Settled(file.vol.drive), cap);
      IndexStep(was, i, store, fileSize, cap, oldAlt, t, alt, Settled(file.vol.drive), ext, cap);
      RemoveKeepsIp(was, i);
      RemoveShort(was, i, cap);
      if NoIp(was) {
        NoIpAt(was, i);
      }
      hide Cached, AltFits, NoIp;
      TallyRemove(requests, i);
      requests := Remove(requests, i);
    }

    // Write the file's requests that wait for the index partition.  No other pass over the
    // file is under way.
    method ProcessIndexQueue()
      requires Valid() && inflight == []
      modifies this`requests, this`alt, sched, file.vol
      ensures Valid() && View() == old(View()) && NoIp(requests)
              && (AllIp(old(requests), |old(requests)|) ==> requests == [])
      ensures requests == Having(old(requests), |old(requests)|, Others({Ip}))
      ensures OutTo(old(alt), alt, Having(old(requests), |old(requests)|, {Ip}), IP, old(file.vol.drive),
              file.vol.drive, cap)
      ensures OnlyMine(old(sched.counters), sched.counters, id) && sched.writeIp == old(sched.writeIp)
      ensures Grows(old(file.vol.drive), old(file.vol.log), file.vol.drive, file.vol.log)
              && file.Contents() == old(file.Contents())
    {
      hide UnifiedData.Valid, Volume.Valid, Sorted, Mapped, Sum, Content, AltFits, Count, ViewOf, Settled, Look, LookIn;
      hide Sized, Apart, Held, Within, OnlyMine, Grows, Cached, NoneLeft, OutTo, Having, Halfway, Short, Remove;
      DriveGrows(file);
      TapeIs(file);
      sched.UpdateQueueMembership(false, true, Ip, id);
      OnlyMineOne(old(sched.counters), sched.counters, id);
      OutNone(alt, IP, file.vol.drive, cap);
      HalfwayStart(requests, {Ip});
      ghost var out: seq<Request> := [];
      var i := 0;
      NoneLeftStart(requests, {Ip});
      while i < |requests|
        invariant i <= |requests| && Steady({Ip}) && View() == old(View()) && inflight == []
                  && NoneLeft(requests, i, {Ip})
        invariant AllIp(old(requests), |old(requests)|) ==> i == 0 && AllIp(requests, |requests|)
        invariant OnlyMine(old(sched.counters), sched.counters, id) && sched.writeIp == old(sched.writeIp)
        invariant Grows(old(file.vol.drive), old(file.vol.log), file.vol.drive, file.vol.log)
                  && file.Contents() == old(file.Contents())
        invariant Halfway(old(requests), out, requests, {Ip})
                  && OutTo(old(alt), alt, out, IP, old(file.vol.drive), file.vol.drive, cap)
        invariant Having(requests, |requests|, Others({Ip})) == Having(old(requests), |old(requests)|, Others({Ip}))
        decreases |requests| - i
      {
        ghost var was, d, log, exts := requests, file.vol.drive, file.vol.log, alt;
        if requests[i].state == Ip {
          IndexRequest(i);
          NoneLeftIs(was, i, {Ip});
          HalfwayOff(old(requests), out, was, i, {Ip});
          HavingRemoved(was, i, Others({Ip}));
          NoneLeftRemoved(was, i, {Ip});
          OutTwice(old(alt), exts, alt, out, [was[i]], IP, old(file.vol.drive), old(file.vol.log), d, log,
              file.vol.drive,
              file.vol.log, cap);
          out := out + [was[i]];
          GrowsTwice(old(file.vol.drive), old(file.vol.log), d, log, file.vol.drive, file.vol.log);
        } else {
          OutStart([], requests, i);
          NoneLeftSkipped(requests, i, [], {Ip});
          i := i + 1;
        }
      }
      NoneLeftCounts(requests, {Ip});
      NoneLeftNoIp(requests);
      NoneLeftIs(requests, |requests|, {Ip});
      HalfwayEnd(old(requests), out, requests, {Ip});
      NoneLeftOthers(requests, {Ip});
    }

    // ---------------------------------------------------------------- reading

    // Take what the waiting requests hold, and note the gaps.
    method TakeCached(buf: array<byte>, base: nat, count: nat, off: nat) returns (len: nat, gaps: seq<Gap>)
      requires InOrder(requests) && Within(requests, fileSize) && base + count <= buf.Length && 0 < count
      modifies buf
      ensures len <= count && Served(buf[..], old(buf[..]), base, len, off, requests, gaps)
      ensures (len > 0 ==> off + len <= fileSize) && (len < count ==> Reading.Behind(requests, |requests|, off + len))
    {
      hide Look, LookIn, InOrder, Served, Reading.Behind;
      ghost var was := buf[..];
      ServedNone(was, base, off, requests);
      len, gaps := 0, [];
      var i := 0;
      while i < |requests| && len < count
        invariant i <= |requests| && len <= count && Served(buf[..], was, base, len, off, requests, gaps)
        invariant (len > 0 ==> off + len <= fileSize) && (len < count ==> Reading.Behind(requests, i, off + len))
      {
        var req := requests[i];
        // a gap in front of the request
        if off + len < req.offset {
          var toRead := Min(req.offset - (off + len), count - len);
          ServeGap(buf[..], was, base, len, off, requests, gaps, i, toRead);
          gaps, len := gaps + [Gap(off + len, base + len, toRead)], len + toRead;
          if len == count {
            return;
          }
        }
        // what the request holds of the rest
        if off + len < req.End() {
          var toCopy := Min(req.End() - (off + len), count - len);
          ghost var now := buf[..];
          CopyBytes(buf, base + len, req.data, off + len - req.offset, toCopy);
          ServeCached(buf[..], now, was, base, len, off, requests, gaps, i, toCopy);
          if len + toCopy < count {
            BehindNext(requests, i, off + len, off + len + toCopy);
          }
          len := len + toCopy;
        } else {
          BehindNext(requests, i, off + len, off + len);
        }
        i := i + 1;
      }
    }

    // Read the gaps from the store.  What lies beyond its end will only exist once the
    // requests behind it are written, and reads as zeros.
    method FillGaps(buf: array<byte>, base: nat, len: nat, off: nat, gaps: seq<Gap>, ghost was: seq<byte>)
      requires file.Valid() && file.size + file.vol.blocksize < U64 && off + len < U64 && base + len <= buf.Length
      requires Served(buf[..], was, base, len, off, requests, gaps)
      modifies buf, file.vol`drive, file.vol`lastPos, file.vol`lastBlock
      ensures file.Valid() && file.Contents() == old(file.Contents())
              && file.vol.drive == old(file.vol.drive).(at := file.vol.drive.at)
      ensures Filled(buf[..], was, base, len, off, requests, gaps, |gaps|, file.Contents())
    {
      hide Look, LookIn, Dentry.Valid, Filled, Content, InGaps;
      ghost var store := file.Contents();
      FillStart(buf[..], was, base, len, off, requests, gaps, store);
      var pastEof := false;
      for i := 0 to |gaps|
        invariant file.Valid() && file.Contents() == store && file.vol.drive ==
                  old(file.vol.drive).(at := file.vol.drive.at)
        invariant GapsOk(gaps, base, len, off, requests)
                  && Filled(buf[..], was, base, len, off, requests, gaps, i, store)
        invariant pastEof && i < |gaps| ==> |store| <= gaps[i].offset
      {
        var g := gaps[i];
        ghost var now := buf[..];
        var nread := 0;
        if !pastEof {
          nread := file.Read(buf, g.at, g.count, g.offset);
          pastEof := nread < g.count;
        }
        ZeroBytes(buf, g.at + nread, g.count - nread);
        FillGap(buf[..], now, was, base, len, off, requests, gaps, i, store);
        if pastEof && i + 1 < |gaps| {
          PastEof(gaps, base, len, off, requests, i, i + 1, store);
        }
      }
    }

    // Read what the requests do not hold: the gaps, and what lies behind the last request.
    method ReadStore(buf: array<byte>, base: nat, count: nat, off: nat, len: nat, gaps: seq<Gap>,
        ghost was: seq<byte>) returns (n: nat)
      requires file.Valid() && Listed(requests, [], file.Contents(), fileSize)
      requires file.size + file.vol.blocksize < U64 && off + count < U64 && base + count <= buf.Length && len <= count
      requires Served(buf[..], was, base, len, off, requests, gaps) && (len > 0 ==> off + len <= fileSize)
      requires len < count ==> Reading.Behind(requests, |requests|, off + len)
      modifies buf, file.vol`drive, file.vol`lastPos, file.vol`lastBlock
      ensures file.Valid() && file.Contents() == old(file.Contents())
              && file.vol.drive == old(file.vol.drive).(at := file.vol.drive.at)
      ensures len < count || len > 0 ==> n == |ReadAt(ViewOf(requests, [], file.Contents(), fileSize), off, count)|
      ensures Delivered(buf[..], was, base, n, ViewOf(requests, [], file.Contents(), fileSize), off)
    {
      hide Dentry.Valid, Content, ViewOf, Look, LookIn, Delivered, Filled, Served, Listed, Reading.Behind;
      ghost var store := file.Contents();
      if gaps != [] {
        FillGaps(buf, base, len, off, gaps, was);
      } else {
        FillStart(buf[..], was, base, len, off, requests, gaps, store);
      }
      AllServed(buf[..], was, base, len, off, requests, gaps, store, fileSize);
      n := len;
      if len < count {
        ghost var now := buf[..];
        var nread := file.Read(buf, base + len, count - len, off + len);
        TailServed(buf[..], now, was, base, len, off, count, requests, store, fileSize, nread);
        n := len + nread;
      }
    }

    // Read up to `count` bytes from `off` on into the buffer at `base`.
    method Read(buf: array<byte>, base: nat, count: nat, off: nat) returns (n: nat)
      requires Legible() && fileSize + file.vol.blocksize < U64 && off + count < U64 && base + count <= buf.Length
      modifies buf, this`inflight, file, file.vol
      ensures Legible() && View() == old(View()) && (old(Valid()) ==> Valid())
      ensures n == |ReadAt(View(), off, count)|
      ensures Delivered(buf[..], old(buf[..]), base, n, View(), off)
    {
      hide UnifiedData.Valid, Volume.Valid, Sorted, Mapped, Sum, Content, AltFits, Count, ViewOf, Grows, Settled,
           Cached, Look, LookIn, Delivered;
      hide Served, Reading.Behind, Stable, ReadAt;
      ghost var was := buf[..];
      if count == 0 {
        DeliveredNone(was, base, View(), off);
        ReadNothing(View(), off);
        return 0;
      }
      var len, gaps := TakeCached(buf, base, count, off);
      if gaps == [] && len == count {
        OnlyCached(buf[..], was, base, len, off, requests, inflight, file.Contents(), fileSize);
        return len;
      }
      if inflight != [] {
        Drain({});  // the background writer is done with the file before the store is read
      }
      ghost var d := file.vol.drive;
      n := ReadStore(buf, base, count, off, len, gaps, was);
      SettledStays(d, file.vol.drive);
    }

    // ---------------------------------------------------------------- truncating

    // Cut the waiting requests at a length, from the last one backwards.
    method CutWaiting(len: nat)
      requires Exact() && Apart(requests) && Sized(requests, cap)
      modifies this`requests, sched
      ensures Exact() && requests == CutRequests(old(requests), |old(requests)|, len)
      ensures OnlyMine(old(sched.counters), sched.counters, id) && sched.writeIp == old(sched.writeIp)
    {
      hide UnifiedData.Valid, Count, Tally, CutTo, Shorten, Apart, Sized, OnlyMine;
      OnlyMineSelf(sched.counters, id);
      ghost var was := requests;
      var i := |requests|;
      CutStart(requests, len);
      while i > 0
        invariant 0 <= i <= |requests| && i <= |was| && Exact() && CutTo(was, i, len, requests)
        invariant OnlyMine(old(sched.counters), sched.counters, id) && sched.writeIp == old(sched.writeIp)
        decreases i
      {
        CutStep(was, i, len, requests);
        ghost var counters := sched.counters;
        if requests[i - 1].offset >= len {
          RemoveRequest(i - 1, {});
          OnlyMineTwice(old(sched.counters), counters, sched.counters, id);
        } else if requests[i - 1].End() > len {
          ShortenRequest(i - 1, len);
        } else {
          break;
        }
        i := i - 1;
      }
      CutDone(was, i, len, requests, cap);
    }

    // Cut, or extend, what waits, what lies on the index partition, and the store.
    method CutAll(len: nat)
      requires Valid() && inflight == []
      modifies this`requests, this`alt, this`fileSize, sched, file, file.vol`index, file.vol`dirty
      ensures Valid() && View() == Resize(old(View()), len) && fileSize == len
      ensures requests ==
              if len < old(fileSize) then CutRequests(old(requests), |old(requests)|, len) else old(requests)
      ensures CutOff(old(alt), alt, len, cap) && CutOff(old(file.extents), file.extents, len, cap)
      ensures OnlyMine(old(sched.counters), sched.counters, id) && sched.writeIp == old(sched.writeIp)
    {
      hide UnifiedData.Valid, Volume.Valid, Sorted, Mapped, Sum, Content, AltFits, Count, Tally, ViewOf, Settled, Look,
           LookIn, Find, FindIn;
      hide Apart, Held, Within, OnlyMine, AltOk, NoIp, GroundOf, CutRequests, Sized, Short;
      ghost var was, store, size, t, oldAlt := requests, file.Contents(), fileSize, Settled(file.vol.drive), alt;
      OnlyMineSelf(sched.counters, id);
      TruncateShows(requests, store, size, cap, len);
      CutShort(requests, |requests|, len, cap);
      if len < fileSize {
        CutWaiting(len);
        AltGround(alt, was, was, t, store, cap);
        alt := TruncateAltExtentList(alt, len, cap, GroundOf(t, cap));
      } else {
        AltBeyond(alt, was, t, store, size, cap, len);
      }
      fileSize := len;
      TruncatedNoIp(was, len);
      file.Truncate(len);
      AltTruncated(oldAlt, was, t, store, alt, requests, len, cap);
    }

    // Truncate the file, or extend it with zeros.  What the background writer took off the
    // list reaches the store before that is cut.  A file cut to nothing may go to the index
    // partition again.
    method Truncate(len: nat, maxFileSize: nat, matchesName: bool, deleted: bool)
      requires Valid()
      modifies this`requests, this`inflight, this`alt, this`fileSize, sched, file, file.vol
      ensures Valid() && View() == Resize(old(View()), len) && inflight == []
      ensures var cut := if len < old(fileSize) then CutRequests(old(requests), |old(requests)|, len)
                         else old(requests);
              if old(sched.writeIp)[id] && !sched.writeIp[id] then requests == NonIp(cut, |cut|) && alt == []
              else requests == cut && CutOff(old(alt), alt, len, cap)
      ensures OutAndCut(old(file.extents), old(inflight), file.extents, len, old(file.vol.drive), file.vol.drive, cap)
      ensures OnlyMine(old(sched.counters), sched.counters, id)
      ensures sched.writeIp == old(sched.writeIp)[id := if old(sched.writeIp)[id] then len <= maxFileSize
              && matchesName && !deleted
                                                        else maxFileSize > 0 && len == 0 && matchesName && !deleted]
      ensures Grows(old(file.vol.drive), old(file.vol.log), file.vol.drive, file.vol.log)
    {
      hide UnifiedData.Valid, Dentry.Valid, AltFits, Cached, Count, ViewOf, OnlyMine, Grows, NoIp, NonIp, CutRequests,
           Short, OutTo, CutOff, WrittenOut, Content;
      SteadyIsLegible({});
      Drain({});
      ghost var mid := file.extents;
      CutAll(len);
      SteadyFacts({});
      assert OutTo(old(file.extents), mid, old(inflight), DP, old(file.vol.drive), file.vol.drive, cap);
      ghost var counters := sched.counters;
      if !sched.writeIp[id] && maxFileSize > 0 && len == 0 && matchesName && !deleted {
        SetWriteIp();
      } else if sched.writeIp[id] && (fileSize > maxFileSize || !matchesName || deleted) {
        UnsetWriteIp();
        OnlyMineTwice(old(sched.counters), counters, sched.counters, id);
      }
    }

    // Decide anew whether the file's data goes on to the index partition.
    method UpdateDataPlacement(maxFileSize: nat, matchesName: bool, deleted: bool)
      requires Valid()
      modifies this`requests, this`alt, sched
      ensures Valid() && View() == old(View()) && fileSize == old(fileSize)
      ensures if old(sched.writeIp)[id] && !sched.writeIp[id] then
                requests == NonIp(old(requests), |old(requests)|) && alt == []
              else requests == old(requests) && alt == old(alt)
      ensures OnlyMine(old(sched.counters), sched.counters, id)
      ensures sched.writeIp == old(sched.writeIp)[id := fileSize <= maxFileSize && matchesName && !deleted
                                                        && (old(sched.writeIp)[id] || maxFileSize > 0)]
    {
      hide UnifiedData.Valid, Dentry.Valid, Cached, AltFits, Count, ViewOf, OnlyMine, Look, LookIn, NoIp, NonIp;
      OnlyMineSelf(sched.counters, id);
      if !sched.writeIp[id] && maxFileSize > 0 && fileSize <= maxFileSize && matchesName && !deleted {
        SetWriteIp();
      } else if sched.writeIp[id] && (fileSize > maxFileSize || !matchesName || deleted) {
        UnsetWriteIp();
      }
    }

    // ---------------------------------------------------------------- the end

    // Hand the alternate extents over to the store, in list order: the file's bytes that have a place
    // on the index partition lie there from now on, the others where they were.
    method PushAltExtentList()
      requires Valid() && requests == [] && inflight == []
      modifies this`alt, file, file.vol`index, file.vol`dirty
      ensures Valid() && View() == old(View()) && alt == [] && file.Contents() == old(file.Contents())
      ensures Topped(old(file.extents), old(alt), |old(alt)|, file.extents, cap)
      ensures file.vol.drive == old(file.vol.drive) && file.vol.log == old(file.vol.log)
    {
      hide UnifiedData.Valid, Volume.Valid, Sorted, Mapped, Sum, Content, Count, ViewOf, Find, FindIn, Cached, Carries,
           AltOk, GroundOf, Overlaid, Topped, Short;
      ghost var t, store := Settled(file.vol.drive), file.Contents();
      var i: nat := 0;
      PushStart(alt, t, store, cap);
      ToppedStart(file.extents, alt, cap);
      AltGround(alt, [], [], t, store, cap);
      hide Pushed, AltFits, Look, LookIn;
      while i < |alt|
        invariant i <= |alt| && file.Valid() && Settled(file.vol.drive) == t
                  && Pushed(alt, i, t, store, file.Contents(), cap)
        invariant Topped(old(file.extents), alt, i, file.extents, cap)
        modifies file, file.vol`index, file.vol`dirty
        decreases |alt| - i
      {
        BytesCarried(alt, i, t, cap);
        PushStep(alt, i, t, store, file.Contents(), cap);
        ghost var exts := file.extents;
        var ok := file.AddExtent(alt[i], BytesOf(alt[i], t, cap), true, true);
        ToppedStep(old(file.extents), alt, i, exts, file.extents, cap);
        i := i + 1;
      }
      PushDone(alt, t, store, file.Contents(), cap);
      alt := [];
      NoAltFits(requests, t, store, cap);
    }

    // Tear the scheduler down: everything reaches the tape, and the store alone holds the file.  What
    // waited lies on the partition that the file is bound for.
    method Destroy()
      requires Valid()
      modifies this, sched, file, file.vol
      ensures Valid() && requests == [] && inflight == [] && alt == []
      ensures file.Contents() == View() == old(View())
      ensures Home(old(file.extents), old(alt), old(requests), old(inflight), file.extents, sched.writeIp[id],
              old(file.vol.drive), file.vol.drive, cap)
      ensures OnlyMine(old(sched.counters), sched.counters, id) && sched.writeIp == old(sched.writeIp)
      ensures Grows(old(file.vol.drive), old(file.vol.log), file.vol.drive, file.vol.log)
    {
      hide UnifiedData.Valid, Dentry.Valid, Volume.Valid, Sorted, Mapped, Sum, Content, Count, ViewOf, AltFits, NoIp,
           Cached, Look, LookIn, OnlyMine, Grows, WrittenOut, Short, OutTo, Having, PassRun, Topped, Home, Find, AllIp,
           Settled;
      SteadyIsLegible({});
      ItsRequests();
      Drain({});  // its passes are over
      ghost var counters, d, log, exts := sched.counters, file.vol.drive, file.vol.log, file.extents;
      Flush();
      ItsRequests();
      OutFlushed(old(file.extents), exts, file.extents, old(inflight), old(requests), old(file.vol.drive),
          old(file.vol.log), d, log, file.vol.drive, file.vol.log, cap);
      GrowsTwice(old(file.vol.drive), old(file.vol.log), d, log, file.vol.drive, file.vol.log);
      ghost var mid, d1, log1 := sched.counters, file.vol.drive, file.vol.log;
      ghost var rest, there := requests, file.extents;
      ProcessIndexQueue();
      AllIpHaving(rest);
      GrowsTwice(old(file.vol.drive), old(file.vol.log), d1, log1, file.vol.drive, file.vol.log);
      OnlyMineTwice(counters, mid, sched.counters, id);
      ghost var laid := alt;
      if sched.writeIp[id] && alt != [] {
        PushAltExtentList();
      } else {
        ToppedNone(file.extents, cap);
      }
      HomeAll(old(file.extents), old(alt), old(requests), old(inflight), there, rest, laid, file.extents,
          sched.writeIp[id], old(file.vol.drive), old(file.vol.log), d1, log1, file.vol.drive, file.vol.log, cap);
    }

    lemma ItsRequests()
      requires Valid()
      ensures 0 < cap && Apart(requests) && Apart(inflight) && id < |sched.writeIp|
      ensures (!sched.writeIp[id] ==> NoIp(requests)) && (!sched.writeIp[id] || inflight != [] ==> alt == [])
    {
      hide UnifiedData.Valid, Dentry.Valid, AltFits, Short, Held, Sized, Within;
      TapeIs(file);
    }
  }

  // The states of the requests that a background pass writes out.
  function PassOver(partialToo: bool): set<State>
  {
    if partialToo then {Partial, Dp} else {Dp}
  }

  // A request that stays for the index partition waits and shows as before, but no longer for the
  // data partition.
  lemma KeepForIp(reqs: seq<Request>, i: nat, cap: nat)
    requires i < |reqs| && Short(reqs, cap)
    ensures var s := reqs[i := reqs[i].(state := Ip)];
            && SameWaiting(Remove(reqs, i), s) && Short(s, cap)
            && forall x: nat {:trigger Look(s, x)} :: Look(s, x) == Look(reqs, x)
  {
    hide Look, LookIn, Remove, SameWaiting;
    var r := reqs[i].(state := Ip);
    WaitingKept(reqs, i, r);
    forall x: nat
      ensures Look(reqs[i := r], x) == Look(reqs, x)
    {
      ReplaceLook(reqs, i, r, x);
      LookAt(reqs, i, x);
      assert One(r, x) == One(reqs[i], x);
    }
  }

  // Merging a request that waits for the index partition concerns no other, and does not show.
  lemma MergeBackWaits(requests: seq<Request>, i: nat, store: seq<byte>, size: nat, cap: nat)
    requires Cached(requests, [], store, size, cap) && i < |requests| && requests[i].state == Ip
    ensures var m := MergedBack(requests, i, cap);
            SameWaiting(requests, m) && forall x: nat {:trigger Look(m, x)} :: Look(m, x) == Look(requests, x)
  {
    CachedSizes(requests, store, size, cap);
    if i > 0 {
      MergeBackFacts(requests, i, store, size, cap);
      assert requests[i - 1].offset <= requests[i].offset;
    }
    assert Sized(requests, cap);
    hide Cached, Look, LookIn, Merged, Cut, SameWaiting, Sized;
    WaitingMergedBack(requests, i, cap);
    forall x: nat
      ensures Look(MergedBack(requests, i, cap), x) == Look(requests, x)
    {
      if i > 0 && |requests[i - 1].data| <= cap {
        MergeLook(requests, i, cap, x);
      }
    }
  }

  lemma TapeIs(file: Dentry)
    requires file.Valid()
    ensures 0 < file.vol.blocksize && file.vol.drive.appendIp <= |file.vol.drive.ip|
  {
  }

  lemma FirstOut(out: seq<Request>, reqs: seq<Request>)
    requires reqs != []
    ensures out + reqs == out + [reqs[0]] + Remove(reqs, 0)
  {
  }

  // Moving the drive changes nothing on the tape.
  lemma SettledStays(d: Drive, d': Drive)
    requires d.appendIp <= |d.ip| && d' == d.(at := d'.at)
    ensures Settled(d') == Settled(d)
  {
  }

  lemma DriveGrows(file: Dentry)
    requires file.Valid()
    ensures Grows(file.vol.drive, file.vol.log, file.vol.drive, file.vol.log)
  {
    hide Sorted, Sum, Mapped, MamOk, CohOk, CacheOk, AllSurvive;
    GrowsSelf(file.vol.drive, file.vol.log, file.vol.ipEnd);
  }
}
