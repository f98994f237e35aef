// Reading through the scheduler: cached bytes first, then the gaps from the store.
module Reading {
  import opened Medium
  import opened Flat
  import opened RawFile
  import opened Queues
  import opened Requests
  import opened Sweep
  import opened Placing
  import opened Keeping
  import opened View

  // A stretch of the file to be read from the store into the buffer at `at`.
  datatype Gap = Gap(offset: nat, at: nat, count: nat)

  // What reading needs to know of the waiting requests.
  ghost predicate Listed(requests: seq<Request>, inflight: seq<Request>, store: seq<byte>, size: nat)
  {
    && InOrder(requests) && Within(requests, size) && Within(inflight, size)
    && |store| <= size && (|store| < size ==> Covered(requests, inflight, size - 1))
  }

  lemma CachedIsListed(requests: seq<Request>, inflight: seq<Request>, store: seq<byte>, size: nat, cap: nat)
    requires Cached(requests, inflight, store, size, cap)
    ensures Listed(requests, inflight, store, size)
  {
    hide Look;
    forall i, j | 0 <= i < j < |requests|
      ensures requests[i].offset <= requests[j].offset
    {
    }
  }

  // What is being written out overlaps nothing of its own.
  ghost predicate Readable(requests: seq<Request>, inflight: seq<Request>, store: seq<byte>, size: nat, cap: nat)
  {
    Listed(requests, inflight, store, size) && Sized(inflight, cap) && Apart(inflight)
  }

  lemma CachedIsReadable(requests: seq<Request>, inflight: seq<Request>, store: seq<byte>, size: nat, cap: nat)
    requires Cached(requests, inflight, store, size, cap)
    ensures Readable(requests, inflight, store, size, cap)
  {
    CachedIsListed(requests, inflight, store, size, cap);
  }

  // However the waiting requests overlap, the first one on its way out reaches the store unseen.
  lemma WriteNextReadable(requests: seq<Request>, inflight: seq<Request>, store: seq<byte>, size: nat, cap: nat)
    requires Readable(requests, inflight, store, size, cap) && inflight != []
    ensures var r := inflight[0];
            var out, store' := Remove(inflight, 0), WriteAt(store, r.offset, r.data);
            && Readable(requests, out, store', size, cap)
            && ViewOf(requests, out, store', size) == ViewOf(requests, inflight, store, size)
  {
    hide LookIn, Remove, InOrder, ViewOf;
    var r := inflight[0];
    var out, store' := Remove(inflight, 0), WriteAt(store, r.offset, r.data);
    OutKeeps(inflight, size, cap);
    forall x: nat
      ensures SeenAt(requests, out, store', x) == SeenAt(requests, inflight, store, x)
      ensures Covered(requests, inflight, x) ==> Covered(requests, out, x) || x < |store'|
    {
      RemoveSeen(inflight, 0, x);
    }
    hide Look, Sized, Apart, Within, SeenAt;
    SameView(requests, inflight, store, requests, out, store', size);
  }

  lemma ReadableSizes(requests: seq<Request>, inflight: seq<Request>, store: seq<byte>, size: nat, cap: nat)
    requires Readable(requests, inflight, store, size, cap) && inflight != []
    ensures inflight[0].data != []
  {
  }

  // A write leaves a list that can be read, clean or not.
  lemma WriteReadable(was: seq<Request>, now: seq<Request>, inflight: seq<Request>, store: seq<byte>, size: nat,
      cap: nat, w: Put)
    requires Cached(was, inflight, store, size, cap) && w.data != [] && InOrder(now)
    requires Within(now, Max(size, w.End())) && Holds(w, was, w.off, now, w.End())
    ensures Readable(now, inflight, store, Max(size, w.End()), cap)
  {
    hide Look, Sized, Apart, Held, InOrder, Hit;
    var size' := Max(size, w.End());
    WithinMore(inflight, size, size');
    HitShows(was, size' - 1);
    HitShows(now, size' - 1);
    assert size' == w.End() ==> w.off <= size' - 1 < w.End();
  }

  ghost predicate InGaps(gaps: seq<Gap>, m: nat, j: int)
  {
    exists k {:trigger gaps[k]} :: m <= k < |gaps| && gaps[k].at <= j < gaps[k].at + gaps[k].count
  }

  // Requests before i end at or before x.
  ghost predicate Behind(reqs: seq<Request>, i: nat, x: nat)
  {
    forall k {:trigger reqs[k]} :: 0 <= k < i && k < |reqs| ==> reqs[k].End() <= x
  }

  // The gaps lie in the first `len` bytes that are wanted, in order, and no request has them.
  ghost predicate GapsOk(gaps: seq<Gap>, base: nat, len: nat, off: nat, requests: seq<Request>)
  {
    && (forall k {:trigger gaps[k]} :: 0 <= k < |gaps| ==>
          && base <= gaps[k].at && gaps[k].at + gaps[k].count <= base + len && gaps[k].offset - gaps[k].at == off - base
          && gaps[k].count > 0 && Missing(requests, gaps[k]))
    && (forall a, b {:trigger gaps[a], gaps[b]} :: 0 <= a < b < |gaps| ==>
        gaps[a].offset + gaps[a].count <= gaps[b].offset)
  }

  ghost predicate Missing(requests: seq<Request>, g: Gap)
  {
    forall x: nat {:trigger Look(requests, x)} :: g.offset <= x < g.offset + g.count ==> Look(requests, x) == None
  }

  // The first `len` bytes: the buffer has what the requests have, the rest is in the gaps.
  ghost predicate Served(now: seq<byte>, was: seq<byte>, base: nat, len: nat, off: nat, requests: seq<Request>,
      gaps: seq<Gap>)
  {
    && |now| == |was| && base + len <= |now| && GapsOk(gaps, base, len, off, requests)
    && (forall j {:trigger now[j]} :: base <= j < base + len ==>
        Look(requests, j - base + off) == Some(now[j]) || InGaps(gaps, 0, j))
    && (forall j {:trigger now[j]} :: 0 <= j < |now| && !(base <= j < base + len) ==> now[j] == was[j])
  }

  lemma ServedNone(was: seq<byte>, base: nat, off: nat, requests: seq<Request>)
    requires base <= |was|
    ensures Served(was, was, base, 0, off, requests, []) && Behind(requests, 0, off)
  {
  }

  // Nothing before request i reaches x, and nothing from it on starts before it.
  lemma MissingBefore(requests: seq<Request>, i: nat, x: nat)
    requires i <= |requests| && InOrder(requests) && Behind(requests, i, x)
             && (i < |requests| ==> x < requests[i].offset)
    ensures Look(requests, x) == None
  {
    LookMiss(requests, 0, |requests|, x);
  }

  lemma InGapsMore(gaps: seq<Gap>, g: Gap, j: int)
    ensures InGaps(gaps, 0, j) ==> InGaps(gaps + [g], 0, j)
    ensures g.at <= j < g.at + g.count ==> InGaps(gaps + [g], 0, j)
  {
    var s := gaps + [g];
    if InGaps(gaps, 0, j) {
      var k :| 0 <= k < |gaps| && gaps[k].at <= j < gaps[k].at + gaps[k].count;
      assert s[k] == gaps[k];
    }
    assert s[|gaps|] == g;
  }

  // Queue up a read of the bytes in front of request i.
  lemma ServeGap(now: seq<byte>, was: seq<byte>, base: nat, len: nat, off: nat, requests: seq<Request>, gaps: seq<Gap>,
      i: nat, n: nat)
    requires Served(now, was, base, len, off, requests, gaps) && InOrder(requests) && Behind(requests, i, off + len)
    requires i < |requests| && 0 < n && off + len + n <= requests[i].offset && base + len + n <= |now|
    ensures Served(now, was, base, len + n, off, requests, gaps + [Gap(off + len, base + len, n)])
    ensures Behind(requests, i, off + len + n)
  {
    hide Look;
    var g := Gap(off + len, base + len, n);
    forall x: nat | g.offset <= x < g.offset + g.count
      ensures Look(requests, x) == None
    {
      MissingBefore(requests, i, x);
    }
    GapsMore(gaps, base, len, off, requests, g);
    forall j | base <= j < base + len + n
      ensures Look(requests, j - base + off) == Some(now[j]) || InGaps(gaps + [g], 0, j)
    {
      InGapsMore(gaps, g, j);
    }
  }

  lemma GapsMore(gaps: seq<Gap>, base: nat, len: nat, off: nat, requests: seq<Request>, g: Gap)
    requires GapsOk(gaps, base, len, off, requests) && g == Gap(off + len, base + len, g.count) && 0 < g.count
             && Missing(requests, g)
    ensures GapsOk(gaps + [g], base, len + g.count, off, requests)
  {
    hide Missing;
  }

  // Take bytes from request i.
  lemma ServeCached(now': seq<byte>, now: seq<byte>, was: seq<byte>, base: nat, len: nat, off: nat,
      requests: seq<Request>, gaps: seq<Gap>, i: nat, n: nat)
    requires Served(now, was, base, len, off, requests, gaps) && Behind(requests, i, off + len) && i < |requests|
    requires requests[i].offset <= off + len && off + len + n <= requests[i].End() && |now'| == |now|
             && base + len + n <= |now|
    requires forall j :: base + len <= j < base + len + n ==>
             now'[j] == requests[i].data[j - (base + len) + (off + len - requests[i].offset)]
    requires forall j :: 0 <= j < |now| && !(base + len <= j < base + len + n) ==> now'[j] == now[j]
    ensures Served(now', was, base, len + n, off, requests, gaps)
  {
    GapsLonger(gaps, base, len, n, off, requests);
    hide Look, GapsOk, InGaps;
    forall j | base <= j < base + len + n
      ensures Look(requests, j - base + off) == Some(now'[j]) || InGaps(gaps, 0, j)
    {
      if base + len <= j {
        FirstWins(requests, i, j - base + off);
      } else {
        assert now'[j] == now[j];
      }
    }
  }

  lemma GapsLonger(gaps: seq<Gap>, base: nat, len: nat, n: nat, off: nat, requests: seq<Request>)
    requires GapsOk(gaps, base, len, off, requests)
    ensures GapsOk(gaps, base, len + n, off, requests)
  {
  }

  lemma FirstWins(requests: seq<Request>, i: nat, x: nat)
    requires i < |requests| && Behind(requests, i, x) && requests[i].Covers(x)
    ensures Look(requests, x) == Some(requests[i].data[x - requests[i].offset])
  {
    LookAt(requests, i, x);
    LookMiss(requests, 0, i, x);
  }

  lemma BehindNext(requests: seq<Request>, i: nat, x: nat, y: nat)
    requires i < |requests| && Behind(requests, i, x) && x <= y && requests[i].End() <= y
    ensures Behind(requests, i + 1, y)
  {
  }

  // ---------------------------------------------------------------- filling the gaps

  // Gaps before m are filled.
  ghost predicate Filled(now: seq<byte>, was: seq<byte>, base: nat, len: nat, off: nat, requests: seq<Request>,
      gaps: seq<Gap>, m: nat, store: seq<byte>)
  {
    && |now| == |was| && base + len <= |now|
    && (forall j {:trigger now[j]} :: base <= j < base + len ==>
        now[j] == SeenAt(requests, [], store, j - base + off) || InGaps(gaps, m, j))
    && (forall j {:trigger now[j]} :: 0 <= j < |now| && !(base <= j < base + len) ==> now[j] == was[j])
  }

  lemma FillStart(now: seq<byte>, was: seq<byte>, base: nat, len: nat, off: nat, requests: seq<Request>,
      gaps: seq<Gap>, store: seq<byte>)
    requires Served(now, was, base, len, off, requests, gaps)
    ensures Filled(now, was, base, len, off, requests, gaps, 0, store)
  {
    hide Look, InGaps, GapsOk;
  }

  // One gap: what the store has, then zeros.
  lemma FillGap(now': seq<byte>, now: seq<byte>, was: seq<byte>, base: nat, len: nat, off: nat, requests: seq<Request>,
      gaps: seq<Gap>, m: nat, store: seq<byte>)
    requires GapsOk(gaps, base, len, off, requests) && m < |gaps|
             && Filled(now, was, base, len, off, requests, gaps, m, store)
    requires |now'| == |now| && gaps[m].at + gaps[m].count <= |now|
    requires forall j :: gaps[m].at <= j < gaps[m].at + gaps[m].count ==>
               now'[j] == if j - gaps[m].at + gaps[m].offset < |store| then store[j - gaps[m].at + gaps[m].offset]
                   else 0
    requires forall j :: 0 <= j < |now| && !(gaps[m].at <= j < gaps[m].at + gaps[m].count) ==> now'[j] == now[j]
    ensures Filled(now', was, base, len, off, requests, gaps, m + 1, store)
  {
    hide Look;
    var g := gaps[m];
    assert Missing(requests, g);
    forall j | base <= j < base + len
      ensures now'[j] == SeenAt(requests, [], store, j - base + off) || InGaps(gaps, m + 1, j)
    {
      if g.at <= j < g.at + g.count {
        assert Look(requests, j - base + off) == None;
        NothingShows(j - base + off);
      } else {
        assert now'[j] == now[j];
        if InGaps(gaps, m, j) {
          var k :| m <= k < |gaps| && gaps[k].at <= j < gaps[k].at + gaps[k].count;
          assert k != m;
        }
      }
    }
  }

  // Once a read came up short, all later gaps are beyond the end of the store.
  lemma PastEof(gaps: seq<Gap>, base: nat, len: nat, off: nat, requests: seq<Request>, a: nat, b: nat, store: seq<byte>)
    requires GapsOk(gaps, base, len, off, requests) && a < b < |gaps| && |store| < gaps[a].offset + gaps[a].count
    ensures |store| <= gaps[b].offset
  {
  }

  // All served: what the buffer holds is what the file shows.
  lemma AllServed(now: seq<byte>, was: seq<byte>, base: nat, len: nat, off: nat, requests: seq<Request>,
      gaps: seq<Gap>, store: seq<byte>, size: nat)
    requires Filled(now, was, base, len, off, requests, gaps, |gaps|, store) && (len > 0 ==> off + len <= size)
    ensures Delivered(now, was, base, len, ViewOf(requests, [], store, size), off)
  {
    hide SeenAt;
    var v := ViewOf(requests, [], store, size);
    forall j | base <= j < base + len
      ensures now[j] == v[j - base + off]
    {
      assert !InGaps(gaps, |gaps|, j);
    }
  }

  // Behind all requests the file shows what the store holds.
  lemma TailIsStore(requests: seq<Request>, store: seq<byte>, size: nat, pos: nat)
    requires Listed(requests, [], store, size) && Behind(requests, |requests|, pos)
    ensures pos < size ==> |store| == size
    ensures forall x: nat {:trigger ViewOf(requests, [], store, size)[x]} :: pos <= x < size ==>
            ViewOf(requests, [], store, size)[x] == store[x]
  {
    forall x: nat | pos <= x
      ensures Look(requests, x) == None && Look([], x) == None
    {
      MissingBefore(requests, |requests|, x);
      NothingShows(x);
    }
  }

  lemma NothingShows(x: nat)
    ensures Look([], x) == None
  {
  }

  // The tail, read from the store, completes the read.
  lemma TailServed(now': seq<byte>, now: seq<byte>, was: seq<byte>, base: nat, len: nat, off: nat, count: nat,
      requests: seq<Request>, store: seq<byte>, size: nat, n: nat)
    requires Listed(requests, [], store, size) && Behind(requests, |requests|, off + len) && len < count
    requires Delivered(now, was, base, len, ViewOf(requests, [], store, size), off)
    requires n == |ReadAt(store, off + len, count - len)| && Delivered(now', now, base + len, n, store, off + len)
    ensures Delivered(now', was, base, len + n, ViewOf(requests, [], store, size), off)
    ensures len + n == |ReadAt(ViewOf(requests, [], store, size), off, count)|
  {
    TailIsStore(requests, store, size, off + len);
    hide ViewOf, Look, Behind;
    var v := ViewOf(requests, [], store, size);
    if n > 0 {
      forall j | base + len <= j < base + len + n
        ensures now'[j] == v[j - (base + len) + (off + len)]
      {
      }
      DeliveredMore(now', now, was, base, len, n, v, off);
    }
  }

  // Everything wanted is cached.
  lemma OnlyCached(now: seq<byte>, was: seq<byte>, base: nat, len: nat, off: nat, requests: seq<Request>,
      inflight: seq<Request>, store: seq<byte>, size: nat)
    requires Served(now, was, base, len, off, requests, []) && 0 < len && off + len <= size
    ensures Delivered(now, was, base, len, ViewOf(requests, inflight, store, size), off)
    ensures len == |ReadAt(ViewOf(requests, inflight, store, size), off, len)|
  {
    hide Look;
    var v := ViewOf(requests, inflight, store, size);
    forall j | base <= j < base + len
      ensures now[j] == v[j - base + off]
    {
      assert !InGaps([], 0, j);
    }
  }

  lemma ReadNothing(v: seq<byte>, off: nat)
    ensures |ReadAt(v, off, 0)| == 0
  {
  }
}
