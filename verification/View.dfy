// What a file shows while part of it waits in the scheduler.
module View {
  import opened Medium
  import opened Extents
  import opened Flat
  import opened RawFile
  import opened Queues
  import opened Requests
  import opened Sweep
  import opened AltList
  import opened Carrying

  // Byte x: from the first waiting request that has it, else from one that is being written
  // out, else from the store; zero beyond its end.
  function SeenAt(requests: seq<Request>, inflight: seq<Request>, store: seq<byte>, x: nat): byte
  {
    match Or(Look(requests, x), Look(inflight, x))
    case Some(b) => b
    case None => if x < |store| then store[x] else 0
  }

  function ViewOf(requests: seq<Request>, inflight: seq<Request>, store: seq<byte>, size: nat): (v: seq<byte>)
    ensures |v| == size
    ensures forall x: nat {:trigger v[x]} :: x < size ==> v[x] == SeenAt(requests, inflight, store, x)
  {
    seq(size, x requires 0 <= x => SeenAt(requests, inflight, store, x))
  }

  predicate Covered(requests: seq<Request>, inflight: seq<Request>, x: nat)
  {
    Look(requests, x).Some? || Look(inflight, x).Some?
  }

  ghost predicate NoIp(reqs: seq<Request>)
  {
    forall k {:trigger reqs[k]} :: 0 <= k < |reqs| ==> reqs[k].state != Ip
  }

  // The waiting requests are in order, those bound for the index partition hold what the
  // store holds, and the file is just as large as the store or the last waiting byte says.
  ghost predicate Cached(requests: seq<Request>, inflight: seq<Request>, store: seq<byte>, size: nat, cap: nat)
  {
    && Sized(requests, cap) && Apart(requests) && Held(requests, store) && Within(requests, size)
    && Sized(inflight, cap) && Apart(inflight) && Within(inflight, size)
    && |store| <= size && (|store| < size ==> Covered(requests, inflight, size - 1))
    && (inflight != [] ==> NoIp(requests))
  }

  // file_size is the maximum of the stored size and the ends of the waiting requests.
  lemma SizeIsMax(requests: seq<Request>, inflight: seq<Request>, store: seq<byte>, size: nat, cap: nat)
    requires Cached(requests, inflight, store, size, cap)
    ensures |store| <= size
    ensures forall k {:trigger requests[k]} :: 0 <= k < |requests| ==> requests[k].End() <= size
    ensures forall k {:trigger inflight[k]} :: 0 <= k < |inflight| ==> inflight[k].End() <= size
    ensures size == |store| || (exists k :: 0 <= k < |requests| && requests[k].End() == size) || exists k ::
            0 <= k < |inflight| && inflight[k].End() == size
  {
    if |store| < size {
      LookMiss(requests, 0, |requests|, size - 1);
      LookMiss(inflight, 0, |inflight|, size - 1);
      if Look(requests, size - 1).Some? {
        var k :| 0 <= k < |requests| && requests[k].Covers(size - 1);
        assert requests[k].End() == size;
      } else {
        var k :| 0 <= k < |inflight| && inflight[k].Covers(size - 1);
        assert inflight[k].End() == size;
      }
    }
  }

  lemma WithinMiss(reqs: seq<Request>, size: nat, x: nat)
    requires Within(reqs, size) && size <= x
    ensures Look(reqs, x) == None
  {
    LookMiss(reqs, 0, |reqs|, x);
  }

  // Beyond the end of the file nothing shows.
  lemma BeyondEnd(requests: seq<Request>, inflight: seq<Request>, store: seq<byte>, size: nat, cap: nat, x: nat)
    requires Cached(requests, inflight, store, size, cap) && size <= x
    ensures SeenAt(requests, inflight, store, x) == 0 && !Covered(requests, inflight, x)
  {
    WithinMiss(requests, size, x);
    WithinMiss(inflight, size, x);
  }

  // ---------------------------------------------------------------- writing

  lemma WriteShows(was: seq<Request>, now: seq<Request>, inflight: seq<Request>, store: seq<byte>, size: nat, cap: nat,
      off: nat, data: seq<byte>)
    requires Cached(was, inflight, store, size, cap) && data != [] && Written(was, off, data, now)
    requires Sized(now, cap) && Apart(now) && Held(now, store) && Within(now, Max(size, off + |data|))
    requires NoIp(was) ==> NoIp(now)
    ensures var size' := Max(size, off + |data|);
            && Cached(now, inflight, store, size', cap)
            && ViewOf(now, inflight, store, size') == WriteAt(ViewOf(was, inflight, store, size), off, data)
  {
    hide Look, Sized, Apart, Held, Within, NoIp, ViewOf;
    var size' := Max(size, off + |data|);
    WithinMore(inflight, size, size');
    WriteLooks(was, now, inflight, store, size, cap, off, data);
    assert Look(now, size' - 1) == if off <= size' - 1 < off + |data| then Some(data[size' - 1 - off])
           else Look(was, size' - 1);
  }

  // What shows is all that matters for that, whether requests overlap or not.
  lemma WriteLooks(was: seq<Request>, now: seq<Request>, inflight: seq<Request>, store: seq<byte>, size: nat, cap: nat,
      off: nat, data: seq<byte>)
    requires Cached(was, inflight, store, size, cap) && data != [] && Written(was, off, data, now)
    ensures ViewOf(now, inflight, store, Max(size, off + |data|)) ==
            WriteAt(ViewOf(was, inflight, store, size), off, data)
  {
    hide Look, Sized, Apart, Held, Within, NoIp;
    var size' := Max(size, off + |data|);
    var v, v' := ViewOf(was, inflight, store, size), ViewOf(now, inflight, store, size');
    var w := WriteAt(v, off, data);
    forall x: nat | x < size'
      ensures v'[x] == w[x]
    {
      assert Look(now, x) == if off <= x < off + |data| then Some(data[x - off]) else Look(was, x);
      if x >= size {
        BeyondEnd(was, inflight, store, size, cap, x);
      }
    }
  }

  lemma WithinMore(reqs: seq<Request>, size: nat, size': nat)
    requires Within(reqs, size) && size <= size'
    ensures Within(reqs, size')
  {
  }

  // With nothing in the store, nothing can be held.
  lemma HeldNothing(reqs: seq<Request>, cap: nat, store: seq<byte>)
    requires Sized(reqs, cap)
    ensures Held(reqs, []) <==> NoIp(reqs)
    ensures NoIp(reqs) ==> Held(reqs, store)
  {
    if Held(reqs, []) {
      forall k | 0 <= k < |reqs|
        ensures reqs[k].state != Ip
      {
        assert reqs[k].state == Ip ==> HeldOne(reqs[k], []);
      }
    }
  }

  lemma SameView(requests: seq<Request>, inflight: seq<Request>, store: seq<byte>,
      requests': seq<Request>, inflight': seq<Request>, store': seq<byte>, size: nat)
    requires forall x: nat {:trigger SeenAt(requests', inflight', store', x)} ::
      x < size ==> SeenAt(requests', inflight', store', x) == SeenAt(requests, inflight, store, x)
    ensures ViewOf(requests', inflight', store', size) == ViewOf(requests, inflight, store, size)
  {
    hide SeenAt;
    var v, v' := ViewOf(requests, inflight, store, size), ViewOf(requests', inflight', store', size);
    forall x: nat | x < size
      ensures v'[x] == v[x]
    {
      assert v'[x] == SeenAt(requests', inflight', store', x);
    }
  }

  // ---------------------------------------------------------------- writing requests out

  lemma HeldAfterWrite(reqs: seq<Request>, i: nat, store: seq<byte>)
    requires i < |reqs| && Apart(reqs) && Held(reqs, store)
    ensures Held(reqs, WriteAt(store, reqs[i].offset, reqs[i].data)) || reqs[i].state == Ip
    ensures Held(reqs[i := reqs[i].(state := Ip)], WriteAt(store, reqs[i].offset, reqs[i].data)) || reqs[i].state == Ip
  {
    if reqs[i].state != Ip {
      var w := WriteAt(store, reqs[i].offset, reqs[i].data);
      forall k | 0 <= k < |reqs| && reqs[k].state == Ip
        ensures HeldOne(reqs[k], w)
      {
        assert HeldOne(reqs[k], store) && k != i;
        forall x: nat | reqs[k].Covers(x)
          ensures One(reqs[k], x) == Some(w[x])
        {
          assert One(reqs[k], x) == Some(store[x]);
          assert if k < i then reqs[k].End() <= reqs[i].offset else reqs[i].End() <= reqs[k].offset;
        }
      }
      assert HeldOne(reqs[i].(state := Ip), w);
    }
  }

  // Writing request i to the store while it stays in the list changes nothing to be seen.
  lemma StoreUnder(requests: seq<Request>, i: nat, store: seq<byte>, size: nat, cap: nat, x: nat)
    requires Cached(requests, [], store, size, cap) && i < |requests|
    ensures SeenAt(requests, [], WriteAt(store, requests[i].offset, requests[i].data), x) ==
            SeenAt(requests, [], store, x)
  {
    hide LookIn;
    var w := WriteAt(store, requests[i].offset, requests[i].data);
    if requests[i].Covers(x) {
      LookHit(requests, i, x);
    }
  }

  lemma ReplaceState(reqs: seq<Request>, i: nat, s: State, x: nat)
    requires i < |reqs|
    ensures Look(reqs[i := reqs[i].(state := s)], x) == Look(reqs, x)
  {
    hide LookIn;
    ReplaceLook(reqs, i, reqs[i].(state := s), x);
    LookAt(reqs, i, x);
  }

  // A request is written to the data partition and goes on to the index partition.
  lemma FlushToIp(requests: seq<Request>, i: nat, store: seq<byte>, size: nat, cap: nat)
    requires Cached(requests, [], store, size, cap) && i < |requests| && requests[i].state != Ip
    ensures var r := requests[i];
            var now, store' := requests[i := r.(state := Ip)], WriteAt(store, r.offset, r.data);
            && Cached(now, [], store', size, cap)
            && ViewOf(now, [], store', size) == ViewOf(requests, [], store, size)
            && forall x: nat {:trigger Look(now, x)} :: Look(now, x) == Look(requests, x)
  {
    var r := requests[i];
    var now, store' := requests[i := r.(state := Ip)], WriteAt(store, r.offset, r.data);
    HeldAfterWrite(requests, i, store);
    assert Sized(now, cap) && Apart(now) && Within(now, size) && r.End() <= size;
    hide Look, Sized, Apart, Held, Within;
    forall x: nat
      ensures Look(now, x) == Look(requests, x)
      ensures SeenAt(now, [], store', x) == SeenAt(requests, [], store, x)
    {
      ReplaceState(requests, i, Ip, x);
      StoreUnder(requests, i, store, size, cap, x);
    }
    SameView(requests, [], store, now, [], store', size);
    ReplaceState(requests, i, Ip, size - 1);
  }

  // A request is written to the data partition and leaves the list.
  lemma FlushAway(requests: seq<Request>, i: nat, store: seq<byte>, size: nat, cap: nat)
    requires Cached(requests, [], store, size, cap) && i < |requests| && requests[i].state != Ip
    ensures var r := requests[i];
            var now, store' := Remove(requests, i), WriteAt(store, r.offset, r.data);
            && Cached(now, [], store', size, cap)
            && ViewOf(now, [], store', size) == ViewOf(requests, [], store, size)
  {
    var r := requests[i];
    var now, store' := Remove(requests, i), WriteAt(store, r.offset, r.data);
    HeldAfterWrite(requests, i, store);
    RemoveKeeps(requests, i, store', size, cap);
    forall x: nat
      ensures SeenAt(now, [], store', x) == SeenAt(requests, [], store, x)
      ensures Covered(requests, [], x) ==> Covered(now, [], x) || x < |store'|
    {
      RemoveSeen(requests, i, x);
      StoreUnder(requests, i, store, size, cap, x);
    }
    hide Look, Sized, Apart, Held, Within, SeenAt;
    SameView(requests, [], store, now, [], store', size);
  }

  lemma RemoveKeeps(reqs: seq<Request>, i: nat, store: seq<byte>, size: nat, cap: nat)
    requires i < |reqs| && Sized(reqs, cap) && Apart(reqs) && Held(reqs, store) && Within(reqs, size)
    ensures Sized(Remove(reqs, i), cap) && Apart(Remove(reqs, i)) && Held(Remove(reqs, i), store)
            && Within(Remove(reqs, i), size)
    ensures NoIp(reqs) ==> NoIp(Remove(reqs, i))
    ensures reqs[i].End() <= size
  {
    hide Remove, HeldOne;
    RemoveApart(reqs, i, cap);
  }

  // Without request i, only its own bytes are uncovered.
  lemma RemoveSeen(reqs: seq<Request>, i: nat, x: nat)
    requires i < |reqs| && Apart(reqs)
    ensures Look(Remove(reqs, i), x) == if reqs[i].Covers(x) then None else Look(reqs, x)
    ensures reqs[i].Covers(x) ==> Look(reqs, x) == Some(reqs[i].data[x - reqs[i].offset])
  {
    hide LookIn, Remove;
    RemoveLook(reqs, i, x);
    LookAt(reqs, i, x);
    if reqs[i].Covers(x) {
      LookHit(reqs, i, x);
      LookMiss(reqs, 0, i, x);
      LookMiss(reqs, i + 1, |reqs|, x);
    }
  }

  // ---------------------------------------------------------------- merging

  // Merging request i into its predecessor is invisible.
  lemma MergeInvisible(requests: seq<Request>, i: nat, store: seq<byte>, size: nat, cap: nat)
    requires Cached(requests, [], store, size, cap) && 0 < i < |requests|
    ensures var now := Merged(requests, i - 1, i, cap);
            && Cached(now, [], store, size, cap)
            && ViewOf(now, [], store, size) == ViewOf(requests, [], store, size)
            && forall x: nat {:trigger Look(now, x)} :: Look(now, x) == Look(requests, x)
  {
    hide Merged, LookIn;
    var now := Merged(requests, i - 1, i, cap);
    MergeKeeps(requests, i, store, size, cap);
    hide Look, Sized, Apart, Held, Within;
    forall x: nat
      ensures Look(now, x) == Look(requests, x)
    {
      Ordered(requests, i, cap);
      MergeLook(requests, i, cap, x);
    }
    SameView(requests, [], store, now, [], store, size);
    assert Look(now, size - 1) == Look(requests, size - 1);
  }

  lemma Ordered(reqs: seq<Request>, i: nat, cap: nat)
    requires Apart(reqs) && Sized(reqs, cap) && 0 < i < |reqs|
    ensures reqs[i - 1].offset <= reqs[i].offset
  {
  }

  lemma MergeKeeps(reqs: seq<Request>, i: nat, store: seq<byte>, size: nat, cap: nat)
    requires Sized(reqs, cap) && Apart(reqs) && Held(reqs, store) && Within(reqs, size) && 0 < i < |reqs|
    ensures var now := Merged(reqs, i - 1, i, cap);
            Sized(now, cap) && Apart(now) && Held(now, store) && Within(now, size)
  {
    hide Merged, NewDest, Cut, Remove, HeldOne, One;
    var d, k, s := NewDest(reqs[i - 1], reqs[i], cap), Cut(reqs[i - 1], reqs[i], cap), Merged(reqs, i - 1, i, cap);
    MergedShape(reqs, i - 1, i, cap);
    MergePair(reqs[i - 1], reqs[i], cap);
    TrimHeld(reqs, i - 1, i, cap, store);
    if k < |reqs[i].data| {
      HeldSame(s, reqs[i - 1 := d][i := Behead(reqs[i], k)], store);
      MergedTrimmed(reqs, i, d, k, s, size, cap);
    } else {
      HeldSame(s, Remove(reqs[i - 1 := d], i), store);
      MergedFreed(reqs, i, d, s, size, cap);
    }
  }

  lemma MergedTrimmed(reqs: seq<Request>, i: nat, d: Request, k: nat, s: seq<Request>, size: nat, cap: nat)
    requires Sized(reqs, cap) && Apart(reqs) && Within(reqs, size) && 0 < i < |reqs| && k < |reqs[i].data|
    requires SameBytes(s, reqs[i - 1 := d][i := Behead(reqs[i], k)])
    requires d.offset == reqs[i - 1].offset && 0 < |d.data| <= cap && d.End() <= Max(reqs[i - 1].End(), reqs[i].End())
    requires reqs[i].offset <= reqs[i - 1].End() ==> reqs[i].offset + k == d.End()
    requires d.End() > reqs[i - 1].End() ==> reqs[i].offset <= reqs[i - 1].End()
    ensures Sized(s, cap) && Apart(s) && Within(s, size)
  {
    TrimFacts(reqs, i - 1, i, d, k, s);
    hide SameBytes;
  }

  lemma MergedFreed(reqs: seq<Request>, i: nat, d: Request, s: seq<Request>, size: nat, cap: nat)
    requires Sized(reqs, cap) && Apart(reqs) && Within(reqs, size) && 0 < i < |reqs|
    requires SameBytes(s, Remove(reqs[i - 1 := d], i))
    requires d.offset == reqs[i - 1].offset && 0 < |d.data| <= cap && d.End() <= Max(reqs[i - 1].End(), reqs[i].End())
    ensures Sized(s, cap) && Apart(s) && Within(s, size)
  {
    FreeFacts(reqs, i - 1, i, d, s);
    hide SameBytes, Remove;
  }

  // ---------------------------------------------------------------- leaving the index partition

  // Requests [0, n) but for those bound for the index partition.
  function NonIp(reqs: seq<Request>, n: nat): seq<Request>
    requires n <= |reqs|
  {
    if n == 0 then [] else NonIp(reqs, n - 1) + if reqs[n - 1].state == Ip then [] else [reqs[n - 1]]
  }

  lemma {:induction false} NonIpKeeps(reqs: seq<Request>, n: nat, size: nat, cap: nat)
    requires n <= |reqs| && Sized(reqs, cap) && Apart(reqs) && Within(reqs, size)
    ensures var r := NonIp(reqs, n);
            Sized(r, cap) && Apart(r) && Within(r, size) && NoIp(r) && |r| <= n && EndBy(r, reqs, n)
  {
    if n > 0 {
      NonIpKeeps(reqs, n - 1, size, cap);
      NonIpOneMore(NonIp(reqs, n - 1), reqs, n, size, cap);
    }
  }

  lemma NonIpOneMore(r: seq<Request>, reqs: seq<Request>, n: nat, size: nat, cap: nat)
    requires 0 < n <= |reqs| && Sized(reqs, cap) && Apart(reqs) && Within(reqs, size)
    requires Sized(r, cap) && Apart(r) && Within(r, size) && NoIp(r) && EndBy(r, reqs, n - 1)
    ensures EndBy(r, reqs, n)
    ensures var s := r + [reqs[n - 1]];
            Sized(s, cap) && Apart(s) && Within(s, size) && EndBy(s, reqs, n) && (reqs[n - 1].state != Ip ==> NoIp(s))
  {
    var q, s := reqs[n - 1], r + [reqs[n - 1]];
    forall k | 0 <= k < |s|
      ensures s[k] == if k < |r| then r[k] else q
      ensures k < |r| ==> r[k].End() <= q.offset
    {
    }
  }

  ghost predicate EndBy(r: seq<Request>, reqs: seq<Request>, n: nat)
    requires n <= |reqs|
  {
    forall k, j {:trigger r[k], reqs[j]} :: 0 <= k < |r| && n <= j < |reqs| ==> r[k].End() <= reqs[j].offset
  }

  lemma {:induction false} NonIpLook(reqs: seq<Request>, n: nat, x: nat)
    requires n <= |reqs|
    ensures Apart(reqs) ==> Look(NonIp(reqs, n), x) == None || Look(NonIp(reqs, n), x) == LookIn(reqs, 0, n, x)
    ensures Look(NonIp(reqs, n), x) == None ==> forall k {:trigger reqs[k]} :: 0 <= k < n && reqs[k].state != Ip ==>
            !reqs[k].Covers(x)
  {
    if n > 0 {
      NonIpLook(reqs, n - 1, x);
      var a, r := NonIp(reqs, n - 1), reqs[n - 1];
      LookSplit(reqs, 0, n - 1, n, x);
      assert LookIn(reqs, n, n, x) == None;
      if r.state != Ip {
        AppendLook(a, r, x);
        if r.Covers(x) && Apart(reqs) {
          LookMiss(reqs, 0, n - 1, x);
        }
      } else {
        assert a + [] == a;
      }
    }
  }

  lemma AppendLook(a: seq<Request>, r: Request, x: nat)
    ensures Look(a + [r], x) == Or(Look(a, x), One(r, x))
  {
    var b := a + [r];
    LookAt(b, |a|, x);
    LookSame(a, b, 0, 0, |a|, x);
  }

  // Dropping the requests bound for the index partition is invisible.
  lemma NonIpInvisible(requests: seq<Request>, inflight: seq<Request>, store: seq<byte>, size: nat, cap: nat)
    requires Cached(requests, inflight, store, size, cap)
    ensures var now := NonIp(requests, |requests|);
            Cached(now, inflight, store, size, cap) && ViewOf(now, inflight, store, size) ==
                ViewOf(requests, inflight, store, size)
  {
    hide LookIn;
    var now := NonIp(requests, |requests|);
    NonIpKeeps(requests, |requests|, size, cap);
    HeldNothing(now, cap, store);
    hide NonIp, Apart, Within, Sized, Held;
    forall x: nat
      ensures SeenAt(now, inflight, store, x) == SeenAt(requests, inflight, store, x)
      ensures Covered(requests, inflight, x) ==> Covered(now, inflight, x) || x < |store|
    {
      DropOne(requests, inflight, store, size, cap, x);
    }
    hide SeenAt, Look;
    SameView(requests, inflight, store, now, inflight, store, size);
  }

  lemma DropOne(requests: seq<Request>, inflight: seq<Request>, store: seq<byte>, size: nat, cap: nat, x: nat)
    requires Cached(requests, inflight, store, size, cap)
    ensures var now := NonIp(requests, |requests|);
            && SeenAt(now, inflight, store, x) == SeenAt(requests, inflight, store, x)
            && (Covered(requests, inflight, x) ==> Covered(now, inflight, x) || x < |store|)
  {
    hide LookIn, NonIp;
    NonIpLook(requests, |requests|, x);
    if Look(NonIp(requests, |requests|), x) == None && Look(requests, x).Some? {
      LookMiss(requests, 0, |requests|, x);
      var k :| 0 <= k < |requests| && requests[k].Covers(x);
      LookHit(requests, k, x);
      assert requests[k].state == Ip && HeldOne(requests[k], store);
      assert One(requests[k], x) == Some(store[x]);
      LookMiss(inflight, 0, |inflight|, x);
    }
  }

  // ---------------------------------------------------------------- the background writer

  // Request i is taken off the list to be written out.
  lemma DetachInvisible(requests: seq<Request>, i: nat, inflight: seq<Request>, store: seq<byte>, size: nat, cap: nat)
    requires Cached(requests, inflight, store, size, cap) && i < |requests| && NoIp(requests)
    requires forall k {:trigger inflight[k]} :: 0 <= k < |inflight| ==> inflight[k].End() <= requests[i].offset
    ensures var now, out := Remove(requests, i), inflight + [requests[i]];
            Cached(now, out, store, size, cap) && ViewOf(now, out, store, size) ==
                ViewOf(requests, inflight, store, size) && NoIp(now)
  {
    var r := requests[i];
    var now, out := Remove(requests, i), inflight + [r];
    RemoveKeeps(requests, i, store, size, cap);
    assert Sized(out, cap) && Apart(out) && Within(out, size);
    hide LookIn, Remove;
    forall x: nat
      ensures SeenAt(now, out, store, x) == SeenAt(requests, inflight, store, x)
      ensures Covered(requests, inflight, x) ==> Covered(now, out, x)
    {
      RemoveSeen(requests, i, x);
      AppendLook(inflight, r, x);
      LookMiss(inflight, 0, |inflight|, x);
    }
    hide Look, Sized, Apart, Held, Within, SeenAt;
    SameView(requests, inflight, store, now, out, store, size);
  }

  // The first request on its way out reaches the store.
  lemma WriteNextInvisible(requests: seq<Request>, inflight: seq<Request>, store: seq<byte>, size: nat, cap: nat)
    requires Cached(requests, inflight, store, size, cap) && inflight != []
    ensures var r := inflight[0];
            var out, store' := Remove(inflight, 0), WriteAt(store, r.offset, r.data);
            Cached(requests, out, store', size, cap) && ViewOf(requests, out, store', size) ==
                ViewOf(requests, inflight, store, size)
  {
    var r := inflight[0];
    var out, store' := Remove(inflight, 0), WriteAt(store, r.offset, r.data);
    HeldNothing(requests, cap, store');
    HeldNothing(inflight, cap, []);
    OutKeeps(inflight, size, cap);
    hide LookIn, Remove;
    forall x: nat
      ensures SeenAt(requests, out, store', x) == SeenAt(requests, inflight, store, x)
      ensures Covered(requests, inflight, x) ==> Covered(requests, out, x) || x < |store'|
    {
      RemoveSeen(inflight, 0, x);
    }
    hide Look, Sized, Apart, Held, Within, SeenAt;
    SameView(requests, inflight, store, requests, out, store', size);
  }

  lemma OutKeeps(inflight: seq<Request>, size: nat, cap: nat)
    requires inflight != [] && Sized(inflight, cap) && Apart(inflight) && Within(inflight, size)
    ensures Sized(Remove(inflight, 0), cap) && Apart(Remove(inflight, 0)) && Within(Remove(inflight, 0), size)
            && inflight[0].End() <= size
  {
    hide Remove;
    RemoveApart(inflight, 0, cap);
  }

  // ---------------------------------------------------------------- truncating

  // The requests cut at a length.
  function CutRequests(reqs: seq<Request>, n: nat, len: nat): seq<Request>
    requires n <= |reqs|
  {
    if n == 0 then []
    else if len <= reqs[n - 1].offset then CutRequests(reqs, n - 1, len)
    else if reqs[n - 1].End() <= len then CutRequests(reqs, n - 1, len) + [reqs[n - 1]]
    else CutRequests(reqs, n - 1, len) + [Shorten(reqs[n - 1], len)]
  }

  lemma {:induction false} CutKeeps(reqs: seq<Request>, n: nat, len: nat, size: nat, cap: nat)
    requires n <= |reqs| && Sized(reqs, cap) && Within(reqs, size)
    ensures var r := CutRequests(reqs, n, len); Sized(r, cap) && Within(r, Min(size, len))
  {
    if n > 0 {
      CutKeeps(reqs, n - 1, len, size, cap);
    }
  }

  lemma {:induction false} CutShort(reqs: seq<Request>, n: nat, len: nat, cap: nat)
    requires n <= |reqs| && Short(reqs, cap)
    ensures Short(CutRequests(reqs, n, len), cap)
  {
    if n > 0 {
      CutShort(reqs, n - 1, len, cap);
    }
  }

  lemma {:induction false} CutApart(reqs: seq<Request>, n: nat, len: nat)
    requires n <= |reqs| && Apart(reqs)
    ensures var r := CutRequests(reqs, n, len); Apart(r) && EndBy(r, reqs, n)
  {
    if n > 0 {
      CutApart(reqs, n - 1, len);
    }
  }

  lemma {:induction false} CutHeld(reqs: seq<Request>, n: nat, len: nat, store: seq<byte>)
    requires n <= |reqs| && Held(reqs, store)
    ensures Held(CutRequests(reqs, n, len), Resize(store, len))
  {
    if n > 0 {
      CutHeld(reqs, n - 1, len, store);
      var r := reqs[n - 1];
      if r.state == Ip && r.offset < len {
        assert HeldOne(r, store);
        var q := if r.End() <= len then r else Shorten(r, len);
        forall x: nat | q.Covers(x)
          ensures One(q, x) == Some(Resize(store, len)[x])
        {
          assert One(r, x) == Some(store[x]);
        }
        assert HeldOne(q, Resize(store, len));
      }
    }
  }

  lemma {:induction false} CutLook(reqs: seq<Request>, n: nat, len: nat, x: nat)
    requires n <= |reqs|
    ensures Look(CutRequests(reqs, n, len), x) == if x < len then LookIn(reqs, 0, n, x) else None
  {
    if n > 0 {
      CutLook(reqs, n - 1, len, x);
      var a, r := CutRequests(reqs, n - 1, len), reqs[n - 1];
      LookSplit(reqs, 0, n - 1, n, x);
      assert LookIn(reqs, n, n, x) == None && LookIn(reqs, n - 1, n, x) == One(r, x);
      if r.offset < len {
        AppendLook(a, if r.End() <= len then r else Shorten(r, len), x);
      }
    }
  }

  // Requests in front of the cut stay whole.
  lemma {:induction false} CutWhole(reqs: seq<Request>, n: nat, len: nat, cap: nat)
    requires n <= |reqs| && Apart(reqs) && Sized(reqs, cap) && (n > 0 ==> reqs[n - 1].End() <= len)
    ensures CutRequests(reqs, n, len) == reqs[..n]
  {
    if n > 0 {
      CutWhole(reqs, n - 1, len, cap);
      assert reqs[..n] == reqs[..n - 1] + [reqs[n - 1]];
    }
  }

  // Truncating requests and store truncates the file.
  lemma TruncateShows(requests: seq<Request>, store: seq<byte>, size: nat, cap: nat, len: nat)
    requires Cached(requests, [], store, size, cap)
    ensures var now := if len < size then CutRequests(requests, |requests|, len) else requests;
            && Cached(now, [], Resize(store, len), len, cap)
            && ViewOf(now, [], Resize(store, len), len) == Resize(ViewOf(requests, [], store, size), len)
            && forall x: nat {:trigger Look(now, x)} :: Look(now, x) == if x < len then Look(requests, x) else None
  {
    var now := if len < size then CutRequests(requests, |requests|, len) else requests;
    var store' := Resize(store, len);
    var v, v' := ViewOf(requests, [], store, size), ViewOf(now, [], store', len);
    TruncateKeeps(requests, store, size, cap, len);
    hide CutRequests, Sized, Apart, Held, Within;
    forall x: nat
      ensures Look(now, x) == if x < len then Look(requests, x) else None
    {
      if len < size {
        CutLook(requests, |requests|, len, x);
      } else if len <= x {
        WithinMiss(requests, size, x);
      }
    }
    hide Look, LookIn;
    forall x: nat | x < len
      ensures v'[x] == if x < size then v[x] else 0
    {
      LookMiss([], 0, 0, x);
      if x >= size {
        BeyondEnd(requests, [], store, size, cap, x);
      }
    }
  }

  lemma TruncateKeeps(requests: seq<Request>, store: seq<byte>, size: nat, cap: nat, len: nat)
    requires Sized(requests, cap) && Apart(requests) && Held(requests, store) && Within(requests, size)
             && |store| <= size
    ensures var now := if len < size then CutRequests(requests, |requests|, len) else requests;
            Sized(now, cap) && Apart(now) && Within(now, len) && Held(now, Resize(store, len))
  {
    if len < size {
      CutKeeps(requests, |requests|, len, size, cap);
      CutApart(requests, |requests|, len);
      CutHeld(requests, |requests|, len, store);
    } else {
      forall k | 0 <= k < |requests| && requests[k].state == Ip
        ensures HeldOne(requests[k], Resize(store, len))
      {
        assert HeldOne(requests[k], store);
      }
    }
  }

  // ---------------------------------------------------------------- the alternate extents

  // The file data on the index partition.
  ghost function GroundOf(t: Tape, bs: nat): Ground
    requires 0 < bs
  {
    Ground(|t.ip|, iset a: int | OnTape(t, At(IP, a), bs))
  }

  // Where no request waits, the alternate extents lead to the bytes that the store holds.
  ghost predicate AltFits(alt: seq<Extent>, requests: seq<Request>, t: Tape, store: seq<byte>, bs: nat)
    requires 0 < bs
  {
    && AltOk(alt, bs, GroundOf(t, bs))
    && forall x: nat {:trigger Find(alt, x, bs)} :: Find(alt, x, bs) != Hole && Look(requests, x) == None ==>
         x < |store| && ByteAt(t, Find(alt, x, bs), bs) == store[x]
  }

  lemma GroundGrows(t: Tape, t': Tape, bs: nat)
    requires 0 < bs && Extends(t, t')
    ensures More(GroundOf(t, bs), GroundOf(t', bs))
  {
    forall a: int | OnTape(t, At(IP, a), bs)
      ensures OnTape(t', At(IP, a), bs)
    {
      ByteKept(t, t', At(IP, a), bs);
    }
  }

  lemma NoAltFits(requests: seq<Request>, t: Tape, store: seq<byte>, bs: nat)
    requires 0 < bs
    ensures AltFits([], requests, t, store, bs)
  {
  }

  // What an alternate extent leads to is on the tape.
  lemma AltOnTape(alt: seq<Extent>, t: Tape, bs: nat, x: nat)
    requires 0 < bs && AltOk(alt, bs, GroundOf(t, bs)) && Find(alt, x, bs) != Hole
    ensures OnTape(t, Find(alt, x, bs), bs)
  {
    AltInUse(alt, |alt|, t, bs, x);
  }

  lemma {:induction false} AltInUse(alt: seq<Extent>, n: nat, t: Tape, bs: nat, x: nat)
    requires 0 < bs && n <= |alt| && AltOk(alt, bs, GroundOf(t, bs)) && FindIn(alt, 0, n, x, bs) != Hole
    ensures OnTape(t, FindIn(alt, 0, n, x, bs), bs)
  {
    if alt[n - 1].Covers(x) {
      assert EntryOk(alt[n - 1], bs, GroundOf(t, bs));
      assert alt[n - 1].Addr(x, bs) in GroundOf(t, bs).used;
    } else {
      AltInUse(alt, n - 1, t, bs, x);
    }
  }

  // The alternate extents still fit when the tape grows and the store only changes where a
  // request waits.
  lemma AltStays(alt: seq<Extent>, requests: seq<Request>, t: Tape, store: seq<byte>, requests': seq<Request>,
      t': Tape, store': seq<byte>, bs: nat)
    requires 0 < bs && AltFits(alt, requests, t, store, bs) && Extends(t, t')
    requires forall x: nat {:trigger Look(requests', x)} :: Look(requests', x) == None ==> Look(requests, x) == None
    requires forall x: nat {:trigger Look(requests', x)} :: Look(requests', x) == None && x < |store| ==>
             x < |store'| && store'[x] == store[x]
    ensures AltFits(alt, requests', t', store', bs)
  {
    hide Look, Find, OnTape, ByteAt, AltOk, GroundOf, Extends;
    GroundGrows(t, t', bs);
    MoreRoom(alt, bs, GroundOf(t, bs), GroundOf(t', bs));
    forall x: nat | Find(alt, x, bs) != Hole && Look(requests', x) == None
      ensures x < |store'| && ByteAt(t', Find(alt, x, bs), bs) == store'[x]
    {
      assert Look(requests, x) == None;
      AltOnTape(alt, t, bs, x);
      ByteKept(t, t', Find(alt, x, bs), bs);
    }
  }

  lemma AltTruncated(alt: seq<Extent>, requests: seq<Request>, t: Tape, store: seq<byte>, alt': seq<Extent>,
      requests': seq<Request>, len: nat, bs: nat)
    requires 0 < bs && AltFits(alt, requests, t, store, bs) && AltOk(alt', bs, GroundOf(t, bs))
    requires forall x: nat {:trigger Find(alt', x, bs)} :: Find(alt', x, bs) == if x < len then Find(alt, x, bs)
             else Hole
    requires forall x: nat {:trigger Look(requests', x)} :: Look(requests', x) == if x < len then Look(requests, x)
             else None
    ensures AltFits(alt', requests', t, Resize(store, len), bs)
  {
    hide Look, Find, OnTape, ByteAt, AltOk, GroundOf;
    forall x: nat | Find(alt', x, bs) != Hole && Look(requests', x) == None
      ensures x < len && x < |store| && ByteAt(t, Find(alt', x, bs), bs) == store[x]
    {
      assert Look(requests, x) == None && Find(alt, x, bs) != Hole;
    }
  }

  // A request has been written to the index partition and leaves the list.
  lemma IndexStep(requests: seq<Request>, i: nat, store: seq<byte>, size: nat, cap: nat,
      alt: seq<Extent>, t: Tape, alt': seq<Extent>, t': Tape, ext: Extent, bs: nat)
    requires 0 < bs && Cached(requests, [], store, size, cap) && i < |requests| && requests[i].state == Ip
    requires AltFits(alt, requests, t, store, bs) && Extends(t, t') && AltOk(alt', bs, GroundOf(t', bs))
             && Overlaid(alt, ext, alt', bs)
    requires ext.fileoffset == requests[i].offset && Carries(t', ext, requests[i].data, bs)
    ensures var now := Remove(requests, i);
            Cached(now, [], store, size, cap) && ViewOf(now, [], store, size) == ViewOf(requests, [], store, size)
                && AltFits(alt', now, t', store, bs)
  {
    hide LookIn, Find, OnTape, ByteAt, AltOk, GroundOf, Extends, Extent.Addr, Remove;
    var r, now := requests[i], Remove(requests, i);
    RemoveKeeps(requests, i, store, size, cap);
    assert HeldOne(r, store);
    forall x: nat
      ensures SeenAt(now, [], store, x) == SeenAt(requests, [], store, x)
      ensures Covered(requests, [], x) ==> Covered(now, [], x) || x < |store|
      ensures Find(alt', x, bs) != Hole && Look(now, x) == None ==>
              x < |store| && ByteAt(t', Find(alt', x, bs), bs) == store[x]
    {
      RemoveSeen(requests, i, x);
      LookMiss([], 0, 0, x);
      assert Find(alt', x, bs) == if ext.Covers(x) then At(ext.part, ext.Addr(x, bs)) else Find(alt, x, bs);
      assert r.Covers(x) ==> One(r, x) == Some(store[x]);
      if !r.Covers(x) && Find(alt, x, bs) != Hole {
        AltOnTape(alt, t, bs, x);
        ByteKept(t, t', Find(alt, x, bs), bs);
      }
    }
    hide SeenAt, Look, Sized, Apart, Held, Within;
    SameView(requests, [], store, now, [], store, size);
  }

  lemma {:induction false} NonIpCount(reqs: seq<Request>, n: nat, s: State)
    requires n <= |reqs|
    ensures Count(NonIp(reqs, n), |NonIp(reqs, n)|, s) == if s == Ip then 0 else Count(reqs, n, s)
  {
    if n > 0 {
      NonIpCount(reqs, n - 1, s);
      var a := NonIp(reqs, n - 1);
      CountSame(NonIp(reqs, n), a, |a|, s);
    }
  }

  lemma NonIpTally(reqs: seq<Request>)
    ensures Tally(NonIp(reqs, |reqs|)) == Tally(reqs).With(Ip, 0)
  {
    NonIpCount(reqs, |reqs|, Partial);
    NonIpCount(reqs, |reqs|, Dp);
    NonIpCount(reqs, |reqs|, Ip);
  }

  lemma {:induction false} NonIpAll(reqs: seq<Request>, n: nat)
    requires n <= |reqs| && forall k {:trigger reqs[k]} :: 0 <= k < n ==> reqs[k].state != Ip
    ensures NonIp(reqs, n) == reqs[..n]
  {
    if n > 0 {
      NonIpAll(reqs, n - 1);
      assert reqs[..n] == reqs[..n - 1] + [reqs[n - 1]];
    }
  }

  lemma NonIpNext(reqs: seq<Request>, i: nat)
    requires i < |reqs|
    ensures NonIp(reqs, i + 1) == NonIp(reqs, i) + if reqs[i].state == Ip then [] else [reqs[i]]
  {
  }

  lemma NonIpKeepsAll(reqs: seq<Request>, size: nat, cap: nat, inflight: seq<Request>, store: seq<byte>)
    requires Cached(reqs, inflight, store, size, cap)
    ensures NoIp(NonIp(reqs, |reqs|))
  {
    NonIpKeeps(reqs, |reqs|, size, cap);
  }

  lemma {:induction false} NonIpShort(reqs: seq<Request>, n: nat, cap: nat)
    requires n <= |reqs| && Short(reqs, cap)
    ensures Short(NonIp(reqs, n), cap)
  {
    if n > 0 {
      NonIpShort(reqs, n - 1, cap);
    }
  }

  // The write is invisible to the alternate extents: it only covers more.
  lemma AltWritten(alt: seq<Extent>, was: seq<Request>, t: Tape, store: seq<byte>, off: nat, data: seq<byte>,
      now: seq<Request>, bs: nat)
    requires 0 < bs && AltFits(alt, was, t, store, bs) && Written(was, off, data, now)
    ensures AltFits(alt, now, t, store, bs)
  {
    hide Look, Find, AltOk, GroundOf, OnTape;
    AltStays(alt, was, t, store, now, t, store, bs);
  }

  lemma CachedParts(requests: seq<Request>, inflight: seq<Request>, store: seq<byte>, size: nat, cap: nat)
    requires Cached(requests, inflight, store, size, cap)
    ensures Sized(requests, cap) && Apart(requests) && Held(requests, store) && Within(requests, size)
            && |store| <= size
    ensures Held(requests, if NoIp(requests) then [] else store)
    ensures inflight != [] ==> NoIp(requests)
  {
    HeldNothing(requests, cap, store);
  }

  lemma HeldEnough(requests: seq<Request>, cap: nat, store: seq<byte>, under: seq<byte>)
    requires Sized(requests, cap) && Held(requests, under) && (under == store || under == [])
    ensures Held(requests, store) && (under == [] ==> NoIp(requests))
  {
    HeldNothing(requests, cap, store);
  }

  lemma AltMerged(alt: seq<Extent>, was: seq<Request>, now: seq<Request>, t: Tape, store: seq<byte>, bs: nat)
    requires 0 < bs && AltFits(alt, was, t, store, bs)
    requires forall x: nat {:trigger Look(now, x)} :: Look(now, x) == Look(was, x)
    ensures AltFits(alt, now, t, store, bs)
  {
    hide Look, Find, AltOk, GroundOf, OnTape;
    AltStays(alt, was, t, store, now, t, store, bs);
  }

  // Every request is in the state it was in; request i may be gone.
  ghost predicate StatesKept(was: seq<Request>, now: seq<Request>, i: nat, gone: bool)
  {
    && |now| == |was| - (if gone then 1 else 0)
    && (forall k {:trigger now[k]} :: 0 <= k < |now| && (!gone || k < i) ==> now[k].state == was[k].state)
    && (gone ==> forall k {:trigger now[k]} :: i <= k < |now| ==> now[k].state == was[k + 1].state)
  }

  // Merging a request bound for the index partition only concerns such requests, and keeps
  // every state.
  lemma MergeBackFacts(requests: seq<Request>, i: nat, store: seq<byte>, size: nat, cap: nat)
    requires Cached(requests, [], store, size, cap) && 0 < i < |requests| && requests[i].state == Ip
    ensures 0 < |requests[i - 1].data| <= cap && 0 < |requests[i].data| <= cap
    ensures requests[i - 1].state == Ip || Cut(requests[i - 1], requests[i], cap) == 0
    ensures NewDest(requests[i - 1], requests[i], cap).End() <= size
    ensures var now := Merged(requests, i - 1, i, cap);
            var gone := Cut(requests[i - 1], requests[i], cap) >= |requests[i].data|;
            && |now| == |requests| - (if gone then 1 else 0)
            && StatesKept(requests, now, i, gone)
            && (NoIp(requests) ==> NoIp(now))
  {
    var dest, src := requests[i - 1], requests[i];
    MergePair(dest, src, cap);
    if Cut(dest, src, cap) > 0 && dest.state == Ip && PassOn(dest, src, cap) > 0 {
      var f := Fill(dest, dest.End(), src.data[dest.End() - src.offset..], cap);
      assert f.state == Ip;
      assert Updated(requests, i - 1, dest.End(), src.data[dest.End() - src.offset..], cap) == requests[i - 1 := f];
    }
    hide Fill;
  }

  lemma StatesSelf(reqs: seq<Request>, i: nat)
    ensures StatesKept(reqs, reqs, i, false)
  {
  }

  lemma MergeBackKeeps(alt: seq<Extent>, requests: seq<Request>, i: nat, t: Tape, store: seq<byte>, size: nat, cap: nat)
    requires 0 < cap && Cached(requests, [], store, size, cap) && 0 < i < |requests|
             && AltFits(alt, requests, t, store, cap)
    ensures var now := Merged(requests, i - 1, i, cap);
            && Cached(now, [], store, size, cap) && ViewOf(now, [], store, size) == ViewOf(requests, [], store, size)
            && AltFits(alt, now, t, store, cap)
  {
    CachedSizes(requests, store, size, cap);
    hide Merged, Look, Cached, AltFits;
    MergeInvisible(requests, i, store, size, cap);
    AltMerged(alt, requests, Merged(requests, i - 1, i, cap), t, store, cap);
  }

  lemma CachedSizes(requests: seq<Request>, store: seq<byte>, size: nat, cap: nat)
    requires Cached(requests, [], store, size, cap)
    ensures forall k {:trigger requests[k]} :: 0 <= k < |requests| ==>
            0 < |requests[k].data| <= cap && requests[k].End() <= size
  {
  }

  // ---------------------------------------------------------------- flushing

  // A request goes to the store; it stays for the index partition, or leaves.
  lemma FlushKeeps(alt: seq<Extent>, requests: seq<Request>, i: nat, t: Tape, store: seq<byte>, t': Tape, size: nat,
      cap: nat)
    requires 0 < cap && Cached(requests, [], store, size, cap) && i < |requests| && requests[i].state != Ip
    requires AltFits(alt, requests, t, store, cap) && Extends(t, t')
    ensures var r := requests[i];
            var now, store' := requests[i := r.(state := Ip)], WriteAt(store, r.offset, r.data);
            && Cached(now, [], store', size, cap) && ViewOf(now, [], store', size) == ViewOf(requests, [], store, size)
            && AltFits(alt, now, t', store', cap)
    ensures var r := requests[i];
            var now, store' := Remove(requests, i), WriteAt(store, r.offset, r.data);
            && Cached(now, [], store', size, cap) && ViewOf(now, [], store', size) == ViewOf(requests, [], store, size)
            && (NoIp(requests) ==> NoIp(now))
  {
    var r := requests[i];
    var now, store' := requests[i := r.(state := Ip)], WriteAt(store, r.offset, r.data);
    FlushAway(requests, i, store, size, cap);
    FlushToIp(requests, i, store, size, cap);
    RemoveKeepsIp(requests, i);
    FlushStore(requests, i, store, size, cap, now);
    hide Look, Cached, AltFits, ViewOf;
    AltStays(alt, requests, t, store, now, t', store', cap);
  }

  lemma RemoveKeepsIp(reqs: seq<Request>, i: nat)
    requires i < |reqs|
    ensures NoIp(reqs) ==> NoIp(Remove(reqs, i))
  {
    hide Remove;
  }

  // Where nothing waits, the store does not change.
  lemma FlushStore(requests: seq<Request>, i: nat, store: seq<byte>, size: nat, cap: nat, now: seq<Request>)
    requires Cached(requests, [], store, size, cap) && i < |requests|
    requires forall x: nat {:trigger Look(now, x)} :: Look(now, x) == Look(requests, x)
    ensures var store' := WriteAt(store, requests[i].offset, requests[i].data);
            forall x: nat {:trigger Look(now, x)} :: Look(now, x) == None && x < |store| ==>
                x < |store'| && store'[x] == store[x]
  {
    hide LookIn;
    var store' := WriteAt(store, requests[i].offset, requests[i].data);
    forall x: nat | Look(now, x) == None && x < |store|
      ensures x < |store'| && store'[x] == store[x]
    {
      LookMiss(requests, 0, |requests|, x);
    }
  }

  ghost predicate AllIp(reqs: seq<Request>, n: nat)
    requires n <= |reqs|
  {
    forall k {:trigger reqs[k]} :: 0 <= k < n ==> reqs[k].state == Ip
  }

  // With nothing but index partition requests left, the store alone holds the file.
  lemma StoreIsView(requests: seq<Request>, store: seq<byte>, size: nat, cap: nat)
    requires Cached(requests, [], store, size, cap) && AllIp(requests, |requests|)
    ensures ViewOf(requests, [], store, size) == store
  {
    hide LookIn;
    var v := ViewOf(requests, [], store, size);
    forall x: nat | Look(requests, x).Some?
      ensures x < |store| && Look(requests, x) == Some(store[x])
    {
      LookMiss(requests, 0, |requests|, x);
      var k :| 0 <= k < |requests| && requests[k].Covers(x);
      LookHit(requests, k, x);
      assert HeldOne(requests[k], store);
      assert One(requests[k], x) == Some(store[x]);
    }
    if |store| < size {
      LookMiss([], 0, 0, size - 1);
      assert false;
    }
    forall x: nat | x < size
      ensures v[x] == store[x]
    {
      LookMiss([], 0, 0, x);
    }
  }

  // One request further: requests before `next` are as those before i were, but for one that
  // is now bound for the index partition; those behind are as before.
  ghost predicate Flushed(was: seq<Request>, i: nat, now: seq<Request>, next: nat)
  {
    && i <= next <= i + 1 && next <= |now| && |now| + i + 1 == |was| + next
    && (forall k {:trigger now[k]} :: 0 <= k < next ==>
        if k < i then now[k].state == was[k].state else now[k].state == Ip)
    && (forall k {:trigger now[k]} :: next <= k < |now| ==> now[k].state == was[k + i + 1 - next].state)
  }

  lemma FlushedMerged(was: seq<Request>, mid: seq<Request>, now: seq<Request>, i: nat, gone: bool)
    requires i < |was| && mid == was[i := was[i].(state := Ip)] && StatesKept(mid, now, i, gone) && (gone ==> i > 0)
    ensures Flushed(was, i, now, if gone then i else i + 1)
  {
  }

  lemma FlushedRemoved(was: seq<Request>, i: nat)
    requires i < |was|
    ensures Flushed(was, i, Remove(was, i), i)
  {
    hide Remove;
  }

  lemma AllIpNone(reqs: seq<Request>)
    ensures AllIp(reqs, 0)
  {
  }

  lemma AllIpNot(reqs: seq<Request>, n: nat)
    requires n <= |reqs| && AllIp(reqs, n)
    ensures forall k {:trigger reqs[k]} :: 0 <= k < n ==> reqs[k].state !in {Partial, Dp}
  {
  }

  lemma AllIpMerged(was: seq<Request>, now: seq<Request>, i: nat, gone: bool)
    requires i < |was| && AllIp(was, i) && was[i].state == Ip && StatesKept(was, now, i, gone)
    ensures |now| == |was| - (if gone then 1 else 0) && (if gone then i else i + 1) <= |now|
            && AllIp(now, if gone then i else i + 1)
  {
  }

  lemma AllIpFlushed(was: seq<Request>, i: nat, now: seq<Request>, next: nat)
    requires i < |was| && AllIp(was, i) && Flushed(was, i, now, next)
    ensures AllIp(now, next)
  {
  }

  lemma AllIpCounts(reqs: seq<Request>)
    requires AllIp(reqs, |reqs|)
    ensures Masked(Tally(reqs), {Partial, Dp}) == Masked(Tally(reqs), {})
    ensures NoIp(reqs) ==> reqs == []
  {
    CountZero(reqs, |reqs|, Partial);
    CountZero(reqs, |reqs|, Dp);
  }

  // ---------------------------------------------------------------- the background pass

  // No request before i is left in a state that the pass writes out.
  ghost predicate NoneLeft(reqs: seq<Request>, i: nat, paused: set<State>)
    requires i <= |reqs|
  {
    forall k {:trigger reqs[k]} :: 0 <= k < i ==> reqs[k].state !in paused
  }

  ghost predicate OutBefore(out: seq<Request>, reqs: seq<Request>, i: nat)
  {
    forall a, k {:trigger out[a], reqs[k]} :: 0 <= a < |out| && i <= k < |reqs| ==> out[a].End() <= reqs[k].offset
  }

  lemma NoneLeftStart(reqs: seq<Request>, paused: set<State>)
    ensures NoneLeft(reqs, 0, paused) && OutBefore([], reqs, 0)
  {
  }

  lemma NoneLeftMerged(was: seq<Request>, now: seq<Request>, i: nat, gone: bool, paused: set<State>)
    requires i < |was| && NoneLeft(was, i, paused) && was[i].state == Ip && Ip !in paused
             && StatesKept(was, now, i, gone)
    ensures |now| == |was| - (if gone then 1 else 0) && (if gone then i else i + 1) <= |now|
            && NoneLeft(now, if gone then i else i + 1, paused)
  {
  }

  lemma NoneLeftFlushed(was: seq<Request>, i: nat, now: seq<Request>, next: nat, paused: set<State>)
    requires i < |was| && NoneLeft(was, i, paused) && Ip !in paused && Flushed(was, i, now, next)
    ensures next <= |now| && NoneLeft(now, next, paused)
  {
  }

  lemma NoneLeftSkipped(reqs: seq<Request>, i: nat, out: seq<Request>, paused: set<State>)
    requires i < |reqs| && NoneLeft(reqs, i, paused) && reqs[i].state !in paused && OutBefore(out, reqs, i)
    ensures NoneLeft(reqs, i + 1, paused) && OutBefore(out, reqs, i + 1)
  {
  }

  lemma NoneLeftDetached(requests: seq<Request>, i: nat, out: seq<Request>, store: seq<byte>, size: nat, cap: nat,
      paused: set<State>)
    requires Cached(requests, out, store, size, cap) && i < |requests| && NoneLeft(requests, i, paused)
             && OutBefore(out, requests, i)
    ensures NoneLeft(Remove(requests, i), i, paused) && OutBefore(out + [requests[i]], Remove(requests, i), i)
    ensures forall k {:trigger out[k]} :: 0 <= k < |out| ==> out[k].End() <= requests[i].offset
  {
    hide Remove;
  }

  lemma NoneLeftCounts(reqs: seq<Request>, paused: set<State>)
    requires NoneLeft(reqs, |reqs|, paused)
    ensures Masked(Tally(reqs), paused) == Masked(Tally(reqs), {})
  {
    CountZero(reqs, |reqs|, Partial);
    CountZero(reqs, |reqs|, Dp);
    CountZero(reqs, |reqs|, Ip);
  }

  lemma NoIpAt(reqs: seq<Request>, i: nat)
    requires i < |reqs| && NoIp(reqs)
    ensures reqs[i].state != Ip
  {
  }

  lemma OutStart(out: seq<Request>, reqs: seq<Request>, i: nat)
    ensures out == [] ==> OutBefore(out, reqs, i)
  {
  }

  // An extent just written to the index partition is the newest one there.
  lemma JustNewest(t: Tape, t': Tape, ext: Extent, data: seq<byte>, bs: nat)
    requires 0 < bs && Extends(t, t') && Carries(t', ext, data, bs) && data != []
    requires ext.part == IP && ext.byteoffset == 0 && |t.ip| <= ext.block
    ensures Newest(ext, bs, GroundOf(t, bs), GroundOf(t', bs))
  {
    assert ext.bytecount == |data|;
    hide OnTape, Carries, Extends, More;
    GroundGrows(t, t', bs);
    TimesMore(|t.ip|, ext.block, bs);
    forall a: int | Start(ext, bs) <= a < Stop(ext, bs)
      ensures OnTape(t', At(IP, a), bs)
    {
      CarriedThere(t', ext, data, bs, a);
    }
    LastOnTape(t', Stop(ext, bs), bs);
  }

  lemma CarriedThere(t: Tape, ext: Extent, data: seq<byte>, bs: nat, a: int)
    requires 0 < bs && Carries(t, ext, data, bs) && Start(ext, bs) <= a < Stop(ext, bs)
    ensures OnTape(t, At(ext.part, a), bs)
  {
    hide OnTape, ByteAt;
    var x := ext.fileoffset + (a - Start(ext, bs));
    assert ext.Covers(x) && ext.Addr(x, bs) == a;
  }

  lemma LastOnTape(t: Tape, stop: nat, bs: nat)
    requires 0 < bs && 0 < stop && OnTape(t, At(IP, stop - 1), bs)
    ensures stop <= |t.ip| * bs
  {
    var a := stop - 1;
    assert a == (a / bs) * bs + a % bs;
    assert a / bs + 1 <= |t.ip|;
    assert (a / bs + 1) * bs <= |t.ip| * bs;
  }

  lemma NoneLeftRemoved(reqs: seq<Request>, i: nat, paused: set<State>)
    requires i < |reqs| && NoneLeft(reqs, i, paused)
    ensures NoneLeft(Remove(reqs, i), i, paused) && (AllIp(reqs, |reqs|) ==> AllIp(Remove(reqs, i), |Remove(reqs, i)|))
  {
    hide Remove;
  }

  lemma NoneLeftNoIp(reqs: seq<Request>)
    requires NoneLeft(reqs, |reqs|, {Ip})
    ensures NoIp(reqs)
  {
  }

  // A full request has either been written out or waits for the index partition.
  lemma NoneFull(reqs: seq<Request>, paused: set<State>, cap: nat)
    requires NoneLeft(reqs, |reqs|, paused) && Short(reqs, cap) && Dp in paused
    ensures forall k {:trigger reqs[k]} :: 0 <= k < |reqs| && |reqs[k].data| == cap ==> reqs[k].state == Ip
  {
  }

  lemma NoneLeftOthers(reqs: seq<Request>, paused: set<State>)
    requires NoneLeft(reqs, |reqs|, paused)
    ensures Having(reqs, |reqs|, Others(paused)) == reqs
  {
    forall k | 0 <= k < |reqs|
      ensures reqs[k].state in Others(paused)
    {
      assert reqs[k].state !in paused;
      InOthers(reqs[k].state, paused);
    }
    hide NoneLeft, Others, Having;
    HavingAll(reqs, |reqs|, Others(paused));
  }

  lemma NoneLeftIs(reqs: seq<Request>, i: nat, paused: set<State>)
    requires i <= |reqs| && NoneLeft(reqs, i, paused)
    ensures forall k {:trigger reqs[k]} :: 0 <= k < i ==> reqs[k].state !in paused
  {
  }

  // One step of the reverse loop that cuts requests; `s` is the list so far.
  ghost predicate CutTo(reqs: seq<Request>, i: nat, len: nat, s: seq<Request>)
  {
    && i <= |reqs| && i <= |s| && s[..i] == reqs[..i]
    && CutRequests(reqs, |reqs|, len) == CutRequests(reqs, i, len) + s[i..]
  }

  lemma CutStart(reqs: seq<Request>, len: nat)
    ensures CutTo(reqs, |reqs|, len, reqs)
  {
    assert reqs[|reqs|..] == [];
  }

  lemma CutStep(reqs: seq<Request>, i: nat, len: nat, s: seq<Request>)
    requires CutTo(reqs, i, len, s) && 0 < i
    ensures s[i - 1] == reqs[i - 1]
    ensures len <= s[i - 1].offset ==> CutTo(reqs, i - 1, len, Remove(s, i - 1))
    ensures s[i - 1].offset < len < s[i - 1].End() ==> CutTo(reqs, i - 1, len, s[i - 1 := Shorten(s[i - 1], len)])
  {
    assert s[i - 1] == s[..i][i - 1] == reqs[i - 1];
    hide Shorten;
    var r := s[i - 1];
    if len <= r.offset {
      var t := Remove(s, i - 1);
      assert t[i - 1..] == s[i..] && t[..i - 1] == s[..i - 1] == reqs[..i - 1];
    } else if len < r.End() {
      var t := s[i - 1 := Shorten(r, len)];
      assert t[i - 1..] == [Shorten(r, len)] + s[i..] && t[..i - 1] == s[..i - 1] == reqs[..i - 1];
      assert CutRequests(reqs, i, len) + s[i..] == CutRequests(reqs, i - 1, len) + ([Shorten(r, len)] + s[i..]);
    }
  }

  lemma CutDone(reqs: seq<Request>, i: nat, len: nat, s: seq<Request>, cap: nat)
    requires CutTo(reqs, i, len, s) && Apart(reqs) && Sized(reqs, cap) && (i > 0 ==> reqs[i - 1].End() <= len)
    ensures s == CutRequests(reqs, |reqs|, len)
  {
    CutWhole(reqs, i, len, cap);
    assert s == s[..i] + s[i..];
  }

  lemma AltGround(alt: seq<Extent>, now: seq<Request>, requests: seq<Request>, t: Tape, store: seq<byte>, bs: nat)
    requires 0 < bs && AltFits(alt, requests, t, store, bs)
    ensures AltOk(alt, bs, GroundOf(t, bs))
  {
  }

  // No alternate extent lies beyond the end of the file.
  lemma AltBeyond(alt: seq<Extent>, requests: seq<Request>, t: Tape, store: seq<byte>, size: nat, bs: nat, len: nat)
    requires 0 < bs && AltFits(alt, requests, t, store, bs) && Within(requests, size) && |store| <= size <= len
    ensures AltOk(alt, bs, GroundOf(t, bs))
    ensures forall x: nat {:trigger Find(alt, x, bs)} :: Find(alt, x, bs) == if x < len then Find(alt, x, bs) else Hole
  {
    hide Look, Find, Within, AltOk, GroundOf;
    forall x: nat | len <= x
      ensures Find(alt, x, bs) == Hole
    {
      WithinMiss(requests, size, x);
    }
  }

  lemma TruncatedNoIp(reqs: seq<Request>, len: nat)
    ensures NoIp(reqs) ==> NoIp(CutRequests(reqs, |reqs|, len))
  {
    if NoIp(reqs) {
      CutNoIp(reqs, |reqs|, len);
    }
  }

  lemma {:induction false} CutNoIp(reqs: seq<Request>, n: nat, len: nat)
    requires n <= |reqs| && NoIp(reqs)
    ensures NoIp(CutRequests(reqs, n, len))
  {
    if n > 0 {
      CutNoIp(reqs, n - 1, len);
    }
  }

  // ---------------------------------------------------------------- handing over the extents

  // What an alternate extent leads to.
  ghost function BytesOf(e: Extent, t: Tape, bs: nat): (data: seq<byte>)
    requires 0 < bs
    ensures |data| == e.bytecount
  {
    seq<byte>(e.bytecount, k requires 0 <= k => ByteAt(t, At(e.part, Start(e, bs) + k), bs))
  }

  lemma BytesCarried(alt: seq<Extent>, k: nat, t: Tape, bs: nat)
    requires 0 < bs && k < |alt| && AltOk(alt, bs, GroundOf(t, bs))
    ensures Carries(t, alt[k], BytesOf(alt[k], t, bs), bs) && 0 < alt[k].bytecount && alt[k].byteoffset < bs
  {
    var e := alt[k];
    assert EntryOk(e, bs, GroundOf(t, bs));
    forall x: nat | e.Covers(x)
      ensures OnTape(t, At(e.part, e.Addr(x, bs)), bs) && ByteAt(t, At(e.part, e.Addr(x, bs)), bs) ==
              BytesOf(e, t, bs)[x - e.fileoffset]
    {
      assert e.Addr(x, bs) == Start(e, bs) + (x - e.fileoffset);
      assert e.Addr(x, bs) in GroundOf(t, bs).used;
    }
  }

  // The store after the first n alternate extents were added to it.
  ghost predicate Pushed(alt: seq<Extent>, n: nat, t: Tape, store: seq<byte>, now: seq<byte>, bs: nat)
    requires 0 < bs && n <= |alt|
  {
    && |now| == |store|
    && forall x: nat {:trigger now[x]} :: x < |store| ==>
         now[x] == if FindIn(alt, 0, n, x, bs) != Hole then ByteAt(t, FindIn(alt, 0, n, x, bs), bs) else store[x]
  }

  lemma PushStart(alt: seq<Extent>, t: Tape, store: seq<byte>, bs: nat)
    requires 0 < bs
    ensures Pushed(alt, 0, t, store, store, bs)
  {
  }

  lemma PushStep(alt: seq<Extent>, k: nat, t: Tape, store: seq<byte>, now: seq<byte>, bs: nat)
    requires 0 < bs && k < |alt| && AltFits(alt, [], t, store, bs) && Pushed(alt, k, t, store, now, bs)
    ensures Pushed(alt, k + 1, t, store, WriteAt(now, alt[k].fileoffset, BytesOf(alt[k], t, bs)), bs)
  {
    var e := alt[k];
    var w := WriteAt(now, e.fileoffset, BytesOf(e, t, bs));
    assert EntryOk(e, bs, GroundOf(t, bs));
    var last := e.End() - 1;
    FindInMiss(alt, 0, |alt|, last, bs);
    assert e.Covers(last) && Look([], last) == None && Find(alt, last, bs) != Hole;
    assert e.End() <= |store|;
    hide OnTape, ByteAt, AltOk, GroundOf, EntryOk;
    forall x: nat | x < |store|
      ensures w[x] == if FindIn(alt, 0, k + 1, x, bs) != Hole then ByteAt(t, FindIn(alt, 0, k + 1, x, bs), bs)
              else store[x]
    {
      if e.Covers(x) {
        assert w[x] == BytesOf(e, t, bs)[x - e.fileoffset];
        assert e.Addr(x, bs) == Start(e, bs) + (x - e.fileoffset);
      } else {
        assert w[x] == now[x];
      }
    }
  }

  // Adding all of them, in list order, leaves every byte as it was.
  lemma PushDone(alt: seq<Extent>, t: Tape, store: seq<byte>, now: seq<byte>, bs: nat)
    requires 0 < bs && AltFits(alt, [], t, store, bs) && Pushed(alt, |alt|, t, store, now, bs)
    ensures now == store
  {
    hide OnTape, ByteAt, AltOk, GroundOf;
    forall x: nat | x < |store|
      ensures now[x] == store[x]
    {
      assert Look([], x) == None;
      assert Find(alt, x, bs) == FindIn(alt, 0, |alt|, x, bs);
    }
  }

  // With nothing waiting, the file shows what is stored.
  lemma NothingWaits(store: seq<byte>, cap: nat)
    ensures Cached([], [], store, |store|, cap) && ViewOf([], [], store, |store|) == store && NoIp([])
  {
  }

  // ---------------------------------------------------------------- what overlaps would do

  // The store after writing out requests [0, n) in list order.
  function WrittenOut(reqs: seq<Request>, n: nat, store: seq<byte>): seq<byte>
    requires n <= |reqs|
  {
    if n == 0 then store else WriteAt(WrittenOut(reqs, n - 1, store), reqs[n - 1].offset, reqs[n - 1].data)
  }

  // The first requests of `was` were written out, and `reqs` are the others.
  ghost predicate OutSoFar(was: seq<Request>, reqs: seq<Request>, store: seq<byte>, now: seq<byte>)
  {
    |reqs| <= |was| && reqs == was[|was| - |reqs|..] && now == WrittenOut(was, |was| - |reqs|, store)
  }

  lemma OutSoFarStart(was: seq<Request>, store: seq<byte>)
    ensures OutSoFar(was, was, store, store)
  {
  }

  lemma OutSoFarNext(was: seq<Request>, reqs: seq<Request>, store: seq<byte>, now: seq<byte>)
    requires OutSoFar(was, reqs, store, now) && reqs != []
    ensures OutSoFar(was, Remove(reqs, 0), store, WriteAt(now, reqs[0].offset, reqs[0].data))
  {
    assert Remove(reqs, 0) == reqs[1..];
  }

  lemma OutSoFarDone(was: seq<Request>, store: seq<byte>, now: seq<byte>)
    requires OutSoFar(was, [], store, now)
    ensures now == WrittenOut(was, |was|, store)
  {
  }

  // Nothing waits on the list, and yet the store does not hold the file.
  lemma NotYetWritten()
    ensures var out := [Request(0, [1], Dp)];
            Cached([], out, [], 1, 8) && ViewOf([], out, [], 1) == [1]
  {
    var out := [Request(0, [1], Dp)];
    LookMiss([], 0, 0, 0);
    LookHit(out, 0, 0);
    assert SeenAt([], out, [], 0) == 1;
  }
}
