// Where bytes that were written out lie: on which partition, behind what, and reached by which extents.
module Carrying {
  import opened Medium
  import opened Volume
  import opened Extents
  import opened Flat
  import opened RawFile
  import opened Queues
  import opened Requests

  // Those of the first n requests that are in one of some states.
  function Having(reqs: seq<Request>, n: nat, states: set<State>): seq<Request>
    requires n <= |reqs|
  {
    if n == 0 then []
    else Having(reqs, n - 1, states) + if reqs[n - 1].state in states then [reqs[n - 1]] else []
  }

  function Others(states: set<State>): set<State>
  {
    {Partial, Dp, Ip} - states
  }

  // The byte at x that the last of the first n requests to have one has.
  function LastLook(out: seq<Request>, n: nat, x: nat): Option<byte>
    requires n <= |out|
  {
    if n == 0 then None else if out[n - 1].Covers(x) then One(out[n - 1], x) else LastLook(out, n - 1, x)
  }

  // Requests were written out one after the other, to partition p from block `from` on.  The extents
  // `now` lead there for every byte that they had, and for all others where `was` led.
  ghost predicate Carried(was: seq<Extent>, now: seq<Extent>, out: seq<Request>, p: Partition, from: nat, t: Tape,
      bs: nat)
    requires 0 < bs
  {
    forall x: nat {:trigger Find(now, x, bs)} :: CarriedAt(was, now, out, p, from, t, bs, x)
  }

  ghost predicate CarriedAt(was: seq<Extent>, now: seq<Extent>, out: seq<Request>, p: Partition, from: nat, t: Tape,
      bs: nat, x: nat)
    requires 0 < bs
  {
    match LastLook(out, |out|, x)
    case None => Find(now, x, bs) == Find(was, x, bs)
    case Some(v) => LiesOn(Find(now, x, bs), v, p, from, t, bs)
  }

  // A byte lies on partition p, behind block `from`.
  ghost predicate LiesOn(loc: Loc, v: byte, p: Partition, from: nat, t: Tape, bs: nat)
    requires 0 < bs
  {
    loc.At? && loc.part == p && from * bs <= loc.addr && OnTape(t, loc, bs) && ByteAt(t, loc, bs) == v
  }

  lemma CarriedNone(was: seq<Extent>, p: Partition, from: nat, t: Tape, bs: nat)
    requires 0 < bs
    ensures Carried(was, was, [], p, from, t, bs)
  {
    hide Find;
    var none: seq<Request> := [];
    forall x: nat
      ensures CarriedAt(was, was, none, p, from, t, bs, x)
    {
      assert LastLook(none, |none|, x) == None;
    }
  }

  lemma LiesStill(loc: Loc, v: byte, p: Partition, from: nat, t: Tape, from': nat, t': Tape, bs: nat)
    requires 0 < bs && LiesOn(loc, v, p, from, t, bs) && from' <= from && Extends(t, t')
    ensures LiesOn(loc, v, p, from', t', bs)
  {
    hide OnTape, ByteAt, Extends;
    ByteKept(t, t', loc, bs);
    TimesMore(from', from, bs);
  }

  lemma TimesMore(a: nat, b: nat, bs: nat)
    requires a <= b
    ensures a * bs <= b * bs
  {
  }

  lemma {:induction false} LastLookJoin(a: seq<Request>, b: seq<Request>, n: nat, x: nat)
    requires n <= |b|
    ensures LastLook(a + b, |a| + n, x) == if LastLook(b, n, x).Some? then LastLook(b, n, x) else LastLook(a, |a|, x)
  {
    if n == 0 {
      LastLookPrefix(a + b, a, |a|, x);
    } else {
      assert (a + b)[|a| + n - 1] == b[n - 1];
      LastLookJoin(a, b, n - 1, x);
    }
  }

  lemma {:induction false} LastLookPrefix(a: seq<Request>, b: seq<Request>, n: nat, x: nat)
    requires n <= |a| && n <= |b| && forall k :: 0 <= k < n ==> a[k] == b[k]
    ensures LastLook(a, n, x) == LastLook(b, n, x)
  {
    if n > 0 {
      LastLookPrefix(a, b, n - 1, x);
    }
  }

  // One lot after the other.
  lemma CarriedTwice(a: seq<Extent>, b: seq<Extent>, c: seq<Extent>, out: seq<Request>, more: seq<Request>,
      p: Partition, from: nat, t: Tape, from': nat, t': Tape, bs: nat)
    requires 0 < bs && Carried(a, b, out, p, from, t, bs) && Carried(b, c, more, p, from', t', bs)
    requires from <= from' && Extends(t, t')
    ensures Carried(a, c, out + more, p, from, t', bs)
  {
    hide LastLook, Find, LiesOn;
    forall x: nat
      ensures CarriedAt(a, c, out + more, p, from, t', bs, x)
    {
      LastLookJoin(out, more, |more|, x);
      assert CarriedAt(a, b, out, p, from, t, bs, x) && CarriedAt(b, c, more, p, from', t', bs, x);
      if LastLook(more, |more|, x).Some? {
        LiesStill(Find(c, x, bs), LastLook(more, |more|, x).value, p, from', t', from, t', bs);
      } else if LastLook(out, |out|, x).Some? {
        LiesStill(Find(b, x, bs), LastLook(out, |out|, x).value, p, from, t, from, t', bs);
      }
    }
  }

  // One request.
  lemma CarriedOne(was: seq<Extent>, now: seq<Extent>, r: Request, ext: Extent, p: Partition, from: nat, t: Tape,
      bs: nat)
    requires 0 < bs && Overlaid(was, ext, now, bs) && Carries(t, ext, r.data, bs)
    requires ext == Extent(p, ext.block, 0, |r.data|, r.offset) && from <= ext.block
    ensures Carried(was, now, [r], p, from, t, bs)
  {
    hide Find, OnTape, ByteAt;
    assert from * bs <= ext.block * bs;
    forall x: nat
      ensures CarriedAt(was, now, [r], p, from, t, bs, x)
    {
      assert LastLook([r], 1, x) == if r.Covers(x) then One(r, x) else LastLook([r], 0, x);
      assert Find(now, x, bs) == if ext.Covers(x) then At(ext.part, ext.Addr(x, bs)) else Find(was, x, bs);
      if ext.Covers(x) {
        assert One(r, x) == Some(r.data[x - ext.fileoffset]);
      }
    }
  }

  lemma CarriedPut(was: seq<Extent>, now: seq<Extent>, r: Request, p: Partition, from: nat, t: Tape, bs: nat)
    requires 0 < bs && PutOn(was, now, r.data, r.offset, p, from, t, bs)
    ensures Carried(was, now, [r], p, from, t, bs)
  {
    var b: nat :| from <= b && Overlaid(was, Extent(p, b, 0, |r.data|, r.offset), now, bs)
                  && Carries(t, Extent(p, b, 0, |r.data|, r.offset), r.data, bs);
    CarriedOne(was, now, r, Extent(p, b, 0, |r.data|, r.offset), p, from, t, bs);
  }

  // The same from one state of the drive to another.
  ghost predicate OutTo(was: seq<Extent>, now: seq<Extent>, out: seq<Request>, p: Partition, d: Drive, d': Drive,
      bs: nat)
    requires 0 < bs
  {
    && d.appendIp <= |d.ip| && d'.appendIp <= |d'.ip|
    && Carried(was, now, out, p, |Settled(d).Recs(p)|, Settled(d'), bs)
  }

  lemma OutNone(was: seq<Extent>, p: Partition, d: Drive, bs: nat)
    requires 0 < bs && d.appendIp <= |d.ip|
    ensures OutTo(was, was, [], p, d, d, bs)
  {
    CarriedNone(was, p, |Settled(d).Recs(p)|, Settled(d), bs);
  }

  lemma OutTwice(a: seq<Extent>, b: seq<Extent>, c: seq<Extent>, out: seq<Request>, more: seq<Request>, p: Partition,
      d0: Drive, l0: seq<Stop>, d1: Drive, l1: seq<Stop>, d2: Drive, l2: seq<Stop>, bs: nat)
    requires 0 < bs && OutTo(a, b, out, p, d0, d1, bs) && OutTo(b, c, more, p, d1, d2, bs)
    requires Grows(d0, l0, d1, l1) && Grows(d1, l1, d2, l2)
    ensures OutTo(a, c, out + more, p, d0, d2, bs)
  {
    hide Carried;
    CarriedTwice(a, b, c, out, more, p, |Settled(d0).Recs(p)|, Settled(d1), |Settled(d1).Recs(p)|, Settled(d2), bs);
  }

  lemma OutPut(was: seq<Extent>, now: seq<Extent>, r: Request, p: Partition, d: Drive, d': Drive, bs: nat)
    requires 0 < bs && d.appendIp <= |d.ip| && d'.appendIp <= |d'.ip|
    requires PutOn(was, now, r.data, r.offset, p, |Settled(d).Recs(p)|, Settled(d'), bs)
    ensures OutTo(was, now, [r], p, d, d', bs)
  {
    hide PutOn;
    CarriedPut(was, now, r, p, |Settled(d).Recs(p)|, Settled(d'), bs);
  }

  // They were written out to the data partition, and then the list was cut.
  ghost predicate OutAndCut(was: seq<Extent>, out: seq<Request>, now: seq<Extent>, len: nat, d: Drive, d': Drive,
      bs: nat)
    requires 0 < bs
  {
    exists mid: seq<Extent> {:trigger OutTo(was, mid, out, DP, d, d', bs)} ::
      OutTo(was, mid, out, DP, d, d', bs) && CutOff(mid, now, len, bs)
  }

  // The first n entries of a list were laid over another; later ones win.
  ghost predicate Topped(was: seq<Extent>, alt: seq<Extent>, n: nat, now: seq<Extent>, bs: nat)
    requires n <= |alt|
  {
    forall x: nat {:trigger Find(now, x, bs)} ::
      Find(now, x, bs) == if FindIn(alt, 0, n, x, bs) != Hole then FindIn(alt, 0, n, x, bs) else Find(was, x, bs)
  }

  lemma ToppedStart(was: seq<Extent>, alt: seq<Extent>, bs: nat)
    ensures Topped(was, alt, 0, was, bs)
  {
  }

  lemma ToppedStep(was: seq<Extent>, alt: seq<Extent>, n: nat, mid: seq<Extent>, now: seq<Extent>, bs: nat)
    requires n < |alt| && Topped(was, alt, n, mid, bs) && Overlaid(mid, alt[n], now, bs)
    ensures Topped(was, alt, n + 1, now, bs)
  {
    hide Find, Extent.Addr;
    forall x: nat
      ensures Find(now, x, bs) ==
              if FindIn(alt, 0, n + 1, x, bs) != Hole then FindIn(alt, 0, n + 1, x, bs) else Find(was, x, bs)
    {
      assert Find(mid, x, bs) ==
             if FindIn(alt, 0, n, x, bs) != Hole then FindIn(alt, 0, n, x, bs) else Find(was, x, bs);
    }
  }

  lemma ToppedNone(was: seq<Extent>, bs: nat)
    ensures Topped(was, [], 0, was, bs)
  {
  }

  // ---------------------------------------------------------------- requests by state

  lemma {:induction false} HavingPrefix(a: seq<Request>, b: seq<Request>, n: nat, states: set<State>)
    requires n <= |a| && n <= |b| && forall k :: 0 <= k < n ==> a[k] == b[k]
    ensures Having(a, n, states) == Having(b, n, states)
  {
    if n > 0 {
      HavingPrefix(a, b, n - 1, states);
    }
  }

  // Those from request i on.
  lemma {:induction false} HavingFrom(a: seq<Request>, b: seq<Request>, i: nat, j: nat, n: nat, states: set<State>)
    requires i + n <= |a| && j + n <= |b| && forall k {:trigger a[k]} :: i <= k < i + n ==> a[k] == b[k - i + j]
    requires Having(a, i, states) == Having(b, j, states)
    ensures Having(a, i + n, states) == Having(b, j + n, states)
  {
    if n > 0 {
      HavingFrom(a, b, i, j, n - 1, states);
      assert a[i + n - 1] == b[j + n - 1];
    }
  }

  // Taking out request i, which is in none of the states.
  lemma HavingRemoved(reqs: seq<Request>, i: nat, states: set<State>)
    requires i < |reqs| && reqs[i].state !in states
    ensures Having(Remove(reqs, i), |reqs| - 1, states) == Having(reqs, |reqs|, states)
  {
    hide Remove;
    var s := Remove(reqs, i);
    HavingPrefix(s, reqs, i, states);
    assert Having(reqs, i + 1, states) == Having(reqs, i, states) + [];
    HavingFrom(s, reqs, i, i + 1, |s| - i, states);
  }

  // The first of them goes: request i, if none before it is in one of the states.
  lemma HavingFirst(reqs: seq<Request>, i: nat, states: set<State>)
    requires i < |reqs| && reqs[i].state in states && Having(reqs, i, states) == []
    ensures Having(reqs, |reqs|, states) == [reqs[i]] + Having(Remove(reqs, i), |reqs| - 1, states)
  {
    HavingBehind(reqs, i, |reqs| - 1 - i, states);
  }

  lemma HavingNext(reqs: seq<Request>, n: nat, states: set<State>)
    requires n < |reqs|
    ensures Having(reqs, n + 1, states) ==
            Having(reqs, n, states) + if reqs[n].state in states then [reqs[n]] else []
  {
  }

  lemma {:induction false} HavingBehind(reqs: seq<Request>, i: nat, n: nat, states: set<State>)
    requires i + 1 + n <= |reqs| && reqs[i].state in states && Having(reqs, i, states) == []
    ensures Having(reqs, i + 1 + n, states) == [reqs[i]] + Having(Remove(reqs, i), i + n, states)
  {
    hide Remove, Having;
    var s := Remove(reqs, i);
    HavingNext(reqs, i + n, states);
    if n == 0 {
      HavingPrefix(s, reqs, i, states);
      assert [] + [reqs[i]] == [reqs[i]] + [];
    } else {
      HavingBehind(reqs, i, n - 1, states);
      HavingNext(s, i + n - 1, states);
      assert s[i + n - 1] == reqs[i + n];
      var more := if reqs[i + n].state in states then [reqs[i + n]] else [];
      assert [reqs[i]] + Having(s, i + n - 1, states) + more == [reqs[i]] + (Having(s, i + n - 1, states) + more);
    }
  }

  // Changing a request that is in none of the states, before and after.
  lemma HavingChanged(reqs: seq<Request>, i: nat, r: Request, states: set<State>)
    requires i < |reqs| && reqs[i].state !in states && r.state !in states
    ensures Having(reqs[i := r], |reqs|, states) == Having(reqs, |reqs|, states)
  {
    var s := reqs[i := r];
    HavingPrefix(s, reqs, i, states);
    assert Having(s, i + 1, states) == Having(s, i, states) + [] && Having(reqs, i + 1, states) ==
           Having(reqs, i, states) + [];
    HavingFrom(s, reqs, i + 1, i + 1, |reqs| - i - 1, states);
  }

  lemma {:induction false} HavingNone(reqs: seq<Request>, n: nat, states: set<State>)
    requires n <= |reqs| && forall k {:trigger reqs[k]} :: 0 <= k < n ==> reqs[k].state !in states
    ensures Having(reqs, n, states) == []
  {
    if n > 0 {
      HavingNone(reqs, n - 1, states);
    }
  }

  lemma {:induction false} HavingAll(reqs: seq<Request>, n: nat, states: set<State>)
    requires n <= |reqs| && forall k {:trigger reqs[k]} :: 0 <= k < n ==> reqs[k].state in states
    ensures Having(reqs, n, states) == reqs[..n]
  {
    if n > 0 {
      HavingAll(reqs, n - 1, states);
      assert reqs[..n] == reqs[..n - 1] + [reqs[n - 1]];
    }
  }

  // Requests bound for the data partition stay as they are when those for the other one are merged.
  lemma HavingMergedBack(reqs: seq<Request>, i: nat, cap: nat, states: set<State>)
    requires i < |reqs| && reqs[i].state == Ip && Ip !in states && |reqs[i].data| > 0
    requires i > 0 ==> |reqs[i - 1].data| <= cap
    requires i > 0 ==> reqs[i - 1].state == Ip || Cut(reqs[i - 1], reqs[i], cap) == 0
    ensures var m := MergedBack(reqs, i, cap); Having(m, |m|, states) == Having(reqs, |reqs|, states)
  {
    hide Fill, Remove;
    if i > 0 && Cut(reqs[i - 1], reqs[i], cap) > 0 {
      var dest, src := reqs[i - 1], reqs[i];
      var s := reqs;
      if PassOn(dest, src, cap) > 0 {
        var f := Fill(dest, dest.End(), src.data[dest.End() - src.offset..], cap);
        FillOne(dest, dest.End(), src.data[dest.End() - src.offset..], cap);
        s := reqs[i - 1 := f];
        assert Updated(reqs, i - 1, dest.End(), src.data[dest.End() - src.offset..], cap) == s;
        HavingChanged(reqs, i - 1, f, states);
      }
      if Cut(dest, src, cap) < |src.data| {
        HavingChanged(s, i, Behead(src, Cut(dest, src, cap)), states);
      } else {
        HavingRemoved(s, i, states);
      }
    }
  }

  // A request that stays for the index partition is out of the way like one that is gone.
  lemma HavingKept(reqs: seq<Request>, i: nat, r: Request, states: set<State>)
    requires i < |reqs| && r.state !in states
    ensures Having(reqs[i := r], |reqs|, states) == Having(Remove(reqs, i), |reqs| - 1, states)
  {
    hide Remove;
    var s := reqs[i := r];
    HavingRemoved(s, i, states);
    assert Remove(s, i) == Remove(reqs, i);
  }

  // In a list without overlaps the last request that covers a byte is the first.
  lemma {:induction false} LastIsFirst(reqs: seq<Request>, n: nat, x: nat)
    requires n <= |reqs| && Apart(reqs)
    ensures LastLook(reqs, n, x) == LookIn(reqs, 0, n, x)
  {
    if n > 0 {
      LastIsFirst(reqs, n - 1, x);
      LookSplit(reqs, 0, n - 1, n, x);
      assert LookIn(reqs, n, n, x) == None;
      if reqs[n - 1].Covers(x) {
        LookMiss(reqs, 0, n - 1, x);
      }
    }
  }

  // The same requests wait for the data partition, in the same order.
  ghost predicate SameWaiting(was: seq<Request>, now: seq<Request>)
  {
    forall states: set<State> {:trigger Having(now, |now|, states)} :: Ip !in states ==>
      Having(now, |now|, states) == Having(was, |was|, states)
  }

  lemma WaitingMergedBack(reqs: seq<Request>, i: nat, cap: nat)
    requires i < |reqs| && reqs[i].state == Ip && |reqs[i].data| > 0
    requires i > 0 ==> |reqs[i - 1].data| <= cap
    requires i > 0 ==> reqs[i - 1].state == Ip || Cut(reqs[i - 1], reqs[i], cap) == 0
    ensures SameWaiting(reqs, MergedBack(reqs, i, cap))
  {
    hide MergedBack, Having;
    forall states: set<State> | Ip !in states
      ensures var m := MergedBack(reqs, i, cap); Having(m, |m|, states) == Having(reqs, |reqs|, states)
    {
      HavingMergedBack(reqs, i, cap, states);
    }
  }

  lemma WaitingKept(reqs: seq<Request>, i: nat, r: Request)
    requires i < |reqs| && r.state == Ip
    ensures SameWaiting(Remove(reqs, i), reqs[i := r])
  {
    hide Having, Remove;
    forall states: set<State> | Ip !in states
      ensures Having(reqs[i := r], |reqs|, states) == Having(Remove(reqs, i), |reqs| - 1, states)
    {
      HavingKept(reqs, i, r, states);
    }
  }

  lemma WaitingTwice(a: seq<Request>, b: seq<Request>, c: seq<Request>)
    requires SameWaiting(a, b) && SameWaiting(b, c)
    ensures SameWaiting(a, c)
  {
    hide Having;
    forall states: set<State> | Ip !in states
      ensures Having(c, |c|, states) == Having(a, |a|, states)
    {
      assert Having(b, |b|, states) == Having(a, |a|, states);
    }
  }

  lemma SameWaitingAt(was: seq<Request>, now: seq<Request>, states: set<State>)
    requires SameWaiting(was, now) && Ip !in states
    ensures Having(now, |now|, states) == Having(was, |was|, states)
  {
    hide Having;
  }

  // The first request to be written out goes, or stays for the index partition.
  lemma WaitingNext(reqs: seq<Request>, i: nat, now: seq<Request>, states: set<State>)
    requires i < |reqs| && reqs[i].state in states && Ip !in states && SameWaiting(Remove(reqs, i), now)
    requires Having(reqs, i, states) == []
    ensures Having(reqs, |reqs|, states) == [reqs[i]] + Having(now, |now|, states)
  {
    hide Having, Remove, SameWaiting;
    HavingFirst(reqs, i, states);
    SameWaitingAt(Remove(reqs, i), now, states);
  }

  // Written out so far, and still to be: together what was there at first.
  ghost predicate Halfway(was: seq<Request>, out: seq<Request>, reqs: seq<Request>, states: set<State>)
  {
    out + Having(reqs, |reqs|, states) == Having(was, |was|, states)
  }

  lemma HalfwayStart(reqs: seq<Request>, states: set<State>)
    ensures Halfway(reqs, [], reqs, states)
  {
    assert [] + Having(reqs, |reqs|, states) == Having(reqs, |reqs|, states);
  }

  lemma HalfwayNext(was: seq<Request>, out: seq<Request>, reqs: seq<Request>, i: nat, now: seq<Request>,
      states: set<State>)
    requires Halfway(was, out, reqs, states)
    requires i < |reqs| && reqs[i].state in states && Ip !in states && SameWaiting(Remove(reqs, i), now)
    requires forall k {:trigger reqs[k]} :: 0 <= k < i ==> reqs[k].state !in states
    ensures Halfway(was, out + [reqs[i]], now, states)
  {
    hide Having, Remove, SameWaiting;
    HavingNone(reqs, i, states);
    WaitingNext(reqs, i, now, states);
    assert out + [reqs[i]] + Having(now, |now|, states) == out + ([reqs[i]] + Having(now, |now|, states));
  }

  lemma HalfwaySame(was: seq<Request>, out: seq<Request>, reqs: seq<Request>, now: seq<Request>, states: set<State>)
    requires Halfway(was, out, reqs, states) && Ip !in states && SameWaiting(reqs, now)
    ensures Halfway(was, out, now, states)
  {
    hide Having;
    assert Having(now, |now|, states) == Having(reqs, |reqs|, states);
  }

  // The first of them goes.
  lemma HalfwayOff(was: seq<Request>, out: seq<Request>, reqs: seq<Request>, i: nat, states: set<State>)
    requires Halfway(was, out, reqs, states) && i < |reqs| && reqs[i].state in states
    requires forall k {:trigger reqs[k]} :: 0 <= k < i ==> reqs[k].state !in states
    ensures Halfway(was, out + [reqs[i]], Remove(reqs, i), states)
  {
    hide Having, Remove;
    HavingNone(reqs, i, states);
    HavingFirst(reqs, i, states);
    var now := Remove(reqs, i);
    assert out + [reqs[i]] + Having(now, |now|, states) == out + ([reqs[i]] + Having(now, |now|, states));
  }

  lemma HalfwayEnd(was: seq<Request>, out: seq<Request>, reqs: seq<Request>, states: set<State>)
    requires Halfway(was, out, reqs, states)
    requires forall k {:trigger reqs[k]} :: 0 <= k < |reqs| ==> reqs[k].state !in states
    ensures out == Having(was, |was|, states)
  {
    HavingNone(reqs, |reqs|, states);
    assert out + [] == out;
  }

  // A background pass has got to request i.  What it found it wrote out, or took off the list; then the
  // others are as they were.
  ghost predicate Passing(was: seq<Request>, out: seq<Request>, reqs: seq<Request>, i: nat, states: set<State>,
      cap: nat, ip: bool)
  {
    && Halfway(was, out, reqs, states)
    && (if ip then PassRun(reqs, i, states, cap) == PassRun(was, 0, states, cap)
        else Having(reqs, |reqs|, Others(states)) == Having(was, |was|, Others(states)))
  }

  lemma PassingStart(reqs: seq<Request>, states: set<State>, cap: nat, ip: bool)
    ensures Passing(reqs, [], reqs, 0, states, cap, ip)
  {
    HalfwayStart(reqs, states);
  }

  // A request that waits for the index partition is merged into the one before it.
  lemma PassingMerged(was: seq<Request>, out: seq<Request>, reqs: seq<Request>, i: nat, states: set<State>,
      cap: nat, now: seq<Request>, next: nat)
    requires Passing(was, out, reqs, i, states, cap, true) && Ip !in states && SameWaiting(reqs, now)
    requires i < |reqs| && reqs[i].state == Ip && now == MergedBack(reqs, i, cap)
    requires next == if |now| < |reqs| then i else i + 1
    ensures Passing(was, out, now, next, states, cap, true)
  {
    hide Halfway, PassRun, MergedBack, SameWaiting;
    assert reqs[i := reqs[i].(state := Ip)] == reqs;
    PassNext(reqs, i, states, cap, now, next);
    HalfwaySame(was, out, reqs, now, states);
  }

  // One is written out, and stays for the index partition.
  lemma PassingFlushed(was: seq<Request>, out: seq<Request>, reqs: seq<Request>, i: nat, states: set<State>,
      cap: nat, now: seq<Request>, next: nat)
    requires Passing(was, out, reqs, i, states, cap, true) && Ip !in states
    requires i < |reqs| && reqs[i].state in states && SameWaiting(Remove(reqs, i), now)
    requires now == MergedBack(reqs[i := reqs[i].(state := Ip)], i, cap) && next == if |now| < |reqs| then i else i + 1
    requires forall k {:trigger reqs[k]} :: 0 <= k < i ==> reqs[k].state !in states
    ensures Passing(was, out + [reqs[i]], now, next, states, cap, true)
  {
    hide Halfway, PassRun, MergedBack, SameWaiting;
    PassNext(reqs, i, states, cap, now, next);
    HalfwayNext(was, out, reqs, i, now, states);
  }

  // One is taken off the list.
  lemma PassingDetached(was: seq<Request>, out: seq<Request>, reqs: seq<Request>, i: nat, states: set<State>, cap: nat)
    requires Passing(was, out, reqs, i, states, cap, false) && i < |reqs| && reqs[i].state in states
    requires forall k {:trigger reqs[k]} :: 0 <= k < i ==> reqs[k].state !in states
    ensures Passing(was, out + [reqs[i]], Remove(reqs, i), i, states, cap, false)
  {
    hide Halfway, Having;
    HalfwayOff(was, out, reqs, i, states);
    HavingRemoved(reqs, i, Others(states));
  }

  lemma PassingSkipped(was: seq<Request>, out: seq<Request>, reqs: seq<Request>, i: nat, states: set<State>, cap: nat,
      ip: bool)
    requires Passing(was, out, reqs, i, states, cap, ip) && i < |reqs| && reqs[i].state != Ip
             && reqs[i].state !in states
    ensures Passing(was, out, reqs, i + 1, states, cap, ip)
  {
    hide Halfway, PassRun, Having;
    PassSkip(reqs, i, states, cap);
  }

  lemma PassingEnd(was: seq<Request>, out: seq<Request>, reqs: seq<Request>, states: set<State>, cap: nat, ip: bool)
    requires Passing(was, out, reqs, |reqs|, states, cap, ip)
    requires forall k {:trigger reqs[k]} :: 0 <= k < |reqs| ==> reqs[k].state !in states
    ensures out == Having(was, |was|, states)
    ensures if ip then reqs == PassRun(was, 0, states, cap) else reqs == Having(was, |was|, Others(states))
  {
    HalfwayEnd(was, out, reqs, states);
    PassEnd(reqs, states, cap);
    forall k | 0 <= k < |reqs|
      ensures reqs[k].state in Others(states)
    {
      assert reqs[k].state !in states;
      InOthers(reqs[k].state, states);
    }
    hide Halfway, PassRun, Having, Others;
    HavingAll(reqs, |reqs|, Others(states));
  }

  lemma InOthers(s: State, states: set<State>)
    requires s !in states
    ensures s in Others(states)
  {
    assert s == Partial || s == Dp || s == Ip;
  }

  lemma RemovedSame(reqs: seq<Request>)
    ensures SameWaiting(reqs, reqs)
  {
  }
}
