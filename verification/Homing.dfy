// Where the bytes of a file lie once nothing waits any more.
module Homing {
  import opened Medium
  import opened Volume
  import opened Extents
  import opened Flat
  import opened RawFile
  import opened Queues
  import opened Requests
  import opened Carrying
  import opened View

  // Where a byte lies once nothing waits any more.  If it waited on the list, as `waiting`, or was being
  // written out, as `leaving`: on the tape behind everything that was there, on the index partition if the
  // file is bound for it and it waited, on the data partition else.  If not, where it was: where the
  // alternate extents led, or else the extents of the store.
  ghost predicate Arrived(waiting: Option<byte>, leaving: Option<byte>, alt: Loc, was: Loc, now: Loc, ip: bool,
      t: Tape, t': Tape, bs: nat)
    requires 0 < bs
  {
    var p := if ip then IP else DP;
    match waiting
    case Some(v) => LiesOn(now, v, p, |t.Recs(p)|, t', bs)
    case None =>
      match leaving
      case Some(v) => LiesOn(now, v, DP, |t.Recs(DP)|, t', bs)
      case None => now == if alt != Hole then alt else was
  }

  ghost predicate HomeAt(was: seq<Extent>, alt: seq<Extent>, requests: seq<Request>, inflight: seq<Request>,
      now: seq<Extent>, ip: bool, t: Tape, t': Tape, bs: nat, x: nat)
    requires 0 < bs
  {
    Arrived(Look(requests, x), Look(inflight, x), Find(alt, x, bs), Find(was, x, bs), Find(now, x, bs), ip, t, t', bs)
  }

  ghost predicate Home(was: seq<Extent>, alt: seq<Extent>, requests: seq<Request>, inflight: seq<Request>,
      now: seq<Extent>, ip: bool, d: Drive, d': Drive, bs: nat)
    requires 0 < bs
  {
    && d.appendIp <= |d.ip| && d'.appendIp <= |d'.ip|
    && forall x: nat {:trigger Find(now, x, bs)} ::
      HomeAt(was, alt, requests, inflight, now, ip, Settled(d), Settled(d'), bs, x)
  }

  lemma {:induction false} HavingMiss(reqs: seq<Request>, n: nat, states: set<State>, x: nat)
    requires n <= |reqs| && LookIn(reqs, 0, n, x) == None
    ensures var h := Having(reqs, n, states); LastLook(h, |h|, x) == None
  {
    if n > 0 {
      LookMiss(reqs, 0, n, x);
      LookMiss(reqs, 0, n - 1, x);
      HavingMiss(reqs, n - 1, states, x);
      var h, g := Having(reqs, n, states), Having(reqs, n - 1, states);
      LastLookPrefix(h, g, |g|, x);
      assert !reqs[n - 1].Covers(x);
    }
  }

  // What a background writer and then a flush write out, with the list in the end.
  lemma OutFlushed(was: seq<Extent>, mid: seq<Extent>, now: seq<Extent>, inflight: seq<Request>, reqs: seq<Request>,
      d: Drive, l: seq<Stop>, d1: Drive, l1: seq<Stop>, d2: Drive, l2: seq<Stop>, bs: nat)
    requires 0 < bs && OutTo(was, mid, inflight, DP, d, d1, bs)
    requires Grows(d, l, d1, l1) && Grows(d1, l1, d2, l2)
    requires if reqs != [] then OutTo(mid, now, [] + Having(reqs, |reqs|, {Partial, Dp}), DP, d1, d2, bs)
             else now == mid && d2 == d1
    ensures OutTo(was, now, inflight + Having(reqs, |reqs|, {Partial, Dp}), DP, d, d2, bs)
  {
    hide Carried;
    var h := Having(reqs, |reqs|, {Partial, Dp});
    assert [] + h == h;
    if reqs != [] {
      hide OutTo, Having;
      OutTwice(was, mid, now, inflight, h, DP, d, l, d1, l1, d2, l2, bs);
    } else {
      assert inflight + h == inflight;
    }
  }

  lemma HavingMissing(reqs: seq<Request>, x: nat)
    ensures var h := Having(reqs, |reqs|, {Partial, Dp}); Look(reqs, x) == None ==> LastLook(h, |h|, x) == None
  {
    if Look(reqs, x) == None {
      HavingMiss(reqs, |reqs|, {Partial, Dp}, x);
    }
  }

  lemma NoExtent(x: nat, bs: nat)
    ensures Find([], x, bs) == Hole
  {
  }

  lemma AllIpHaving(reqs: seq<Request>)
    requires AllIp(reqs, |reqs|)
    ensures Having(reqs, |reqs|, {Ip}) == reqs
  {
    HavingAll(reqs, |reqs|, {Ip});
  }

  // Everything that waited is home.
  lemma HomeAll(was: seq<Extent>, alt: seq<Extent>, requests: seq<Request>, inflight: seq<Request>,
      mid: seq<Extent>, rest: seq<Request>, laid: seq<Extent>, now: seq<Extent>, ip: bool,
      d: Drive, l: seq<Stop>, d1: Drive, l1: seq<Stop>, d2: Drive, l2: seq<Stop>, bs: nat)
    requires 0 < bs && Grows(d, l, d1, l1) && Grows(d1, l1, d2, l2)
    requires Apart(requests) && Apart(inflight) && Apart(rest) && (!ip || inflight != [] ==> alt == [])
    requires OutTo(was, mid, inflight + Having(requests, |requests|, {Partial, Dp}), DP, d, d1, bs)
    requires OutTo(alt, laid, rest, IP, d1, d2, bs) && Topped(mid, laid, |laid|, now, bs)
    requires if ip then forall x: nat {:trigger Look(rest, x)} :: Look(rest, x) == Look(requests, x)
             else rest == [] && NoIp(requests)
    ensures Home(was, alt, requests, inflight, now, ip, d, d2, bs)
  {
    hide Look, LookIn, LastLook, FindIn, Find, Having, Extends, Apart, LiesOn, HomeAt, Settled, NoIp, Topped, Carried;
    GrowsExtends(d, l, d1, l1);
    GrowsExtends(d1, l1, d2, l2);
    forall x: nat
      ensures HomeAt(was, alt, requests, inflight, now, ip, Settled(d), Settled(d2), bs, x)
    {
      HomeOne(was, alt, requests, inflight, mid, rest, laid, now, ip, Settled(d), Settled(d1), Settled(d2), bs, x);
    }
  }

  lemma HomeOne(was: seq<Extent>, alt: seq<Extent>, requests: seq<Request>, inflight: seq<Request>,
      mid: seq<Extent>, rest: seq<Request>, laid: seq<Extent>, now: seq<Extent>, ip: bool,
      t: Tape, t1: Tape, t2: Tape, bs: nat, x: nat)
    requires 0 < bs && Extends(t, t1) && Extends(t1, t2)
    requires Apart(requests) && Apart(inflight) && Apart(rest) && (!ip || inflight != [] ==> alt == [])
    requires Carried(was, mid, inflight + Having(requests, |requests|, {Partial, Dp}), DP, |t.dp|, t1, bs)
    requires Carried(alt, laid, rest, IP, |t1.ip|, t2, bs) && Topped(mid, laid, |laid|, now, bs)
    requires if ip then Look(rest, x) == Look(requests, x) else rest == [] && NoIp(requests)
    ensures HomeAt(was, alt, requests, inflight, now, ip, t, t2, bs, x)
  {
    hide Look, LookIn, LastLook, Find, FindIn, Having, LiesOn, Extends, Arrived, Apart, NoIp;
    var h := Having(requests, |requests|, {Partial, Dp});
    NoExtent(x, bs);
    LooksOut(requests, inflight, x);
    LooksRest(rest, x);
    ToppedAt(mid, laid, now, bs, x);
    assert CarriedAt(was, mid, inflight + h, DP, |t.dp|, t1, bs, x) by {
      assert Find(mid, x, bs) == Find(mid, x, bs);
    }
    assert CarriedAt(alt, laid, rest, IP, |t1.ip|, t2, bs, x) by {
      assert Find(laid, x, bs) == Find(laid, x, bs);
    }
    hide Carried, Topped;
    Arrives(Look(requests, x), Look(inflight, x), LastLook(h, |h|, x), Look(rest, x), Find(alt, x, bs),
        Find(was, x, bs),
        Find(mid, x, bs), Find(laid, x, bs), Find(now, x, bs), ip, t, t1, t2, bs);
  }

  lemma ToppedAt(was: seq<Extent>, alt: seq<Extent>, now: seq<Extent>, bs: nat, x: nat)
    requires Topped(was, alt, |alt|, now, bs)
    ensures Find(now, x, bs) == if Find(alt, x, bs) != Hole then Find(alt, x, bs) else Find(was, x, bs)
  {
  }

  lemma LooksRest(rest: seq<Request>, x: nat)
    requires Apart(rest)
    ensures LastLook(rest, |rest|, x) == Look(rest, x) && (rest == [] ==> Look(rest, x) == None)
  {
    LastIsFirst(rest, |rest|, x);
    LookMiss([], 0, 0, x);
  }

  lemma LooksOut(requests: seq<Request>, inflight: seq<Request>, x: nat)
    requires Apart(requests) && Apart(inflight)
    ensures var h := Having(requests, |requests|, {Partial, Dp});
            var out := inflight + h;
            && LastLook(out, |out|, x) == Or(LastLook(h, |h|, x), Look(inflight, x))
            && (Look(requests, x) == None ==> LastLook(h, |h|, x) == None)
            && (NoIp(requests) ==> LastLook(h, |h|, x) == Look(requests, x))
            && (inflight == [] ==> Look(inflight, x) == None)
  {
    hide LookIn, LastLook, Having, Apart;
    var h := Having(requests, |requests|, {Partial, Dp});
    HavingMissing(requests, x);
    LastIsFirst(requests, |requests|, x);
    LastIsFirst(inflight, |inflight|, x);
    LastLookJoin(inflight, h, |h|, x);
    LookMiss([], 0, 0, x);
    if NoIp(requests) {
      HavingAll(requests, |requests|, {Partial, Dp});
      assert h == requests;
    }
  }

  lemma Arrives(waiting: Option<byte>, leaving: Option<byte>, out: Option<byte>, rest: Option<byte>, alt: Loc, was: Loc,
      mid: Loc, laid: Loc, now: Loc, ip: bool, t: Tape, t1: Tape, t2: Tape, bs: nat)
    requires 0 < bs && Extends(t, t1) && Extends(t1, t2) && now == if laid != Hole then laid else mid
    requires match Or(out, leaving)
             case None => mid == was
             case Some(v) => LiesOn(mid, v, DP, |t.dp|, t1, bs)
    requires match rest
             case None => laid == alt
             case Some(v) => LiesOn(laid, v, IP, |t1.ip|, t2, bs)
    requires if ip then rest == waiting && (waiting == None ==> out == None) else rest == None && out == waiting
    requires !ip || leaving.Some? ==> alt == Hole
    ensures Arrived(waiting, leaving, alt, was, now, ip, t, t2, bs)
  {
    if rest.Some? {
      LiesStill(laid, rest.value, IP, |t1.ip|, t2, |t.ip|, t2, bs);
    } else if Or(out, leaving).Some? {
      LiesStill(mid, Or(out, leaving).value, DP, |t.dp|, t1, |t.dp|, t2, bs);
    }
  }
}
