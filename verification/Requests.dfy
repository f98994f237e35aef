// Lists of write requests: what they show of a file, and how single requests are edited.
module Requests {
  import opened Medium
  import opened Flat
  import opened Queues

  // Bytes waiting in a cache block, for the file from `offset` on.
  datatype Request = Request(offset: nat, data: seq<byte>, state: State)
  {
    function End(): nat
    {
      offset + |data|
    }

    predicate Covers(x: nat)
    {
      offset <= x < End()
    }
  }

  function Or<T>(a: Option<T>, b: Option<T>): Option<T>
  {
    if a.Some? then a else b
  }

  function One(r: Request, x: nat): Option<byte>
  {
    if r.Covers(x) then Some(r.data[x - r.offset]) else None
  }

  // The byte that requests [lo, hi) hold for x; earlier requests win.
  function LookIn(reqs: seq<Request>, lo: nat, hi: nat, x: nat): Option<byte>
    requires lo <= hi <= |reqs|
    decreases hi - lo
  {
    if lo == hi then None else Or(One(reqs[lo], x), LookIn(reqs, lo + 1, hi, x))
  }

  function Look(reqs: seq<Request>, x: nat): Option<byte>
  {
    LookIn(reqs, 0, |reqs|, x)
  }

  // None empty, none larger than a cache block.
  ghost predicate Sized(reqs: seq<Request>, cap: nat)
  {
    forall k {:trigger reqs[k]} :: 0 <= k < |reqs| ==> 0 < |reqs[k].data| <= cap
  }

  // Sorted by offset, without overlaps.
  ghost predicate Apart(reqs: seq<Request>)
  {
    forall i, j {:trigger reqs[i], reqs[j]} :: 0 <= i < j < |reqs| ==> reqs[i].End() <= reqs[j].offset
  }

  // Sorted by offset; requests may overlap.
  ghost predicate InOrder(reqs: seq<Request>)
  {
    forall i, j {:trigger reqs[i], reqs[j]} :: 0 <= i < j < |reqs| ==> reqs[i].offset <= reqs[j].offset
  }

  // Equal but for the difference between partly filled and full.
  ghost predicate SameBytes(a: seq<Request>, b: seq<Request>)
  {
    && |a| == |b|
    && forall k {:trigger a[k]} :: 0 <= k < |a| ==> Alike(a[k], b[k])
  }

  predicate Alike(r: Request, s: Request)
  {
    r.offset == s.offset && r.data == s.data && (r.state == Ip <==> s.state == Ip)
  }

  // ---------------------------------------------------------------- lookup lemmas

  lemma {:induction false} LookSplit(reqs: seq<Request>, lo: nat, mid: nat, hi: nat, x: nat)
    requires lo <= mid <= hi <= |reqs|
    ensures LookIn(reqs, lo, hi, x) == Or(LookIn(reqs, lo, mid, x), LookIn(reqs, mid, hi, x))
    decreases mid - lo
  {
    if lo < mid {
      LookSplit(reqs, lo + 1, mid, hi, x);
    }
  }

  lemma {:induction false} LookSame(a: seq<Request>, b: seq<Request>, shift: int, lo: nat, hi: nat, x: nat)
    requires lo <= hi <= |a| && 0 <= lo + shift && hi + shift <= |b|
    requires forall k {:trigger a[k]} :: lo <= k < hi ==> Alike(a[k], b[k + shift])
    ensures LookIn(a, lo, hi, x) == LookIn(b, lo + shift, hi + shift, x)
    decreases hi - lo
  {
    if lo < hi {
      LookSame(a, b, shift, lo + 1, hi, x);
    }
  }

  lemma {:induction false} LookMiss(reqs: seq<Request>, lo: nat, hi: nat, x: nat)
    requires lo <= hi <= |reqs|
    ensures LookIn(reqs, lo, hi, x) == None <==> forall k :: lo <= k < hi ==> !reqs[k].Covers(x)
    decreases hi - lo
  {
    if lo < hi {
      LookMiss(reqs, lo + 1, hi, x);
    }
  }

  lemma LookAlike(a: seq<Request>, b: seq<Request>, x: nat)
    requires SameBytes(a, b)
    ensures Look(a, x) == Look(b, x)
  {
    hide LookIn;
    LookSame(a, b, 0, 0, |a|, x);
  }

  // Around position i.
  lemma LookAt(reqs: seq<Request>, i: nat, x: nat)
    requires i < |reqs|
    ensures Look(reqs, x) == Or(LookIn(reqs, 0, i, x), Or(One(reqs[i], x), LookIn(reqs, i + 1, |reqs|, x)))
  {
    LookSplit(reqs, 0, i, |reqs|, x);
  }

  // In a list without overlaps the one request that covers x shows.
  lemma LookHit(reqs: seq<Request>, k: nat, x: nat)
    requires Apart(reqs) && k < |reqs| && reqs[k].Covers(x)
    ensures Look(reqs, x) == One(reqs[k], x)
  {
    LookAt(reqs, k, x);
    LookMiss(reqs, 0, k, x);
  }

  // ---------------------------------------------------------------- editing the list

  function Insert(reqs: seq<Request>, i: nat, r: Request): (s: seq<Request>)
    requires i <= |reqs|
    ensures |s| == |reqs| + 1 && s[i] == r
    ensures forall k {:trigger s[k]} :: 0 <= k < i ==> s[k] == reqs[k]
    ensures forall k {:trigger s[k]} :: i < k < |s| ==> s[k] == reqs[k - 1]
  {
    reqs[..i] + [r] + reqs[i..]
  }

  function Remove(reqs: seq<Request>, i: nat): (s: seq<Request>)
    requires i < |reqs|
    ensures |s| == |reqs| - 1
    ensures forall k {:trigger s[k]} :: 0 <= k < i ==> s[k] == reqs[k]
    ensures forall k {:trigger s[k]} :: i <= k < |s| ==> s[k] == reqs[k + 1]
  {
    reqs[..i] + reqs[i + 1..]
  }

  lemma InsertLook(reqs: seq<Request>, i: nat, r: Request, x: nat)
    requires i <= |reqs|
    ensures Look(Insert(reqs, i, r), x) == Or(LookIn(reqs, 0, i, x), Or(One(r, x), LookIn(reqs, i, |reqs|, x)))
  {
    hide LookIn, Insert;
    var s := Insert(reqs, i, r);
    LookAt(s, i, x);
    LookSame(s, reqs, 0, 0, i, x);
    LookSame(s, reqs, -1, i + 1, |s|, x);
  }

  lemma RemoveLook(reqs: seq<Request>, i: nat, x: nat)
    requires i < |reqs|
    ensures Look(Remove(reqs, i), x) == Or(LookIn(reqs, 0, i, x), LookIn(reqs, i + 1, |reqs|, x))
  {
    hide LookIn, Remove;
    var s := Remove(reqs, i);
    LookSplit(s, 0, i, |s|, x);
    LookSame(s, reqs, 0, 0, i, x);
    LookSame(s, reqs, 1, i, |s|, x);
  }

  lemma ReplaceLook(reqs: seq<Request>, i: nat, r: Request, x: nat)
    requires i < |reqs|
    ensures Look(reqs[i := r], x) == Or(LookIn(reqs, 0, i, x), Or(One(r, x), LookIn(reqs, i + 1, |reqs|, x)))
  {
    hide LookIn;
    var s := reqs[i := r];
    LookAt(s, i, x);
    LookSame(s, reqs, 0, 0, i, x);
    LookSame(s, reqs, 0, i + 1, |s|, x);
  }

  // ---------------------------------------------------------------- updating a request

  // How many of `n` bytes for offset `off` the request's cache block has room for.
  function Room(r: Request, off: nat, n: nat, cap: nat): nat
    requires r.offset <= off <= r.offset + cap
  {
    Min(r.offset + cap - off, n)
  }

  // Overwrite and extend a request with new bytes.
  function Fill(r: Request, off: nat, bytes: seq<byte>, cap: nat): Request
    requires r.offset <= off <= r.End() && |r.data| <= cap
  {
    r.(data := WriteAt(r.data, off - r.offset, bytes[..Room(r, off, |bytes|, cap)]))
  }

  lemma FillOne(r: Request, off: nat, bytes: seq<byte>, cap: nat)
    requires r.offset <= off <= r.End() && |r.data| <= cap
    ensures var f, n := Fill(r, off, bytes, cap), Room(r, off, |bytes|, cap);
            && f.offset == r.offset && f.state == r.state && f.End() == Max(r.End(), off + n) && |f.data| <= cap
            && forall x: nat {:trigger One(f, x)} :: One(f, x) == if off <= x < off + n then Some(bytes[x - off])
                else One(r, x)
  {
    var f, n := Fill(r, off, bytes, cap), Room(r, off, |bytes|, cap);
    forall x: nat
      ensures One(f, x) == if off <= x < off + n then Some(bytes[x - off]) else One(r, x)
    {
    }
  }

  // Partly filled requests up to an offset count as full.
  function Promote(reqs: seq<Request>, off: nat): (s: seq<Request>)
    ensures |s| == |reqs|
    ensures forall k {:trigger s[k]} :: 0 <= k < |s| ==> s[k] == Promoted(reqs[k], off)
  {
    seq(|reqs|, k requires 0 <= k < |reqs| => Promoted(reqs[k], off))
  }

  function Promoted(r: Request, off: nat): Request
  {
    if r.state == Partial && r.offset <= off then r.(state := Dp) else r
  }

  // The list after request i took in as many bytes as it has room for.  Filling up a partly
  // filled request promotes it and everything partly filled before it.
  function Updated(reqs: seq<Request>, i: nat, off: nat, bytes: seq<byte>, cap: nat): (s: seq<Request>)
    requires i < |reqs| && reqs[i].offset <= off <= reqs[i].End() && |reqs[i].data| <= cap
    ensures SameBytes(s, reqs[i := Fill(reqs[i], off, bytes, cap)])
  {
    var f := Fill(reqs[i], off, bytes, cap);
    var s := reqs[i := f];
    if f.state == Partial && |f.data| == cap then Promote(s, off) else s
  }

  // ---------------------------------------------------------------- merging two requests

  // Drop the first k bytes of a request; what was full then is not any more.
  function Behead(r: Request, k: nat): Request
    requires k <= |r.data|
  {
    Request(r.offset + k, r.data[k..], if r.state == Dp then Partial else r.state)
  }

  // How many bytes request `src` passes on to `dest`, which ends at or after its start: as
  // many as there is room for, if both are bound for the same partition.
  function PassOn(dest: Request, src: Request, cap: nat): nat
    requires src.offset <= dest.End()
  {
    var overlap := dest.End() - src.offset;
    if dest.state != src.state && (dest.state == Ip || src.state == Ip) then 0
    else if |dest.data| < cap && |src.data| > overlap then Min(cap - |dest.data|, |src.data| - overlap)
    else 0
  }

  // Merge request i into request p, whose bytes win where the two overlap.
  function Merged(reqs: seq<Request>, p: nat, i: nat, cap: nat): seq<Request>
    requires p < i < |reqs| && |reqs[p].data| <= cap
  {
    var dest, src := reqs[p], reqs[i];
    if src.offset > dest.End() then reqs
    else
      var overlap, n := dest.End() - src.offset, PassOn(dest, src, cap);
      var s := if n > 0 then Updated(reqs, p, dest.End(), src.data[overlap..], cap) else reqs;
      if overlap + n == 0 then s
      else if overlap + n < |src.data| then s[i := Behead(s[i], overlap + n)]
      else Remove(s, i)
  }

  // The two requests afterwards.
  function NewDest(dest: Request, src: Request, cap: nat): Request
    requires |dest.data| <= cap
  {
    if src.offset > dest.End() || PassOn(dest, src, cap) == 0 then dest
    else Fill(dest, dest.End(), src.data[dest.End() - src.offset..], cap)
  }

  // How much of `src` is gone.
  function Cut(dest: Request, src: Request, cap: nat): nat
  {
    if src.offset > dest.End() then 0 else dest.End() - src.offset + PassOn(dest, src, cap)
  }

  lemma MergedShape(reqs: seq<Request>, p: nat, i: nat, cap: nat)
    requires p < i < |reqs| && |reqs[p].data| <= cap
    ensures var d, k := NewDest(reqs[p], reqs[i], cap), Cut(reqs[p], reqs[i], cap);
            if k < |reqs[i].data| then SameBytes(Merged(reqs, p, i, cap), reqs[p := d][i := Behead(reqs[i], k)])
            else |reqs[i].data| > 0 ==> SameBytes(Merged(reqs, p, i, cap), Remove(reqs[p := d], i))
  {
    hide Fill, Updated, Behead, Remove;
    var dest, src := reqs[p], reqs[i];
    if src.offset > dest.End() {
      BeheadNone(src);
    } else {
      var overlap, n := dest.End() - src.offset, PassOn(dest, src, cap);
      var d := NewDest(dest, src, cap);
      if n > 0 {
        assert SameBytes(Updated(reqs, p, dest.End(), src.data[overlap..], cap), reqs[p := d]);
        MergedSource(Updated(reqs, p, dest.End(), src.data[overlap..], cap), reqs[p := d], i, overlap + n);
      } else {
        MergedSource(reqs, reqs[p := d], i, overlap + n);
      }
    }
  }

  lemma BeheadNone(r: Request)
    ensures Alike(Behead(r, 0), r)
  {
  }

  lemma MergedSource(s: seq<Request>, t: seq<Request>, i: nat, k: nat)
    requires SameBytes(s, t) && i < |s|
    ensures k < |t[i].data| ==> SameBytes(s[i := Behead(s[i], k)], t[i := Behead(t[i], k)])
    ensures k == 0 < |t[i].data| ==> SameBytes(s, t[i := Behead(t[i], k)])
    ensures SameBytes(Remove(s, i), Remove(t, i))
  {
    BeheadNone(t[i]);
    assert Alike(s[i], t[i]);
  }

  // Request i is merged into the one before it, if there is one.
  function MergedBack(reqs: seq<Request>, i: nat, cap: nat): (s: seq<Request>)
    requires i < |reqs|
    ensures |reqs| - 1 <= |s| <= |reqs|
  {
    if i > 0 && |reqs[i - 1].data| <= cap then Merged(reqs, i - 1, i, cap) else reqs
  }

  // What a pass over requests in some states leaves of the list of a file that is bound for the index
  // partition: from request i on, each of those is written out and stays for the index partition, and
  // each that waits for that is merged into the one before it.
  function PassRun(reqs: seq<Request>, i: nat, states: set<State>, cap: nat): seq<Request>
    decreases |reqs| - i
  {
    if i >= |reqs| then reqs
    else if reqs[i].state != Ip && reqs[i].state !in states then PassRun(reqs, i + 1, states, cap)
    else
      var s := MergedBack(reqs[i := reqs[i].(state := Ip)], i, cap);
      PassRun(s, if |s| < |reqs| then i else i + 1, states, cap)
  }

  lemma PassEnd(reqs: seq<Request>, states: set<State>, cap: nat)
    ensures PassRun(reqs, |reqs|, states, cap) == reqs
  {
  }

  lemma PassNext(reqs: seq<Request>, i: nat, states: set<State>, cap: nat, s: seq<Request>, next: nat)
    requires i < |reqs| && (reqs[i].state == Ip || reqs[i].state in states)
    requires s == MergedBack(reqs[i := reqs[i].(state := Ip)], i, cap)
    requires next == if |s| < |reqs| then i else i + 1
    ensures PassRun(reqs, i, states, cap) == PassRun(s, next, states, cap)
  {
    hide MergedBack;
  }

  lemma PassSkip(reqs: seq<Request>, i: nat, states: set<State>, cap: nat)
    requires i < |reqs| && reqs[i].state != Ip && reqs[i].state !in states
    ensures PassRun(reqs, i, states, cap) == PassRun(reqs, i + 1, states, cap)
  {
    hide MergedBack;
  }

  // What a merge does to the two requests.
  lemma MergePair(dest: Request, src: Request, cap: nat)
    requires 0 < |dest.data| <= cap && 0 < |src.data| <= cap && dest.offset <= src.offset
    ensures var d, k := NewDest(dest, src, cap), Cut(dest, src, cap);
            && d.offset == dest.offset && d.state == dest.state && dest.End() <= d.End() <= Max(dest.End(), src.End())
                && |d.data| <= cap
            && (src.offset <= dest.End() && k < |src.data| ==> src.offset + k == d.End())
            && (k >= |src.data| ==> src.End() <= d.End() && src.offset <= dest.End())
            && (d.End() > dest.End() ==>
                (dest.state == Ip <==> src.state == Ip) && |dest.data| < cap && src.offset <= dest.End() < src.End())
    ensures var d, k := NewDest(dest, src, cap), Cut(dest, src, cap);
            forall x: nat {:trigger One(d, x)} ::
              Or(One(d, x), if k < |src.data| then One(Behead(src, k), x) else None) == Or(One(dest, x), One(src, x))
  {
    var d, k := NewDest(dest, src, cap), Cut(dest, src, cap);
    if src.offset <= dest.End() && PassOn(dest, src, cap) > 0 {
      FillOne(dest, dest.End(), src.data[dest.End() - src.offset..], cap);
    }
    forall x: nat
      ensures Or(One(d, x), if k < |src.data| then One(Behead(src, k), x) else None) == Or(One(dest, x), One(src, x))
    {
      assert k == 0 ==> src.data[0..] == src.data;
    }
  }

  // Two requests for the same partition that touch are merged as far as there is room; nothing passes
  // between requests for different partitions.  What is left of a full one counts as partly filled.
  lemma MergeFills(dest: Request, src: Request, cap: nat)
    requires 0 < |dest.data| <= cap && 0 < |src.data| && src.offset <= dest.End()
    ensures var d, k := NewDest(dest, src, cap), Cut(dest, src, cap);
            if dest.state == Ip <==> src.state == Ip then |d.data| == cap || k >= |src.data|
            else d == dest && k == dest.End() - src.offset
    ensures var k := Cut(dest, src, cap);
            0 < k < |src.data| ==> Behead(src, k).state == if src.state == Ip then Ip else Partial
  {
    if PassOn(dest, src, cap) > 0 {
      FillOne(dest, dest.End(), src.data[dest.End() - src.offset..], cap);
    }
  }

  // ---------------------------------------------------------------- partly filled requests

  // No request outgrows its cache block, and none that counts as partly filled is full.
  ghost predicate Short(reqs: seq<Request>, cap: nat)
  {
    forall k {:trigger reqs[k]} :: 0 <= k < |reqs| ==>
        |reqs[k].data| <= cap && (reqs[k].state == Partial ==> |reqs[k].data| < cap)
  }

  // Filling a partly filled request up promotes it, and every partly filled one up to it; nothing else
  // changes state.
  lemma UpdatedShort(reqs: seq<Request>, i: nat, off: nat, bytes: seq<byte>, cap: nat)
    requires i < |reqs| && Short(reqs, cap) && reqs[i].offset <= off <= reqs[i].End()
    ensures var u := Updated(reqs, i, off, bytes, cap);
            && Short(u, cap) && |u| == |reqs| && (reqs[i].state == Partial && |u[i].data| == cap ==>
                 u[i].state == Dp && forall k :: 0 <= k < |u| && u[k].state == Partial ==> off < u[k].offset)
            && u[i].data == Fill(reqs[i], off, bytes, cap).data
            && (reqs[i].state != Partial || |u[i].data| < cap ==> u[i].state == reqs[i].state)
            && forall k {:trigger u[k]} :: 0 <= k < |u| && k != i ==>
                 if reqs[i].state == Partial && |u[i].data| == cap && reqs[k].state == Partial && reqs[k].offset <= off
                 then u[k] == reqs[k].(state := Dp) else u[k] == reqs[k]
  {
    FillOne(reqs[i], off, bytes, cap);
    hide Fill;
  }

  lemma MergedShort(reqs: seq<Request>, p: nat, i: nat, cap: nat)
    requires p < i < |reqs| && Short(reqs, cap)
    ensures Short(Merged(reqs, p, i, cap), cap)
  {
    hide Updated, Fill;
    var dest, src := reqs[p], reqs[i];
    if src.offset <= dest.End() && PassOn(dest, src, cap) > 0 {
      UpdatedShort(reqs, p, dest.End(), src.data[dest.End() - src.offset..], cap);
    }
  }

  lemma MergedBackShort(reqs: seq<Request>, i: nat, cap: nat)
    requires i < |reqs| && Short(reqs, cap)
    ensures Short(MergedBack(reqs, i, cap), cap)
  {
    hide Merged;
    if i > 0 {
      MergedShort(reqs, i - 1, i, cap);
    }
  }

  // Merging neighbours does not show.
  lemma MergeLook(reqs: seq<Request>, i: nat, cap: nat, x: nat)
    requires Sized(reqs, cap) && 0 < i < |reqs| && reqs[i - 1].offset <= reqs[i].offset
    ensures Look(Merged(reqs, i - 1, i, cap), x) == Look(reqs, x)
  {
    hide LookIn, Merged, NewDest, Cut, Look;
    var dest, src := reqs[i - 1], reqs[i];
    var d, k := NewDest(dest, src, cap), Cut(dest, src, cap);
    MergedShape(reqs, i - 1, i, cap);
    MergePair(dest, src, cap);
    PairLook(reqs, i, x);
    if k < |src.data| {
      var s := reqs[i - 1 := d][i := Behead(src, k)];
      LookAlike(Merged(reqs, i - 1, i, cap), s, x);
      PairLook(s, i, x);
      LookSame(s, reqs, 0, 0, i - 1, x);
      LookSame(s, reqs, 0, i + 1, |s|, x);
      assert One(s[i - 1], x) == One(d, x);
    } else {
      var s := Remove(reqs[i - 1 := d], i);
      LookAlike(Merged(reqs, i - 1, i, cap), s, x);
      LookAt(s, i - 1, x);
      LookSame(s, reqs, 0, 0, i - 1, x);
      LookSame(s, reqs, 1, i, |s|, x);
      assert One(s[i - 1], x) == One(d, x);
    }
  }

  lemma PairLook(reqs: seq<Request>, i: nat, x: nat)
    requires 0 < i < |reqs|
    ensures Look(reqs, x) == Or(LookIn(reqs, 0, i - 1, x),
            Or(Or(One(reqs[i - 1], x), One(reqs[i], x)), LookIn(reqs, i + 1, |reqs|, x)))
  {
    LookAt(reqs, i - 1, x);
    LookSplit(reqs, i, i + 1, |reqs|, x);
  }

  // ---------------------------------------------------------------- counting

  function Count(reqs: seq<Request>, n: nat, s: State): nat
    requires n <= |reqs|
  {
    if n == 0 then 0 else Count(reqs, n - 1, s) + if reqs[n - 1].state == s then 1 else 0
  }

  function Tally(reqs: seq<Request>): Counters
  {
    Counters(Count(reqs, |reqs|, Partial), Count(reqs, |reqs|, Dp), Count(reqs, |reqs|, Ip))
  }

  // Counters that do not count requests in some states, while those are being written out.
  function Masked(t: Counters, paused: set<State>): Counters
  {
    Counters(if Partial in paused then 0 else t.partial, if Dp in paused then 0 else t.dp, if Ip in paused then 0
        else t.ip)
  }

  lemma {:induction false} CountSame(a: seq<Request>, b: seq<Request>, n: nat, s: State)
    requires n <= |a| && n <= |b| && forall k {:trigger a[k]} :: 0 <= k < n ==> a[k].state == b[k].state
    ensures Count(a, n, s) == Count(b, n, s)
  {
    if n > 0 {
      CountSame(a, b, n - 1, s);
    }
  }

  lemma {:induction false} CountReplace(reqs: seq<Request>, i: nat, r: Request, n: nat, s: State)
    requires i < n <= |reqs|
    ensures Count(reqs[i := r], n, s) + (if reqs[i].state == s then 1 else 0) ==
            Count(reqs, n, s) + (if r.state == s then 1 else 0)
  {
    if i == n - 1 {
      CountSame(reqs[i := r], reqs, i, s);
    } else {
      CountReplace(reqs, i, r, n - 1, s);
    }
  }

  lemma {:induction false} CountInsert(reqs: seq<Request>, i: nat, r: Request, n: nat, s: State)
    requires i <= n <= |reqs|
    ensures Count(Insert(reqs, i, r), n + 1, s) == Count(reqs, n, s) + (if r.state == s then 1 else 0)
    decreases n
  {
    hide Insert;
    if i == n {
      CountSame(Insert(reqs, i, r), reqs, n, s);
    } else {
      CountInsert(reqs, i, r, n - 1, s);
    }
  }

  lemma {:induction false} CountRemove(reqs: seq<Request>, i: nat, n: nat, s: State)
    requires i < n <= |reqs|
    ensures Count(Remove(reqs, i), n - 1, s) + (if reqs[i].state == s then 1 else 0) == Count(reqs, n, s)
    decreases n
  {
    hide Remove;
    if i == n - 1 {
      CountSame(Remove(reqs, i), reqs, n - 1, s);
    } else {
      CountRemove(reqs, i, n - 1, s);
    }
  }

  lemma TallyReplace(reqs: seq<Request>, i: nat, r: Request)
    requires i < |reqs|
    ensures Tally(reqs).Of(reqs[i].state) > 0
    ensures r.state == reqs[i].state ==> Tally(reqs[i := r]) == Tally(reqs)
    ensures var t := Tally(reqs).With(reqs[i].state, Tally(reqs).Of(reqs[i].state) - 1);
            Tally(reqs[i := r]) == t.With(r.state, t.Of(r.state) + 1)
  {
    CountReplace(reqs, i, r, |reqs|, Partial);
    CountReplace(reqs, i, r, |reqs|, Dp);
    CountReplace(reqs, i, r, |reqs|, Ip);
    CountRemove(reqs, i, |reqs|, Partial);
    CountRemove(reqs, i, |reqs|, Dp);
    CountRemove(reqs, i, |reqs|, Ip);
  }

  lemma TallyInsert(reqs: seq<Request>, i: nat, r: Request)
    requires i <= |reqs|
    ensures Tally(Insert(reqs, i, r)) == Tally(reqs).With(r.state, Tally(reqs).Of(r.state) + 1)
  {
    CountInsert(reqs, i, r, |reqs|, Partial);
    CountInsert(reqs, i, r, |reqs|, Dp);
    CountInsert(reqs, i, r, |reqs|, Ip);
  }

  lemma TallyRemove(reqs: seq<Request>, i: nat)
    requires i < |reqs|
    ensures Tally(reqs).Of(reqs[i].state) > 0
    ensures Tally(Remove(reqs, i)) == Tally(reqs).With(reqs[i].state, Tally(reqs).Of(reqs[i].state) - 1)
  {
    CountRemove(reqs, i, |reqs|, Partial);
    CountRemove(reqs, i, |reqs|, Dp);
    CountRemove(reqs, i, |reqs|, Ip);
  }

  lemma {:induction false} CountZero(reqs: seq<Request>, n: nat, s: State)
    requires n <= |reqs|
    ensures Count(reqs, n, s) == 0 <==> forall k {:trigger reqs[k]} :: 0 <= k < n ==> reqs[k].state != s
  {
    if n > 0 {
      CountZero(reqs, n - 1, s);
    }
  }
}
