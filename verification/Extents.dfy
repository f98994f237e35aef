// Extent lists: which bytes of a file lie where on the tape.
module Extents {
  import opened Medium

  // `bytecount` bytes of the file from `fileoffset` on lie contiguously on the tape, from
  // byte `byteoffset` of block `block` on.
  datatype Extent = Extent(part: Partition, block: nat, byteoffset: nat, bytecount: nat, fileoffset: nat)
  {
    function End(): nat
    {
      fileoffset + bytecount
    }

    predicate Covers(x: nat)
    {
      fileoffset <= x < End()
    }

    // Distance of byte x of the file from the start of the partition, in bytes.
    function Addr(x: nat, bs: nat): int
    {
      block * bs + byteoffset + x - fileoffset
    }
  }

  // Where a byte of the file is: in a hole, or at a linear address of a partition.
  datatype Loc = Hole | At(part: Partition, addr: int)

  // The location of x according to extents [lo, hi) of a list; later extents win.
  function FindIn(exts: seq<Extent>, lo: nat, hi: nat, x: nat, bs: nat): Loc
    requires lo <= hi <= |exts|
    decreases hi - lo
  {
    if hi == lo then Hole
    else if exts[hi - 1].Covers(x) then At(exts[hi - 1].part, exts[hi - 1].Addr(x, bs))
    else FindIn(exts, lo, hi - 1, x, bs)
  }

  function Find(exts: seq<Extent>, x: nat, bs: nat): Loc
  {
    FindIn(exts, 0, |exts|, x, bs)
  }

  function SumTo(exts: seq<Extent>, n: nat): nat
    requires n <= |exts|
  {
    if n == 0 then 0 else SumTo(exts, n - 1) + exts[n - 1].bytecount
  }

  function Sum(exts: seq<Extent>): nat
  {
    SumTo(exts, |exts|)
  }

  // In file order, disjoint, none empty, each starting within its first block.
  ghost predicate Sorted(exts: seq<Extent>, bs: nat)
  {
    && (forall i :: 0 <= i < |exts| ==> exts[i].bytecount > 0 && exts[i].byteoffset < bs)
    && (forall i, j :: 0 <= i < j < |exts| ==> exts[i].End() <= exts[j].fileoffset)
  }

  // ---------------------------------------------------------------- lookup lemmas

  lemma {:induction false} FindInSame(a: seq<Extent>, b: seq<Extent>, shift: int, lo: nat, hi: nat, x: nat, bs: nat)
    requires lo <= hi <= |a| && 0 <= lo + shift && hi + shift <= |b|
    requires forall k :: lo <= k < hi ==> a[k] == b[k + shift]
    ensures FindIn(a, lo, hi, x, bs) == FindIn(b, lo + shift, hi + shift, x, bs)
    decreases hi - lo
  {
    if lo < hi {
      FindInSame(a, b, shift, lo, hi - 1, x, bs);
    }
  }

  lemma {:induction false} FindInSplit(exts: seq<Extent>, lo: nat, mid: nat, hi: nat, x: nat, bs: nat)
    requires lo <= mid <= hi <= |exts|
    ensures FindIn(exts, lo, hi, x, bs) ==
            if FindIn(exts, mid, hi, x, bs) != Hole then FindIn(exts, mid, hi, x, bs) else FindIn(exts, lo, mid, x, bs)
    decreases hi - mid
  {
    if mid < hi {
      FindInSplit(exts, lo, mid, hi - 1, x, bs);
    }
  }

  lemma FindConcat(a: seq<Extent>, b: seq<Extent>, x: nat, bs: nat)
    ensures Find(a + b, x, bs) == if Find(b, x, bs) != Hole then Find(b, x, bs) else Find(a, x, bs)
  {
    hide FindIn;
    var c := a + b;
    FindInSplit(c, 0, |a|, |c|, x, bs);
    assert forall k :: 0 <= k < |a| ==> a[k] == c[k + 0];
    FindInSame(a, c, 0, 0, |a|, x, bs);
    FindInSame(b, c, |a|, 0, |b|, x, bs);
  }

  lemma {:induction false} FindInMiss(exts: seq<Extent>, lo: nat, hi: nat, x: nat, bs: nat)
    requires lo <= hi <= |exts|
    ensures FindIn(exts, lo, hi, x, bs) == Hole <==> forall k :: lo <= k < hi ==> !exts[k].Covers(x)
    decreases hi - lo
  {
    if lo < hi {
      FindInMiss(exts, lo, hi - 1, x, bs);
    }
  }

  // In a disjoint list the one extent that covers x is found.
  lemma FindHit(exts: seq<Extent>, k: nat, x: nat, bs: nat)
    requires Sorted(exts, bs) && k < |exts| && exts[k].Covers(x)
    ensures Find(exts, x, bs) == At(exts[k].part, exts[k].Addr(x, bs))
  {
    FindInSplit(exts, 0, k + 1, |exts|, x, bs);
    FindInMiss(exts, k + 1, |exts|, x, bs);
  }

  lemma {:induction false} SumSame(a: seq<Extent>, b: seq<Extent>, n: nat)
    requires n <= |a| && n <= |b| && forall k :: 0 <= k < n ==> a[k] == b[k]
    ensures SumTo(a, n) == SumTo(b, n)
  {
    if n > 0 {
      SumSame(a, b, n - 1);
    }
  }

  lemma {:induction false} SumConcat(a: seq<Extent>, b: seq<Extent>)
    ensures Sum(a + b) == Sum(a) + Sum(b)
    decreases |b|
  {
    if b == [] {
      assert a + b == a;
    } else {
      var b' := b[..|b| - 1];
      SumConcat(a, b');
      SumSame(a + b, a + b', |a + b'|);
      SumSame(b, b', |b'|);
    }
  }

  // ---------------------------------------------------------------- clipping

  // The part of an extent at or above p, by the block arithmetic of the source.
  function TrimFront(e: Extent, p: nat, bs: nat): Extent
    requires 0 < bs && e.fileoffset <= p < e.End()
  {
    var diff := p - e.fileoffset;
    var m := diff + e.byteoffset;
    Extent(e.part, e.block + m / bs, m % bs, e.bytecount - diff, p)
  }

  function TrimBack(e: Extent, p: nat): Extent
    requires e.fileoffset < p <= e.End()
  {
    e.(bytecount := p - e.fileoffset)
  }

  lemma TrimFrontKeeps(e: Extent, p: nat, bs: nat, x: nat)
    requires 0 < bs && e.fileoffset <= p < e.End()
    ensures var t := TrimFront(e, p, bs);
            && t.End() == e.End() && t.bytecount > 0 && t.byteoffset < bs
            && t.Addr(x, bs) == e.Addr(x, bs)
  {
    var m := p - e.fileoffset + e.byteoffset;
    assert (e.block + m / bs) * bs == e.block * bs + (m / bs) * bs;
    assert (m / bs) * bs + m % bs == m;
  }

  // What is left of extents [i, n) at or above p.
  function ClipAbove(exts: seq<Extent>, i: nat, p: nat, bs: nat): seq<Extent>
    requires 0 < bs && i <= |exts|
    decreases |exts| - i
  {
    if i == |exts| then []
    else if exts[i].End() <= p then ClipAbove(exts, i + 1, p, bs)
    else if p <= exts[i].fileoffset then [exts[i]] + ClipAbove(exts, i + 1, p, bs)
    else [TrimFront(exts[i], p, bs)] + ClipAbove(exts, i + 1, p, bs)
  }

  // Bytes below `len` lie where they lay, the others nowhere.
  ghost predicate CutOff(was: seq<Extent>, now: seq<Extent>, len: nat, bs: nat)
  {
    forall x: nat {:trigger Find(now, x, bs)} :: Find(now, x, bs) == if x < len then Find(was, x, bs) else Hole
  }

  // What is left of extents [0, n) below p.
  function ClipBelow(exts: seq<Extent>, n: nat, p: nat): seq<Extent>
    requires n <= |exts|
  {
    if n == 0 then []
    else if p <= exts[n - 1].fileoffset then ClipBelow(exts, n - 1, p)
    else if exts[n - 1].End() <= p then ClipBelow(exts, n - 1, p) + [exts[n - 1]]
    else ClipBelow(exts, n - 1, p) + [TrimBack(exts[n - 1], p)]
  }

  function Piece(e: Extent, x: nat, bs: nat): Loc
  {
    if e.Covers(x) then At(e.part, e.Addr(x, bs)) else Hole
  }

  lemma FindOne(e: Extent, x: nat, bs: nat)
    ensures Find([e], x, bs) == Piece(e, x, bs)
  {
    assert FindIn([e], 0, 0, x, bs) == Hole;
  }

  lemma {:induction false} FindAbove(exts: seq<Extent>, i: nat, p: nat, x: nat, bs: nat)
    requires 0 < bs && i <= |exts|
    ensures Find(ClipAbove(exts, i, p, bs), x, bs) == if x < p then Hole else FindIn(exts, i, |exts|, x, bs)
    decreases |exts| - i
  {
    if i < |exts| {
      FindAbove(exts, i + 1, p, x, bs);
      FindInSplit(exts, i, i + 1, |exts|, x, bs);
      assert FindIn(exts, i, i, x, bs) == Hole;
      var e := exts[i];
      if p < e.End() {
        var t := if p <= e.fileoffset then e else TrimFront(e, p, bs);
        if e.fileoffset < p {
          TrimFrontKeeps(e, p, bs, x);
        }
        FindConcat([t], ClipAbove(exts, i + 1, p, bs), x, bs);
        FindOne(t, x, bs);
      }
    }
  }

  lemma {:induction false} FindBelow(exts: seq<Extent>, n: nat, p: nat, x: nat, bs: nat)
    requires n <= |exts|
    ensures Find(ClipBelow(exts, n, p), x, bs) == if x < p then FindIn(exts, 0, n, x, bs) else Hole
  {
    if n > 0 {
      FindBelow(exts, n - 1, p, x, bs);
      var e := exts[n - 1];
      if e.fileoffset < p {
        var t := if e.End() <= p then e else TrimBack(e, p);
        FindConcat(ClipBelow(exts, n - 1, p), [t], x, bs);
        FindOne(t, x, bs);
      }
    }
  }

  lemma SortedCons(e: Extent, r: seq<Extent>, bs: nat)
    requires Sorted(r, bs) && e.bytecount > 0 && e.byteoffset < bs
    requires forall k :: 0 <= k < |r| ==> e.End() <= r[k].fileoffset
    ensures Sorted([e] + r, bs)
  {
    var s := [e] + r;
    assert forall k :: 0 < k < |s| ==> s[k] == r[k - 1];
  }

  lemma {:induction false} ClipAboveSorted(exts: seq<Extent>, i: nat, p: nat, bs: nat)
    requires 0 < bs && i <= |exts| && Sorted(exts, bs)
    ensures var r := ClipAbove(exts, i, p, bs);
            Sorted(r, bs) && forall k :: 0 <= k < |r| ==>
                (p <= r[k].fileoffset && exts[i].fileoffset <= r[k].fileoffset)
    decreases |exts| - i
  {
    if i < |exts| {
      ClipAboveSorted(exts, i + 1, p, bs);
      var rest := ClipAbove(exts, i + 1, p, bs);
      assert forall k :: 0 <= k < |rest| ==> exts[i].End() <= exts[i + 1].fileoffset <= rest[k].fileoffset;
      if p <= exts[i].fileoffset {
        SortedCons(exts[i], rest, bs);
      } else if p < exts[i].End() {
        TrimFrontKeeps(exts[i], p, bs, p);
        SortedCons(TrimFront(exts[i], p, bs), rest, bs);
      }
    }
  }

  lemma {:induction false} ClipBelowSorted(exts: seq<Extent>, n: nat, p: nat, bs: nat)
    requires n <= |exts| && Sorted(exts, bs)
    ensures var r := ClipBelow(exts, n, p);
            Sorted(r, bs) && forall k :: 0 <= k < |r| ==> (r[k].End() <= p && r[k].End() <= exts[n - 1].End())
  {
    if n > 0 {
      ClipBelowSorted(exts, n - 1, p, bs);
    }
  }

  // Extents that start at or above p leave nothing below it; those that end by p stay whole.
  lemma {:induction false} ClipBelowSkip(exts: seq<Extent>, i: nat, n: nat, p: nat)
    requires i <= n <= |exts| && forall k :: i <= k < n ==> p <= exts[k].fileoffset
    ensures ClipBelow(exts, n, p) == ClipBelow(exts, i, p)
    decreases n
  {
    if i < n {
      ClipBelowSkip(exts, i, n - 1, p);
    }
  }

  lemma {:induction false} ClipBelowWhole(exts: seq<Extent>, n: nat, p: nat, bs: nat)
    requires n <= |exts| && Sorted(exts, bs) && (n > 0 ==> exts[n - 1].End() <= p)
    ensures ClipBelow(exts, n, p) == exts[..n]
  {
    if n > 0 {
      ClipBelowWhole(exts, n - 1, p, bs);
      assert exts[..n] == exts[..n - 1] + [exts[n - 1]];
    }
  }

  // ---------------------------------------------------------------- inserting an extent

  // The list maps the bytes of `ext` to it and every other byte as before.
  ghost predicate Overlaid(exts: seq<Extent>, ext: Extent, r: seq<Extent>, bs: nat)
  {
    forall x: nat {:trigger Find(r, x, bs)} :: Find(r, x, bs) == if ext.Covers(x) then At(ext.part, ext.Addr(x, bs))
        else Find(exts, x, bs)
  }

  function Spliced(exts: seq<Extent>, ext: Extent, bs: nat): seq<Extent>
    requires 0 < bs
  {
    ClipBelow(exts, |exts|, ext.fileoffset) + [ext] + ClipAbove(exts, 0, ext.End(), bs)
  }

  lemma SplicedFind(exts: seq<Extent>, ext: Extent, bs: nat)
    requires 0 < bs
    ensures Overlaid(exts, ext, Spliced(exts, ext, bs), bs)
  {
    var below, above := ClipBelow(exts, |exts|, ext.fileoffset), ClipAbove(exts, 0, ext.End(), bs);
    forall x: nat
      ensures Find(Spliced(exts, ext, bs), x, bs) == if ext.Covers(x) then At(ext.part, ext.Addr(x, bs))
              else Find(exts, x, bs)
    {
      FindConcat(below + [ext], above, x, bs);
      FindConcat(below, [ext], x, bs);
      FindOne(ext, x, bs);
      FindAbove(exts, 0, ext.End(), x, bs);
      FindBelow(exts, |exts|, ext.fileoffset, x, bs);
    }
  }

  lemma SplicedSorted(exts: seq<Extent>, ext: Extent, bs: nat)
    requires Sorted(exts, bs) && ext.bytecount > 0 && ext.byteoffset < bs
    ensures Sorted(Spliced(exts, ext, bs), bs)
  {
    ClipBelowSorted(exts, |exts|, ext.fileoffset, bs);
    ClipAboveSorted(exts, 0, ext.End(), bs);
  }

  // `ext` continues where `e` ends, on the file and on the tape.
  predicate Continues(e: Extent, ext: Extent, bs: nat)
    requires 0 < bs
  {
    && ext.fileoffset == e.End() && e.part == ext.part
    && (e.byteoffset + e.bytecount) % bs == 0
    && e.block + (e.byteoffset + e.bytecount) / bs == ext.block
    && ext.byteoffset == 0
  }

  function Joined(e: Extent, ext: Extent): Extent
  {
    e.(bytecount := e.bytecount + ext.bytecount)
  }

  lemma JoinedPiece(e: Extent, ext: Extent, x: nat, bs: nat)
    requires 0 < bs && Continues(e, ext, bs)
    ensures Piece(Joined(e, ext), x, bs) == if ext.Covers(x) then Piece(ext, x, bs) else Piece(e, x, bs)
  {
    var m := e.byteoffset + e.bytecount;
    assert (m / bs) * bs + m % bs == m;
    assert (e.block + m / bs) * bs == e.block * bs + (m / bs) * bs;
  }

  // Joining instead of inserting makes no difference to any byte.
  lemma JoinedSame(left: seq<Extent>, e: Extent, ext: Extent, right: seq<Extent>, bs: nat)
    requires 0 < bs && Continues(e, ext, bs)
    ensures forall x: nat :: Find(left + [Joined(e, ext)] + right, x, bs) == Find(left + [e] + [ext] + right, x, bs)
    ensures Sorted(left + [e] + [ext] + right, bs) ==> Sorted(left + [Joined(e, ext)] + right, bs)
  {
    forall x: nat
      ensures Find(left + [Joined(e, ext)] + right, x, bs) == Find(left + [e] + [ext] + right, x, bs)
    {
      FindConcat(left + [Joined(e, ext)], right, x, bs);
      FindConcat(left, [Joined(e, ext)], x, bs);
      FindConcat(left + [e] + [ext], right, x, bs);
      FindConcat(left + [e], [ext], x, bs);
      FindConcat(left, [e], x, bs);
      FindOne(e, x, bs);
      FindOne(ext, x, bs);
      FindOne(Joined(e, ext), x, bs);
      JoinedPiece(e, ext, x, bs);
    }
    var s, t := left + [e] + [ext] + right, left + [Joined(e, ext)] + right;
    if Sorted(s, bs) {
      assert forall k :: 0 <= k < |left| ==> t[k] == s[k];
      assert forall k :: |left| < k < |t| ==> t[k] == s[k + 1];
      assert s[|left|] == e && s[|left| + 1] == ext;
    }
  }

  lemma {:induction false} ClipAboveSkip(exts: seq<Extent>, i: nat, p: nat, bs: nat)
    requires 0 < bs && i <= |exts| && forall k :: 0 <= k < i ==> exts[k].End() <= p
    ensures ClipAbove(exts, 0, p, bs) == ClipAbove(exts, i, p, bs)
  {
    if i > 0 {
      ClipAboveSkip(exts, i - 1, p, bs);
    }
  }

  // Where the reverse loop stops: entry i starts below `ext`, all later ones at or above.
  // What an entry that starts below `ext` keeps in front of it.
  function FrontOf(e: Extent, ext: Extent): (f: Extent)
    requires e.fileoffset < ext.fileoffset
    ensures f.fileoffset == e.fileoffset && f.End() <= ext.fileoffset
  {
    if e.End() <= ext.fileoffset then e else TrimBack(e, ext.fileoffset)
  }

  lemma SplicedAt(exts: seq<Extent>, ext: Extent, i: nat, bs: nat)
    requires 0 < bs && Sorted(exts, bs) && i < |exts| && exts[i].fileoffset < ext.fileoffset
    requires forall k :: i < k < |exts| ==> ext.fileoffset <= exts[k].fileoffset
    ensures Spliced(exts, ext, bs) == exts[..i] + [FrontOf(exts[i], ext)] + [ext] + ClipAbove(exts, i, ext.End(), bs)
  {
    ClipBelowSkip(exts, i + 1, |exts|, ext.fileoffset);
    ClipBelowWhole(exts, i, ext.fileoffset, bs);
    ClipAboveSkip(exts, i, ext.End(), bs);
  }

  lemma SplicedAtHead(exts: seq<Extent>, ext: Extent, bs: nat)
    requires 0 < bs && forall k :: 0 <= k < |exts| ==> ext.fileoffset <= exts[k].fileoffset
    ensures Spliced(exts, ext, bs) == [ext] + ClipAbove(exts, 0, ext.End(), bs)
  {
    ClipBelowSkip(exts, 0, |exts|, ext.fileoffset);
  }

  lemma SumParts(a: seq<Extent>, b: seq<Extent>, c: seq<Extent>)
    ensures Sum(a + b + c) == Sum(a) + Sum(b) + Sum(c)
  {
    SumConcat(a + b, c);
    SumConcat(a, b);
  }

  lemma SumSmall(e: Extent, f: Extent)
    ensures Sum([]) == 0 && Sum([e]) == e.bytecount && Sum([e] + [f]) == e.bytecount + f.bytecount
  {
    assert SumTo([e], 0) == 0 && SumTo([e] + [f], 1) == SumTo([e] + [f], 0) + e.bytecount;
  }

  // What one entry becomes when `ext` is laid over it: the part below, the part above.
  function Remains(e: Extent, ext: Extent, bs: nat): (seq<Extent>, seq<Extent>)
    requires 0 < bs
  {
    (if ext.fileoffset <= e.fileoffset then []
     else if e.End() <= ext.fileoffset then [e]
     else [TrimBack(e, ext.fileoffset)],
     if e.End() <= ext.End() then []
     else if ext.End() <= e.fileoffset then [e]
     else [TrimFront(e, ext.End(), bs)])
  }

  function Leftover(e: Extent, ext: Extent, bs: nat): seq<Extent>
    requires 0 < bs
  {
    if e.End() <= ext.fileoffset || ext.End() <= e.fileoffset then [e]
        else Remains(e, ext, bs).0 + Remains(e, ext, bs).1
  }

  function CutAt(exts: seq<Extent>, i: nat, ext: Extent, bs: nat): seq<Extent>
    requires 0 < bs && i < |exts|
  {
    exts[..i] + Leftover(exts[i], ext, bs) + exts[i + 1..]
  }

  // Update one entry of the list by truncating, deleting or splitting it; `cut` is the
  // number of bytes it loses.  A split needs a new list element, which may not be had.
  method CutEntry(exts: seq<Extent>, i: nat, ext: Extent, bs: nat, splitOk: bool)
      returns (ok: bool, r: seq<Extent>, gone: bool, cut: nat)
    requires 0 < bs && i < |exts| && ext.bytecount > 0 && exts[i].bytecount > 0
    ensures !ok ==> !splitOk && exts[i].fileoffset < ext.fileoffset && ext.End() < exts[i].End()
    ensures ok ==>
              && r == CutAt(exts, i, ext, bs)
              && (gone <==> ext.fileoffset <= exts[i].fileoffset && exts[i].End() <= ext.End())
              && (!gone ==> i < |r| && r[i].fileoffset >= exts[i].fileoffset && r[i].bytecount > 0)
              && Sum(r) + cut == Sum(exts)
  {
    var e := exts[i];
    ok, r, gone, cut := true, exts, false, 0;
    assert exts == exts[..i] + [e] + exts[i + 1..];
    SumParts(exts[..i], [e], exts[i + 1..]);
    SumSmall(e, e);
    if ext.fileoffset <= e.fileoffset < ext.End() {
      if e.End() <= ext.End() {
        r, gone, cut := exts[..i] + exts[i + 1..], true, e.bytecount;
        SumConcat(exts[..i], exts[i + 1..]);
        assert r == exts[..i] + ([] + []) + exts[i + 1..];
      } else {
        var t := TrimFront(e, ext.End(), bs);
        r, cut := exts[..i] + [t] + exts[i + 1..], ext.End() - e.fileoffset;
        SumParts(exts[..i], [t], exts[i + 1..]);
        SumSmall(t, t);
        assert [] + [t] == [t];
      }
    } else if e.fileoffset < ext.fileoffset < e.End() {
      var t := TrimBack(e, ext.fileoffset);
      if e.End() <= ext.End() {
        r, cut := exts[..i] + [t] + exts[i + 1..], e.End() - ext.fileoffset;
        SumParts(exts[..i], [t], exts[i + 1..]);
        SumSmall(t, t);
        assert [t] + [] == [t];
      } else {
        if !splitOk {
          ok := false;
          return;
        }
        var u := TrimFront(e, ext.End(), bs);
        r, cut := exts[..i] + ([t] + [u]) + exts[i + 1..], ext.bytecount;
        SumParts(exts[..i], [t] + [u], exts[i + 1..]);
        SumSmall(t, u);
      }
    }
  }

  lemma {:induction false} ClipAboveWhole(exts: seq<Extent>, i: nat, p: nat, bs: nat)
    requires 0 < bs && i <= |exts| && forall k :: i <= k < |exts| ==> p <= exts[k].fileoffset && exts[k].bytecount > 0
    ensures ClipAbove(exts, i, p, bs) == exts[i..]
    decreases |exts| - i
  {
    if i < |exts| {
      ClipAboveWhole(exts, i + 1, p, bs);
      assert exts[i..] == [exts[i]] + exts[i + 1..];
    }
  }

  // The list while the reverse loop stands in front of entry i.
  function Swept(exts: seq<Extent>, i: nat, ext: Extent, bs: nat): (r: seq<Extent>)
    requires 0 < bs && i <= |exts|
    ensures |r| >= i && r[..i] == exts[..i] && r[i..] == ClipAbove(exts, i, ext.End(), bs)
  {
    exts[..i] + ClipAbove(exts, i, ext.End(), bs)
  }

  lemma ClipAboveStep(exts: seq<Extent>, i: nat, ext: Extent, bs: nat)
    requires 0 < bs && i < |exts| && ext.fileoffset <= exts[i].fileoffset && ext.bytecount > 0 && exts[i].bytecount > 0
    ensures ClipAbove(exts, i, ext.End(), bs) == Leftover(exts[i], ext, bs) + ClipAbove(exts, i + 1, ext.End(), bs)
  {
    assert Remains(exts[i], ext, bs).0 + Remains(exts[i], ext, bs).1 == Remains(exts[i], ext, bs).1;
    assert [] + ClipAbove(exts, i + 1, ext.End(), bs) == ClipAbove(exts, i + 1, ext.End(), bs);
  }

  lemma AppendAssoc(a: seq<Extent>, b: seq<Extent>, c: seq<Extent>)
    ensures a + b + c == a + (b + c)
  {
  }

  // What the loop does to one entry keeps that shape, or stops it with the spliced list.
  lemma SweepOn(exts: seq<Extent>, i: nat, ext: Extent, bs: nat)
    requires 0 < bs && i < |exts| && ext.fileoffset <= exts[i].fileoffset && ext.bytecount > 0 && exts[i].bytecount > 0
    ensures CutAt(Swept(exts, i + 1, ext, bs), i, ext, bs) == Swept(exts, i, ext, bs)
  {
    ClipAboveStep(exts, i, ext, bs);
    hide ClipAbove, Leftover, Swept;
    var r := Swept(exts, i + 1, ext, bs);
    assert r[..i] == r[..i + 1][..i] == exts[..i] && r[i] == r[..i + 1][i] == exts[i];
    AppendAssoc(exts[..i], Leftover(exts[i], ext, bs), r[i + 1..]);
    assert Swept(exts, i, ext, bs) == Swept(exts, i, ext, bs)[..i] + Swept(exts, i, ext, bs)[i..];
  }

  // What is left of an entry that starts below `ext`: its front, and its end if that reaches further.
  lemma StopClip(exts: seq<Extent>, i: nat, ext: Extent, bs: nat)
    requires 0 < bs && i < |exts| && exts[i].fileoffset < ext.fileoffset && ext.bytecount > 0
    ensures Leftover(exts[i], ext, bs) + ClipAbove(exts, i + 1, ext.End(), bs) ==
            [FrontOf(exts[i], ext)] + ClipAbove(exts, i, ext.End(), bs)
  {
    var e, rest := FrontOf(exts[i], ext), ClipAbove(exts, i + 1, ext.End(), bs);
    var tail := if ext.End() < exts[i].End() then [TrimFront(exts[i], ext.End(), bs)] else [];
    assert Leftover(exts[i], ext, bs) == [e] + tail;
    assert ClipAbove(exts, i, ext.End(), bs) == tail + rest;
    hide ClipAbove, Leftover;
    AppendAssoc([e], tail, rest);
  }

  lemma AroundOne(left: seq<Extent>, e: Extent, rest: seq<Extent>)
    ensures var r := left + [e] + rest; r[..|left|] == left && r[|left|] == e && r[|left| + 1..] == rest
  {
  }

  // The first entry that starts below `ext` stops the loop.
  lemma SweepStop(exts: seq<Extent>, i: nat, ext: Extent, bs: nat)
    requires Sorted(exts, bs) && i < |exts| && exts[i].fileoffset < ext.fileoffset && ext.bytecount > 0
    requires forall k :: i < k < |exts| ==> ext.fileoffset <= exts[k].fileoffset
    ensures var r := CutAt(Swept(exts, i + 1, ext, bs), i, ext, bs);
            && |r| > i && r[i].End() <= ext.fileoffset
            && r == r[..i] + [r[i]] + r[i + 1..]
            && Spliced(exts, ext, bs) == r[..i] + [r[i]] + [ext] + r[i + 1..]
  {
    SplicedAt(exts, ext, i, bs);
    hide Spliced, Swept, ClipAbove, Leftover, Sorted;
    StopClip(exts, i, ext, bs);
    var s, left, e := Swept(exts, i + 1, ext, bs), exts[..i], FrontOf(exts[i], ext);
    var above, rest := ClipAbove(exts, i, ext.End(), bs), ClipAbove(exts, i + 1, ext.End(), bs);
    assert s[..i] == s[..i + 1][..i] == left && s[i] == s[..i + 1][i] == exts[i];
    AppendAssoc(left, Leftover(exts[i], ext, bs), rest);
    AppendAssoc(left, [e], above);
    assert CutAt(s, i, ext, bs) == left + [e] + above;
    AroundOne(left, e, above);
  }

  // Inserting is the overlay itself; joining looks the same to every byte.
  lemma SplicedDone(exts: seq<Extent>, left: seq<Extent>, e: Extent, ext: Extent, rest: seq<Extent>, bs: nat)
    requires Sorted(exts, bs) && ext.bytecount > 0 && ext.byteoffset < bs
    requires Spliced(exts, ext, bs) == left + [e] + [ext] + rest
    ensures Overlaid(exts, ext, left + [e] + [ext] + rest, bs) && Sorted(left + [e] + [ext] + rest, bs)
    ensures Continues(e, ext, bs) ==>
            Overlaid(exts, ext, left + [Joined(e, ext)] + rest, bs) && Sorted(left + [Joined(e, ext)] + rest, bs)
    ensures Sum(left + [e] + [ext] + rest) == Sum(left + [Joined(e, ext)] + rest) ==
            Sum(left + [e] + rest) + ext.bytecount
  {
    hide Find, Sorted, Spliced, Continues, Sum;
    SplicedFind(exts, ext, bs);
    SplicedSorted(exts, ext, bs);
    if Continues(e, ext, bs) {
      JoinedSame(left, e, ext, rest, bs);
    }
    assert left + [e] + [ext] + rest == left + ([e] + [ext]) + rest;
    SumParts(left, [e] + [ext], rest);
    SumParts(left, [e], rest);
    SumParts(left, [Joined(e, ext)], rest);
    SumSmall(e, ext);
    SumSmall(Joined(e, ext), ext);
  }

  lemma ClipBelowEmpty(exts: seq<Extent>, len: nat)
    ensures ClipBelow(exts, |exts|, len) == ClipBelow(exts, |exts|, len) + exts[|exts|..]
    ensures ClipBelow(exts, 0, len) == []
  {
  }

  lemma ClipBelowStep(exts: seq<Extent>, i: nat, len: nat)
    requires 0 < i <= |exts|
    ensures ClipBelow(exts, i, len) == ClipBelow(exts, i - 1, len) +
            if len <= exts[i - 1].fileoffset then [] else if exts[i - 1].End() <= len then [exts[i - 1]]
                else [TrimBack(exts[i - 1], len)]
  {
  }

  lemma CutFind(exts: seq<Extent>, len: nat, x: nat, bs: nat)
    ensures Find(ClipBelow(exts, |exts|, len), x, bs) == if x < len then Find(exts, x, bs) else Hole
  {
    FindBelow(exts, |exts|, len, x, bs);
  }

  // Lay a new extent over a file's extent list, from the last entry backwards: entries it
  // covers are deleted, trimmed or split, and it joins the entry it continues, if any.
  // `size` is the file's real size.  Failing to split leaves everything as it was.
  method InsertExtent(exts: seq<Extent>, size: nat, ext: Extent, bs: nat, splitOk: bool)
      returns (ok: bool, r: seq<Extent>, size': nat)
    requires Sorted(exts, bs) && size == Sum(exts) && ext.bytecount > 0 && ext.byteoffset < bs
    ensures ok ==> Overlaid(exts, ext, r, bs) && Sorted(r, bs) && size' == Sum(r)
    ensures !ok ==> r == exts && size' == size && !splitOk
    ensures !ok ==> exists k :: 0 <= k < |exts| && exts[k].fileoffset < ext.fileoffset && ext.End() < exts[k].End()
  {
    hide Spliced, Overlaid, Find, Sum, Continues, ClipAbove, Remains, Leftover, CutAt, Swept;
    ok, r, size' := true, exts, size;
    var i := |exts|;
    ClipAboveWhole(exts, i, ext.End(), bs);
    while i > 0
      invariant 0 <= i <= |exts| && r == Swept(exts, i, ext, bs) && size' == Sum(r)
      invariant forall k :: i <= k < |exts| ==> ext.fileoffset <= exts[k].fileoffset
    {
      i := i - 1;
      var cutOk, r', gone, cut := CutEntry(r, i, ext, bs, splitOk);
      if !cutOk {
        ClipAboveWhole(exts, i + 1, ext.End(), bs);
        assert r == exts;
        ok := false;
        return;
      }
      if ext.fileoffset <= exts[i].fileoffset {
        SweepOn(exts, i, ext, bs);
      } else {
        SweepStop(exts, i, ext, bs);
      }
      r, size' := r', size' - cut;
      if !gone && ext.fileoffset >= r[i].End() {
        var e, left, rest := r[i], r[..i], r[i + 1..];
        assert r == left + [e] + rest;
        SplicedDone(exts, left, e, ext, rest, bs);
        size' := size' + ext.bytecount;
        if Continues(e, ext, bs) {
          r := left + [Joined(e, ext)] + rest;
        } else {
          r := left + [e] + [ext] + rest;
        }
        return;
      }
    }
    assert r == ClipAbove(exts, 0, ext.End(), bs);
    SplicedAtHead(exts, ext, bs);
    SplicedFind(exts, ext, bs);
    SplicedSorted(exts, ext, bs);
    SumConcat([ext], r);
    SumSmall(ext, ext);
    r, size' := [ext] + r, size' + ext.bytecount;
  }

  // Cut the list at a length, from the last entry backwards.
  method CutExtents(exts: seq<Extent>, size: nat, len: nat, bs: nat) returns (r: seq<Extent>, size': nat)
    requires Sorted(exts, bs) && size == Sum(exts)
    ensures Sorted(r, bs) && size' == Sum(r)
    ensures CutOff(exts, r, len, bs)
  {
    hide Find, Sum, ClipBelow;
    r, size' := exts, size;
    var i := |exts|;
    ClipBelowEmpty(exts, len);
    while i > 0
      invariant 0 <= i <= |exts| && |r| >= i && r[..i] == exts[..i] && size' == Sum(r)
      invariant ClipBelow(exts, |exts|, len) == ClipBelow(exts, i, len) + r[i..]
      decreases i
    {
      var e := r[i - 1];
      assert e == r[..i][i - 1] == exts[i - 1];
      assert r == r[..i - 1] + [e] + r[i..];
      SumParts(r[..i - 1], [e], r[i..]);
      SumSmall(e, e);
      ClipBelowStep(exts, i, len);
      if e.fileoffset >= len || len == 0 {
        // This extent is fully past the new end of the file.
        SumConcat(r[..i - 1], r[i..]);
        r, size' := r[..i - 1] + r[i..], size' - e.bytecount;
      } else if e.End() > len {
        var t := TrimBack(e, len);
        SumParts(r[..i - 1], [t], r[i..]);
        SumSmall(t, t);
        r, size' := r[..i - 1] + [t] + r[i..], size' - (e.End() - len);
      } else {
        ClipBelowWhole(exts, i, len, bs);
        assert r == exts[..i] + r[i..];
        break;
      }
      i := i - 1;
    }
    assert r == ClipBelow(exts, |exts|, len);
    ClipBelowSorted(exts, |exts|, len, bs);
    forall x: nat
      ensures Find(r, x, bs) == if x < len then Find(exts, x, bs) else Hole
    {
      CutFind(exts, len, x, bs);
    }
  }
}
