// The alternate extent list of a file: where its bytes lie on the index partition.
//
// The list is kept until the file is closed.  To avoid allocating memory, an extent that
// would have to be split stays whole, and the new one goes behind it; so entries may overlap.
module AltList {
  import opened Medium
  import opened Extents

  // Tape addresses of an extent.
  function Start(e: Extent, bs: nat): nat
  {
    e.block * bs + e.byteoffset
  }

  function Stop(e: Extent, bs: nat): nat
  {
    Start(e, bs) + e.bytecount
  }

  // What was written on the index partition: its end, in blocks, and the byte addresses that
  // hold file data.
  datatype Ground = Ground(eod: nat, used: iset<int>)

  ghost predicate More(g: Ground, g': Ground)
  {
    g.eod <= g'.eod && g.used <= g'.used
  }

  ghost predicate EntryOk(e: Extent, bs: nat, g: Ground)
  {
    && e.part == IP && 0 < e.bytecount && e.byteoffset < bs && Stop(e, bs) <= g.eod * bs
    && forall a: int {:trigger a in g.used} :: Start(e, bs) <= a < Stop(e, bs) ==> a in g.used
  }

  // e may stand in front of f: it starts no later in the file and, where the two overlap,
  // was written earlier.
  predicate Before(e: Extent, f: Extent, bs: nat)
  {
    e.fileoffset <= f.fileoffset && (f.fileoffset < e.End() ==> Stop(e, bs) <= Start(f, bs))
  }

  ghost predicate AltOk(alt: seq<Extent>, bs: nat, g: Ground)
  {
    && (forall k {:trigger alt[k]} :: 0 <= k < |alt| ==> EntryOk(alt[k], bs, g))
    && (forall i, j {:trigger alt[i], alt[j]} :: 0 <= i < j < |alt| ==> Before(alt[i], alt[j], bs))
  }

  // What an entry becomes when `ext` is laid over it.
  function Keep(e: Extent, ext: Extent, bs: nat): seq<Extent>
    requires 0 < bs
  {
    if e.End() <= ext.fileoffset then [e]
    else if e.fileoffset < ext.fileoffset then
      if ext.fileoffset < e.End() <= ext.End() then [TrimBack(e, ext.fileoffset)] else [e]
    else if e.End() <= ext.End() then []
    else if e.fileoffset < ext.End() then [TrimFront(e, ext.End(), bs)]
    else [e]
  }

  function KeptIn(alt: seq<Extent>, lo: nat, hi: nat, ext: Extent, bs: nat): seq<Extent>
    requires 0 < bs && lo <= hi <= |alt|
    decreases hi - lo
  {
    if lo == hi then [] else KeptIn(alt, lo, hi - 1, ext, bs) + Keep(alt[hi - 1], ext, bs)
  }

  // ---------------------------------------------------------------- what the pieces show

  lemma KeepFind(e: Extent, ext: Extent, x: nat, bs: nat)
    requires 0 < bs && 0 < e.bytecount
    ensures !ext.Covers(x) ==> Find(Keep(e, ext, bs), x, bs) == Piece(e, x, bs)
    ensures ext.Covers(x) && ext.fileoffset <= e.fileoffset ==> Find(Keep(e, ext, bs), x, bs) == Hole
  {
    if ext.fileoffset <= e.fileoffset < ext.End() < e.End() {
      TrimFrontKeeps(e, ext.End(), bs, x);
      FindOne(TrimFront(e, ext.End(), bs), x, bs);
    } else if e.fileoffset < ext.fileoffset < e.End() <= ext.End() {
      FindOne(TrimBack(e, ext.fileoffset), x, bs);
    } else {
      FindOne(e, x, bs);
    }
  }

  lemma {:induction false} KeptFind(alt: seq<Extent>, lo: nat, hi: nat, ext: Extent, x: nat, bs: nat)
    requires 0 < bs && lo <= hi <= |alt| && forall k :: lo <= k < hi ==> alt[k].bytecount > 0
    ensures !ext.Covers(x) ==> Find(KeptIn(alt, lo, hi, ext, bs), x, bs) == FindIn(alt, lo, hi, x, bs)
    ensures ext.Covers(x) && (forall k :: lo <= k < hi ==> ext.fileoffset <= alt[k].fileoffset) ==>
              Find(KeptIn(alt, lo, hi, ext, bs), x, bs) == Hole
    decreases hi - lo
  {
    if lo < hi {
      KeptFind(alt, lo, hi - 1, ext, x, bs);
      KeepFind(alt[hi - 1], ext, x, bs);
      FindConcat(KeptIn(alt, lo, hi - 1, ext, bs), Keep(alt[hi - 1], ext, bs), x, bs);
    }
  }

  // ---------------------------------------------------------------- order and age

  lemma KeepOk(e: Extent, ext: Extent, bs: nat, g: Ground)
    requires 0 < bs && EntryOk(e, bs, g)
    ensures var r := Keep(e, ext, bs);
            |r| <= 1 && (r != [] ==> EntryOk(r[0], bs, g) && e.fileoffset <= r[0].fileoffset && r[0].End() <= e.End()
                                     && Start(e, bs) <= Start(r[0], bs) && Stop(r[0], bs) <= Stop(e, bs))
    ensures var r := Keep(e, ext, bs);
            r != [] && ext.fileoffset <= e.fileoffset && 0 < ext.bytecount ==>
                r[0].fileoffset == if e.fileoffset < ext.End() then ext.End() else e.fileoffset
    ensures e.fileoffset < ext.fileoffset ==> |Keep(e, ext, bs)| == 1 && Keep(e, ext, bs)[0].fileoffset == e.fileoffset
  {
    if ext.fileoffset <= e.fileoffset < ext.End() < e.End() {
      TrimFrontKeeps(e, ext.End(), bs, ext.End());
    }
  }

  lemma KeepBefore(e: Extent, f: Extent, ext: Extent, bs: nat, g: Ground)
    requires 0 < bs && 0 < ext.bytecount && EntryOk(e, bs, g) && EntryOk(f, bs, g) && Before(e, f, bs)
    requires Keep(e, ext, bs) != [] && Keep(f, ext, bs) != []
    ensures Before(Keep(e, ext, bs)[0], Keep(f, ext, bs)[0], bs)
  {
    KeepOk(e, ext, bs, g);
    KeepOk(f, ext, bs, g);
    hide Keep, Start, Stop, EntryOk;
  }

  ghost predicate AllBefore(a: seq<Extent>, f: Extent, bs: nat)
  {
    forall k {:trigger a[k]} :: 0 <= k < |a| ==> Before(a[k], f, bs)
  }

  lemma {:induction false} KeptBefore(alt: seq<Extent>, lo: nat, hi: nat, f: Extent, ext: Extent, bs: nat, g: Ground)
    requires 0 < bs && 0 < ext.bytecount && lo <= hi <= |alt| && EntryOk(f, bs, g) && Keep(f, ext, bs) != []
    requires forall k {:trigger alt[k]} :: lo <= k < hi ==> EntryOk(alt[k], bs, g) && Before(alt[k], f, bs)
    ensures AllBefore(KeptIn(alt, lo, hi, ext, bs), Keep(f, ext, bs)[0], bs)
    decreases hi - lo
  {
    if lo < hi {
      KeptBefore(alt, lo, hi - 1, f, ext, bs, g);
      KeepOk(alt[hi - 1], ext, bs, g);
      if Keep(alt[hi - 1], ext, bs) != [] {
        KeepBefore(alt[hi - 1], f, ext, bs, g);
      }
    }
  }

  lemma {:induction false} KeptOk(alt: seq<Extent>, lo: nat, hi: nat, ext: Extent, bs: nat, g: Ground)
    requires 0 < bs && 0 < ext.bytecount && lo <= hi <= |alt| && AltOk(alt, bs, g)
    ensures AltOk(KeptIn(alt, lo, hi, ext, bs), bs, g)
    decreases hi - lo
  {
    if lo < hi {
      KeptOk(alt, lo, hi - 1, ext, bs, g);
      KeepOk(alt[hi - 1], ext, bs, g);
      if Keep(alt[hi - 1], ext, bs) != [] {
        KeptBefore(alt, lo, hi - 1, alt[hi - 1], ext, bs, g);
      }
    }
  }

  // ---------------------------------------------------------------- the list afterwards

  lemma {:induction false} KeptSplit(alt: seq<Extent>, lo: nat, mid: nat, hi: nat, ext: Extent, bs: nat)
    requires 0 < bs && lo <= mid <= hi <= |alt|
    ensures KeptIn(alt, lo, hi, ext, bs) == KeptIn(alt, lo, mid, ext, bs) + KeptIn(alt, mid, hi, ext, bs)
    decreases hi - mid
  {
    if mid < hi {
      KeptSplit(alt, lo, mid, hi - 1, ext, bs);
    }
  }

  ghost predicate Behind(r: seq<Extent>, p: nat)
  {
    forall k {:trigger r[k]} :: 0 <= k < |r| ==> p <= r[k].fileoffset
  }

  // Entries at or behind the start of `ext` end up behind its end.
  lemma {:induction false} KeptBehind(alt: seq<Extent>, lo: nat, hi: nat, ext: Extent, bs: nat, g: Ground)
    requires 0 < bs && 0 < ext.bytecount && lo <= hi <= |alt| && AltOk(alt, bs, g)
    requires forall k {:trigger alt[k]} :: lo <= k < hi ==> ext.fileoffset <= alt[k].fileoffset
    ensures Behind(KeptIn(alt, lo, hi, ext, bs), ext.End())
    decreases hi - lo
  {
    if lo < hi {
      KeptBehind(alt, lo, hi - 1, ext, bs, g);
      KeepOk(alt[hi - 1], ext, bs, g);
      var a, b := KeptIn(alt, lo, hi - 1, ext, bs), Keep(alt[hi - 1], ext, bs);
      assert KeptIn(alt, lo, hi, ext, bs) == a + b;
      assert b != [] ==> |b| == 1 && ext.End() <= b[0].fileoffset;
      BehindConcat(a, b, ext);
    }
  }

  lemma BehindConcat(a: seq<Extent>, b: seq<Extent>, ext: Extent)
    requires Behind(a, ext.End()) && (b != [] ==> |b| == 1 && ext.End() <= b[0].fileoffset)
    ensures Behind(a + b, ext.End())
  {
  }

  // The entries in front of it were all written before.
  lemma {:induction false} KeptOlder(alt: seq<Extent>, hi: nat, ext: Extent, bs: nat, g: Ground)
    requires 0 < bs && 0 < ext.bytecount && hi <= |alt| && AltOk(alt, bs, g) && g.eod * bs <= Start(ext, bs)
    requires forall k {:trigger alt[k]} :: 0 <= k < hi ==> alt[k].fileoffset < ext.fileoffset
    ensures AllBefore(KeptIn(alt, 0, hi, ext, bs), ext, bs)
    decreases hi
  {
    if 0 < hi {
      KeptOlder(alt, hi - 1, ext, bs, g);
      KeepOk(alt[hi - 1], ext, bs, g);
      var a, b := KeptIn(alt, 0, hi - 1, ext, bs), Keep(alt[hi - 1], ext, bs);
      assert Stop(alt[hi - 1], bs) <= g.eod * bs && KeptIn(alt, 0, hi, ext, bs) == a + b;
      hide KeptIn, Keep, EntryOk, Start, Stop, AltOk;
      assert forall k :: 0 <= k < |a + b| ==> (a + b)[k] == if k < |a| then a[k] else b[k - |a|];
    }
  }

  // The list with the new extent inserted in front of entry p, or joined to entry p.
  function Laid(alt: seq<Extent>, p: nat, joined: bool, hi: nat, ext: Extent, bs: nat): seq<Extent>
    requires 0 < bs && p <= hi <= |alt| && (joined ==> p < hi)
  {
    if joined then KeptIn(alt, 0, p, ext, bs) + [Joined(alt[p], ext)] + KeptIn(alt, p + 1, hi, ext, bs)
    else KeptIn(alt, 0, p, ext, bs) + [ext] + KeptIn(alt, p, hi, ext, bs)
  }

  // Everything in front of p starts before the new extent, everything behind at or after.
  ghost predicate Place(alt: seq<Extent>, p: nat, joined: bool, ext: Extent, bs: nat)
    requires 0 < bs
  {
    && p <= |alt|
    && (joined ==> p < |alt| && Continues(alt[p], ext, bs))
    && (forall k {:trigger alt[k]} :: 0 <= k < p ==> alt[k].fileoffset < ext.fileoffset)
    && (forall k {:trigger alt[k]} :: (if joined then p + 1 else p) <= k < |alt| ==>
        ext.fileoffset <= alt[k].fileoffset)
  }

  // A new extent on blocks never written before.
  ghost predicate Newest(ext: Extent, bs: nat, g: Ground, g': Ground)
  {
    More(g, g') && EntryOk(ext, bs, g') && g.eod * bs <= Start(ext, bs)
  }

  lemma LaidFind(alt: seq<Extent>, p: nat, joined: bool, ext: Extent, bs: nat, g: Ground)
    requires 0 < bs && 0 < ext.bytecount && AltOk(alt, bs, g) && Place(alt, p, joined, ext, bs)
    ensures Overlaid(alt, ext, Laid(alt, p, joined, |alt|, ext, bs), bs)
  {
    hide FindIn, KeptIn, Find;
    var r := Laid(alt, p, joined, |alt|, ext, bs);
    forall x: nat
      ensures Find(r, x, bs) == if ext.Covers(x) then At(ext.part, ext.Addr(x, bs)) else Find(alt, x, bs)
    {
      if joined {
        LaidFindJoined(alt, p, ext, x, bs, g);
      } else {
        LaidFindInserted(alt, p, ext, x, bs, g);
      }
    }
  }

  lemma LaidFindInserted(alt: seq<Extent>, p: nat, ext: Extent, x: nat, bs: nat, g: Ground)
    requires 0 < bs && 0 < ext.bytecount && AltOk(alt, bs, g) && Place(alt, p, false, ext, bs)
    ensures Find(Laid(alt, p, false, |alt|, ext, bs), x, bs) == if ext.Covers(x) then At(ext.part, ext.Addr(x, bs))
            else Find(alt, x, bs)
  {
    hide FindIn, KeptIn;
    var front, back := KeptIn(alt, 0, p, ext, bs), KeptIn(alt, p, |alt|, ext, bs);
    FindConcat(front + [ext], back, x, bs);
    FindConcat(front, [ext], x, bs);
    FindOne(ext, x, bs);
    KeptFind(alt, 0, p, ext, x, bs);
    KeptFind(alt, p, |alt|, ext, x, bs);
    FindInSplit(alt, 0, p, |alt|, x, bs);
  }

  lemma LaidFindJoined(alt: seq<Extent>, p: nat, ext: Extent, x: nat, bs: nat, g: Ground)
    requires 0 < bs && 0 < ext.bytecount && AltOk(alt, bs, g) && Place(alt, p, true, ext, bs)
    ensures Find(Laid(alt, p, true, |alt|, ext, bs), x, bs) == if ext.Covers(x) then At(ext.part, ext.Addr(x, bs))
            else Find(alt, x, bs)
  {
    hide FindIn, KeptIn;
    var front, back := KeptIn(alt, 0, p, ext, bs), KeptIn(alt, p + 1, |alt|, ext, bs);
    var j := Joined(alt[p], ext);
    FindConcat(front + [j], back, x, bs);
    FindConcat(front, [j], x, bs);
    FindOne(j, x, bs);
    JoinedPiece(alt[p], ext, x, bs);
    KeptFind(alt, 0, p, ext, x, bs);
    KeptFind(alt, p + 1, |alt|, ext, x, bs);
    FindInSplit(alt, 0, p, |alt|, x, bs);
    FindFirst(alt, p, |alt|, x, bs);
  }

  lemma FindFirst(alt: seq<Extent>, p: nat, hi: nat, x: nat, bs: nat)
    requires p < hi <= |alt|
    ensures FindIn(alt, p, hi, x, bs) == if FindIn(alt, p + 1, hi, x, bs) != Hole then FindIn(alt, p + 1, hi, x, bs)
            else Piece(alt[p], x, bs)
  {
    FindInSplit(alt, p, p + 1, hi, x, bs);
    assert FindIn(alt, p, p, x, bs) == Hole;
  }

  lemma JoinedOk(e: Extent, ext: Extent, bs: nat, g: Ground, g': Ground)
    requires 0 < bs && EntryOk(e, bs, g) && Continues(e, ext, bs) && Newest(ext, bs, g, g')
    ensures EntryOk(Joined(e, ext), bs, g') && Stop(e, bs) == Start(ext, bs)
            && Start(Joined(e, ext), bs) == Start(e, bs)
  {
    var m := e.byteoffset + e.bytecount;
    assert (m / bs) * bs + m % bs == m;
    assert (e.block + m / bs) * bs == e.block * bs + (m / bs) * bs;
  }

  ghost predicate Cross(a: seq<Extent>, b: seq<Extent>, bs: nat)
  {
    forall i, j {:trigger a[i], b[j]} :: 0 <= i < |a| && 0 <= j < |b| ==> Before(a[i], b[j], bs)
  }

  lemma CrossParts(a: seq<Extent>, mid: seq<Extent>, b: seq<Extent>, bs: nat, g: Ground)
    requires AltOk(a + mid + b, bs, g)
    ensures Cross(a, b, bs)
  {
    var s := a + mid + b;
    forall i, j | 0 <= i < |a| && 0 <= j < |b|
      ensures Before(a[i], b[j], bs)
    {
      assert a[i] == s[i] && b[j] == s[|a| + |mid| + j];
    }
  }

  lemma FrontBack(front: seq<Extent>, m: Extent, back: seq<Extent>, bs: nat, g: Ground)
    requires AltOk(front, bs, g) && AltOk(back, bs, g) && EntryOk(m, bs, g) && Cross(front, back, bs)
             && AllBefore(front, m, bs)
    requires Behind(back, m.End())
    ensures AltOk(front + [m] + back, bs, g)
  {
    hide EntryOk, Start, Stop;
    var s := front + [m] + back;
    forall i, j | 0 <= i < j < |s|
      ensures Before(s[i], s[j], bs)
    {
      if j < |front| {
        assert s[i] == front[i] && s[j] == front[j];
      } else if i < |front| && j > |front| {
        assert s[i] == front[i] && s[j] == back[j - |front| - 1];
      } else if i > |front| {
        assert s[i] == back[i - |front| - 1] && s[j] == back[j - |front| - 1];
      } else if i == |front| {
        assert s[j] == back[j - |front| - 1];
      } else {
        assert s[i] == front[i];
      }
    }
  }

  lemma LaidOk(alt: seq<Extent>, p: nat, joined: bool, ext: Extent, bs: nat, g: Ground, g': Ground)
    requires 0 < bs && AltOk(alt, bs, g) && Place(alt, p, joined, ext, bs) && Newest(ext, bs, g, g')
    ensures AltOk(Laid(alt, p, joined, |alt|, ext, bs), bs, g')
  {
    MoreRoom(alt, bs, g, g');
    if joined {
      LaidOkJoined(alt, p, ext, bs, g, g');
    } else {
      LaidOkInserted(alt, p, ext, bs, g, g');
    }
  }

  lemma LaidOkInserted(alt: seq<Extent>, p: nat, ext: Extent, bs: nat, g: Ground, g': Ground)
    requires 0 < bs && AltOk(alt, bs, g) && AltOk(alt, bs, g') && Place(alt, p, false, ext, bs)
             && Newest(ext, bs, g, g')
    ensures AltOk(Laid(alt, p, false, |alt|, ext, bs), bs, g')
  {
    var front, back := KeptIn(alt, 0, p, ext, bs), KeptIn(alt, p, |alt|, ext, bs);
    KeptOlder(alt, p, ext, bs, g);
    KeptBehind(alt, p, |alt|, ext, bs, g);
    hide AltOk, KeptIn, EntryOk;
    KeptOk(alt, 0, p, ext, bs, g');
    KeptOk(alt, p, |alt|, ext, bs, g');
    KeptOk(alt, 0, |alt|, ext, bs, g');
    KeptSplit(alt, 0, p, |alt|, ext, bs);
    assert front + [] + back == front + back;
    CrossParts(front, [], back, bs, g');
    FrontBack(front, ext, back, bs, g');
  }

  lemma LaidOkJoined(alt: seq<Extent>, p: nat, ext: Extent, bs: nat, g: Ground, g': Ground)
    requires 0 < bs && AltOk(alt, bs, g) && AltOk(alt, bs, g') && Place(alt, p, true, ext, bs) && Newest(ext, bs, g, g')
    ensures AltOk(Laid(alt, p, true, |alt|, ext, bs), bs, g')
  {
    var front, back := KeptIn(alt, 0, p, ext, bs), KeptIn(alt, p + 1, |alt|, ext, bs);
    var j := Joined(alt[p], ext);
    JoinedOk(alt[p], ext, bs, g, g');
    KeptBehind(alt, p + 1, |alt|, ext, bs, g);
    KeptBefore(alt, 0, p, alt[p], ext, bs, g);
    assert AllBefore(front, j, bs);
    hide AltOk, KeptIn, EntryOk;
    KeptOk(alt, 0, p, ext, bs, g');
    KeptOk(alt, p + 1, |alt|, ext, bs, g');
    KeptOk(alt, 0, |alt|, ext, bs, g');
    KeptSplit(alt, 0, p + 1, |alt|, ext, bs);
    KeptSplit(alt, 0, p, p + 1, ext, bs);
    CrossParts(front, KeptIn(alt, p, p + 1, ext, bs), back, bs, g');
    FrontBack(front, j, back, bs, g');
  }

  lemma MoreRoom(alt: seq<Extent>, bs: nat, g: Ground, g': Ground)
    requires AltOk(alt, bs, g) && More(g, g')
    ensures AltOk(alt, bs, g')
  {
    assert g.eod * bs <= g'.eod * bs;
  }

  // An entry that the new extent continues is the newest one, so nothing behind it overlaps it.
  lemma JoinPlace(alt: seq<Extent>, p: nat, ext: Extent, bs: nat, g: Ground, g': Ground)
    requires 0 < bs && AltOk(alt, bs, g) && p < |alt| && Continues(alt[p], ext, bs) && Newest(ext, bs, g, g')
    ensures Place(alt, p, true, ext, bs)
  {
    JoinedOk(alt[p], ext, bs, g, g');
    forall k | p < k < |alt|
      ensures ext.fileoffset <= alt[k].fileoffset
    {
      assert Before(alt[p], alt[k], bs) && EntryOk(alt[k], bs, g);
    }
    forall k | 0 <= k < p
      ensures alt[k].fileoffset < ext.fileoffset
    {
      assert Before(alt[k], alt[p], bs);
    }
  }

  lemma InsertPlace(alt: seq<Extent>, p: nat, ext: Extent, bs: nat, g: Ground)
    requires 0 < bs && AltOk(alt, bs, g) && p <= |alt| && (p < |alt| ==> ext.fileoffset <= alt[p].fileoffset)
    requires forall k {:trigger alt[k]} :: 0 <= k < p ==> alt[k].fileoffset < ext.fileoffset
    ensures Place(alt, p, false, ext, bs)
  {
    forall k | p <= k < |alt|
      ensures ext.fileoffset <= alt[k].fileoffset
    {
      assert p < k ==> Before(alt[p], alt[k], bs);
    }
  }

  // Entries behind the end of `ext` stay as they are.
  lemma {:induction false} KeptRest(alt: seq<Extent>, lo: nat, hi: nat, ext: Extent, bs: nat)
    requires 0 < bs && lo <= hi <= |alt| && 0 < ext.bytecount
    requires forall k {:trigger alt[k]} :: lo <= k < hi ==> ext.End() <= alt[k].fileoffset && 0 < alt[k].bytecount
    ensures KeptIn(alt, lo, hi, ext, bs) == alt[lo..hi]
    decreases hi - lo
  {
    if lo < hi {
      KeptRest(alt, lo, hi - 1, ext, bs);
      assert alt[lo..hi] == alt[lo..hi - 1] + [alt[hi - 1]];
    }
  }

  lemma LaidStart(alt: seq<Extent>, i: nat, ext: Extent, bs: nat)
    requires 0 < bs && i <= |alt|
    ensures Laid(alt, i, false, i, ext, bs) == KeptIn(alt, 0, i, ext, bs) + [ext]
    ensures i < |alt| ==> Laid(alt, i, true, i + 1, ext, bs) == KeptIn(alt, 0, i, ext, bs) + [Joined(alt[i], ext)]
  {
  }

  lemma LaidStep(alt: seq<Extent>, p: nat, joined: bool, i: nat, ext: Extent, bs: nat)
    requires 0 < bs && p <= i < |alt| && (joined ==> p < i)
    ensures Laid(alt, p, joined, i + 1, ext, bs) == Laid(alt, p, joined, i, ext, bs) + Keep(alt[i], ext, bs)
  {
    hide Keep;
  }

  lemma LaidRest(alt: seq<Extent>, p: nat, joined: bool, i: nat, ext: Extent, bs: nat, g: Ground)
    requires 0 < bs && AltOk(alt, bs, g) && p <= i <= |alt| && (joined ==> p < i) && 0 < ext.bytecount
    requires i < |alt| ==> ext.End() <= alt[i].fileoffset
    ensures Laid(alt, p, joined, |alt|, ext, bs) == Laid(alt, p, joined, i, ext, bs) + alt[i..]
  {
    var lo := if joined then p + 1 else p;
    RestBehind(alt, i, ext, bs, g);
    hide KeptIn, AltOk;
    KeptRest(alt, i, |alt|, ext, bs);
    KeptSplit(alt, lo, i, |alt|, ext, bs);
    assert alt[i..|alt|] == alt[i..];
    var front := KeptIn(alt, 0, p, ext, bs) + [if joined then Joined(alt[p], ext) else ext];
    AppendAssoc(front, KeptIn(alt, lo, i, ext, bs), alt[i..]);
  }

  lemma RestBehind(alt: seq<Extent>, i: nat, ext: Extent, bs: nat, g: Ground)
    requires AltOk(alt, bs, g) && i <= |alt| && (i < |alt| ==> ext.End() <= alt[i].fileoffset)
    ensures forall k {:trigger alt[k]} :: i <= k < |alt| ==> ext.End() <= alt[k].fileoffset && 0 < alt[k].bytecount
  {
    forall k | i <= k < |alt|
      ensures ext.End() <= alt[k].fileoffset && 0 < alt[k].bytecount
    {
      assert EntryOk(alt[k], bs, g) && (i < k ==> Before(alt[i], alt[k], bs));
    }
  }

  lemma EntryFacts(alt: seq<Extent>, i: nat, bs: nat, g: Ground)
    requires AltOk(alt, bs, g) && i < |alt|
    ensures 0 < alt[i].bytecount && alt[i].fileoffset < alt[i].End()
  {
  }

  lemma PlacedBehind(alt: seq<Extent>, p: nat, joined: bool, i: nat, ext: Extent, bs: nat)
    requires 0 < bs && Place(alt, p, joined, ext, bs) && p <= i < |alt| && (joined ==> p < i)
    ensures ext.fileoffset <= alt[i].fileoffset
  {
  }

  // Add an extent on newly written blocks to the list; g and g' say what the index partition
  // held before and after that.
  method UpdateAltExtentList(alt: seq<Extent>, ext: Extent, bs: nat, ghost g: Ground, ghost g': Ground)
      returns (r: seq<Extent>)
    requires 0 < bs && AltOk(alt, bs, g) && Newest(ext, bs, g, g')
    ensures Overlaid(alt, ext, r, bs) && AltOk(r, bs, g')
  {
    hide AltOk, KeptIn, Place, Laid, Overlaid, Stop, Start, Continues;
    ghost var p, joined := 0, false;
    var used, i := false, 0;
    r := [];
    assert r == KeptIn(alt, 0, 0, ext, bs) by {
      KeptRest(alt, 0, 0, ext, bs);
    }
    while i < |alt|
      invariant i <= |alt|
      invariant !used ==> !joined && r == KeptIn(alt, 0, i, ext, bs) && forall k {:trigger alt[k]} :: 0 <= k < i ==>
                alt[k].fileoffset < ext.fileoffset
      invariant used ==>
                p <= i && (joined ==> p < i) && Place(alt, p, joined, ext, bs) && r == Laid(alt, p, joined, i, ext, bs)
    {
      var e := alt[i];
      EntryFacts(alt, i, bs, g);
      LaidStart(alt, i, ext, bs);
      if !used && ext.fileoffset <= e.fileoffset {
        InsertPlace(alt, i, ext, bs, g);
        p, used, r := i, true, r + [ext];
      }
      if used {
        PlacedBehind(alt, p, joined, i, ext, bs);
        LaidStep(alt, p, joined, i, ext, bs);
      } else {
        KeptStep(alt, i, ext, bs);
      }
      if e.End() < ext.fileoffset {
        r := r + [e];  // the new extent goes farther down the list
      } else if e.End() == ext.fileoffset {
        if Continues(e, ext, bs) {
          JoinPlace(alt, i, ext, bs, g, g');
          p, joined, used, r := i, true, true, r + [Joined(e, ext)];
        } else {
          r := r + [e];
        }
      } else if e.fileoffset < ext.fileoffset {
        if e.End() <= ext.End() {
          r := r + [TrimBack(e, ext.fileoffset)];
        } else {
          r := r + [e];  // splitting it would need memory: the new extent goes behind it
        }
      } else if e.End() <= ext.End() {
        // Covered by the new extent: delete the entry.
        r := r + [];
      } else if e.fileoffset < ext.End() {
        r := r + [TrimFront(e, ext.End(), bs)];
      } else {
        break;
      }
      i := i + 1;
    }
    if used {
      LaidRest(alt, p, joined, i, ext, bs, g);
    } else {
      InsertPlace(alt, |alt|, ext, bs, g);
      LaidStart(alt, |alt|, ext, bs);
      p := |alt|;
    }
    ghost var was := r;
    r := r + alt[i..];
    if !used {
      assert r == was;
      r := r + [ext];
    }
    LaidFind(alt, p, joined, ext, bs, g);
    LaidOk(alt, p, joined, ext, bs, g, g');
  }

  lemma KeptStep(alt: seq<Extent>, i: nat, ext: Extent, bs: nat)
    requires 0 < bs && i < |alt|
    ensures KeptIn(alt, 0, i + 1, ext, bs) == KeptIn(alt, 0, i, ext, bs) + Keep(alt[i], ext, bs)
  {
  }

  // ---------------------------------------------------------------- truncating

  lemma {:induction false} ClipAltBefore(alt: seq<Extent>, n: nat, f: Extent, len: nat, bs: nat)
    requires n <= |alt| && forall k {:trigger alt[k]} :: 0 <= k < n ==> Before(alt[k], f, bs)
    ensures AllBefore(ClipBelow(alt, n, len), f, bs)
  {
    if n > 0 {
      ClipAltBefore(alt, n - 1, f, len, bs);
    }
  }

  lemma {:induction false} ClipAltOk(alt: seq<Extent>, n: nat, len: nat, bs: nat, g: Ground)
    requires n <= |alt| && AltOk(alt, bs, g)
    ensures AltOk(ClipBelow(alt, n, len), bs, g)
  {
    if n > 0 {
      ClipAltOk(alt, n - 1, len, bs, g);
      ClipAltBefore(alt, n - 1, alt[n - 1], len, bs);
      var e := alt[n - 1];
      assert EntryOk(e, bs, g);
      if e.fileoffset < len < e.End() {
        assert EntryOk(TrimBack(e, len), bs, g);
      }
    }
  }

  // Cut every entry at a length.
  method TruncateAltExtentList(alt: seq<Extent>, len: nat, bs: nat, ghost g: Ground) returns (r: seq<Extent>)
    requires AltOk(alt, bs, g)
    ensures AltOk(r, bs, g) && (alt == [] ==> r == [])
    ensures CutOff(alt, r, len, bs)
  {
    hide Find, AltOk;
    r := [];
    for i := 0 to |alt|
      invariant r == ClipBelow(alt, i, len)
    {
      var e := alt[i];
      if e.fileoffset >= len {
        // Past the new end of the file.
      } else if e.End() > len {
        r := r + [TrimBack(e, len)];
      } else {
        r := r + [e];
      }
    }
    ClipAltOk(alt, |alt|, len, bs, g);
    forall x: nat
      ensures Find(r, x, bs) == if x < len then Find(alt, x, bs) else Hole
    {
      CutFind(alt, len, x, bs);
    }
  }
}
