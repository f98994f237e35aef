// A file as the volume stores it: an extent list over the tape, its size and its real size.
module RawFile {
  import opened Medium
  import opened Volume
  import opened Extents
  import opened Flat

  // ---------------------------------------------------------------- bytes on the tape

  // The part of both partitions that no later write cuts off.
  datatype Tape = Tape(ip: seq<Record>, dp: seq<Record>)
  {
    function Recs(p: Partition): seq<Record>
    {
      if p == IP then ip else dp
    }
  }

  function Settled(d: Drive): Tape
    requires d.appendIp <= |d.ip|
  {
    Tape(Stable(d.ip, d.dp, d.appendIp, IP), Stable(d.ip, d.dp, d.appendIp, DP))
  }

  predicate Extends(t: Tape, t': Tape)
  {
    t.ip <= t'.ip && t.dp <= t'.dp
  }

  predicate OnTape(t: Tape, loc: Loc, bs: nat)
    requires 0 < bs
  {
    loc.At? && loc.addr >= 0 &&
    var b := loc.addr / bs;
    b < |t.Recs(loc.part)| && t.Recs(loc.part)[b].Block? && loc.addr % bs < |t.Recs(loc.part)[b].data|
  }

  // The byte at a location; holes read as zero.
  function ByteAt(t: Tape, loc: Loc, bs: nat): byte
    requires 0 < bs
  {
    if OnTape(t, loc, bs) then t.Recs(loc.part)[loc.addr / bs].data[loc.addr % bs] else 0
  }

  lemma ByteKept(t: Tape, t': Tape, loc: Loc, bs: nat)
    requires 0 < bs && Extends(t, t') && OnTape(t, loc, bs)
    ensures OnTape(t', loc, bs) && ByteAt(t', loc, bs) == ByteAt(t, loc, bs)
  {
  }

  lemma DivStep(i: nat, bs: nat)
    requires 0 < bs <= i
    ensures i / bs == (i - bs) / bs + 1 && i % bs == (i - bs) % bs
  {
    var q, r := (i - bs) / bs, (i - bs) % bs;
    assert i == (q + 1) * bs + r;
    DivIs(i, q + 1, r, bs);
  }

  lemma DivIs(i: int, q: int, r: int, bs: nat)
    requires 0 <= r < bs && i == q * bs + r
    ensures i / bs == q && i % bs == r
  {
    assert i == (i / bs) * bs + i % bs;
    MulBound(i / bs - q, bs);
    assert (i / bs - q) * bs == r - i % bs;
  }

  lemma MulBound(d: int, bs: nat)
    ensures d > 0 ==> d * bs >= bs
    ensures d < 0 ==> d * bs <= -(bs as int)
  {
  }

  // Byte i of written data lies in block i / bs, at i % bs.
  lemma {:induction false} ChopAt(data: seq<byte>, bs: nat, i: nat)
    requires 0 < bs && i < |data|
    ensures var recs := Chop(data, bs);
            && i / bs < |recs| && recs[i / bs].Block?
            && i % bs < |recs[i / bs].data| && recs[i / bs].data[i % bs] == data[i]
    decreases |data|
  {
    if i < bs {
      DivIs(i, 0, i, bs);
    } else {
      DivStep(i, bs);
      ChopAt(data[bs..], bs, i - bs);
    }
  }

  // ---------------------------------------------------------------- stored files

  function Stored(t: Tape, exts: seq<Extent>, x: nat, bs: nat): byte
    requires 0 < bs
  {
    ByteAt(t, Find(exts, x, bs), bs)
  }

  // Every mapped byte lies within the file and on the tape.
  ghost predicate Mapped(t: Tape, exts: seq<Extent>, size: nat, bs: nat)
    requires 0 < bs
  {
    forall x: nat {:trigger Find(exts, x, bs)} :: Find(exts, x, bs) != Hole ==>
        x < size && OnTape(t, Find(exts, x, bs), bs)
  }

  function Content(t: Tape, exts: seq<Extent>, size: nat, bs: nat): (c: seq<byte>)
    requires 0 < bs
    ensures |c| == size
    ensures forall x: nat {:trigger c[x]} :: x < size ==> c[x] == Stored(t, exts, x, bs)
  {
    seq(size, x requires 0 <= x => Stored(t, exts, x, bs))
  }

  lemma ContentKept(t: Tape, t': Tape, exts: seq<Extent>, size: nat, bs: nat)
    requires 0 < bs && Mapped(t, exts, size, bs) && Extends(t, t')
    ensures Mapped(t', exts, size, bs) && Content(t', exts, size, bs) == Content(t, exts, size, bs)
  {
    hide Find, OnTape, ByteAt, Extends;
    forall x: nat
      ensures Find(exts, x, bs) != Hole ==> x < size && OnTape(t', Find(exts, x, bs), bs)
      ensures Stored(t', exts, x, bs) == Stored(t, exts, x, bs)
    {
      if Find(exts, x, bs) != Hole {
        ByteKept(t, t', Find(exts, x, bs), bs);
      } else {
        HoleReadsZero(t, bs);
        HoleReadsZero(t', bs);
      }
    }
  }

  lemma HoleReadsZero(t: Tape, bs: nat)
    requires 0 < bs
    ensures ByteAt(t, Hole, bs) == 0
  {
  }

  // The bytes of `ext` on the tape are `data`.
  ghost predicate Carries(t: Tape, ext: Extent, data: seq<byte>, bs: nat)
    requires 0 < bs
  {
    && ext.bytecount == |data|
    && forall x: nat {:trigger ext.Addr(x, bs)} :: ext.Covers(x) ==>
         OnTape(t, At(ext.part, ext.Addr(x, bs)), bs) && ByteAt(t, At(ext.part, ext.Addr(x, bs)), bs) ==
             data[x - ext.fileoffset]
  }

  lemma AddrOf(start: nat, i: nat, bs: nat)
    requires 0 < bs
    ensures (start * bs + i) / bs == start + i / bs && (start * bs + i) % bs == i % bs
  {
    assert (start + i / bs) * bs == start * bs + (i / bs) * bs;
    DivIs(start * bs + i, start + i / bs, i % bs, bs);
  }

  lemma ByteThere(t: Tape, p: Partition, addr: nat, bs: nat, b: nat, r: nat, data: seq<byte>)
    requires 0 < bs && addr / bs == b && addr % bs == r && b < |t.Recs(p)| && t.Recs(p)[b] == Block(data) && r < |data|
    ensures OnTape(t, At(p, addr), bs) && ByteAt(t, At(p, addr), bs) == data[r]
  {
  }

  lemma ByteJustWritten(t: Tape, p: Partition, start: nat, data: seq<byte>, bs: nat, i: nat, addr: nat)
    requires 0 < bs && start <= |t.Recs(p)| && t.Recs(p) == t.Recs(p)[..start] + Chop(data, bs)
    requires i < |data| && addr / bs == start + i / bs && addr % bs == i % bs
    ensures OnTape(t, At(p, addr), bs) && ByteAt(t, At(p, addr), bs) == data[i]
  {
    hide Chop, OnTape, ByteAt;
    ChopAt(data, bs, i);
    var recs, k, r := t.Recs(p), i / bs, i % bs;
    assert recs[start + k] == Chop(data, bs)[k];
    ByteThere(t, p, addr, bs, start + k, r, Chop(data, bs)[k].data);
  }

  lemma JustWritten(t: Tape, p: Partition, start: nat, data: seq<byte>, off: nat, bs: nat)
    requires 0 < bs && start <= |t.Recs(p)| && t.Recs(p) == t.Recs(p)[..start] + Chop(data, bs)
    ensures Carries(t, Extent(p, start, 0, |data|, off), data, bs)
  {
    hide Chop, OnTape, ByteAt;
    var ext := Extent(p, start, 0, |data|, off);
    forall x: nat | ext.Covers(x)
      ensures OnTape(t, At(p, ext.Addr(x, bs)), bs) && ByteAt(t, At(p, ext.Addr(x, bs)), bs) == data[x - off]
    {
      AddrOf(start, x - off, bs);
      ByteJustWritten(t, p, start, data, bs, x - off, ext.Addr(x, bs));
    }
  }

  // Overlaying an extent is writing the bytes it carries.
  lemma OverlayWrites(t: Tape, exts: seq<Extent>, size: nat, ext: Extent, data: seq<byte>, r: seq<Extent>, bs: nat)
    requires 0 < bs && Mapped(t, exts, size, bs) && Overlaid(exts, ext, r, bs) && Carries(t, ext, data, bs)
    ensures Mapped(t, r, Max(size, ext.End()), bs)
    ensures Content(t, r, Max(size, ext.End()), bs) == WriteAt(Content(t, exts, size, bs), ext.fileoffset, data)
  {
    hide Find, OnTape, ByteAt, Extent.Addr;
    var size' := Max(size, ext.End());
    var c, c' := Content(t, exts, size, bs), Content(t, r, size', bs);
    var w := WriteAt(c, ext.fileoffset, data);
    forall x: nat | x < size'
      ensures c'[x] == w[x]
    {
      assert Find(r, x, bs) == if ext.Covers(x) then At(ext.part, ext.Addr(x, bs)) else Find(exts, x, bs);
      if !ext.Covers(x) && x >= size {
        assert Find(exts, x, bs) == Hole;
        HoleReadsZero(t, bs);
      }
    }
  }

  lemma CutResizes(t: Tape, exts: seq<Extent>, size: nat, len: nat, r: seq<Extent>, bs: nat)
    requires 0 < bs && Mapped(t, exts, size, bs)
    requires CutOff(exts, r, len, bs)
    ensures Mapped(t, r, len, bs)
    ensures Content(t, r, len, bs) == Resize(Content(t, exts, size, bs), len)
  {
    hide Find, OnTape, ByteAt;
    var c, c' := Content(t, exts, size, bs), Content(t, r, len, bs);
    forall x: nat | x < len
      ensures c'[x] == if x < |c| then c[x] else 0
    {
      assert Find(r, x, bs) == Find(exts, x, bs);
      HoleReadsZero(t, bs);
    }
  }

  lemma AllBelow(t: Tape, exts: seq<Extent>, size: nat, len: nat, bs: nat)
    requires 0 < bs && Mapped(t, exts, size, bs) && size <= len
    ensures CutOff(exts, exts, len, bs)
  {
  }

  lemma GrowsExtends(d: Drive, log: seq<Stop>, d': Drive, log': seq<Stop>)
    requires Grows(d, log, d', log')
    ensures Extends(Settled(d), Settled(d'))
  {
  }

  lemma WrittenThere(d: Drive, p: Partition, start: nat, data: seq<byte>, off: nat, bs: nat)
    requires 0 < bs && d.appendIp <= |d.ip| && start <= |Target(d, p)|
             && Target(d, p) == Target(d, p)[..start] + Chop(data, bs)
    ensures Carries(Settled(d), Extent(p, start, 0, |data|, off), data, bs)
  {
    JustWritten(Settled(d), p, start, data, off, bs);
  }

  // ---------------------------------------------------------------- reading

  // File offsets are 64-bit; the start of a block may lie before the start of the file.
  const U64: nat := 0x1_0000_0000_0000_0000

  function Wrap(z: int): nat
  {
    z % U64
  }

  // The 64-bit cursors never show that a block starts before the file does.
  lemma WrapAround(start: int, bs: nat, x: nat, end: nat)
    requires start <= x < start + bs && x < end && end + bs < U64
    ensures var first := Wrap(start);
            var lastbyte := Wrap(first + bs);
            var upTo := if end < lastbyte then end else lastbyte;
            && lastbyte == start + bs && Wrap(upTo - first) == upTo - start
            && Wrap(x - first) == x - start && Wrap(first + bs) == Wrap(start + bs)
  {
    hide Wrap;
    var first := Wrap(start);
    Wrapped(start);
    Wrapped(first + bs);
    Wrapped(start + bs);
    Wrapped((if end < start + bs then end else start + bs) - first);
    Wrapped(x - first);
  }

  lemma Wrapped(x: int)
    requires 0 <= x + U64 && x < 2 * U64
    ensures Wrap(x) == if x < 0 then x + U64 else if x < U64 then x else x - U64
  {
  }

  method CopyBytes(buf: array<byte>, at: nat, src: seq<byte>, from: nat, n: nat)
    requires at + n <= buf.Length && from + n <= |src|
    modifies buf
    ensures forall j :: at <= j < at + n ==> buf[j] == src[j - at + from]
    ensures forall j :: 0 <= j < buf.Length && !(at <= j < at + n) ==> buf[j] == old(buf[j])
  {
    for i := 0 to n
      invariant forall j :: at <= j < at + i ==> buf[j] == src[j - at + from]
      invariant forall j :: 0 <= j < buf.Length && !(at <= j < at + i) ==> buf[j] == old(buf[j])
    {
      buf[at + i] := src[from + i];
    }
  }

  method ZeroBytes(buf: array<byte>, at: nat, n: nat)
    requires at + n <= buf.Length
    modifies buf
    ensures forall j :: at <= j < at + n ==> buf[j] == 0
    ensures forall j :: 0 <= j < buf.Length && !(at <= j < at + n) ==> buf[j] == old(buf[j])
  {
    for i := 0 to n
      invariant forall j :: at <= j < at + i ==> buf[j] == 0
      invariant forall j :: 0 <= j < buf.Length && !(at <= j < at + i) ==> buf[j] == old(buf[j])
    {
      buf[at + i] := 0;
    }
  }

  // Where in the file a block of an extent starts and where its use for the extent ends.
  function BlockStart(e: Extent, block: nat, bs: nat): int
  {
    e.fileoffset - e.byteoffset + (block - e.block) * bs
  }

  function BlockEnd(e: Extent, start: int, bs: nat): int
  {
    if e.End() < start + bs then e.End() else start + bs
  }

  // The stretch of a file that one block of an extent holds.
  ghost predicate HoldsBlock(c: seq<byte>, lo: nat, hi: nat, data: seq<byte>, start: int)
  {
    hi <= |c| && hi - start <= |data| && start <= lo && forall y :: lo <= y < hi ==> c[y] == data[y - start]
  }

  lemma ByteOfBlock(t: Tape, exts: seq<Extent>, e: nat, size: nat, y: nat, block: nat, start: int, bs: nat)
    requires Sorted(exts, bs) && 0 < bs && Mapped(t, exts, size, bs) && e < |exts| && exts[e].Covers(y)
    requires exts[e].block <= block && start == BlockStart(exts[e], block, bs)
    requires start <= y < start + bs
    ensures var recs := t.Recs(exts[e].part);
            && block < |recs| && recs[block].Block? && y - start < |recs[block].data|
            && y < size && Content(t, exts, size, bs)[y] == recs[block].data[y - start]
  {
    FindHit(exts, e, y, bs);
    var loc := Find(exts, y, bs);
    assert OnTape(t, loc, bs);
    assert (block - exts[e].block) * bs == block * bs - exts[e].block * bs;
    DivIs(loc.addr, block, y - start, bs);
  }

  // Block `block` of extent e holds the bytes of the file from x to the end of the block.
  lemma BlockOfExtent(t: Tape, exts: seq<Extent>, e: nat, size: nat, x: nat, block: nat, start: int, bs: nat)
    requires Sorted(exts, bs) && 0 < bs && Mapped(t, exts, size, bs) && e < |exts| && exts[e].Covers(x)
    requires exts[e].block <= block && start == BlockStart(exts[e], block, bs)
    requires start <= x < start + bs
    ensures var recs := t.Recs(exts[e].part);
            && block < |recs| && recs[block].Block? && exts[e].End() <= size
            && HoldsBlock(Content(t, exts, size, bs), x, BlockEnd(exts[e], start, bs), recs[block].data, start)
  {
    hide Find, Sorted, Mapped, OnTape, ByteAt, Content, Extent.Addr;
    var hi := BlockEnd(exts[e], start, bs);
    ByteOfBlock(t, exts, e, size, x, block, start, bs);
    ByteOfBlock(t, exts, e, size, hi - 1, block, start, bs);
    FindHit(exts, e, exts[e].End() - 1, bs);
    MappedEnd(t, exts, e, size, bs);
    forall y | x <= y < hi
      ensures Content(t, exts, size, bs)[y] == t.Recs(exts[e].part)[block].data[y - start]
    {
      ByteOfBlock(t, exts, e, size, y, block, start, bs);
    }
  }

  lemma MappedEnd(t: Tape, exts: seq<Extent>, e: nat, size: nat, bs: nat)
    requires Sorted(exts, bs) && 0 < bs && Mapped(t, exts, size, bs) && e < |exts|
    ensures exts[e].End() <= size
  {
    FindHit(exts, e, exts[e].End() - 1, bs);
    assert Find(exts, exts[e].End() - 1, bs) != Hole;
  }

  lemma OneMore(k: int, bs: int)
    ensures (k + 1) * bs == k * bs + bs
  {
  }

  lemma FirstBlock(e: Extent, x: nat, bs: nat)
    requires 0 < bs && e.fileoffset <= x
    ensures var k := (x - e.fileoffset + e.byteoffset) / bs;
            k >= 0 && BlockStart(e, e.block + k, bs) <= x < BlockStart(e, e.block + k, bs) + bs
  {
    var m := x - e.fileoffset + e.byteoffset;
    assert m == (m / bs) * bs + m % bs;
  }

  lemma NextBlock(e: Extent, block: nat, bs: nat)
    ensures BlockStart(e, block + 1, bs) == BlockStart(e, block, bs) + bs
  {
    assert (block + 1 - e.block) * bs == (block - e.block) * bs + bs;
  }

  // Extents before i end at or before x.
  ghost predicate Passed(exts: seq<Extent>, i: nat, x: nat)
    requires i <= |exts|
  {
    forall k :: 0 <= k < i ==> exts[k].End() <= x
  }

  lemma PassedNone(exts: seq<Extent>, x: nat)
    ensures Passed(exts, 0, x)
  {
  }

  lemma PassedMore(exts: seq<Extent>, i: nat, x: nat, y: nat, bs: nat)
    requires i < |exts| && Passed(exts, i, x) && x <= y && exts[i].End() <= y
    ensures Passed(exts, i + 1, y)
  {
  }

  // Between one extent and the next, and behind the last one, a file reads as zeros.
  lemma GapReadsZero(t: Tape, exts: seq<Extent>, i: nat, size: nat, x: nat, bs: nat)
    requires 0 < bs && Sorted(exts, bs) && i <= |exts| && Passed(exts, i, x)
    ensures forall y: nat :: x <= y < size && (i < |exts| ==> y < exts[i].fileoffset) ==>
            Content(t, exts, size, bs)[y] == 0
  {
    forall y: nat | x <= y < size && (i < |exts| ==> y < exts[i].fileoffset)
      ensures Content(t, exts, size, bs)[y] == 0
    {
      FindInMiss(exts, 0, |exts|, y, bs);
      HoleReadsZero(t, bs);
    }
  }

  // The buffer holds n bytes of c from `off` on at `at`, and otherwise what it held before.
  ghost predicate Delivered(now: seq<byte>, was: seq<byte>, at: nat, n: nat, c: seq<byte>, off: nat)
  {
    && |now| == |was| && at + n <= |now| && (n > 0 ==> off + n <= |c|)
    && (forall j :: at <= j < at + n ==> now[j] == c[j - at + off])
    && (forall j :: 0 <= j < |now| && !(at <= j < at + n) ==> now[j] == was[j])
  }

  lemma DeliveredNone(was: seq<byte>, at: nat, c: seq<byte>, off: nat)
    requires at <= |was|
    ensures Delivered(was, was, at, 0, c, off)
  {
  }

  lemma DeliveredMore(now': seq<byte>, now: seq<byte>, was: seq<byte>, at: nat, n: nat, k: nat, c: seq<byte>, off: nat)
    requires Delivered(now, was, at, n, c, off) && Delivered(now', now, at + n, k, c, off + n)
    ensures Delivered(now', was, at, n + k, c, off) && (n + k > 0 ==> off + n + k <= |c|)
  {
  }

  // ---------------------------------------------------------------- the file

  // The data lies on partition p from block `from` on, and the extents lead to it for the bytes from
  // `off` on, and for all others where they led before.
  ghost predicate PutOn(was: seq<Extent>, now: seq<Extent>, data: seq<byte>, off: nat, p: Partition, from: nat, t: Tape,
      bs: nat)
    requires 0 < bs
  {
    exists b: nat {:trigger Extent(p, b, 0, |data|, off)} ::
      && from <= b && Overlaid(was, Extent(p, b, 0, |data|, off), now, bs)
      && Carries(t, Extent(p, b, 0, |data|, off), data, bs)
  }

  lemma StartBehind(d: Drive, log: seq<Stop>, d': Drive, log': seq<Stop>, p: Partition, start: nat)
    requires Grows(d, log, d', log') && |Target(d, p)| <= start
    ensures |Settled(d).Recs(p)| <= start
  {
  }

  class Dentry {
    const vol: Volume
    var extents: seq<Extent>
    var size: nat
    var realsize: nat

    ghost predicate Valid()
      reads this, vol
    {
      && vol.Valid() && 0 < vol.blocksize
      && vol.drive.appendIp <= |vol.drive.ip|
      && Sorted(extents, vol.blocksize)
      && realsize == Sum(extents)
      && Mapped(Settled(vol.drive), extents, size, vol.blocksize)
    }

    // What the file holds.
    ghost function Contents(): (c: seq<byte>)
      requires Valid()
      reads this, vol
      ensures |c| == size
    {
      Content(Settled(vol.drive), extents, size, vol.blocksize)
    }

    constructor (v: Volume)
      requires v.Valid()
      ensures Valid() && vol == v && Contents() == [] && extents == []
    {
      vol, extents, size, realsize := v, [], 0, 0;
    }

    // Add an extent whose blocks are already on the tape.
    method AddExtent(ext: Extent, ghost data: seq<byte>, copyOk: bool, splitOk: bool) returns (ok: bool)
      requires Valid() && ext.bytecount == |data| > 0 && ext.byteoffset < vol.blocksize
      requires Carries(Settled(vol.drive), ext, data, vol.blocksize)
      modifies this, vol`index, vol`dirty
      ensures Valid() && vol.index.gen == old(vol.index.gen)
      ensures ok ==> Contents() == WriteAt(old(Contents()), ext.fileoffset, data) && vol.dirty
      ensures ok ==> Overlaid(old(extents), ext, extents, vol.blocksize)
      ensures copyOk && splitOk ==> ok
      ensures !ok ==>
              extents == old(extents) && size == old(size) && realsize == old(realsize) && Contents() == old(Contents())
    {
      hide Volume.Valid, Find, Sum, Sorted, Mapped, Carries, Overlaid, Settled;
      var bs := vol.blocksize;
      ok := false;
      if !copyOk {
        return;
      }
      var done, exts, sum := InsertExtent(extents, realsize, ext, bs, splitOk);
      if !done {
        return;
      }
      OverlayWrites(Settled(vol.drive), extents, size, ext, data, exts, bs);
      extents, realsize := exts, sum;
      if ext.End() > size {
        size := ext.End();
      }
      vol.Touch();
      ok := true;
    }

    // Append data to a partition and map the file's bytes from `off` on to it: just these, in blocks
    // behind everything that was settled there.
    method Write(data: seq<byte>, off: nat, p: Partition, copyOk: bool, splitOk: bool) returns (ok: bool)
      requires Valid() && data != []
      modifies this, vol
      ensures Valid() && Grows(old(vol.drive), old(vol.log), vol.drive, vol.log)
      ensures ok ==> Contents() == WriteAt(old(Contents()), off, data)
      ensures ok ==> PutOn(old(extents), extents, data, off, p, |old(Settled(vol.drive)).Recs(p)|, Settled(vol.drive),
              vol.blocksize)
      ensures copyOk && splitOk ==> ok
      ensures !ok ==> Contents() == old(Contents()) && extents == old(extents)
      ensures !(if p == IP then vol.ipEnd else vol.dpEnd)
    {
      hide Volume.Valid, Find, Sum, Sorted, Mapped, Carries, Settled, Grows, Overlaid;
      ghost var t := Settled(vol.drive);
      var start := vol.WriteData(p, data);
      GrowsExtends(old(vol.drive), old(vol.log), vol.drive, vol.log);
      ContentKept(t, Settled(vol.drive), extents, size, vol.blocksize);
      var ext := Extent(p, start, 0, |data|, off);
      WrittenThere(vol.drive, p, start, data, off, vol.blocksize);
      StartBehind(old(vol.drive), old(vol.log), vol.drive, vol.log, p, start);
      ok := AddExtent(ext, data, copyOk, splitOk);
    }

    // Append data to a partition without mapping it into the file yet; `ext` says where it went.
    method AppendData(data: seq<byte>, off: nat, p: Partition) returns (ext: Extent)
      requires Valid() && data != []
      modifies vol
      ensures Valid() && Contents() == old(Contents()) && Grows(old(vol.drive), old(vol.log), vol.drive, vol.log)
      ensures ext == Extent(p, ext.block, 0, |data|, off) && |old(Settled(vol.drive)).Recs(p)| <= ext.block
      ensures Carries(Settled(vol.drive), ext, data, vol.blocksize)
      ensures !(if p == IP then vol.ipEnd else vol.dpEnd)
    {
      hide Volume.Valid, Find, Sum, Sorted, Mapped, Carries, Grows;
      ghost var t := Settled(vol.drive);
      var start := vol.WriteData(p, data);
      GrowsExtends(old(vol.drive), old(vol.log), vol.drive, vol.log);
      ContentKept(t, Settled(vol.drive), extents, size, vol.blocksize);
      ext := Extent(p, start, 0, |data|, off);
      WrittenThere(vol.drive, p, start, data, off, vol.blocksize);
    }

    // Cut the file, or extend it with a hole.
    method Truncate(len: nat)
      requires Valid()
      modifies this, vol`index, vol`dirty
      ensures Valid() && vol.dirty
      ensures Contents() == Resize(old(Contents()), len)
      ensures CutOff(old(extents), extents, len, vol.blocksize)
    {
      hide Volume.Valid, Find, Sum, Sorted, Mapped, Settled;
      var exts, sum := extents, realsize;
      if len < size {
        exts, sum := CutExtents(exts, sum, len, vol.blocksize);
      } else {
        AllBelow(Settled(vol.drive), extents, size, len, vol.blocksize);
      }
      CutResizes(Settled(vol.drive), extents, size, len, exts, vol.blocksize);
      extents, size, realsize := exts, len, sum;
      vol.Touch();
    }

    // Have a block in the cache: it is there already, or the drive stands in front of it.
    // `cur` is the position the caller knows, which a seek does not update.
    method LoadBlock(p: Partition, block: nat, cur: Ptr) returns (cur': Ptr)
      requires Valid()
      requires var recs := Settled(vol.drive).Recs(p); block < |recs| && recs[block].Block?
      requires if vol.lastPos == Ptr(p, block) && cur == Ptr(p, block + 1)
               then vol.drive.at == Ptr(p, block + 1) else vol.drive.at == Ptr(p, block)
      modifies vol`drive, vol`lastPos, vol`lastBlock
      ensures Valid() && Contents() == old(Contents()) && vol.drive == old(vol.drive).(at := Ptr(p, block + 1))
      ensures vol.lastPos == Ptr(p, block) && Settled(vol.drive).Recs(p)[block] == Block(vol.lastBlock)
    {
      hide Volume.Valid, Sum, Sorted, Mapped;
      cur' := cur;
      if vol.lastPos == Ptr(p, block) && cur == Ptr(p, block + 1) {
        vol.CacheHolds();
      } else {
        var _ := vol.Fetch(p, block);
        cur' := if cur.Ptr? then Ptr(cur.part, cur.block + 1) else NoPtr;
      }
    }

    // Move the drive to a block, unless it stands there or just read it.
    method SeekIfNeeded(p: Partition, block: nat) returns (cur: Ptr)
      requires Valid()
      modifies vol`drive
      ensures Valid() && Contents() == old(Contents())
      ensures vol.drive == old(vol.drive).(at := vol.drive.at) && cur == old(vol.drive.at)
      ensures if vol.lastPos == Ptr(p, block) && cur == Ptr(p, block + 1)
              then vol.drive.at == Ptr(p, block + 1) else vol.drive.at == Ptr(p, block)
    {
      hide Volume.Valid, Sum, Sorted, Mapped;
      cur := vol.drive.at;
      if cur != Ptr(p, block) && !(cur == Ptr(p, block + 1) && vol.lastPos == Ptr(p, block)) {
        vol.Seek(p, block);  // `cur` keeps the position before the seek
      }
    }

    // Copy bytes [x, upTo) of the file out of one block of extent e, whose first byte is
    // byte `start` of the file, or would be.
    method ReadBlock(buf: array<byte>, at: nat, e: nat, x: nat, upTo: nat, block: nat, cur: Ptr, blockbytes: nat,
        from: nat, ghost start: int)
      returns (cur': Ptr)
      requires Valid() && e < |extents| && extents[e].Covers(x) && at + (upTo - x) <= buf.Length
      requires extents[e].block <= block && start == BlockStart(extents[e], block, vol.blocksize)
      requires start <= x < upTo <= BlockEnd(extents[e], start, vol.blocksize)
      requires blockbytes == BlockEnd(extents[e], start, vol.blocksize) - start && from == x - start
      requires if vol.lastPos == Ptr(extents[e].part, block) && cur == Ptr(extents[e].part, block + 1)
               then vol.drive.at == Ptr(extents[e].part, block + 1) else vol.drive.at == Ptr(extents[e].part, block)
      modifies buf, vol`drive, vol`lastPos, vol`lastBlock
      ensures Valid() && Contents() == old(Contents()) && vol.drive ==
              old(vol.drive).(at := Ptr(extents[e].part, block + 1))
      ensures vol.lastPos == Ptr(extents[e].part, block) && upTo <= size
      ensures Delivered(buf[..], old(buf[..]), at, upTo - x, Contents(), x)
    {
      hide Volume.Valid, Sum, Sorted, Mapped, Content;
      BlockOfExtent(Settled(vol.drive), extents, e, size, x, block, start, vol.blocksize);
      cur' := LoadBlock(extents[e].part, block, cur);
      assert blockbytes <= |vol.lastBlock|;  // so the block is never too small
      CopyBytes(buf, at, vol.lastBlock, from, upTo - x);
    }

    // Read what an extent holds from `next` up to `last` into the buffer at `at`.
    method ReadExtent(buf: array<byte>, at: nat, e: nat, next: nat, last: nat) returns (n: nat)
      requires Valid() && size + vol.blocksize < U64
      requires e < |extents| && extents[e].Covers(next) && next <= last && at + (last - next) <= buf.Length
      modifies buf, vol`drive, vol`lastPos, vol`lastBlock
      ensures Valid() && Contents() == old(Contents()) && vol.drive == old(vol.drive).(at := vol.drive.at)
      ensures n == Min(extents[e].End(), last) - next && next + n <= size
      ensures Delivered(buf[..], old(buf[..]), at, n, Contents(), next)
    {
      hide Volume.Valid, Sum, Sorted, Mapped, Content, Wrap, Settled, BlockStart, Delivered;
      var entry, bs := extents[e], vol.blocksize;
      ghost var c, was := Contents(), buf[..];
      DeliveredNone(was, at, c, next);
      var block := entry.block + (next - entry.fileoffset + entry.byteoffset) / bs;
      FirstBlock(entry, next, bs);
      var cur := SeekIfNeeded(entry.part, block);
      ghost var start := BlockStart(entry, block, bs);
      var firstbyte: int := Wrap(BlockStart(entry, block, bs));
      var lastbyte: int := firstbyte;
      n := 0;
      MappedEnd(Settled(vol.drive), extents, e, size, bs);
      while entry.End() > next + n && next + n < last
        invariant Valid() && Contents() == c && vol.drive == old(vol.drive).(at := vol.drive.at)
        invariant entry.block <= block && next + n <= Min(entry.End(), last) && start == BlockStart(entry, block, bs)
        invariant next + n < Min(entry.End(), last) ==>
                  start <= next + n < start + bs && firstbyte == lastbyte == Wrap(start)
        invariant if vol.lastPos == Ptr(entry.part, block) && cur == Ptr(entry.part, block + 1)
                  then vol.drive.at == Ptr(entry.part, block + 1) else vol.drive.at == Ptr(entry.part, block)
        invariant Delivered(buf[..], was, at, n, c, next)
        decreases last - next - n
      {
        WrapAround(start, bs, next + n, entry.End());
        lastbyte := Wrap(lastbyte + bs);
        if entry.End() < lastbyte {
          lastbyte := entry.End();
        }
        var ncopy := Min(lastbyte, last) - (next + n);
        ghost var now := buf[..];
        cur := ReadBlock(buf, at + n, e, next + n, Min(lastbyte, last), block, cur,
                         Wrap(lastbyte - firstbyte), Wrap(next + n - firstbyte), start);
        DeliveredMore(buf[..], now, was, at, n, ncopy, c, next);
        NextBlock(entry, block, bs);
        firstbyte, n, block, start := Wrap(firstbyte + bs), n + ncopy, block + 1, start + bs;
      }
    }

    // Fill in the bytes [x, upTo) in front of extent i, or behind the last one.
    method ZeroHole(buf: array<byte>, at: nat, i: nat, x: nat, upTo: nat)
      requires Valid() && i <= |extents| && Passed(extents, i, x) && x <= upTo && at + (upTo - x) <= buf.Length
      requires if i < |extents| then upTo <= extents[i].fileoffset else upTo <= size
      modifies buf
      ensures Valid() && Contents() == old(Contents()) && upTo <= size
      ensures Delivered(buf[..], old(buf[..]), at, upTo - x, Contents(), x)
    {
      hide Volume.Valid, Sum, Sorted, Mapped, Content, Settled;
      if i < |extents| {
        MappedEnd(Settled(vol.drive), extents, i, size, vol.blocksize);
      }
      GapReadsZero(Settled(vol.drive), extents, i, size, x, vol.blocksize);
      ZeroBytes(buf, at, upTo - x);
    }

    // What one extent adds to a read that wants the bytes [next, last): zeros up to the
    // extent, then what it holds.
    method ReadEntry(buf: array<byte>, at: nat, i: nat, next: nat, last: nat) returns (k: nat)
      requires Valid() && size + vol.blocksize < U64
      requires i < |extents| && Passed(extents, i, next) && next < last && at + (last - next) <= buf.Length
      modifies buf, vol`drive, vol`lastPos, vol`lastBlock
      ensures Valid() && Contents() == old(Contents()) && vol.drive == old(vol.drive).(at := vol.drive.at)
      ensures next + k <= last && (next + k != last ==> Passed(extents, i + 1, next + k))
      ensures Delivered(buf[..], old(buf[..]), at, k, Contents(), next)
    {
      hide Volume.Valid, Find, Sum, Sorted, Mapped, Content, Settled, Passed, Stored, Wrap, Delivered;
      ghost var c, was := Contents(), buf[..];
      DeliveredNone(was, at, c, next);
      var entry := extents[i];
      k := 0;
      if next < entry.fileoffset {
        if entry.fileoffset > last {
          ZeroHole(buf, at, i, next, last);
          k := last - next;
          return;
        }
        ZeroHole(buf, at, i, next, entry.fileoffset);
        k := entry.fileoffset - next;
      }
      if entry.End() > next + k {
        ghost var now := buf[..];
        var m := ReadExtent(buf, at + k, i, next + k, last);
        DeliveredMore(buf[..], now, was, at, k, m, c, next);
        k := k + m;
      }
      if next + k != last {
        PassedMore(extents, i, next, next + k, vol.blocksize);
      }
    }

    // Read up to `count` bytes from `off` on into the buffer at `base`: extent by extent,
    // with zeros in holes and at a sparse end.
    method Read(buf: array<byte>, base: nat, count: nat, off: nat) returns (n: nat)
      requires Valid() && size + vol.blocksize < U64 && off + count < U64 && base + count <= buf.Length
      modifies buf, vol`drive, vol`lastPos, vol`lastBlock
      ensures Valid() && Contents() == old(Contents()) && vol.drive == old(vol.drive).(at := vol.drive.at)
      ensures n == |ReadAt(Contents(), off, count)|
      ensures Delivered(buf[..], old(buf[..]), base, n, Contents(), off)
    {
      hide Volume.Valid, Find, Sum, Sorted, Mapped, Content, Settled, Passed, Stored, Wrap, Delivered;
      ghost var c, was := Contents(), buf[..];
      PassedNone(extents, off);
      DeliveredNone(was, base, c, off);
      n := 0;
      if count == 0 {
        return;
      }
      var last, i := off + count, 0;
      while i < |extents| && n != count
        invariant i <= |extents| && n <= count && Valid() && Contents() == c
                  && vol.drive == old(vol.drive).(at := vol.drive.at)
        invariant n != count ==> Passed(extents, i, off + n)
        invariant n > 0 ==> off + n <= |c|
        invariant Delivered(buf[..], was, base, n, c, off)
      {
        ghost var now := buf[..];
        var k := ReadEntry(buf, base + n, i, off + n, last);
        DeliveredMore(buf[..], now, was, base, n, k, c, off);
        n, i := n + k, i + 1;
      }
      // Sparse end of file.
      if count > n && off + n < size {
        var ncopy := if last < size then last - (off + n) else size - (off + n);
        ghost var now := buf[..];
        ZeroHole(buf, base + n, i, off + n, off + n + ncopy);
        DeliveredMore(buf[..], now, was, base, n, ncopy, c, off);
        n := n + ncopy;
      }
    }
  }
}
