// A file as a flat array of bytes: what reading, writing and truncating mean when nothing
// is cached, split or scattered.
module Flat {
  import opened Medium

  function Max(a: nat, b: nat): nat
  {
    if a < b then b else a
  }

  function Min(a: nat, b: nat): nat
  {
    if a < b then a else b
  }

  // Overwrite bytes from `off` on, growing the file as needed; a gap reads as zeros.
  function WriteAt(c: seq<byte>, off: nat, data: seq<byte>): (r: seq<byte>)
    ensures |r| == Max(|c|, off + |data|)
    ensures forall x :: off <= x < off + |data| ==> r[x] == data[x - off]
    ensures forall x :: 0 <= x < |c| && !(off <= x < off + |data|) ==> r[x] == c[x]
    ensures forall x :: |c| <= x < |r| && !(off <= x < off + |data|) ==> r[x] == 0
  {
    seq(Max(|c|, off + |data|), x requires 0 <= x =>
      if off <= x < off + |data| then data[x - off] else if x < |c| then c[x] else 0)
  }

  // Cut the file, or extend it with zeros.
  function Resize(c: seq<byte>, len: nat): (r: seq<byte>)
    ensures |r| == len
    ensures forall x :: 0 <= x < len ==> r[x] == if x < |c| then c[x] else 0
  {
    seq(len, x requires 0 <= x => if x < |c| then c[x] else 0)
  }

  // At most `count` bytes from `off` on, fewer at the end of the file.
  function ReadAt(c: seq<byte>, off: nat, count: nat): (r: seq<byte>)
    ensures |r| == if off < |c| then Min(count, |c| - off) else 0
    ensures forall k :: 0 <= k < |r| ==> r[k] == c[off + k]
  {
    if off < |c| then c[off..Min(off + count, |c|)] else []
  }
}
