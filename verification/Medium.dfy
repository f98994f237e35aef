// What is on the tape: two partitions of records, and what an index on it says.
module Medium {

  type byte = b: int | 0 <= b < 256

  datatype Partition = IP | DP

  // A tape position; `NoPtr` is the absent back pointer of the first index (block 0).
  datatype Ptr = NoPtr | Ptr(part: Partition, block: nat)

  // An index.  `root` stands for the directory tree it describes.
  datatype Index = Index(gen: nat, self: Ptr, back: Ptr, root: nat)

  // An index takes one or more blocks: the last one completes it, after `parts` others.  The
  // pointers of an index name its first block.
  datatype Record = Label | FileMark | Block(data: seq<byte>) | IndexPart | IndexFile(idx: Index, parts: nat)

  function BlockOf(p: Ptr): nat
  {
    if p.NoPtr? then 0 else p.block
  }

  // Block number of the end of the last whole index on a partition, or -1.
  function LastIndex(recs: seq<Record>): (b: int)
    ensures -1 <= b < |recs|
    ensures b >= 0 ==> recs[b].IndexFile?
    ensures forall k :: b < k < |recs| ==> !recs[k].IndexFile?
  {
    if recs == [] then -1
    else if recs[|recs| - 1].IndexFile? then |recs| - 1
    else LastIndex(recs[..|recs| - 1])
  }

  // Where the index that ends at block b starts.
  function First(recs: seq<Record>, b: nat): nat
    requires b < |recs| && recs[b].IndexFile?
  {
    if recs[b].parts <= b then b - recs[b].parts else 0
  }

  // The index that ends at block b has all its blocks, behind a file mark of its own.
  ghost predicate Whole(recs: seq<Record>, b: nat)
    requires b < |recs| && recs[b].IndexFile?
  {
    && recs[b].parts + 1 < b && recs[First(recs, b) - 1] == FileMark && !recs[First(recs, b) - 2].IndexFile?
    && forall k :: First(recs, b) <= k < b ==> recs[k] == IndexPart
  }

  // Pointer to the last index of the data partition.
  function LastDp(dp: seq<Record>): Ptr
  {
    if LastIndex(dp) < 0 then NoPtr else Ptr(DP, First(dp, LastIndex(dp)))
  }

  lemma LastIndexAppend(recs: seq<Record>, r: Record)
    ensures LastIndex(recs + [r]) == if r.IndexFile? then |recs| else LastIndex(recs)
  {
    assert (recs + [r])[..|recs|] == recs;
  }

  // The end of a run of index blocks.
  function RunEnd(recs: seq<Record>, b: nat): (e: nat)
    requires b <= |recs|
    ensures b <= e <= |recs| && (e < |recs| ==> recs[e] != IndexPart) && forall k :: b <= k < e ==> recs[k] == IndexPart
    decreases |recs| - b
  {
    if b < |recs| && recs[b] == IndexPart then RunEnd(recs, b + 1) else b
  }

  // What reading an index from block b on yields.
  function ReadIndex(recs: seq<Record>, b: nat): Option<Index>
  {
    if b < |recs| && RunEnd(recs, b) < |recs| && recs[RunEnd(recs, b)].IndexFile? then
      Some(recs[RunEnd(recs, b)].idx)
    else None
  }

  // The index that starts at block b is whole, and closed by file marks on both sides.
  predicate Complete(recs: seq<Record>, b: nat, idx: Index)
  {
    && 1 <= b < |recs| && recs[b - 1] == FileMark && ReadIndex(recs, b) == Some(idx)
    && RunEnd(recs, b) + 1 < |recs| && recs[RunEnd(recs, b) + 1] == FileMark
  }

  // An index starts at block b.
  ghost predicate Named(recs: seq<Record>, b: nat)
  {
    b < |recs| && RunEnd(recs, b) < |recs| && recs[RunEnd(recs, b)].IndexFile? && First(recs, RunEnd(recs, b)) == b
  }

  lemma NamedStays(recs: seq<Record>, n: seq<Record>, b: nat)
    requires Named(recs, b) && recs <= n
    ensures Named(n, b) && RunEnd(n, b) == RunEnd(recs, b)
  {
    RunEndIs(n, b, RunEnd(recs, b));
  }

  lemma RunEndIs(recs: seq<Record>, b: nat, e: nat)
    requires b <= e < |recs| && recs[e] != IndexPart && forall k :: b <= k < e ==> recs[k] == IndexPart
    ensures RunEnd(recs, b) == e
  {
  }

  // A whole index is found at its first block.
  lemma WholeReads(recs: seq<Record>, e: nat)
    requires e < |recs| && recs[e].IndexFile? && Whole(recs, e)
    ensures RunEnd(recs, First(recs, e)) == e && ReadIndex(recs, First(recs, e)) == Some(recs[e].idx)
  {
    RunEndIs(recs, First(recs, e), e);
  }

  // What is complete stays so, whatever is appended.
  lemma CompleteStays(recs: seq<Record>, more: seq<Record>, b: nat, idx: Index)
    requires Complete(recs, b, idx)
    ensures Complete(recs + more, b, idx)
  {
    RunEndIs(recs + more, b, RunEnd(recs, b));
  }

  // `x` describes a tree at least as new as `y`: the generation only stays the same when
  // the tree does.
  predicate AtLeast(x: Index, y: Index)
  {
    x.gen > y.gen || (x.gen == y.gen && x.root == y.root)
  }

  // Two indexes of the same tree.
  predicate Copy(x: Index, y: Index)
  {
    x.gen == y.gen && x.root == y.root
  }

  // ---------------------------------------------------------------- choosing an index

  datatype Option<+T> = None | Some(value: T)

  // UseIp and UseDp name the newer index file; Invalid is the inconsistency error.
  datatype Verdict = UseIp | UseDp | NoIndex | Invalid

  function IndexOf(recs: seq<Record>): Option<Index>
  {
    if LastIndex(recs) < 0 then None else Some(recs[LastIndex(recs)].idx)
  }

  // The quick pointer check of a full consistency check.  In one case it reads the data
  // partition index that the newest one points back to.
  function CheckPointers(ip: Option<Index>, dp: Option<Index>, dpRecs: seq<Record>): Verdict
  {
    if ip.None? then
      if dp.Some? then UseDp else NoIndex
    else if dp.None? then
      if ip.value.back != NoPtr then Invalid else UseIp
    else
      var i, d := ip.value, dp.value;
      if i.gen >= d.gen && i.back == d.self then UseIp
      else if i.gen > d.gen then Invalid
      else if i.gen == d.gen && i.back == NoPtr then UseDp
      else if BlockOf(d.back) > BlockOf(i.back) then
        match ReadIndex(dpRecs, BlockOf(d.back))
        case None => Invalid
        case Some(x) => if i.back == NoPtr && x.gen < i.gen then Invalid else UseDp
      else UseDp
  }

  // ---------------------------------------------------------------- coherency records

  // A cartridge memory record: generation and position of a partition's index, valid while
  // the volume change reference has not moved.
  datatype Coherency = Coherency(count: nat, setId: nat, vcr: nat)

  const VCR_MAX: nat := 0xffff_ffff_ffff_ffff

  function FastPathUsable(vcr: nat, ip: Coherency, dp: Coherency): bool
  {
    0 < vcr && ip.vcr == vcr && dp.vcr == vcr
  }

  // Where mount reads the index when both records are current.
  function FastPath(ip: Coherency, dp: Coherency): Ptr
  {
    if ip.count < dp.count then Ptr(DP, dp.setId) else Ptr(IP, ip.setId)
  }
}
