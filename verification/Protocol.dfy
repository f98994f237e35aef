// The index commit protocol on values: what holds of the medium at every tape operation,
// what holds between operations, and what each kind of write does to both.
module Protocol {
  import opened Medium

  // ---------------------------------------------------------------- invariants

  // An index is followed by a file mark, unless nothing follows.
  predicate Marked(recs: seq<Record>, b: nat)
  {
    b + 1 < |recs| ==> recs[b + 1] == FileMark
  }

  // The last record does not wait for its file mark.
  predicate Tail(recs: seq<Record>)
  {
    |recs| > 0 && !recs[|recs| - 1].IndexFile?
  }

  // Record r may come next.
  predicate Fits(recs: seq<Record>, r: Record)
  {
    !r.IndexFile? && (r == FileMark || Tail(recs))
  }

  // A back pointer leads to an index of the data partition.  Those that it passes over, if any, are
  // copies of one another.
  ghost predicate Links(dp: seq<Record>, back: Ptr)
  {
    if LastIndex(dp) < 0 then back == NoPtr
    else
      && back.Ptr? && back.part == DP && Named(dp, back.block)
      && forall j {:trigger dp[j]} :: RunEnd(dp, back.block) < j < |dp| && dp[j].IndexFile? ==>
           Copy(dp[j].idx, dp[LastIndex(dp)].idx)
  }

  // The index points back to one of the data partition, and those behind that are no older than
  // itself.
  ghost predicate PointsBack(dp: seq<Record>, x: Index)
  {
    && x.back.Ptr? && x.back.part == DP && Named(dp, x.back.block)
    && forall j {:trigger dp[j]} :: RunEnd(dp, x.back.block) < j < |dp| && dp[j].IndexFile? ==> AtLeast(dp[j].idx, x)
  }

  ghost predicate IpBack(ip: seq<Record>, dp: seq<Record>)
  {
    forall b {:trigger ip[b]} :: 0 <= b < |ip| && ip[b].IndexFile? ==> PointsBack(dp, ip[b].idx)
  }

  // Every index of the data partition is whole, knows its own position and points back to a data
  // partition index before it, and is at least as new as the one just before it.
  ghost predicate DpChain(dp: seq<Record>)
  {
    forall b {:trigger DpIndexOk(dp, b)} :: 0 <= b < |dp| && dp[b].IndexFile? ==> DpIndexOk(dp, b)
  }

  ghost predicate DpIndexOk(dp: seq<Record>, b: nat)
    requires b < |dp| && dp[b].IndexFile?
  {
    && Whole(dp, b) && Marked(dp, b) && 5 <= First(dp, b)
    && dp[b].idx.self == Ptr(DP, First(dp, b))
    && Links(dp[..b], dp[b].idx.back)
    && (LastIndex(dp[..b]) >= 0 ==> AtLeast(dp[b].idx, dp[LastIndex(dp[..b])].idx))
  }

  ghost predicate Superseded(x: Index, last: Index)
  {
    AtLeast(last, x) && x.back != last.self
  }

  ghost predicate AllSuperseded(ip: seq<Record>, last: Index)
  {
    forall b {:trigger ip[b]} :: 0 <= b < |ip| && ip[b].IndexFile? ==> Superseded(ip[b].idx, last)
  }

  // Nothing lies behind the last index of the partition but the file mark that closes it.
  predicate AtEnd(recs: seq<Record>)
  {
    LastIndex(recs) >= 0 && (LastIndex(recs) == |recs| - 1
        || (LastIndex(recs) == |recs| - 2 && recs[|recs| - 1] == FileMark))
  }

  // An index of the index partition is whole and points back to a data partition index.  It is
  // superseded by the last data partition index, unless it is at the end of its partition,
  // written after that index and no older than it and the committed one.
  ghost predicate IpIndexOk(ip: seq<Record>, b: nat, last: Index, committed: Index)
    requires b < |ip| && ip[b].IndexFile?
  {
    var x := ip[b].idx;
    && Whole(ip, b) && Marked(ip, b) && 5 <= First(ip, b)
    && x.self == Ptr(IP, First(ip, b)) && x.back.Ptr? && x.back.part == DP && x.back.block <= BlockOf(last.self)
    && (Superseded(x, last)
        || (b == LastIndex(ip) && AtEnd(ip) && x.back == last.self && AtLeast(x, last) && AtLeast(x, committed)))
  }

  ghost predicate IpOk(ip: seq<Record>, last: Index, committed: Index)
  {
    forall b {:trigger IpIndexOk(ip, b, last, committed)} ::
      0 <= b < |ip| && ip[b].IndexFile? ==> IpIndexOk(ip, b, last, committed)
  }

  function Part(ip: seq<Record>, dp: seq<Record>, p: Partition): seq<Record>
  {
    if p == IP then ip else dp
  }

  ghost predicate CommittedThere(ip: seq<Record>, dp: seq<Record>, committed: Index)
  {
    && committed.self.Ptr?
    && Complete(Part(ip, dp, committed.self.part), committed.self.block, committed)
  }

  // The medium at any tape operation.  The committed index is there, complete, and the
  // index that a consistency check will pick is at least as new.
  ghost predicate StopOk(ip: seq<Record>, dp: seq<Record>, committed: Index)
  {
    && DpChain(dp) && LastIndex(dp) >= 0 && 5 <= |ip| && IpBack(ip, dp)
    && CommittedThere(ip, dp, committed)
    && var last := dp[LastIndex(dp)].idx;
    && IpOk(ip, last, committed)
    && (AtLeast(last, committed)
        || (LastIndex(ip) >= 0 && !Superseded(ip[LastIndex(ip)].idx, last)))
  }

  ghost predicate NoneNewer(recs: seq<Record>, committed: Index)
  {
    forall b {:trigger AtLeast(committed, recs[b].idx)} :: 0 <= b < |recs| && recs[b].IndexFile? ==>
        AtLeast(committed, recs[b].idx)
  }

  // The partition ends in an index, closed by a file mark.
  ghost predicate EndsInIndex(recs: seq<Record>)
  {
    LastIndex(recs) >= 0 && LastIndex(recs) == |recs| - 2 && Whole(recs, LastIndex(recs))
        && recs[|recs| - 1] == FileMark
  }

  // The committed index is the last one of its partition.
  ghost predicate CommittedLast(recs: seq<Record>, committed: Index)
  {
    LastIndex(recs) >= 0 && recs[LastIndex(recs)].idx == committed
  }

  // Between operations: the committed index is the last one of its partition, and the end
  // flags tell the truth.
  ghost predicate Quiet(ip: seq<Record>, dp: seq<Record>, committed: Index, ipEnd: bool, dpEnd: bool)
  {
    && StopOk(ip, dp, committed)
    && NoneNewer(ip, committed) && NoneNewer(dp, committed) && Tail(ip) && Tail(dp)
    && CommittedLast(Part(ip, dp, committed.self.part), committed)
    && (ipEnd || dpEnd)
    && (ipEnd ==> EndsInIndex(ip)) && (dpEnd ==> EndsInIndex(dp))
    && (if committed.self.part == IP then ipEnd && committed.back == LastDp(dp)
        else AllSuperseded(ip, committed))
  }

  // ---------------------------------------------------------------- what a stop leaves

  // Whatever the last tape operation was, the pointer check finds a usable index that is
  // at least as new as the committed one.
  lemma StopIsRecoverable(ip: seq<Record>, dp: seq<Record>, committed: Index)
    requires StopOk(ip, dp, committed)
    ensures var v := CheckPointers(IndexOf(ip), IndexOf(dp), dp);
            || (v == UseIp && AtLeast(ip[LastIndex(ip)].idx, committed))
            || (v == UseDp && AtLeast(dp[LastIndex(dp)].idx, committed))
  {
    var d := dp[LastIndex(dp)].idx;
    assert DpIndexOk(dp, LastIndex(dp));
    BackReads(dp, LastIndex(dp));
    if LastIndex(ip) >= 0 {
      assert IpIndexOk(ip, LastIndex(ip), d, committed);
    }
  }

  // The index that a data partition index points back to can be read there.
  lemma BackReads(dp: seq<Record>, b: nat)
    requires DpChain(dp) && b < |dp| && dp[b].IndexFile?
    ensures BlockOf(dp[b].idx.back) > 0 ==> ReadIndex(dp, BlockOf(dp[b].idx.back)).Some?
  {
    hide LastIndex, Whole, Marked;
    assert DpIndexOk(dp, b);
    if BlockOf(dp[b].idx.back) > 0 {
      NamedStays(dp[..b], dp, dp[b].idx.back.block);
    }
  }

  // ---------------------------------------------------------------- back pointers

  // The last index of the data partition is where a back pointer leads.
  lemma LastLinks(dp: seq<Record>)
    requires DpChain(dp)
    ensures Links(dp, LastDp(dp))
  {
    var e := LastIndex(dp);
    if e >= 0 {
      assert DpIndexOk(dp, e);
      WholeReads(dp, e);
      assert First(dp, e) < |dp|;
    }
  }

  lemma LastPoints(dp: seq<Record>, x: Index)
    requires DpChain(dp) && LastIndex(dp) >= 0 && x.back == LastDp(dp)
    ensures PointsBack(dp, x)
  {
    var e := LastIndex(dp);
    assert DpIndexOk(dp, e);
    WholeReads(dp, e);
    assert First(dp, e) < |dp|;
  }

  // Records that are no indexes change no back pointer.
  lemma LinksStay(dp: seq<Record>, n: seq<Record>, back: Ptr)
    requires Links(dp, back) && dp <= n && LastIndex(n) == LastIndex(dp)
    ensures Links(n, back)
  {
    hide LastIndex;
    if LastIndex(dp) >= 0 {
      NamedStays(dp, n, back.block);
    }
  }

  lemma PointsStay(dp: seq<Record>, n: seq<Record>, x: Index)
    requires PointsBack(dp, x) && dp <= n
    requires forall j {:trigger n[j]} :: |dp| <= j < |n| && n[j].IndexFile? ==> AtLeast(n[j].idx, x)
    ensures PointsBack(n, x)
  {
    NamedStays(dp, n, x.back.block);
  }

  // The data partition grows, by nothing older than what is on the index partition.
  lemma IpBackGrows(ip: seq<Record>, dp: seq<Record>, n: seq<Record>)
    requires IpBack(ip, dp) && dp <= n
    requires forall j {:trigger n[j]} :: |dp| <= j < |n| && n[j].IndexFile? ==> NoneNewer(ip, n[j].idx)
    ensures IpBack(ip, n)
  {
    hide PointsBack;
    forall b | 0 <= b < |ip| && ip[b].IndexFile?
      ensures PointsBack(n, ip[b].idx)
    {
      forall j | |dp| <= j < |n| && n[j].IndexFile?
        ensures AtLeast(n[j].idx, ip[b].idx)
      {
        assert NoneNewer(ip, n[j].idx);
      }
      PointsStay(dp, n, ip[b].idx);
    }
  }

  // An index that a mount may have in memory although a copy of it is the last on the data
  // partition still leads there.
  lemma PassedLinks(dp: seq<Record>, x: Index)
    requires PointsBack(dp, x) && LastIndex(dp) >= 0 && Copy(x, dp[LastIndex(dp)].idx)
    requires NoneNewer(dp, dp[LastIndex(dp)].idx)
    ensures Links(dp, x.back)
  {
    hide LastIndex, Named;
    var last := dp[LastIndex(dp)].idx;
    forall j | RunEnd(dp, x.back.block) < j < |dp| && dp[j].IndexFile?
      ensures Copy(dp[j].idx, last)
    {
      assert AtLeast(last, dp[j].idx);
    }
  }

  lemma QuietFlags(ip: seq<Record>, dp: seq<Record>, committed: Index, ipEnd: bool, dpEnd: bool)
    requires Quiet(ip, dp, committed, ipEnd, dpEnd)
    ensures committed.self.Ptr? && (ipEnd || dpEnd) && (committed.self.part == IP ==> ipEnd)
  {
  }

  // With the committed index on the index partition, a check picks just that one.
  lemma QuietOnIp(ip: seq<Record>, dp: seq<Record>, committed: Index, ipEnd: bool, dpEnd: bool)
    requires Quiet(ip, dp, committed, ipEnd, dpEnd) && committed.self.part == IP
    ensures LastIndex(ip) >= 0 && ip[LastIndex(ip)].idx == committed
    ensures CheckPointers(IndexOf(ip), IndexOf(dp), dp) == UseIp
  {
    assert DpIndexOk(dp, LastIndex(dp)) && IpIndexOk(ip, LastIndex(ip), dp[LastIndex(dp)].idx, committed);
    assert AtLeast(committed, dp[LastIndex(dp)].idx);
  }

  // ---------------------------------------------------------------- appending records

  lemma AppendPlain(recs: seq<Record>, r: Record)
    requires DpChain(recs) && Fits(recs, r)
    ensures DpChain(recs + [r]) && LastIndex(recs + [r]) == LastIndex(recs)
  {
    LastIndexAppend(recs, r);
    hide LastIndex, Links, AtLeast;
    var n := recs + [r];
    forall b | 0 <= b < |n| && n[b].IndexFile?
      ensures DpIndexOk(n, b)
    {
      assert DpIndexOk(recs, b) && n[..b] == recs[..b];
    }
  }

  lemma ThereStays(ip: seq<Record>, dp: seq<Record>, ip': seq<Record>, dp': seq<Record>, committed: Index)
    requires CommittedThere(ip, dp, committed)
             && Part(ip, dp, committed.self.part) <= Part(ip', dp', committed.self.part)
    ensures CommittedThere(ip', dp', committed)
  {
    var recs, recs' := Part(ip, dp, committed.self.part), Part(ip', dp', committed.self.part);
    CompleteStays(recs, recs'[|recs|..], committed.self.block, committed);
    assert recs + recs'[|recs|..] == recs';
  }

  // File marks, data blocks and the first blocks of an index change nothing on the data
  // partition that a check looks at.
  lemma DpPlainStop(ip: seq<Record>, dp: seq<Record>, r: Record, committed: Index)
    requires StopOk(ip, dp, committed) && Fits(dp, r)
    ensures StopOk(ip, dp + [r], committed) && LastIndex(dp + [r]) == LastIndex(dp)
  {
    AppendPlain(dp, r);
    ThereStays(ip, dp, ip, dp + [r], committed);
    hide DpChain, IpOk, Complete, LastIndex;
    IpBackGrows(ip, dp, dp + [r]);
  }

  lemma IpKept(ip: seq<Record>, n: seq<Record>, b: nat, last: Index, committed: Index)
    requires b < |ip| && b < |n| && n[..b + 1] == ip[..b + 1] && ip[b].IndexFile? && Marked(n, b)
    requires IpIndexOk(ip, b, last, committed) && Superseded(ip[b].idx, last)
    ensures n[b] == ip[b] && IpIndexOk(n, b, last, committed)
  {
    assert n[b] == n[..b + 1][b] && forall k :: 0 <= k <= b ==> n[k] == n[..b + 1][k] == ip[k];
  }

  // The same on the index partition, where the write may first cut off the old end.  The
  // data partition holds the committed index at that time, which supersedes all others.
  lemma IpPlainStop(ip: seq<Record>, dp: seq<Record>, cut: nat, r: Record, committed: Index)
    requires StopOk(ip, dp, committed) && 4 <= cut <= |ip| && Fits(ip[..cut], r)
    requires committed.self.Ptr? && committed.self.part == DP && CommittedLast(dp, committed)
             && AllSuperseded(ip, committed)
    ensures StopOk(ip[..cut] + [r], dp, committed) && AllSuperseded(ip[..cut] + [r], committed)
  {
    var n := ip[..cut] + [r];
    hide StopOk, DpChain, AtLeast, CommittedThere, AtEnd;
    forall b | 0 <= b < |n| && n[b].IndexFile?
      ensures IpIndexOk(n, b, committed, committed) && Superseded(n[b].idx, committed)
    {
      assert n[..b + 1] == ip[..b + 1];
      IpOkAt(ip, dp, b, committed);
      assert Marked(ip, b) && (b + 1 < cut ==> n[b + 1] == ip[b + 1]);
      IpKept(ip, n, b, committed, committed);
    }
    IpBackFewer(ip, n, dp, committed);
    IpChanged(ip, n, dp, committed);
  }

  lemma IpBackFewer(ip: seq<Record>, n: seq<Record>, dp: seq<Record>, committed: Index)
    requires StopOk(ip, dp, committed)
    requires forall b {:trigger n[b]} :: 0 <= b < |n| && n[b].IndexFile? ==> b < |ip| && n[b] == ip[b]
    ensures IpBack(n, dp)
  {
    hide PointsBack, DpChain, IpOk;
  }

  lemma IpOkAt(ip: seq<Record>, dp: seq<Record>, b: nat, committed: Index)
    requires StopOk(ip, dp, committed) && b < |ip| && ip[b].IndexFile?
    ensures IpIndexOk(ip, b, dp[LastIndex(dp)].idx, committed)
  {
  }

  // With the committed index at the end of the data partition's chain, a stop is as good as
  // the index partition is.
  lemma IpChanged(ip: seq<Record>, n: seq<Record>, dp: seq<Record>, committed: Index)
    requires StopOk(ip, dp, committed) && CommittedLast(dp, committed) && committed.self.Ptr?
             && committed.self.part == DP
    requires IpOk(n, committed, committed) && 5 <= |n| && IpBack(n, dp)
    ensures StopOk(n, dp, committed)
  {
    hide DpChain, IpOk, Complete, IpBack;
    assert AtLeast(committed, committed);
  }

  // Closing the last index of the index partition.
  lemma IpCloseStop(ip: seq<Record>, dp: seq<Record>, committed: Index)
    requires StopOk(ip, dp, committed) && LastIndex(ip) >= 0 && LastIndex(ip) == |ip| - 1
    ensures StopOk(ip + [FileMark], dp, committed) && LastIndex(ip + [FileMark]) == LastIndex(ip)
  {
    hide PointsBack, DpChain, Complete;
    var n, last := ip + [FileMark], dp[LastIndex(dp)].idx;
    LastIndexAppend(ip, FileMark);
    ThereStays(ip, dp, n, dp, committed);
    forall b | 0 <= b < |n| && n[b].IndexFile?
      ensures IpIndexOk(n, b, last, committed)
    {
      assert IpIndexOk(ip, b, last, committed);
      assert First(n, b) == First(ip, b) && Whole(n, b);
    }
    IpBackFewer(ip, n, dp, committed);
  }

  // A data write to the data partition, once its end flag is down.
  lemma DpPlainQuiet(ip: seq<Record>, dp: seq<Record>, r: Record, committed: Index)
    requires Quiet(ip, dp, committed, true, false) && !r.IndexFile?
    ensures Quiet(ip, dp + [r], committed, true, false)
  {
    DpPlainStop(ip, dp, r, committed);
    hide StopOk, EndsInIndex, NoneNewer, AtLeast;
    LastDpSame(dp, r);
    NoneNewerPlain(dp, r, committed);
  }

  lemma LastDpSame(dp: seq<Record>, r: Record)
    requires !r.IndexFile?
    ensures LastDp(dp + [r]) == LastDp(dp)
  {
    LastIndexAppend(dp, r);
  }

  lemma NoneNewerPlain(recs: seq<Record>, r: Record, x: Index)
    requires NoneNewer(recs, x) && !r.IndexFile?
    ensures NoneNewer(recs + [r], x)
  {
    var n := recs + [r];
    forall b | 0 <= b < |n| && n[b].IndexFile?
      ensures AtLeast(x, n[b].idx)
    {
      assert AtLeast(x, recs[b].idx);
    }
  }

  lemma NoneNewerCut(recs: seq<Record>, cut: nat, x: Index)
    requires NoneNewer(recs, x) && cut <= |recs|
    ensures NoneNewer(recs[..cut], x)
  {
    forall b | 0 <= b < cut && recs[..cut][b].IndexFile?
      ensures AtLeast(x, recs[..cut][b].idx)
    {
      assert AtLeast(x, recs[b].idx);
    }
  }

  // A data write to the index partition, cutting off the index that was its end.
  lemma IpPlainQuiet(ip: seq<Record>, dp: seq<Record>, cut: nat, r: Record, committed: Index)
    requires Quiet(ip, dp, committed, false, true) && !r.IndexFile? && 4 <= cut <= |ip| && Tail(ip[..cut])
    ensures Quiet(ip[..cut] + [r], dp, committed, false, true)
  {
    hide StopOk, EndsInIndex, NoneNewer, AtLeast, AllSuperseded, LastIndex;
    QuietFlags(ip, dp, committed, false, true);
    IpPlainStop(ip, dp, cut, r, committed);
    NoneNewerCut(ip, cut, committed);
    NoneNewerPlain(ip[..cut], r, committed);
  }

  // ---------------------------------------------------------------- writing an index

  // The index that ltfs_write_index composes from the one in memory.
  function NextIndex(cur: Index, dirty: bool, self: Ptr): Index
  {
    Index(if dirty then cur.gen + 1 else cur.gen,
          self,
          if cur.self.Ptr? && cur.self.part == DP then cur.self else cur.back,
          cur.root)
  }

  // The index in memory differs from the committed one only in the tree, and only when dirty.
  ghost predicate InMemory(cur: Index, dirty: bool, committed: Index)
  {
    cur.(root := committed.root) == committed && (!dirty ==> cur == committed)
  }

  // A mount has passed over the committed index, which is on the data partition: it went on with a
  // copy, the index that ends the index partition.
  ghost predicate Skips(ip: seq<Record>, ipEnd: bool, base: Index, committed: Index)
  {
    && ipEnd && LastIndex(ip) >= 0 && base == ip[LastIndex(ip)].idx && Copy(base, committed)
    && committed.self.Ptr? && committed.self.part == DP
  }

  // Unless it is dirty, the index in memory describes the committed tree.  It is the committed one,
  // or the copy that a mount went on with.
  ghost predicate Remembered(ip: seq<Record>, ipEnd: bool, cur: Index, dirty: bool, committed: Index)
  {
    var base := cur.(root := committed.root);
    && (base == committed || Skips(ip, ipEnd, base, committed))
    && (!dirty ==> cur.root == committed.root)
  }

  // An index write: a file mark and the first j blocks of the index.
  function Started(recs: seq<Record>, j: nat): seq<Record>
  {
    if j == 0 then recs + [FileMark] else Started(recs, j - 1) + [IndexPart]
  }

  // All of its blocks.
  function IndexPut(recs: seq<Record>, next: Index, parts: nat): seq<Record>
  {
    Started(recs, parts) + [IndexFile(next, parts)]
  }

  // And the closing file mark.
  function IndexClosed(recs: seq<Record>, next: Index, parts: nat): seq<Record>
  {
    IndexPut(recs, next, parts) + [FileMark]
  }

  lemma {:induction false} StartedShape(recs: seq<Record>, j: nat)
    ensures var s := Started(recs, j);
            && |s| == |recs| + 1 + j && recs <= s && s[|recs|] == FileMark && Tail(s)
            && (forall k {:trigger s[k]} :: |recs| < k < |s| ==> s[k] == IndexPart)
            && LastIndex(s) == LastIndex(recs)
  {
    if j == 0 {
      LastIndexAppend(recs, FileMark);
    } else {
      StartedShape(recs, j - 1);
      OnePartMore(recs, Started(recs, j - 1));
    }
  }

  lemma OnePartMore(recs: seq<Record>, f: seq<Record>)
    requires |f| > |recs| && recs <= f && forall k {:trigger f[k]} :: |recs| < k < |f| ==> f[k] == IndexPart
    ensures var s := f + [IndexPart];
            && recs <= s && s[|recs|] == f[|recs|] && LastIndex(s) == LastIndex(f)
            && forall k {:trigger s[k]} :: |recs| < k < |s| ==> s[k] == IndexPart
  {
    LastIndexAppend(f, IndexPart);
    hide LastIndex;
    var s := f + [IndexPart];
    assert forall k {:trigger s[k]} :: 0 <= k < |f| ==> s[k] == f[k];
    assert s[..|recs|] == f[..|recs|];
  }

  lemma PutShape(recs: seq<Record>, next: Index, parts: nat)
    requires Tail(recs)
    ensures var s, t := IndexPut(recs, next, parts), IndexClosed(recs, next, parts);
            && |s| == |recs| + parts + 2 && |t| == |recs| + parts + 3 && recs <= s <= t
            && LastIndex(s) == LastIndex(t) == |recs| + parts + 1
            && s[|recs| + parts + 1] == t[|recs| + parts + 1] == IndexFile(next, parts)
            && Whole(s, |recs| + parts + 1) && Whole(t, |recs| + parts + 1)
                && First(s, |recs| + parts + 1) == |recs| + 1
            && First(t, |recs| + parts + 1) == |recs| + 1
            && AtEnd(s) && AtEnd(t) && EndsInIndex(t) && Tail(t)
  {
    StartedShape(recs, parts);
    var f, s, t := Started(recs, parts), IndexPut(recs, next, parts), IndexClosed(recs, next, parts);
    LastIndexAppend(f, IndexFile(next, parts));
    LastIndexAppend(s, FileMark);
    hide LastIndex, Started;
    assert s[..|f|] == f && t[..|s|] == s;
    assert forall k {:trigger s[k]} :: 0 <= k < |f| ==> s[k] == f[k];
    assert forall k {:trigger t[k]} :: 0 <= k < |s| ==> t[k] == s[k];
  }

  lemma PutComplete(recs: seq<Record>, next: Index, parts: nat)
    requires Tail(recs)
    ensures Complete(IndexClosed(recs, next, parts), |recs| + 1, next)
  {
    PutShape(recs, next, parts);
    var t := IndexClosed(recs, next, parts);
    WholeReads(t, |recs| + parts + 1);
  }

  lemma ChainExtend(dp: seq<Record>, x: Index, parts: nat)
    requires DpChain(dp) && LastIndex(dp) >= 0 && DpChain(Started(dp, parts)) && Tail(dp)
    requires x.self == Ptr(DP, |dp| + 1) && Links(dp, x.back) && AtLeast(x, dp[LastIndex(dp)].idx)
    ensures DpChain(IndexPut(dp, x, parts)) && DpChain(IndexClosed(dp, x, parts))
  {
    hide LastIndex, Started, DpIndexOk, Whole, AtLeast, EndsInIndex, AtEnd, First, Links;
    var f, n := Started(dp, parts), IndexPut(dp, x, parts);
    StartedShape(dp, parts);
    PutShape(dp, x, parts);
    ChainLong(dp);
    forall b | 0 <= b < |n| && n[b].IndexFile?
      ensures DpIndexOk(n, b)
    {
      assert b < |f| ==> n[b] == f[b];
      if b < |f| {
        DpKept(f, n, b);
      } else {
        NewDpOk(dp, f, n, x, parts);
      }
    }
    AppendPlain(n, FileMark);
  }

  lemma ChainLong(dp: seq<Record>)
    requires DpChain(dp) && LastIndex(dp) >= 0
    ensures |dp| > 5
  {
    assert DpIndexOk(dp, LastIndex(dp));
  }

  lemma DpKept(f: seq<Record>, n: seq<Record>, b: nat)
    requires DpChain(f) && b < |f| && f <= n && n[b].IndexFile? && Tail(f)
    ensures DpIndexOk(n, b)
  {
    assert n[b] == f[b] && n[..b] == f[..b];
    assert DpIndexOk(f, b);
    assert First(n, b) == First(f, b);
    assert b + 1 < |f|;
  }

  lemma NewDpOk(dp: seq<Record>, f: seq<Record>, n: seq<Record>, x: Index, parts: nat)
    requires LastIndex(dp) >= 0 && dp <= f <= n && LastIndex(f) == LastIndex(dp) && |f| == |dp| + 1 + parts
    requires |n| == |f| + 1 && n[|f|] == IndexFile(x, parts) && Whole(n, |f|) && First(n, |f|) == |dp| + 1
    requires 5 <= |dp| && x.self == Ptr(DP, |dp| + 1) && Links(dp, x.back) && AtLeast(x, dp[LastIndex(dp)].idx)
    ensures DpIndexOk(n, |f|)
  {
    hide LastIndex, Whole, AtLeast, First, Links;
    assert n[..|f|] == f;
    assert f[LastIndex(f)] == dp[LastIndex(dp)];
    LinksStay(dp, f, x.back);
  }

  // ---------------------------------------------------------------- the index on the data partition

  lemma {:induction false} DpStarted(ip: seq<Record>, dp: seq<Record>, j: nat, committed: Index)
    requires StopOk(ip, dp, committed)
    ensures StopOk(ip, Started(dp, j), committed)
  {
    hide StopOk, LastIndex;
    if j == 0 {
      DpPlainStop(ip, dp, FileMark, committed);
    } else {
      DpStarted(ip, dp, j - 1, committed);
      StartedShape(dp, j - 1);
      DpPlainStop(ip, Started(dp, j - 1), IndexPart, committed);
    }
  }

  // `next` may be put behind everything on the data partition.
  ghost predicate DpNext(ip: seq<Record>, dp: seq<Record>, next: Index, committed: Index)
  {
    && NoneNewer(ip, next) && NoneNewer(dp, next) && AtLeast(next, committed)
    && next.self == Ptr(DP, |dp| + 1) && Links(dp, next.back) && Tail(dp)
  }

  // It supersedes everything on the index partition.
  lemma IpSuperseded(ip: seq<Record>, dp: seq<Record>, committed: Index, next: Index)
    requires StopOk(ip, dp, committed) && DpNext(ip, dp, next, committed)
    ensures AllSuperseded(ip, next) && IpOk(ip, next, committed) && IpOk(ip, next, next)
  {
    var last := dp[LastIndex(dp)].idx;
    assert DpIndexOk(dp, LastIndex(dp));
    hide LastIndex, DpChain, DpIndexOk, Whole;
    forall b | 0 <= b < |ip| && ip[b].IndexFile?
      ensures Superseded(ip[b].idx, next)
      ensures IpIndexOk(ip, b, next, committed) && IpIndexOk(ip, b, next, next)
    {
      assert IpIndexOk(ip, b, last, committed);
      assert AtLeast(next, ip[b].idx);
    }
  }

  // Stopping before the last block of the index leaves the old one; stopping after it, the new one.
  lemma DpIndexStops(ip: seq<Record>, dp: seq<Record>, next: Index, parts: nat, committed: Index)
    requires StopOk(ip, dp, committed) && DpNext(ip, dp, next, committed)
    ensures forall j: nat {:trigger Started(dp, j)} :: StopOk(ip, Started(dp, j), committed)
    ensures StopOk(ip, IndexPut(dp, next, parts), committed) && StopOk(ip, IndexClosed(dp, next, parts), next)
    ensures AllSuperseded(ip, next)
  {
    forall j: nat
      ensures StopOk(ip, Started(dp, j), committed)
    {
      DpStarted(ip, dp, j, committed);
    }
    assert AtLeast(next, dp[LastIndex(dp)].idx);
    ChainExtend(dp, next, parts);
    IpSuperseded(ip, dp, committed, next);
    PutShape(dp, next, parts);
    PutComplete(dp, next, parts);
    ThereStays(ip, dp, ip, IndexPut(dp, next, parts), committed);
    IpBackPut(ip, dp, next, parts);
    hide DpChain, IpOk, Complete, IndexPut, LastIndex, Started, IpBack;
    assert AtLeast(next, next);
  }

  // What is on the index partition still points back when the data partition gets a newer index.
  lemma IpBackPut(ip: seq<Record>, dp: seq<Record>, next: Index, parts: nat)
    requires IpBack(ip, dp) && NoneNewer(ip, next) && Tail(dp)
    ensures IpBack(ip, IndexPut(dp, next, parts)) && IpBack(ip, IndexClosed(dp, next, parts))
  {
    hide IpBack, NoneNewer, LastIndex, Whole, Started;
    StartedShape(dp, parts);
    PutShape(dp, next, parts);
    var f, s, t := Started(dp, parts), IndexPut(dp, next, parts), IndexClosed(dp, next, parts);
    assert forall j {:trigger s[j]} :: |dp| <= j < |f| ==> s[j] == f[j];
    assert forall j {:trigger t[j]} :: |dp| <= j < |s| ==> t[j] == s[j];
    IpBackGrows(ip, dp, s);
    IpBackGrows(ip, dp, t);
  }

  lemma NoneNewerStarted(recs: seq<Record>, next: Index, parts: nat)
    requires NoneNewer(recs, next) && Tail(recs)
    ensures NoneNewer(IndexPut(recs, next, parts), next) && NoneNewer(IndexClosed(recs, next, parts), next)
  {
    StartedShape(recs, parts);
    PutShape(recs, next, parts);
    var f, s, t := Started(recs, parts), IndexPut(recs, next, parts), IndexClosed(recs, next, parts);
    hide LastIndex, Started;
    forall b | 0 <= b < |s| && s[b].IndexFile?
      ensures AtLeast(next, s[b].idx)
    {
      if b < |recs| {
        assert s[b] == f[b] == recs[b];
        assert AtLeast(next, recs[b].idx);
      }
    }
    NoneNewerPlain(s, FileMark, next);
  }

  // After it, the data partition ends in the committed index.
  lemma DpIndexDone(ip: seq<Record>, dp: seq<Record>, next: Index, parts: nat, committed: Index, ipEnd: bool)
    requires StopOk(ip, dp, committed) && DpNext(ip, dp, next, committed) && (ipEnd ==> EndsInIndex(ip)) && Tail(ip)
    ensures Quiet(ip, IndexClosed(dp, next, parts), next, ipEnd, true)
  {
    DpIndexStops(ip, dp, next, parts, committed);
    PutShape(dp, next, parts);
    NoneNewerStarted(dp, next, parts);
    hide LastIndex, StopOk, EndsInIndex, IndexClosed, NoneNewer, AllSuperseded;
  }

  lemma NextDpFacts(ip: seq<Record>, dp: seq<Record>, cur: Index, dirty: bool, committed: Index, ipEnd: bool,
      dpEnd: bool)
    requires Quiet(ip, dp, committed, ipEnd, dpEnd) && Remembered(ip, ipEnd, cur, dirty, committed)
    ensures DpNext(ip, dp, NextIndex(cur, dirty, Ptr(DP, |dp| + 1)), committed)
  {
    hide StopOk, EndsInIndex, LastIndex, AllSuperseded, Links, CommittedLast, NoneNewer;
    var next := NextIndex(cur, dirty, Ptr(DP, |dp| + 1));
    NextBack(ip, dp, cur, dirty, committed, ipEnd, dpEnd);
    NoneNewerThan(ip, committed, next);
    NoneNewerThan(dp, committed, next);
  }

  // Where the next index of the data partition points back to: the last one there, or, behind a
  // mount that passed over that, the one that the copy on the index partition points back to.
  lemma NextBack(ip: seq<Record>, dp: seq<Record>, cur: Index, dirty: bool, committed: Index, ipEnd: bool,
      dpEnd: bool)
    requires Quiet(ip, dp, committed, ipEnd, dpEnd) && Remembered(ip, ipEnd, cur, dirty, committed)
    ensures var back := NextIndex(cur, dirty, Ptr(DP, |dp| + 1)).back;
            && Links(dp, back)
            && back == (if Passes(cur, dp) then cur.back else LastDp(dp))
  {
    hide EndsInIndex, LastIndex, AllSuperseded, Links, NoneNewer, PointsBack, LastDp, IpOk, DpChain, Complete;
    CommittedPtr(ip, dp, committed, ipEnd, dpEnd);
    PassesIs(ip, dp, cur, dirty, committed, ipEnd, dpEnd);
    LastLinks(dp);
    var base := cur.(root := committed.root);
    if base != committed {
      IpSelf(ip, dp, committed);
      assert PointsBack(dp, base);
      PassedLinks(dp, base);
    }
  }

  // The index in memory does not point back to the end of the data partition.
  predicate Passes(cur: Index, dp: seq<Record>)
  {
    cur.self.Ptr? && cur.self.part == IP && cur.back != LastDp(dp)
  }

  // That is so just when a mount has passed over the committed index.
  lemma PassesIs(ip: seq<Record>, dp: seq<Record>, cur: Index, dirty: bool, committed: Index, ipEnd: bool,
      dpEnd: bool)
    requires Quiet(ip, dp, committed, ipEnd, dpEnd) && Remembered(ip, ipEnd, cur, dirty, committed)
    ensures cur.self.Ptr? && (Passes(cur, dp) <==> cur.(root := committed.root) != committed)
    ensures if Passes(cur, dp) then Skips(ip, ipEnd, cur.(root := committed.root), committed)
            else InMemory(cur, dirty, committed)
    ensures cur.self.part == IP ==>
            ipEnd && LastIndex(ip) >= 0 && cur.self.block == First(ip, LastIndex(ip))
  {
    hide EndsInIndex, LastIndex, NoneNewer, LastDp, IpOk, DpChain, Complete, IpBack, First;
    CommittedPtr(ip, dp, committed, ipEnd, dpEnd);
    if cur.(root := committed.root) != committed {
      IpSelf(ip, dp, committed);
      assert Superseded(ip[LastIndex(ip)].idx, committed);
    }
  }

  lemma IpSelf(ip: seq<Record>, dp: seq<Record>, committed: Index)
    requires StopOk(ip, dp, committed) && LastIndex(ip) >= 0
    ensures ip[LastIndex(ip)].idx.self == Ptr(IP, First(ip, LastIndex(ip)))
  {
    IpOkAt(ip, dp, LastIndex(ip), committed);
  }

  // The committed index is where its self pointer says.
  lemma CommittedPtr(ip: seq<Record>, dp: seq<Record>, committed: Index, ipEnd: bool, dpEnd: bool)
    requires Quiet(ip, dp, committed, ipEnd, dpEnd)
    ensures committed.self.Ptr? && LastIndex(dp) >= 0
    ensures var recs := Part(ip, dp, committed.self.part);
            LastIndex(recs) >= 0 && committed.self == Ptr(committed.self.part, First(recs, LastIndex(recs)))
    ensures committed.self.part == DP ==> committed.self == LastDp(dp)
  {
    if committed.self.part == DP {
      assert DpIndexOk(dp, LastIndex(dp));
    } else {
      assert IpIndexOk(ip, LastIndex(ip), dp[LastIndex(dp)].idx, committed);
    }
  }

  // ---------------------------------------------------------------- exact back pointers

  // Every index of the data partition points back to the one just before it.
  ghost predicate Tight(dp: seq<Record>)
  {
    forall b {:trigger dp[b]} :: 0 <= b < |dp| && dp[b].IndexFile? ==> dp[b].idx.back == LastDp(dp[..b])
  }

  lemma TightPrefix(dp: seq<Record>, n: seq<Record>)
    requires Tight(n) && dp <= n
    ensures Tight(dp)
  {
    forall b | 0 <= b < |dp| && dp[b].IndexFile?
      ensures dp[b].idx.back == LastDp(dp[..b])
    {
      assert n[b] == dp[b] && n[..b] == dp[..b];
    }
  }

  // Records that are no indexes change nothing about that.
  lemma TightPlain(dp: seq<Record>, n: seq<Record>)
    requires dp <= n && forall b {:trigger n[b]} :: |dp| <= b < |n| ==> !n[b].IndexFile?
    ensures Tight(n) <==> Tight(dp)
  {
    hide LastDp;
    if Tight(n) {
      TightPrefix(dp, n);
    }
    forall b | 0 <= b < |dp|
      ensures n[b] == dp[b] && n[..b] == dp[..b]
    {
    }
  }

  lemma TightPut(dp: seq<Record>, next: Index, parts: nat)
    requires Tail(dp)
    ensures Tight(IndexClosed(dp, next, parts)) <==> Tight(dp) && next.back == LastDp(dp)
  {
    hide Tight, LastDp, Started, LastIndex, Whole;
    StartedShape(dp, parts);
    var f, s := Started(dp, parts), IndexPut(dp, next, parts);
    TightPlain(dp, f);
    SameLastDp(dp, f);
    TightOne(f, next, parts);
    TightPlain(s, s + [FileMark]);
  }

  lemma TightOne(f: seq<Record>, next: Index, parts: nat)
    ensures Tight(f + [IndexFile(next, parts)]) <==> Tight(f) && next.back == LastDp(f)
  {
    hide LastDp;
    var s := f + [IndexFile(next, parts)];
    assert s[..|f|] == f && s[|f|] == IndexFile(next, parts);
    if Tight(s) {
      TightPrefix(f, s);
    }
    forall b | 0 <= b < |f|
      ensures s[b] == f[b] && s[..b] == f[..b]
    {
    }
  }

  lemma SameLastDp(dp: seq<Record>, n: seq<Record>)
    requires dp <= n && LastIndex(n) == LastIndex(dp)
    ensures LastDp(n) == LastDp(dp)
  {
  }

  // ---------------------------------------------------------------- the index on the index partition

  // `next` may be put on the index partition at a block, cutting off what is behind it.
  ghost predicate IpNext(ip: seq<Record>, dp: seq<Record>, cut: nat, next: Index, committed: Index)
  {
    && NoneNewer(ip, next) && NoneNewer(dp, next) && AtLeast(next, committed)
    && committed.self.Ptr? && committed.self.part == DP && CommittedLast(dp, committed) && AllSuperseded(ip, committed)
    && 4 <= cut <= |ip| && Tail(ip[..cut]) && next.self == Ptr(IP, cut + 1) && next.back == committed.self
  }

  lemma {:induction false} IpStarted(ip: seq<Record>, dp: seq<Record>, cut: nat, j: nat, committed: Index)
    requires StopOk(ip, dp, committed) && 4 <= cut <= |ip|
    requires committed.self.Ptr? && committed.self.part == DP && CommittedLast(dp, committed)
             && AllSuperseded(ip, committed)
    ensures StopOk(Started(ip[..cut], j), dp, committed) && AllSuperseded(Started(ip[..cut], j), committed)
  {
    hide StopOk, AllSuperseded, CommittedLast;
    if j == 0 {
      IpPlainStop(ip, dp, cut, FileMark, committed);
    } else {
      IpStarted(ip, dp, cut, j - 1, committed);
      var f := Started(ip[..cut], j - 1);
      StartedShape(ip[..cut], j - 1);
      IpPlainStop(f, dp, |f|, IndexPart, committed);
      assert f[..|f|] == f;
    }
  }

  lemma CommittedSelf(ip: seq<Record>, dp: seq<Record>, committed: Index)
    requires StopOk(ip, dp, committed) && CommittedLast(dp, committed) && committed.self.Ptr?
             && committed.self.part == DP
    ensures committed.self == Ptr(DP, First(dp, LastIndex(dp)))
  {
    assert DpIndexOk(dp, LastIndex(dp));
  }

  // An index is only written to the index partition while the data partition ends its chain in
  // the committed one.
  lemma IpIndexStops(ip: seq<Record>, dp: seq<Record>, cut: nat, next: Index, parts: nat, committed: Index)
    requires StopOk(ip, dp, committed) && IpNext(ip, dp, cut, next, committed)
    ensures forall j: nat {:trigger Started(ip[..cut], j)} :: StopOk(Started(ip[..cut], j), dp, committed)
    ensures StopOk(IndexPut(ip[..cut], next, parts), dp, committed)
    ensures IpOk(IndexClosed(ip[..cut], next, parts), committed, next)
            && IpBack(IndexClosed(ip[..cut], next, parts), dp)
  {
    forall j: nat
      ensures StopOk(Started(ip[..cut], j), dp, committed) && AllSuperseded(Started(ip[..cut], j), committed)
    {
      IpStarted(ip, dp, cut, j, committed);
    }
    var base := ip[..cut];
    hide StopOk, AllSuperseded, CommittedLast, IpOk, IpBack, NoneNewer;
    IpNewOk(base, Started(base, parts), dp, next, parts, committed);
    IpBackNew(base, Started(base, parts), dp, next, parts, committed);
    PutShape(base, next, parts);
    IpChanged(ip, IndexPut(base, next, parts), dp, committed);
  }

  lemma IpBackNew(base: seq<Record>, f: seq<Record>, dp: seq<Record>, next: Index, parts: nat, committed: Index)
    requires f == Started(base, parts) && StopOk(f, dp, committed) && CommittedLast(dp, committed) && Tail(base)
    requires committed.self.Ptr? && committed.self.part == DP && next.back == committed.self
    ensures IpBack(IndexPut(base, next, parts), dp) && IpBack(IndexClosed(base, next, parts), dp)
  {
    hide PointsBack, Started, DpChain, IpOk, LastIndex, Complete, Whole;
    CommittedSelf(f, dp, committed);
    LastPoints(dp, next);
    StartedShape(base, parts);
    PutShape(base, next, parts);
    var s, t := IndexPut(base, next, parts), IndexClosed(base, next, parts);
    forall b | 0 <= b < |t| && t[b].IndexFile?
      ensures PointsBack(dp, t[b].idx)
    {
      assert b < |f| ==> t[b] == f[b];
    }
    assert forall b {:trigger s[b]} :: 0 <= b < |s| ==> s[b] == t[b];
  }

  lemma IpNewOk(base: seq<Record>, f: seq<Record>, dp: seq<Record>, next: Index, parts: nat, committed: Index)
    requires f == Started(base, parts) && StopOk(f, dp, committed) && AllSuperseded(f, committed)
    requires committed.self.Ptr? && committed.self.part == DP && CommittedLast(dp, committed)
             && AtLeast(next, committed)
    requires 4 <= |base| && Tail(base) && next.self == Ptr(IP, |base| + 1) && next.back == committed.self
    ensures IpOk(IndexPut(base, next, parts), committed, committed)
            && IpOk(IndexClosed(base, next, parts), committed, next)
  {
    hide LastIndex, Started, Whole, AtLeast, StopOk, EndsInIndex, AtEnd, First, Superseded;
    StartedShape(base, parts);
    PutShape(base, next, parts);
    assert dp[LastIndex(dp)].idx == committed;
    forall b | 0 <= b < |f| && f[b].IndexFile?
      ensures IpIndexOk(f, b, committed, committed) && Superseded(f[b].idx, committed)
    {
      IpOkAt(f, dp, b, committed);
    }
    Reflexive(next);
    IpNewOne(f, IndexPut(base, next, parts), next, parts, committed, committed);
    IpNewOne(f, IndexClosed(base, next, parts), next, parts, committed, next);
  }

  // One more index, behind those that the last data partition index supersedes.
  lemma IpNewOne(f: seq<Record>, n: seq<Record>, next: Index, parts: nat, last: Index, committed: Index)
    requires forall b {:trigger f[b]} :: 0 <= b < |f| && f[b].IndexFile? ==>
               IpIndexOk(f, b, last, last) && Superseded(f[b].idx, last)
    requires |f| < |n| && f <= n && Tail(f) && LastIndex(n) == |f| && n[|f|] == IndexFile(next, parts)
    requires Whole(n, |f|) && Marked(n, |f|) && 5 <= First(n, |f|) && AtEnd(n)
    requires next.self == Ptr(IP, First(n, |f|)) && next.back == last.self && last.self.Ptr? && last.self.part == DP
    requires AtLeast(next, last) && AtLeast(next, committed)
    ensures IpOk(n, last, committed)
  {
    hide Whole, AtLeast, AtEnd, First, Superseded, Marked;
    forall b | 0 <= b < |n| && n[b].IndexFile?
      ensures IpIndexOk(n, b, last, committed)
    {
      if b < |f| {
        assert n[b] == f[b];
        IpBefore(f, n, b, last, committed);
      }
    }
  }

  lemma IpBefore(f: seq<Record>, n: seq<Record>, b: nat, last: Index, committed: Index)
    requires b < |f| <= |n| && f <= n && Tail(f) && f[b].IndexFile?
    requires IpIndexOk(f, b, last, last) && Superseded(f[b].idx, last)
    ensures n[b] == f[b] && IpIndexOk(n, b, last, committed)
  {
    assert b < |f| - 1 && n[b + 1] == f[b + 1];
    assert n[..b + 1] == f[..b + 1];
    IpKept(f, n, b, last, last);
    assert IpIndexOk(n, b, last, last);
  }

  lemma Reflexive(x: Index)
    ensures AtLeast(x, x)
  {
  }

  // After it, both partitions end in an index, and the committed one is on the index partition.
  lemma IpIndexDone(ip: seq<Record>, dp: seq<Record>, cut: nat, next: Index, parts: nat, committed: Index)
    requires StopOk(ip, dp, committed) && IpNext(ip, dp, cut, next, committed) && EndsInIndex(dp)
    ensures Quiet(IndexClosed(ip[..cut], next, parts), dp, next, true, true)
  {
    var t := IndexClosed(ip[..cut], next, parts);
    IpIndexStops(ip, dp, cut, next, parts, committed);
    PutShape(ip[..cut], next, parts);
    PutComplete(ip[..cut], next, parts);
    NoneNewerCut(ip, cut, next);
    NoneNewerStarted(ip[..cut], next, parts);
    CommittedSelf(ip, dp, committed);
    hide StopOk, EndsInIndex, IndexClosed, NoneNewer, AllSuperseded, IpOk, IpBack, Complete, Whole, IndexPut, AtEnd;
    IpCommits(ip, t, dp, next, committed);
    hide LastIndex;
  }

  lemma IpCommits(ip: seq<Record>, t: seq<Record>, dp: seq<Record>, next: Index, committed: Index)
    requires StopOk(ip, dp, committed) && CommittedLast(dp, committed) && committed.self.Ptr?
             && committed.self.part == DP
    requires IpOk(t, committed, next) && IpBack(t, dp) && next.self.Ptr? && next.self.part == IP
             && Complete(t, next.self.block, next)
    requires CommittedLast(t, next) && next.back == committed.self && AtLeast(next, committed) && 5 <= |t|
    ensures StopOk(t, dp, next)
  {
    hide DpChain, IpOk, Complete, IpBack;
  }

  lemma NextIpFacts(ip: seq<Record>, dp: seq<Record>, cut: nat, cur: Index, dirty: bool, committed: Index, ipEnd: bool)
    requires Quiet(ip, dp, committed, ipEnd, true) && InMemory(cur, dirty, committed)
    requires committed.self.Ptr? && committed.self.part == DP && 4 <= cut <= |ip| && Tail(ip[..cut])
    ensures IpNext(ip, dp, cut, NextIndex(cur, dirty, Ptr(IP, cut + 1)), committed)
  {
    var next := NextIndex(cur, dirty, Ptr(IP, cut + 1));
    CommittedPtr(ip, dp, committed, ipEnd, true);
    hide StopOk, EndsInIndex, LastIndex, AllSuperseded, First;
    NoneNewerThan(ip, committed, next);
    NoneNewerThan(dp, committed, next);
  }

  // ---------------------------------------------------------------- coherency records

  // The record names the last index of the partition, which is complete.
  ghost predicate Describes(coh: Coherency, recs: seq<Record>)
  {
    && EndsInIndex(recs)
    && coh.setId == First(recs, LastIndex(recs)) && coh.count == recs[LastIndex(recs)].idx.gen
  }

  // If mount's fast path is usable, both partitions end in an index, the committed one is the
  // newest.
  ghost predicate FastPathOk(ip: seq<Record>, dp: seq<Record>, committed: Index, vcr: nat, ipMam: Coherency,
      dpMam: Coherency)
  {
    FastPathUsable(vcr, ipMam, dpMam) ==> Quiet(ip, dp, committed, true, true)
  }

  // Then it reads a complete index that is at least as new as the committed one and as every
  // index on either partition: the last one of its partition.
  lemma FastPathPicksNewest(ip: seq<Record>, dp: seq<Record>, committed: Index, ipMam: Coherency, dpMam: Coherency)
    requires Quiet(ip, dp, committed, true, true) && Describes(ipMam, ip) && Describes(dpMam, dp)
    ensures var at := FastPath(ipMam, dpMam);
            var recs := Part(ip, dp, at.part);
            && LastIndex(recs) >= 0 && at.block == First(recs, LastIndex(recs))
            && var x := recs[LastIndex(recs)].idx;
            && Complete(recs, at.block, x) && AtLeast(x, committed) && NoneNewer(ip, x) && NoneNewer(dp, x)
  {
    hide StopOk, EndsInIndex, LastIndex, AllSuperseded, NoneNewer, Complete, First;
    EndComplete(ip);
    EndComplete(dp);
    NewerThanLast(ip, committed);
    NewerThanLast(dp, committed);
    var recs := Part(ip, dp, FastPath(ipMam, dpMam).part);
    NoneNewerThan(ip, committed, recs[LastIndex(recs)].idx);
    NoneNewerThan(dp, committed, recs[LastIndex(recs)].idx);
  }

  lemma EndComplete(recs: seq<Record>)
    requires EndsInIndex(recs)
    ensures LastIndex(recs) >= 0 && Complete(recs, First(recs, LastIndex(recs)), recs[LastIndex(recs)].idx)
  {
    WholeReads(recs, LastIndex(recs));
  }

  lemma NewerThanLast(recs: seq<Record>, committed: Index)
    requires NoneNewer(recs, committed) && LastIndex(recs) >= 0
    ensures AtLeast(committed, recs[LastIndex(recs)].idx)
  {
  }

  // A record is brought up to date: the change reference always, the rest if the newest index
  // is on its partition.
  function Refreshed(c: Coherency, p: Partition, idx: Index, vcr: nat): Coherency
  {
    if idx.self.Ptr? && idx.self.part == p then Coherency(idx.gen, idx.self.block, vcr) else c.(vcr := vcr)
  }

  // Then it describes the partition, if that ends in an index.
  lemma RefreshedDescribes(ip: seq<Record>, dp: seq<Record>, committed: Index, ipEnd: bool, dpEnd: bool,
      c: Coherency, p: Partition, vcr: nat)
    requires Quiet(ip, dp, committed, ipEnd, dpEnd) && (if p == IP then ipEnd else dpEnd)
    requires committed.self.Ptr? && committed.self.part != p ==> Describes(c, Part(ip, dp, p))
    ensures committed.self.Ptr? && Describes(Refreshed(c, p, committed, vcr), Part(ip, dp, p))
  {
    CommittedPtr(ip, dp, committed, ipEnd, dpEnd);
  }

  // Partitions that both end in an index are quiet with both flags up.
  lemma BothEnd(ip: seq<Record>, dp: seq<Record>, committed: Index, ipEnd: bool, dpEnd: bool)
    requires Quiet(ip, dp, committed, ipEnd, dpEnd) && EndsInIndex(ip) && EndsInIndex(dp)
    ensures Quiet(ip, dp, committed, true, true)
  {
    hide StopOk, EndsInIndex, NoneNewer, AllSuperseded;
  }

  lemma NoneNewerThan(recs: seq<Record>, committed: Index, x: Index)
    requires NoneNewer(recs, committed) && AtLeast(x, committed)
    ensures NoneNewer(recs, x)
  {
    forall b | 0 <= b < |recs| && recs[b].IndexFile?
      ensures AtLeast(x, recs[b].idx)
    {
      assert AtLeast(committed, recs[b].idx);
    }
  }
}
