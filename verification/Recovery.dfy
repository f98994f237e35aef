// What a crash leaves, and how a full check of the medium makes a consistent pair of partitions
// of it, on values.
module Recovery {
  import opened Medium
  import opened Protocol

  // The index that the pointer check decides for.
  function Chosen(ip: seq<Record>, dp: seq<Record>): Option<Index>
  {
    match CheckPointers(IndexOf(ip), IndexOf(dp), dp)
    case UseIp => IndexOf(ip)
    case UseDp => IndexOf(dp)
    case _ => None
  }

  lemma {:induction false} ChainNewest(dp: seq<Record>, b: nat, k: nat)
    requires DpChain(dp) && k <= b < |dp| && dp[b].IndexFile? && dp[k].IndexFile?
    ensures AtLeast(dp[b].idx, dp[k].idx)
    decreases b
  {
    if k < b {
      assert DpIndexOk(dp, b);
      var f := dp[..b];
      assert f[k] == dp[k];
      var prev := LastIndex(f);
      assert f[prev] == dp[prev];
      ChainNewest(dp, prev, k);
    }
  }

  // The last index of the data partition is its newest.
  lemma DpNewest(ip: seq<Record>, dp: seq<Record>, committed: Index)
    requires StopOk(ip, dp, committed)
    ensures NoneNewer(dp, dp[LastIndex(dp)].idx) && dp[LastIndex(dp)].idx.self == LastDp(dp)
  {
    var b := LastIndex(dp);
    assert DpIndexOk(dp, b);
    forall k | 0 <= k < |dp| && dp[k].IndexFile?
      ensures AtLeast(dp[b].idx, dp[k].idx)
    {
      ChainNewest(dp, b, k);
    }
  }

  // The check decides for an index at least as new as the committed one and as every other on
  // the medium.
  lemma ChosenIsNewest(ip: seq<Record>, dp: seq<Record>, committed: Index)
    requires StopOk(ip, dp, committed)
    ensures Chosen(ip, dp).Some?
    ensures var x := Chosen(ip, dp).value;
            && AtLeast(x, committed) && NoneNewer(ip, x) && NoneNewer(dp, x) && x.self.Ptr?
            && (CheckPointers(IndexOf(ip), IndexOf(dp), dp) == UseIp ==>
                  && AtEnd(ip) && x == ip[LastIndex(ip)].idx && x.self == Ptr(IP, First(ip, LastIndex(ip)))
                  && x.back == LastDp(dp))
            && (CheckPointers(IndexOf(ip), IndexOf(dp), dp) != UseIp ==>
                  x == dp[LastIndex(dp)].idx && x.self == LastDp(dp) && AllSuperseded(ip, x))
  {
    StopIsRecoverable(ip, dp, committed);
    DpNewest(ip, dp, committed);
    var x, last := Chosen(ip, dp).value, dp[LastIndex(dp)].idx;
    if LastIndex(ip) >= 0 {
      IpOkAt(ip, dp, LastIndex(ip), committed);
    }
    hide StopOk, LastIndex, Whole, ReadIndex, RunEnd;
    forall b | 0 <= b < |ip| && ip[b].IndexFile?
      ensures AtLeast(x, ip[b].idx)
      ensures CheckPointers(IndexOf(ip), IndexOf(dp), dp) != UseIp ==> Superseded(ip[b].idx, last)
    {
      IpOkAt(ip, dp, b, committed);
    }
    forall b | 0 <= b < |dp| && dp[b].IndexFile?
      ensures AtLeast(x, dp[b].idx)
    {
      assert AtLeast(last, dp[b].idx);
    }
  }

  // The index partition is as good with the chosen index for the committed one.
  lemma IpRecommit(ip: seq<Record>, last: Index, committed: Index, x: Index)
    requires IpOk(ip, last, committed)
    requires (LastIndex(ip) >= 0 && x == ip[LastIndex(ip)].idx) || AllSuperseded(ip, last)
    ensures IpOk(ip, last, x)
  {
    hide Whole, LastIndex, AtEnd, Marked, First, AtLeast;
    forall b | 0 <= b < |ip| && ip[b].IndexFile?
      ensures IpIndexOk(ip, b, last, x)
    {
      assert IpIndexOk(ip, b, last, committed);
      Reflexive(x);
    }
  }

  // A closed index at the end of a partition is complete.
  lemma ClosedIsComplete(recs: seq<Record>, b: nat)
    requires b < |recs| - 1 && recs[b].IndexFile? && Whole(recs, b) && Marked(recs, b)
    ensures First(recs, b) >= 1 && Complete(recs, First(recs, b), recs[b].idx)
  {
    WholeReads(recs, b);
  }

  // The chosen index, once it is closed, may count as the committed one.
  lemma Recommit(ip: seq<Record>, dp: seq<Record>, committed: Index)
    requires StopOk(ip, dp, committed) && Chosen(ip, dp).Some? && Chosen(ip, dp).value.self.Ptr?
    requires var recs := Part(ip, dp, Chosen(ip, dp).value.self.part); 0 <= LastIndex(recs) < |recs| - 1
    ensures StopOk(ip, dp, Chosen(ip, dp).value)
    ensures CommittedLast(Part(ip, dp, Chosen(ip, dp).value.self.part), Chosen(ip, dp).value)
  {
    ChosenIsNewest(ip, dp, committed);
    var x, last := Chosen(ip, dp).value, dp[LastIndex(dp)].idx;
    if x.self.part == IP {
      IpOkAt(ip, dp, LastIndex(ip), committed);
      ClosedIsComplete(ip, LastIndex(ip));
      NotSuperseded(ip, dp, committed);
    } else {
      assert DpIndexOk(dp, LastIndex(dp));
      ClosedIsComplete(dp, LastIndex(dp));
    }
    IpRecommit(ip, last, committed, x);
    hide IpOk, DpChain, Complete, LastIndex, CheckPointers, AllSuperseded, NoneNewer, AtEnd;
    Reflexive(x);
  }

  // An index partition index that the check decides for was written after the last one of the
  // data partition.
  lemma NotSuperseded(ip: seq<Record>, dp: seq<Record>, committed: Index)
    requires StopOk(ip, dp, committed) && CheckPointers(IndexOf(ip), IndexOf(dp), dp) == UseIp
    ensures LastIndex(ip) >= 0 && !Superseded(ip[LastIndex(ip)].idx, dp[LastIndex(dp)].idx)
  {
    assert LastIndex(dp) >= 0;
    hide StopOk, LastIndex;
  }

  // Blocks behind the last index of the data partition may go.
  lemma DpCut(ip: seq<Record>, dp: seq<Record>, cut: nat, x: Index)
    requires StopOk(ip, dp, x) && LastIndex(dp) + 1 < cut <= |dp| && NoneNewer(dp, x)
    requires x.self.Ptr? && (x.self.part == DP ==> CommittedLast(dp, x))
    ensures StopOk(ip, dp[..cut], x) && LastDp(dp[..cut]) == LastDp(dp) && NoneNewer(dp[..cut], x) && Tail(dp[..cut])
  {
    var n, b := dp[..cut], LastIndex(dp);
    LastIs(n, b);
    NoneNewerCut(dp, cut, x);
    CutChain(dp, cut);
    CutBack(ip, dp, cut);
    assert n[b] == dp[b] && First(n, b) == First(dp, b);
    if x.self.part == DP {
      assert DpIndexOk(n, b);
      ClosedIsComplete(n, b);
    }
    hide IpOk, DpChain, Complete, LastIndex, IpBack;
  }

  lemma CutBack(ip: seq<Record>, dp: seq<Record>, cut: nat)
    requires IpBack(ip, dp) && LastIndex(dp) < cut <= |dp|
    ensures IpBack(ip, dp[..cut])
  {
    hide LastIndex;
    var n := dp[..cut];
    forall b | 0 <= b < |ip| && ip[b].IndexFile?
      ensures PointsBack(n, ip[b].idx)
    {
      var back := ip[b].idx.back.block;
      assert PointsBack(dp, ip[b].idx);
      assert RunEnd(dp, back) <= LastIndex(dp);
      RunEndIs(n, back, RunEnd(dp, back));
    }
  }

  lemma CutChain(dp: seq<Record>, cut: nat)
    requires DpChain(dp) && cut <= |dp|
    ensures DpChain(dp[..cut])
  {
    var n := dp[..cut];
    forall b | 0 <= b < |n| && n[b].IndexFile?
      ensures DpIndexOk(n, b)
    {
      assert DpIndexOk(dp, b) && n[..b] == dp[..b];
    }
  }

  lemma LastIs(recs: seq<Record>, b: nat)
    requires b < |recs| && recs[b].IndexFile? && forall k :: b < k < |recs| ==> !recs[k].IndexFile?
    ensures LastIndex(recs) == b
  {
  }

  // With the data partition ending in an index, a recovered medium is quiet.
  lemma RecoveredQuiet(ip: seq<Record>, dp: seq<Record>, x: Index, ipEnd: bool)
    requires StopOk(ip, dp, x) && NoneNewer(ip, x) && NoneNewer(dp, x) && x.self.Ptr? && Tail(ip) && EndsInIndex(dp)
    requires CommittedLast(Part(ip, dp, x.self.part), x) && (ipEnd ==> EndsInIndex(ip))
    requires if x.self.part == IP then ipEnd && x.back == LastDp(dp) else AllSuperseded(ip, x)
    ensures Quiet(ip, dp, x, ipEnd, true)
  {
    hide StopOk, NoneNewer, AllSuperseded, LastIndex, Whole;
    assert Tail(dp);
  }

  // An index at the end, closed.
  lemma EndsThere(ip: seq<Record>, dp: seq<Record>, committed: Index)
    requires StopOk(ip, dp, committed)
    ensures AtEnd(ip) && LastIndex(ip) < |ip| - 1 ==> EndsInIndex(ip)
    ensures AtEnd(dp) && LastIndex(dp) < |dp| - 1 ==> EndsInIndex(dp)
    ensures LastIndex(ip) != |ip| - 1 ==> Tail(ip)
    ensures LastIndex(dp) != |dp| - 1 ==> Tail(dp)
  {
    assert DpIndexOk(dp, LastIndex(dp));
    if LastIndex(ip) >= 0 {
      assert IpIndexOk(ip, LastIndex(ip), dp[LastIndex(dp)].idx, committed);
    }
  }

  // Where the index partition may be written on after a check.
  predicate IpCut(ip: seq<Record>, cut: nat)
  {
    4 <= cut <= |ip| && Tail(ip[..cut])
  }

  // Anywhere behind the last index and its file mark.
  lemma CutBehind(ip: seq<Record>, cut: nat)
    requires LastIndex(ip) + 1 < cut <= |ip| && 4 <= cut
    ensures IpCut(ip, cut)
  {
    assert ip[..cut][cut - 1] == ip[cut - 1];
  }

  lemma LastIp(ip: seq<Record>, dp: seq<Record>, committed: Index)
    requires StopOk(ip, dp, committed) && LastIndex(ip) >= 0
    ensures var b := LastIndex(ip);
            && 5 <= First(ip, b) < |ip| && !ip[First(ip, b) - 2].IndexFile? && ip[b].idx.self == Ptr(IP, First(ip, b))
  {
    IpOkAt(ip, dp, LastIndex(ip), committed);
  }

  // Or in front of the last index.
  lemma CutOver(ip: seq<Record>, dp: seq<Record>, committed: Index)
    requires StopOk(ip, dp, committed) && LastIndex(ip) >= 0
    ensures 5 <= First(ip, LastIndex(ip)) < |ip| && IpCut(ip, First(ip, LastIndex(ip)) - 1)
  {
    hide StopOk, LastIndex, First;
    LastIp(ip, dp, committed);
    var cut := First(ip, LastIndex(ip)) - 1;
    assert ip[..cut][cut - 1] == ip[cut - 1];
  }

  lemma IpLong(ip: seq<Record>, dp: seq<Record>, committed: Index)
    requires StopOk(ip, dp, committed)
    ensures 5 <= |ip| && LastIndex(dp) >= 0
  {
  }

  // The coherency data that a check takes from the last index of a partition.
  function Found(c: Coherency, recs: seq<Record>): Coherency
  {
    if LastIndex(recs) < 0 then c
        else c.(count := recs[LastIndex(recs)].idx.gen, setId := BlockOf(recs[LastIndex(recs)].idx.self))
  }

  lemma FoundDescribes(ip: seq<Record>, dp: seq<Record>, committed: Index, c: Coherency)
    requires StopOk(ip, dp, committed)
    ensures EndsInIndex(ip) ==> Describes(Found(c, ip), ip)
    ensures EndsInIndex(dp) ==> Describes(Found(c, dp), dp)
  {
    assert DpIndexOk(dp, LastIndex(dp));
    if LastIndex(ip) >= 0 {
      assert IpIndexOk(ip, LastIndex(ip), dp[LastIndex(dp)].idx, committed);
    }
  }

  // A medium that a check has settled on, with no index waiting for its file mark.
  ghost predicate Settled(ip: seq<Record>, dp: seq<Record>, x: Index)
  {
    && StopOk(ip, dp, x) && NoneNewer(ip, x) && NoneNewer(dp, x) && Tail(ip) && Tail(dp) && x.self.Ptr?
    && CommittedLast(Part(ip, dp, x.self.part), x)
    && (if x.self.part == IP then EndsInIndex(ip) && x.back == LastDp(dp)
        else x.self == LastDp(dp) && AllSuperseded(ip, x))
  }

  lemma Settles(ip: seq<Record>, dp: seq<Record>, committed: Index)
    requires StopOk(ip, dp, committed) && LastIndex(ip) != |ip| - 1 && LastIndex(dp) != |dp| - 1
    ensures Chosen(ip, dp).Some? && Settled(ip, dp, Chosen(ip, dp).value) && AtLeast(Chosen(ip, dp).value, committed)
    ensures CheckPointers(IndexOf(ip), IndexOf(dp), dp) == UseIp <==> Chosen(ip, dp).value.self.part == IP
  {
    ChosenIsNewest(ip, dp, committed);
    EndsThere(ip, dp, committed);
    Recommit(ip, dp, committed);
    hide StopOk, NoneNewer, AllSuperseded, LastIndex, EndsInIndex;
  }

  // A settled medium takes another index on the data partition, whatever is cut off behind the
  // last one.
  lemma SettledDp(ip: seq<Record>, dp: seq<Record>, x: Index, cut: nat)
    requires Settled(ip, dp, x) && LastIndex(dp) + 1 < cut <= |dp|
    ensures StopOk(ip, dp[..cut], x) && DpNext(ip, dp[..cut], NextIndex(x, true, Ptr(DP, cut + 1)), x)
    ensures NextIndex(x, true, Ptr(DP, cut + 1)).back == LastDp(dp[..cut])
  {
    hide StopOk, AllSuperseded, LastIndex, EndsInIndex, CommittedLast, Links, LastDp, NoneNewer, Tail;
    DpCut(ip, dp, cut, x);
    EndLinks(ip, dp[..cut], x);
    var next := NextIndex(x, true, Ptr(DP, cut + 1));
    NoneNewerThan(ip, x, next);
    NoneNewerThan(dp[..cut], x, next);
  }

  lemma EndLinks(ip: seq<Record>, dp: seq<Record>, committed: Index)
    requires StopOk(ip, dp, committed)
    ensures Links(dp, LastDp(dp))
  {
    LastLinks(dp);
  }

  lemma SettledQuiet(ip: seq<Record>, dp: seq<Record>, x: Index, ipEnd: bool)
    requires Settled(ip, dp, x) && EndsInIndex(dp) && (if ipEnd then EndsInIndex(ip) else x.self.part == DP)
    ensures Quiet(ip, dp, x, ipEnd, true)
  {
    RecoveredQuiet(ip, dp, x, ipEnd);
  }

  // ---------------------------------------------------------------- what a check does to the medium

  // The pointer check decides as before once a missing file mark is filled in.
  lemma ClosingKeeps(ip: seq<Record>, dp: seq<Record>, ip': seq<Record>, dp': seq<Record>, committed: Index)
    requires StopOk(ip, dp, committed) && dp <= dp' && IndexOf(ip') == IndexOf(ip) && IndexOf(dp') == IndexOf(dp)
    ensures CheckPointers(IndexOf(ip'), IndexOf(dp'), dp') == CheckPointers(IndexOf(ip), IndexOf(dp), dp)
    ensures Chosen(ip', dp') == Chosen(ip, dp)
  {
    BackReads(dp, LastIndex(dp));
    var back := BlockOf(dp[LastIndex(dp)].idx.back);
    if back > 0 {
      RunEndIs(dp', back, RunEnd(dp, back));
    }
  }

  // Whether the check gives up: on blocks behind the last index of a partition, unless it may go
  // deep; on bad extents if the index partition has no index; and, if it would have to write an
  // index, on data beyond the end of the data partition.
  predicate Refuses(ip: seq<Record>, dp: seq<Record>, deep: bool, lastDp: nat, extentsOk: bool)
  {
    var extra := !AtEnd(ip) || !AtEnd(dp);
    || (!deep && extra)
    || (LastIndex(ip) < 0 && !extentsOk)
    || (lastDp > EndWithMark(dp) && (extra || CheckPointers(IndexOf(ip), IndexOf(dp), dp) != UseIp))
  }

  // The end of a partition, once a missing file mark behind its last index is filled in.
  function EndWithMark(recs: seq<Record>): nat
  {
    if LastIndex(recs) >= 0 && LastIndex(recs) == |recs| - 1 then |recs| + 1 else |recs|
  }

  // Where the check has the index partition written on: over the index at its end, or behind the
  // last block that the chosen index refers to.
  function IpFrom(ip: seq<Record>, lastIp: nat): nat
  {
    var e := LastIndex(ip);
    if e < 0 then 4
    else if AtEnd(ip) || lastIp < e + 2 then (if First(ip, e) > 0 then First(ip, e) - 1 else 0)
    else if lastIp < |ip| then lastIp
    else |ip|
  }

  // The data partition goes on at its end, behind its last index, or behind the last block in use.
  function DpFrom(dp: seq<Record>, lastDp: nat): nat
  {
    var e := LastIndex(dp);
    if AtEnd(dp) || lastDp >= |dp| then |dp| else if lastDp < e + 2 then e + 2 else lastDp
  }

  lemma IpFromCuts(ip: seq<Record>, dp: seq<Record>, committed: Index, lastIp: nat)
    requires StopOk(ip, dp, committed) && LastIndex(ip) != |ip| - 1
    ensures IpCut(ip, IpFrom(ip, lastIp))
    ensures AtEnd(ip) ==> IpFrom(ip, lastIp) == First(ip, LastIndex(ip)) - 1
  {
    hide StopOk, LastIndex, IpCut, First;
    IpLong(ip, dp, committed);
    CutBehind(ip, |ip|);
    if LastIndex(ip) >= 0 {
      CutOver(ip, dp, committed);
      if LastIndex(ip) + 2 <= lastIp < |ip| && 4 <= lastIp {
        CutBehind(ip, lastIp);
      }
    } else {
      CutBehind(ip, 4);
    }
    FromIndex(ip, dp, committed);
  }

  // An index on the index partition does not end before block 5.
  lemma FromIndex(ip: seq<Record>, dp: seq<Record>, committed: Index)
    requires StopOk(ip, dp, committed)
    ensures LastIndex(ip) >= 0 ==> 5 <= LastIndex(ip)
  {
    if LastIndex(ip) >= 0 {
      IpOkAt(ip, dp, LastIndex(ip), committed);
    }
  }

  // ---------------------------------------------------------------- which data a check spares

  // The partition was written on from block `from`, with no data.
  ghost predicate WrittenOn(was: seq<Record>, now: seq<Record>, from: nat)
  {
    && from <= |was| && from <= |now| && now[..from] == was[..from]
    && forall b {:trigger now[b]} :: from <= b < |now| ==> !now[b].Block?
  }

  // Record b is still on the partition.
  predicate Still(was: seq<Record>, now: seq<Record>, b: nat)
    requires b < |was|
  {
    b < |now| && now[b] == was[b]
  }

  ghost predicate AllData(was: seq<Record>, now: seq<Record>)
  {
    forall b {:trigger was[b]} :: 0 <= b < |was| && was[b].Block? ==> Still(was, now, b)
  }

  lemma NoneLost(was: seq<Record>, now: seq<Record>)
    requires now == was || WrittenOn(was, now, |was|)
    ensures AllData(was, now)
  {
    assert now == was || now[..|was|] == was[..|was|];
  }

  // What becomes of the data on a partition, when the index to go on with refers to blocks before `end`:
  // of a partition with an index, the blocks in front of its last one stay, and those that are referred
  // to.  Of a partition without one only what is in front of block 4 stays.
  ghost predicate Spared(was: seq<Record>, now: seq<Record>, end: nat)
  {
    forall b {:trigger was[b]} :: 0 <= b < |was| && was[b].Block? ==>
      (Still(was, now, b) <==> if LastIndex(was) < 0 then b < 4 else b < LastIndex(was) || b < end)
  }

  // So all that is referred to stays if, and only if, the partition has an index, or has no data that is.
  lemma SparesInUse(was: seq<Record>, now: seq<Record>, end: nat)
    requires Spared(was, now, end)
    ensures (forall b {:trigger was[b]} :: 0 <= b < |was| && b < end && was[b].Block? ==> Still(was, now, b)) <==>
            LastIndex(was) >= 0 || forall b {:trigger was[b]} :: 4 <= b < |was| && b < end ==> !was[b].Block?
  {
    hide LastIndex, Still;
    if LastIndex(was) < 0 && exists b {:trigger was[b]} :: 4 <= b < |was| && b < end && was[b].Block? {
      var b :| 4 <= b < |was| && b < end && was[b].Block?;
      assert !Still(was, now, b);
    }
  }

  // Where no data is between the last index and block `from`, or from there on, but what is referred to.
  lemma WrittenSpares(was: seq<Record>, now: seq<Record>, from: nat, end: nat)
    requires WrittenOn(was, now, from)
    requires forall b {:trigger was[b]} :: 0 <= b < |was| && was[b].Block? ==>
               (b < from <==> if LastIndex(was) < 0 then b < 4 else b < LastIndex(was) || b < end)
    ensures Spared(was, now, end)
  {
    hide LastIndex;
    forall b | 0 <= b < |was| && was[b].Block?
      ensures Still(was, now, b) <==> b < from
    {
      assert b < from ==> now[..from][b] == was[..from][b];
    }
  }

  // Behind the last index of a partition that ends in it there is no data.
  lemma EndSpares(recs: seq<Record>, end: nat)
    requires AtEnd(recs)
    ensures Spared(recs, recs, end)
  {
    hide LastIndex;
  }

  // Filling in a file mark spares everything.
  lemma SparedBefore(was: seq<Record>, mid: seq<Record>, now: seq<Record>, end: nat)
    requires Spared(mid, now, end) && was <= mid && LastIndex(was) == LastIndex(mid)
    ensures Spared(was, now, end)
  {
    hide LastIndex;
    forall b | 0 <= b < |was| && was[b].Block?
      ensures Still(was, now, b) <==> if LastIndex(was) < 0 then b < 4 else b < LastIndex(was) || b < end
    {
      assert mid[b] == was[b];
    }
  }

  // The blocks of a whole index, and its file marks, hold no data.
  lemma NoDataIn(recs: seq<Record>, e: nat, b: nat)
    requires e < |recs| && recs[e].IndexFile? && Whole(recs, e) && Marked(recs, e) && First(recs, e) >= 1
    requires b < |recs| && recs[b].Block? && First(recs, e) - 1 <= b
    ensures e + 2 <= b
  {
    hide LastIndex;
  }

  // What the check writes to the index partition.
  lemma IpSpares(ip: seq<Record>, dp: seq<Record>, committed: Index, now: seq<Record>, lastIp: nat)
    requires StopOk(ip, dp, committed) && LastIndex(ip) != |ip| - 1 && WrittenOn(ip, now, IpFrom(ip, lastIp))
    ensures Spared(ip, now, lastIp)
  {
    var e := LastIndex(ip);
    if e >= 0 {
      IpOkAt(ip, dp, e, committed);
    }
    hide StopOk, LastIndex, Whole, Marked, First, WrittenOn;
    forall b | 0 <= b < |ip| && ip[b].Block?
      ensures b < IpFrom(ip, lastIp) <==> if e < 0 then b < 4 else b < e || b < lastIp
    {
      if e >= 0 {
        FirstIn(ip, e);
        if First(ip, e) - 1 <= b {
          NoDataIn(ip, e, b);
        }
      }
    }
    WrittenSpares(ip, now, IpFrom(ip, lastIp), lastIp);
  }

  lemma FirstIn(recs: seq<Record>, e: nat)
    requires e < |recs| && recs[e].IndexFile?
    ensures First(recs, e) <= e
  {
  }

  // And to the data partition.
  lemma DpSpares(ip: seq<Record>, dp: seq<Record>, committed: Index, now: seq<Record>, lastDp: nat)
    requires StopOk(ip, dp, committed) && LastIndex(dp) != |dp| - 1 && WrittenOn(dp, now, DpFrom(dp, lastDp))
    ensures Spared(dp, now, lastDp)
  {
    var e := LastIndex(dp);
    assert DpIndexOk(dp, e);
    hide StopOk, LastIndex, Whole, Marked, First, WrittenOn;
    forall b | 0 <= b < |dp| && dp[b].Block?
      ensures b < DpFrom(dp, lastDp) <==> b < e || b < lastDp
    {
      FirstIn(dp, e);
      if First(dp, e) - 1 <= b {
        NoDataIn(dp, e, b);
      }
    }
    WrittenSpares(dp, now, DpFrom(dp, lastDp), lastDp);
  }

  lemma CutSome(ip: seq<Record>, cut: nat)
    requires IpCut(ip, cut)
    ensures 4 <= cut <= |ip|
  {
  }

  // An index write adds no data.
  lemma ClosedOn(was: seq<Record>, from: nat, next: Index, parts: nat)
    requires from <= |was|
    ensures WrittenOn(was, IndexClosed(was[..from], next, parts), from)
  {
    StartedShape(was[..from], parts);
    var f, t := Started(was[..from], parts), IndexClosed(was[..from], next, parts);
    assert t == f + [IndexFile(next, parts), FileMark];
    hide Started, IndexClosed;
    assert forall b :: 0 <= b < |f| ==> t[b] == f[b];
    assert t[..from] == was[..from];
  }

  // ---------------------------------------------------------------- the fast path

  // What mount's fast path reads from a medium whose partitions both end in an index: the
  // committed index, except that with equal generations it is the one on the index partition,
  // even if that was followed by another one on the data partition.
  lemma FastPathReads(ip: seq<Record>, dp: seq<Record>, committed: Index, ipMam: Coherency, dpMam: Coherency)
    requires Quiet(ip, dp, committed, true, true) && Describes(ipMam, ip) && Describes(dpMam, dp)
    ensures var at := FastPath(ipMam, dpMam);
            var x := Part(ip, dp, at.part)[LastIndex(Part(ip, dp, at.part))].idx;
            && Complete(Part(ip, dp, at.part), at.block, x) && (at.part == DP ==> x == committed)
            && (at.part == IP ==> (x == committed <==> x.back == LastDp(dp)))
            && x.gen == committed.gen && x.root == committed.root
  {
    CommittedPtr(ip, dp, committed, true, true);
    FastPathPicksNewest(ip, dp, committed, ipMam, dpMam);
    var at := FastPath(ipMam, dpMam);
    var x := Part(ip, dp, at.part)[LastIndex(Part(ip, dp, at.part))].idx;
    assert AtLeast(committed, dp[LastIndex(dp)].idx) && AtLeast(committed, ip[LastIndex(ip)].idx);
    IpOkAt(ip, dp, LastIndex(ip), committed);
  }
}
