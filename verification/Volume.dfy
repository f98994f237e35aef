// A mounted volume: the tape with its two partitions, the index in memory, and the write
// operations that keep the two consistent.
module Volume {
  import opened Medium
  import opened Protocol
  import opened Recovery

  // ---------------------------------------------------------------- the drive

  // The drive with its cartridge: both partitions, the current position, the recorded
  // append positions (0 stands for the end of data) and the cartridge memory.
  datatype Drive = Drive(ip: seq<Record>, dp: seq<Record>, at: Ptr, appendIp: nat, appendDp: nat,
                         vcr: nat, ipMam: Coherency, dpMam: Coherency)
  {
    function Recs(p: Partition): seq<Record>
    {
      Part(ip, dp, p)
    }

    // Seek to a partition's append position, recording it if it was not known.
    function SeekAppend(p: Partition): Drive
    {
      if p == IP then
        var b := if appendIp == 0 then |ip| else appendIp;
        this.(at := Ptr(IP, b), appendIp := b)
      else
        var b := if appendDp == 0 then |dp| else appendDp;
        this.(at := Ptr(DP, b), appendDp := b)
    }

    // Seek to the end of data of a partition, recording it.
    function SeekEnd(p: Partition): Drive
    {
      if p == IP then this.(at := Ptr(IP, |ip|), appendIp := |ip|) else this.(at := Ptr(DP, |dp|), appendDp := |dp|)
    }

    predicate CanWrite()
    {
      at.Ptr? && at.block <= |Recs(at.part)|
    }

    // Write one record.  Everything behind it is gone, and the volume change reference moves.
    function Put(r: Record): Drive
      requires CanWrite()
    {
      var next := Ptr(at.part, at.block + 1);
      if at.part == IP then
        this.(ip := ip[..at.block] + [r], at := next, appendIp := at.block + 1, vcr := vcr + 1)
      else
        this.(dp := dp[..at.block] + [r], at := next, appendDp := at.block + 1, vcr := vcr + 1)
    }
  }

  // The medium as one tape operation left it, with the index that was committed then.
  datatype Stop = Stop(drive: Drive, committed: Index)

  ghost predicate Survives(s: Stop)
  {
    && StopOk(s.drive.ip, s.drive.dp, s.committed)
    && MamOk(s.drive.ip, s.drive.dp, s.drive.vcr, s.drive.ipMam, s.drive.dpMam)
    && FastPathOk(s.drive.ip, s.drive.dp, s.committed, s.drive.vcr, s.drive.ipMam, s.drive.dpMam)
  }

  // What surviving means: the committed index is on the medium with file marks on both sides,
  // the pointer check decides for an index at least as new, and the fast path reads one
  // whenever the coherency records allow it.
  lemma SurvivingStop(s: Stop)
    requires Survives(s)
    ensures s.committed.self.Ptr?
    ensures Complete(s.drive.Recs(s.committed.self.part), s.committed.self.block, s.committed)
    ensures var v := CheckPointers(IndexOf(s.drive.ip), IndexOf(s.drive.dp), s.drive.dp);
            || (v == UseIp && AtLeast(s.drive.ip[LastIndex(s.drive.ip)].idx, s.committed))
            || (v == UseDp && AtLeast(s.drive.dp[LastIndex(s.drive.dp)].idx, s.committed))
    ensures FastPathUsable(s.drive.vcr, s.drive.ipMam, s.drive.dpMam) ==>
              var at := FastPath(s.drive.ipMam, s.drive.dpMam);
              var x := ReadIndex(s.drive.Recs(at.part), at.block);
              x.Some? && Complete(s.drive.Recs(at.part), at.block, x.value) && AtLeast(x.value, s.committed)
  {
    StopIsRecoverable(s.drive.ip, s.drive.dp, s.committed);
    if FastPathUsable(s.drive.vcr, s.drive.ipMam, s.drive.dpMam) {
      FastPathPicksNewest(s.drive.ip, s.drive.dp, s.committed, s.drive.ipMam, s.drive.dpMam);
    }
  }

  lemma SameMedium(s: Stop, t: Stop)
    requires Survives(s) && t.committed == s.committed && t.drive.ip == s.drive.ip && t.drive.dp == s.drive.dp
    requires t.drive.vcr == s.drive.vcr && t.drive.ipMam == s.drive.ipMam && t.drive.dpMam == s.drive.dpMam
    ensures Survives(t)
  {
  }

  // At every stop, every index of the data partition points to itself, and back to an index before
  // it that can be read there.  The indexes that it passes over are copies of the one just before it.
  // Where no mount passed over an index, none are passed over here.
  lemma BackPointers(s: Stop, b: nat)
    requires Survives(s) && b < |s.drive.dp| && s.drive.dp[b].IndexFile?
    ensures s.drive.dp[b].idx.self == Ptr(DP, First(s.drive.dp, b)) && Links(s.drive.dp[..b], s.drive.dp[b].idx.back)
    ensures var back := s.drive.dp[b].idx.back; back.Ptr? ==> ReadIndex(s.drive.dp, back.block).Some?
    ensures Tight(s.drive.dp) ==> s.drive.dp[b].idx.back == LastDp(s.drive.dp[..b])
    ensures var before := LastIndex(s.drive.dp[..b]);
            before >= 0 ==> s.drive.dp[before].IndexFile? && AtLeast(s.drive.dp[b].idx, s.drive.dp[before].idx)
  {
    hide LastIndex, Whole, Marked, LastDp, MamOk, FastPathOk, IpOk, IpBack, Complete;
    assert DpIndexOk(s.drive.dp, b);
    var dp, f, back := s.drive.dp, s.drive.dp[..b], s.drive.dp[b].idx.back;
    if LastIndex(f) >= 0 {
      NamedStays(f, dp, back.block);
    }
  }

  // What one tape operation does to a partition: a record goes somewhere, and all behind it is gone.
  ghost predicate OnePut(recs: seq<Record>, now: seq<Record>)
  {
    0 < |now| <= |recs| + 1 && now[..|now| - 1] == recs[..|now| - 1]
  }

  // And to the medium: a record is written to one of the partitions, or only cartridge memory.
  ghost predicate OneWrite(d: Drive, d': Drive)
  {
    || (d'.ip == d.ip && d'.dp == d.dp)
    || (OnePut(d.ip, d'.ip) && d'.dp == d.dp)
    || (d'.ip == d.ip && OnePut(d.dp, d'.dp))
  }

  lemma PutOne(d: Drive, r: Record)
    requires d.CanWrite()
    ensures OneWrite(d, d.Put(r))
  {
    assert d.Put(r).Recs(d.at.part)[..d.at.block] == d.Recs(d.at.part)[..d.at.block];
  }

  // Stop k came about by one tape operation.
  ghost predicate Stepped(log: seq<Stop>, k: nat)
    requires 0 < k < |log|
  {
    OneWrite(log[k - 1].drive, log[k].drive)
  }

  // All stops survive, and what is committed never gets older.  No tape operation is missing, and the
  // last stop is what is on the medium now.
  ghost predicate AllSurvive(log: seq<Stop>, committed: Index, ip: seq<Record>, dp: seq<Record>)
  {
    && (forall k {:trigger log[k]} :: 0 <= k < |log| ==> Survives(log[k]) && AtLeast(committed, log[k].committed))
    && (forall j, k {:trigger log[j], log[k]} :: 0 <= j < k < |log| ==> AtLeast(log[k].committed, log[j].committed))
    && (forall k {:trigger Stepped(log, k)} :: 0 < k < |log| ==> Stepped(log, k))
    && (log != [] ==> log[|log| - 1].drive.ip == ip && log[|log| - 1].drive.dp == dp)
  }

  lemma SurvivesMore(log: seq<Stop>, d: Drive, s: Stop)
    requires AllSurvive(log, s.committed, d.ip, d.dp) && Survives(s) && OneWrite(d, s.drive)
    ensures AllSurvive(log + [s], s.committed, s.drive.ip, s.drive.dp)
  {
    hide Survives, OneWrite;
    forall k | 0 < k <= |log|
      ensures Stepped(log + [s], k)
    {
      if k < |log| {
        assert Stepped(log, k);
      } else {
        OneWriteFrom(d, log[k - 1].drive, s.drive);
      }
    }
  }

  lemma OneWriteFrom(d: Drive, e: Drive, d': Drive)
    requires OneWrite(d, d') && e.ip == d.ip && e.dp == d.dp
    ensures OneWrite(e, d')
  {
  }

  lemma CommitsMore(log: seq<Stop>, committed: Index, d: Drive, next: Index)
    requires AllSurvive(log, committed, d.ip, d.dp) && AtLeast(next, committed)
    ensures AllSurvive(log, next, d.ip, d.dp)
  {
    hide Survives, Stepped;
  }

  // The log gets longer.  In the new states, every index of the data partition points back to the
  // one before it, if that holds of `dp`.
  ghost predicate Added(log0: seq<Stop>, log1: seq<Stop>, dp: seq<Record>)
  {
    && log0 <= log1
    && (Tight(dp) ==> forall k {:trigger log1[k]} :: |log0| <= k < |log1| ==> Tight(log1[k].drive.dp))
  }

  lemma AddedNone(log: seq<Stop>, dp: seq<Record>)
    ensures Added(log, log, dp)
  {
  }

  lemma AddedOne(log0: seq<Stop>, log1: seq<Stop>, dp: seq<Record>, s: Stop)
    requires Added(log0, log1, dp) && dp <= s.drive.dp
    ensures Added(log0, log1 + [s], s.drive.dp)
  {
    hide Tight;
    if Tight(s.drive.dp) {
      TightPrefix(dp, s.drive.dp);
    }
  }

  lemma AddedGrowing(log0: seq<Stop>, log1: seq<Stop>, dp1: seq<Record>, log2: seq<Stop>, dp2: seq<Record>)
    requires Added(log0, log1, dp1) && Added(log1, log2, dp2) && dp1 <= dp2
    ensures Added(log0, log2, dp2)
  {
    hide Tight, Added;
    if Tight(dp2) {
      TightPrefix(dp1, dp2);
    }
    AddedTwice(log0, log1, dp1, log2, dp2);
  }

  lemma AddedTwice(log0: seq<Stop>, log1: seq<Stop>, dp1: seq<Record>, log2: seq<Stop>, dp2: seq<Record>)
    requires Added(log0, log1, dp1) && Added(log1, log2, dp2) && (Tight(dp2) ==> Tight(dp1))
    ensures Added(log0, log2, dp2)
  {
    hide Tight;
  }

  // ---------------------------------------------------------------- invariants on values

  ghost predicate NoNewerMam(d: Drive)
  {
    d.ipMam.vcr <= d.vcr && d.dpMam.vcr <= d.vcr
  }

  // A stored record that is current describes its partition.
  ghost predicate MamOk(ip: seq<Record>, dp: seq<Record>, vcr: nat, ipMam: Coherency, dpMam: Coherency)
  {
    && 0 < vcr && ipMam.vcr <= vcr && dpMam.vcr <= vcr
    && (ipMam.vcr == vcr ==> Describes(ipMam, ip))
    && (dpMam.vcr == vcr ==> Describes(dpMam, dp))
  }

  // So does the record in memory while the partition ends in an index.
  ghost predicate CohOk(ip: seq<Record>, dp: seq<Record>, vcr: nat, ipEnd: bool, dpEnd: bool, ipCoh: Coherency,
      dpCoh: Coherency)
  {
    && (vcr < VCR_MAX && ipEnd ==> Describes(ipCoh, ip))
    && (vcr < VCR_MAX && dpEnd ==> Describes(dpCoh, dp))
  }

  // The record of a partition was brought up to date, in memory and, where that works, on the cartridge; or
  // left alone.
  ghost predicate RecordedIn(up: bool, works: bool, p: Partition, idx: Index, vcr: nat, was: Coherency, now: Coherency,
      wasMam: Coherency, nowMam: Coherency)
  {
    if up then now == Refreshed(was, p, idx, vcr) && nowMam == if works then now else wasMam
    else now == was && nowMam == wasMam
  }

  lemma StoreOk(d: Drive, c: Coherency, p: Partition)
    requires MamOk(d.ip, d.dp, d.vcr, d.ipMam, d.dpMam) && c.vcr == d.vcr && Describes(c, d.Recs(p))
    ensures MamOk(d.ip, d.dp, d.vcr, if p == IP then c else d.ipMam, if p == DP then c else d.dpMam)
  {
    hide Describes;
  }

  // Where the index partition is written next: behind everything, except that the index at its
  // end is overwritten.
  function IpAppend(ip: seq<Record>, ipEnd: bool): nat
  {
    if ipEnd && LastIndex(ip) >= 0 && First(ip, LastIndex(ip)) > 0 then First(ip, LastIndex(ip)) - 1 else |ip|
  }

  ghost predicate AppendsOk(ip: seq<Record>, dp: seq<Record>, appendIp: nat, appendDp: nat, ipEnd: bool)
  {
    && (appendDp == 0 || appendDp == |dp|)
    && 4 <= appendIp <= |ip| && appendIp == IpAppend(ip, ipEnd) && Tail(ip[..appendIp])
  }

  // The part of a partition that no write ever cuts off again.
  function Stable(ip: seq<Record>, dp: seq<Record>, appendIp: nat, p: Partition): seq<Record>
    requires appendIp <= |ip|
  {
    if p == DP then dp else ip[..appendIp]
  }

  // The cached block is still what the tape holds at its position.
  ghost predicate CacheOk(ip: seq<Record>, dp: seq<Record>, appendIp: nat, lastPos: Ptr, lastBlock: seq<byte>)
    requires appendIp <= |ip|
  {
    lastPos.Ptr? ==>
      var recs := Stable(ip, dp, appendIp, lastPos.part);
      lastPos.block < |recs| && recs[lastPos.block] == Block(lastBlock)
  }

  lemma CacheGrows(d0: Drive, log0: seq<Stop>, d1: Drive, log1: seq<Stop>, lastPos: Ptr, lastBlock: seq<byte>)
    requires Grows(d0, log0, d1, log1) && CacheOk(d0.ip, d0.dp, d0.appendIp, lastPos, lastBlock)
    ensures CacheOk(d1.ip, d1.dp, d1.appendIp, lastPos, lastBlock)
  {
    CacheKept(d0.ip, d0.dp, d0.appendIp, d1.ip, d1.dp, d1.appendIp, lastPos, lastBlock);
  }

  // The drive after writing on from where it stands, so that its partition reads `recs`.
  function Laid(d: Drive, recs: seq<Record>): Drive
    requires d.at.Ptr? && d.at.block <= |recs|
  {
    var next := Ptr(d.at.part, |recs|);
    if d.at.part == IP then d.(ip := recs, at := next, appendIp := |recs|, vcr := d.vcr + |recs| - d.at.block)
    else d.(dp := recs, at := next, appendDp := |recs|, vcr := d.vcr + |recs| - d.at.block)
  }

  // What the partition reads up to where the drive stands.
  function Base(d: Drive): seq<Record>
    requires d.CanWrite()
  {
    d.Recs(d.at.part)[..d.at.block]
  }

  lemma FirstPut(d: Drive, r: Record)
    requires d.CanWrite()
    ensures d.Put(r) == Laid(d, Base(d) + [r]) && |Base(d)| == d.at.block
  {
  }

  lemma NextPut(d: Drive, recs: seq<Record>, r: Record)
    requires d.CanWrite() && |recs| > d.at.block
    ensures Laid(d, recs).CanWrite() && Laid(d, recs).Put(r) == Laid(d, recs + [r])
  {
    assert recs[..|recs|] == recs;
  }

  // The medium holds `recs` on a partition, and on the other one what it held.
  ghost predicate StopWith(d: Drive, recs: seq<Record>, committed: Index)
    requires d.at.Ptr?
  {
    if d.at.part == IP then StopOk(recs, d.dp, committed) else StopOk(d.ip, recs, committed)
  }

  // Every stop while an index is written from here survives.
  ghost predicate StopsOk(d: Drive, next: Index, parts: nat, committed: Index)
  {
    && d.CanWrite() && NoNewerMam(d) && 0 < d.vcr && AtLeast(next, committed)
    && (forall j: nat {:trigger Started(Base(d), j)} :: StopWith(d, Started(Base(d), j), committed))
    && StopWith(d, IndexPut(Base(d), next, parts), committed)
    && StopWith(d, IndexClosed(Base(d), next, parts), next)
  }

  // What no operation may lose: the stable part of both partitions, and the log.
  ghost predicate Grows(d0: Drive, log0: seq<Stop>, d1: Drive, log1: seq<Stop>)
  {
    && d0.appendIp <= |d0.ip| && d1.appendIp <= |d1.ip|
    && d0.dp <= d1.dp && d0.ip[..d0.appendIp] <= d1.ip[..d1.appendIp] && log0 <= log1
  }

  lemma GrowsSelf(d: Drive, log: seq<Stop>, ipEnd: bool)
    requires AppendsOk(d.ip, d.dp, d.appendIp, d.appendDp, ipEnd)
    ensures Grows(d, log, d, log)
  {
  }

  lemma AddedGrows(log0: seq<Stop>, d1: Drive, log1: seq<Stop>, d2: Drive, log2: seq<Stop>)
    requires Grows(d1, log1, d2, log2) && Added(log0, log1, d1.dp) && Added(log1, log2, d2.dp)
    ensures Added(log0, log2, d2.dp)
  {
    hide Added;
    AddedGrowing(log0, log1, d1.dp, log2, d2.dp);
  }

  lemma GrowsTwice(d0: Drive, log0: seq<Stop>, d1: Drive, log1: seq<Stop>, d2: Drive, log2: seq<Stop>)
    requires Grows(d0, log0, d1, log1) && Grows(d1, log1, d2, log2)
    ensures Grows(d0, log0, d2, log2)
  {
  }

  // What can still be cut off later never includes the cached block.
  lemma CacheKept(ip: seq<Record>, dp: seq<Record>, appendIp: nat, ip': seq<Record>, dp': seq<Record>, appendIp': nat,
      lastPos: Ptr, lastBlock: seq<byte>)
    requires appendIp <= |ip| && appendIp' <= |ip'| && CacheOk(ip, dp, appendIp, lastPos, lastBlock)
    requires dp <= dp' && ip[..appendIp] <= ip'[..appendIp']
    ensures CacheOk(ip', dp', appendIp', lastPos, lastBlock)
  {
  }

  // Writing an index moves the change reference past what the records know.
  lemma LaidDrive(d: Drive, next: Index, parts: nat)
    requires d.CanWrite() && Tail(Base(d)) && MamOk(d.ip, d.dp, d.vcr, d.ipMam, d.dpMam)
    ensures NoNewerMam(d) && 0 < d.vcr
    ensures var t := IndexClosed(Base(d), next, parts);
            && d.at.block <= |t| && Base(d) <= t && IpAppend(t, true) == d.at.block
            && var d3 := Laid(d, t);
            && d3.vcr >= d.vcr + 3 && MamOk(d3.ip, d3.dp, d3.vcr, d3.ipMam, d3.dpMam)
            && (if d.at.part == IP then
                  d3.ip == t && d3.dp == d.dp && d3.appendDp == d.appendDp && t[..d.at.block] == d.ip[..d.at.block]
                else d3.dp == t && d3.ip == d.ip && d3.appendIp == d.appendIp && d3.appendDp == |t|)
  {
    PutShape(Base(d), next, parts);
    hide IndexClosed, IndexPut, Started, Describes, LastIndex, Whole;
  }

  // Everything about one index write to the data partition: each stop survives, and the
  // end state is quiet again.
  lemma IndexToDp(d: Drive, next: Index, parts: nat, committed: Index, ipEnd: bool)
    requires d.CanWrite() && d.at.part == DP && StopOk(d.ip, Base(d), committed)
             && DpNext(d.ip, Base(d), next, committed)
    requires (ipEnd ==> EndsInIndex(d.ip)) && Tail(d.ip) && MamOk(d.ip, d.dp, d.vcr, d.ipMam, d.dpMam)
    ensures StopsOk(d, next, parts, committed) && Tail(Base(d)) && AtLeast(next, committed)
    ensures Quiet(d.ip, IndexClosed(Base(d), next, parts), next, ipEnd, true)
  {
    hide Quiet, StopOk, IndexClosed, IndexPut, Started, Describes, Base, EndsInIndex, LastIndex, NoneNewer, MamOk;
    DpIndexStops(d.ip, Base(d), next, parts, committed);
    DpIndexDone(d.ip, Base(d), next, parts, committed, ipEnd);
    LaidDrive(d, next, parts);
  }

  // The same for the index partition, which is only written while the data partition ends in
  // the committed index.
  lemma IndexToIp(d: Drive, next: Index, parts: nat, committed: Index)
    requires d.CanWrite() && d.at.part == IP && StopOk(d.ip, d.dp, committed)
             && IpNext(d.ip, d.dp, d.at.block, next, committed)
    requires EndsInIndex(d.dp) && MamOk(d.ip, d.dp, d.vcr, d.ipMam, d.dpMam)
    ensures StopsOk(d, next, parts, committed) && Tail(Base(d)) && AtLeast(next, committed)
    ensures Quiet(IndexClosed(Base(d), next, parts), d.dp, next, true, true)
  {
    IpIndexStops(d.ip, d.dp, d.at.block, next, parts, committed);
    IpIndexDone(d.ip, d.dp, d.at.block, next, parts, committed);
    QuietStop(IndexClosed(Base(d), next, parts), d.dp, next, true, true);
    LaidDrive(d, next, parts);
    hide Quiet, StopOk, IndexClosed, IndexPut, Started, Describes, EndsInIndex, LastIndex, MamOk;
  }

  lemma QuietEnds(ip: seq<Record>, dp: seq<Record>, committed: Index, ipEnd: bool)
    requires Quiet(ip, dp, committed, ipEnd, true)
    ensures EndsInIndex(dp)
  {
  }

  lemma QuietStop(ip: seq<Record>, dp: seq<Record>, committed: Index, ipEnd: bool, dpEnd: bool)
    requires Quiet(ip, dp, committed, ipEnd, dpEnd)
    ensures StopOk(ip, dp, committed)
  {
  }

  lemma IsRemembered(ip: seq<Record>, ipEnd: bool, cur: Index, committed: Index)
    requires cur == committed
    ensures Remembered(ip, ipEnd, cur, false, committed)
  {
  }

  // What mount's fast path reads is remembered as the committed index, or as a copy of it.
  lemma PassedRemembered(ip: seq<Record>, dp: seq<Record>, cur: Index, committed: Index)
    requires Quiet(ip, dp, committed, true, true) && LastIndex(ip) >= 0 && cur == ip[LastIndex(ip)].idx
    requires Copy(cur, committed) && (cur == committed <==> cur.back == LastDp(dp))
    ensures Remembered(ip, true, cur, false, committed)
  {
    QuietFlags(ip, dp, committed, true, true);
    hide StopOk, EndsInIndex, NoneNewer, AllSuperseded;
    assert cur.(root := committed.root) == cur;
  }

  lemma StillRemembered(ip: seq<Record>, ipEnd: bool, ip': seq<Record>, ipEnd': bool, cur: Index, dirty: bool,
      committed: Index)
    requires Remembered(ip, ipEnd, cur, dirty, committed)
    requires (ip' == ip && ipEnd' == ipEnd) || InMemory(cur, dirty, committed)
    ensures Remembered(ip', ipEnd', cur, dirty, committed)
  {
  }

  // Formatting leaves exact back pointers.
  lemma FirstStraight(first: Index, second: Index, parts: nat)
    requires first.back == NoPtr && second.back == Ptr(DP, 5)
    ensures var dp := Formatted(first, parts); Tight(dp) && LastDp(dp) == Ptr(DP, 5)
  {
    TightPut(LABELS, first, parts);
    PutShape(LABELS, first, parts);
  }

  lemma QuietBack(ip: seq<Record>, dp: seq<Record>, committed: Index, ipEnd: bool, dpEnd: bool)
    requires Quiet(ip, dp, committed, ipEnd, dpEnd) && committed.self.Ptr? && committed.self.part == IP
    ensures committed.back == LastDp(dp)
  {
  }

  // The pointer check between operations.
  lemma EndVerdict(ip: seq<Record>, dp: seq<Record>, committed: Index, ipEnd: bool, dpEnd: bool)
    requires Quiet(ip, dp, committed, ipEnd, dpEnd)
    ensures committed.self.Ptr?
    ensures CheckPointers(IndexOf(ip), IndexOf(dp), dp) == if committed.self.part == IP then UseIp else UseDp
  {
    QuietFlags(ip, dp, committed, ipEnd, dpEnd);
    QuietStop(ip, dp, committed, ipEnd, dpEnd);
    if committed.self.part == IP {
      QuietOnIp(ip, dp, committed, ipEnd, dpEnd);
    } else {
      hide StopOk, EndsInIndex, LastIndex, NoneNewer, ReadIndex;
      StopIsRecoverable(ip, dp, committed);
    }
  }

  lemma NextDpBack(ip: seq<Record>, dp: seq<Record>, cur: Index, dirty: bool, committed: Index, ipEnd: bool,
      dpEnd: bool)
    requires Quiet(ip, dp, committed, ipEnd, dpEnd) && Remembered(ip, ipEnd, cur, dirty, committed)
    ensures NextIndex(cur, dirty, Ptr(DP, |dp| + 1)).back == if Passes(cur, dp) then cur.back else LastDp(dp)
  {
    NextBack(ip, dp, cur, dirty, committed, ipEnd, dpEnd);
  }

  lemma StartedNext(recs: seq<Record>, j: nat)
    ensures Started(recs, 0) == recs + [FileMark] && Started(recs, j + 1) == Started(recs, j) + [IndexPart]
    ensures |Started(recs, j)| == |recs| + 1 + j
  {
    StartedShape(recs, j);
  }

  lemma AppendsKept(ip: seq<Record>, dp: seq<Record>, appendIp: nat, appendDp: nat, ipEnd: bool)
    requires AppendsOk(ip, dp, appendIp, appendDp, ipEnd)
    ensures 4 <= appendIp <= |ip| && (appendDp == 0 || appendDp == |dp|) && Tail(ip[..appendIp])
  {
  }

  // What an index write leaves of append positions, cache and log.
  lemma AfterDp(d: Drive, l: seq<Stop>, d': Drive, l': seq<Stop>, lastPos: Ptr, lastBlock: seq<byte>, ipEnd: bool)
    requires AppendsOk(d.ip, d.dp, d.appendIp, d.appendDp, ipEnd) && CacheOk(d.ip, d.dp, d.appendIp, lastPos, lastBlock)
    requires d'.ip == d.ip && d'.appendIp == d.appendIp && d.dp <= d'.dp && d'.appendDp == |d'.dp|
             && Added(l, l', d'.dp)
    ensures AppendsOk(d'.ip, d'.dp, d'.appendIp, d'.appendDp, ipEnd)
    ensures CacheOk(d'.ip, d'.dp, d'.appendIp, lastPos, lastBlock) && Grows(d, l, d', l')
  {
    CacheKept(d.ip, d.dp, d.appendIp, d'.ip, d'.dp, d'.appendIp, lastPos, lastBlock);
  }

  lemma AfterIp(d: Drive, l: seq<Stop>, d': Drive, l': seq<Stop>, lastPos: Ptr, lastBlock: seq<byte>, ipEnd: bool)
    requires AppendsOk(d.ip, d.dp, d.appendIp, d.appendDp, ipEnd) && CacheOk(d.ip, d.dp, d.appendIp, lastPos, lastBlock)
    requires d'.dp == d.dp && d'.appendDp == d.appendDp && d.appendIp <= |d'.ip| && Added(l, l', d'.dp)
    requires d'.ip[..d.appendIp] == d.ip[..d.appendIp] && d'.appendIp == IpAppend(d'.ip, true) == d.appendIp
    ensures AppendsOk(d'.ip, d'.dp, d'.appendIp, d'.appendDp, true)
    ensures CacheOk(d'.ip, d'.dp, d'.appendIp, lastPos, lastBlock) && Grows(d, l, d', l')
  {
    CacheKept(d.ip, d.dp, d.appendIp, d'.ip, d'.dp, d'.appendIp, lastPos, lastBlock);
  }

  // ---------------------------------------------------------------- data blocks

  // The partition a data write goes to.
  function Target(d: Drive, p: Partition): seq<Record>
    requires d.appendIp <= |d.ip|
  {
    Stable(d.ip, d.dp, d.appendIp, p)
  }

  // In the middle of a data write: the end flag of the partition is down, the other
  // partition ends in an index, and the drive stands where the next block goes.
  ghost predicate MidWrite(d: Drive, p: Partition, committed: Index, ipCoh: Coherency, dpCoh: Coherency)
  {
    && Quiet(d.ip, d.dp, committed, p == DP, p == IP)
    && d.at.Ptr? && d.at.part == p && d.CanWrite() && NoNewerMam(d) && 4 <= d.appendIp <= |d.ip|
    && (if p == IP then d.at.block == d.appendIp && (d.appendDp == 0 || d.appendDp == |d.dp|)
        else d.at.block == |d.dp| == d.appendDp && d.appendIp == IpAppend(d.ip, true))
    && Tail(d.ip[..d.appendIp])
    && MamOk(d.ip, d.dp, d.vcr, d.ipMam, d.dpMam)
    && CohOk(d.ip, d.dp, d.vcr, p == DP, p == IP, ipCoh, dpCoh)
  }

  lemma StartWrite(d: Drive, p: Partition, committed: Index, ipEnd: bool, dpEnd: bool, ipCoh: Coherency,
      dpCoh: Coherency, log: seq<Stop>)
    requires Quiet(d.ip, d.dp, committed, ipEnd, dpEnd) && AppendsOk(d.ip, d.dp, d.appendIp, d.appendDp, ipEnd)
    requires MamOk(d.ip, d.dp, d.vcr, d.ipMam, d.dpMam) && CohOk(d.ip, d.dp, d.vcr, ipEnd, dpEnd, ipCoh, dpCoh)
    requires if p == IP then dpEnd && committed.self.part == DP else ipEnd
    ensures var s := d.SeekAppend(p);
            && MidWrite(s, p, committed, ipCoh, dpCoh) && Grows(d, log, s, log)
            && Target(s, p) == Target(d, p) && s.at.block == |Target(s, p)|
  {
    hide StopOk, Describes, NoneNewer, LastIndex;
  }

  lemma EndWrite(d: Drive, p: Partition, committed: Index, ipCoh: Coherency, dpCoh: Coherency)
    requires MidWrite(d, p, committed, ipCoh, dpCoh) && (p == IP ==> d.appendIp == |d.ip|)
    ensures Quiet(d.ip, d.dp, committed, p == DP, p == IP) && AppendsOk(d.ip, d.dp, d.appendIp, d.appendDp, p == DP)
    ensures MamOk(d.ip, d.dp, d.vcr, d.ipMam, d.dpMam) && CohOk(d.ip, d.dp, d.vcr, p == DP, p == IP, ipCoh, dpCoh)
  {
    hide Quiet, MamOk, CohOk;
  }

  lemma BlockStep(d: Drive, p: Partition, committed: Index, r: Record, ipCoh: Coherency, dpCoh: Coherency)
    requires MidWrite(d, p, committed, ipCoh, dpCoh) && r.Block?
    ensures d.CanWrite() && NoNewerMam(d) && 0 < d.vcr && d.appendIp <= |d.ip|
            && StopOk(d.Put(r).ip, d.Put(r).dp, committed)
    ensures MidWrite(d.Put(r), p, committed, ipCoh, dpCoh)
    ensures d.Put(r).appendIp <= |d.Put(r).ip| && Target(d.Put(r), p) == Target(d, p) + [r]
    ensures d.dp <= d.Put(r).dp && d.ip[..d.appendIp] <= d.Put(r).ip[..d.Put(r).appendIp]
    ensures if p == IP then d.Put(r).appendIp == |d.Put(r).ip| && d.Put(r).dp == d.dp
            else d.Put(r).ip == d.ip && d.Put(r).dp == d.dp + [r]
  {
    hide StopOk, Describes, NoneNewer, LastIndex, EndsInIndex;
    if p == IP {
      IpPlainQuiet(d.ip, d.dp, d.at.block, r, committed);
      assert (d.ip[..d.at.block] + [r])[..d.at.block + 1] == d.ip[..d.at.block] + [r];
    } else {
      DpPlainQuiet(d.ip, d.dp, r, committed);
      assert d.dp[..|d.dp|] == d.dp;
    }
  }

  // Both end in the same index and have back pointers that are as exact.
  ghost predicate SameChain(dp: seq<Record>, n: seq<Record>)
  {
    dp <= n && LastDp(n) == LastDp(dp) && (Tight(n) <==> Tight(dp))
  }

  lemma OneBlock(dp: seq<Record>, n: seq<Record>, r: Record)
    requires (n == dp || n == dp + [r]) && !r.IndexFile?
    ensures SameChain(dp, n)
  {
    hide LastDp, Tight;
    LastDpSame(dp, r);
    TightPlain(dp, n);
  }

  // The index in memory was written behind everything on the data partition.
  ghost predicate GotIndex(dp: seq<Record>, n: seq<Record>, cur: Index, dirty: bool)
  {
    && LastIndex(n) >= 0
    && n == IndexClosed(dp, NextIndex(cur, dirty, Ptr(DP, |dp| + 1)), n[LastIndex(n)].parts)
  }

  lemma PutGot(dp: seq<Record>, cur: Index, dirty: bool, parts: nat)
    requires Tail(dp)
    ensures GotIndex(dp, IndexClosed(dp, NextIndex(cur, dirty, Ptr(DP, |dp| + 1)), parts), cur, dirty)
  {
    PutShape(dp, NextIndex(cur, dirty, Ptr(DP, |dp| + 1)), parts);
    hide LastIndex, IndexClosed;
  }

  // ---------------------------------------------------------------- formatting

  const LABELS: seq<Record> := [Label, FileMark, Label, FileMark]

  function Formatted(first: Index, parts: nat): seq<Record>
  {
    IndexClosed(LABELS, first, parts)
  }

  lemma FormattedIsQuiet(first: Index, second: Index, parts: nat)
    requires first == Index(1, Ptr(DP, 5), NoPtr, second.root)
    requires second == Index(1, Ptr(IP, 5), Ptr(DP, 5), second.root)
    ensures var ip, dp := Formatted(second, parts), Formatted(first, parts);
            && |ip| == |dp| == 7 + parts && EndsInIndex(ip) && EndsInIndex(dp) && Tail(ip[..4])
            && LastIndex(ip) == LastIndex(dp) == 5 + parts && First(ip, 5 + parts) == First(dp, 5 + parts) == 5
            && ip[5 + parts].idx == second && dp[5 + parts].idx == first
            && Quiet(ip, dp, second, true, true)
  {
    hide IndexClosed, IndexPut, LastIndex, Whole, Complete, EndsInIndex, AtEnd, DpChain, IpOk, NoneNewer;
    var ip, dp := Formatted(second, parts), Formatted(first, parts);
    PutShape(LABELS, first, parts);
    PutShape(LABELS, second, parts);
    PutComplete(LABELS, second, parts);
    OnlyIndex(LABELS, first, parts);
    OnlyIndex(LABELS, second, parts);
    FirstDpOk(dp, first, parts);
    FirstIpOk(ip, first, second, parts);
    assert ip[..4] == LABELS;
    OnlyNewer(ip, parts, second);
    OnlyNewer(dp, parts, second);
    FirstIpBack(ip, dp, second, parts);
  }

  lemma FirstIpBack(ip: seq<Record>, dp: seq<Record>, second: Index, parts: nat)
    requires forall b :: 0 <= b < |ip| && ip[b].IndexFile? ==> b == 5 + parts
    requires 5 + parts < |ip| && ip[5 + parts].IndexFile? && ip[5 + parts].idx == second
    requires DpChain(dp) && LastIndex(dp) == 5 + parts && First(dp, 5 + parts) == 5 && second.back == Ptr(DP, 5)
    ensures IpBack(ip, dp)
  {
    LastPoints(dp, second);
    hide PointsBack, DpChain, LastIndex;
  }

  lemma OnlyNewer(recs: seq<Record>, parts: nat, x: Index)
    requires forall b :: 0 <= b < |recs| && recs[b].IndexFile? ==> b == 5 + parts
    requires 5 + parts < |recs| && recs[5 + parts].IndexFile? && AtLeast(x, recs[5 + parts].idx)
    ensures NoneNewer(recs, x)
  {
  }

  lemma FirstDpOk(dp: seq<Record>, first: Index, parts: nat)
    requires dp == Formatted(first, parts) && first == Index(1, Ptr(DP, 5), NoPtr, first.root)
    requires forall b :: 0 <= b < |dp| && dp[b].IndexFile? ==> b == 5 + parts
    ensures DpChain(dp)
  {
    PutShape(LABELS, first, parts);
    NoDpBefore(dp, parts);
    hide IndexClosed, IndexPut, LastIndex, Whole;
    assert DpIndexOk(dp, 5 + parts);
  }

  lemma FirstIpOk(ip: seq<Record>, first: Index, second: Index, parts: nat)
    requires ip == Formatted(second, parts) && first == Index(1, Ptr(DP, 5), NoPtr, second.root)
    requires second == Index(1, Ptr(IP, 5), Ptr(DP, 5), second.root)
    requires forall b :: 0 <= b < |ip| && ip[b].IndexFile? ==> b == 5 + parts
    ensures IpOk(ip, first, second)
  {
    PutShape(LABELS, second, parts);
    hide IndexClosed, IndexPut, LastIndex, Whole;
    assert AtEnd(ip) && IpIndexOk(ip, 5 + parts, first, second);
  }

  lemma OnlyIndex(recs: seq<Record>, idx: Index, parts: nat)
    requires Tail(recs) && LastIndex(recs) < 0
    ensures var t := IndexClosed(recs, idx, parts); forall b :: 0 <= b < |t| && t[b].IndexFile? ==>
            b == |recs| + parts + 1
  {
    StartedShape(recs, parts);
    PutShape(recs, idx, parts);
    var f, s, t := Started(recs, parts), IndexPut(recs, idx, parts), IndexClosed(recs, idx, parts);
    assert forall b :: 0 <= b < |f| ==> t[b] == f[b];
  }

  lemma NoDpBefore(dp: seq<Record>, parts: nat)
    requires |dp| == 7 + parts && forall b :: 0 <= b < |dp| && dp[b].IndexFile? ==> b == 5 + parts
    ensures LastIndex(dp[..5 + parts]) < 0
  {
    var f := dp[..5 + parts];
    assert forall b :: 0 <= b < |f| ==> f[b] == dp[b];
  }

  // ---------------------------------------------------------------- mounting, on values

  // A missing file mark behind an index at the very end of a partition is filled in.
  function Closed(d: Drive, p: Partition): Drive
  {
    var recs := d.Recs(p);
    if LastIndex(recs) >= 0 && LastIndex(recs) == |recs| - 1 then d.SeekEnd(p).Put(FileMark) else d
  }

  // The drive once a check has found the ends and filled in the file marks of both partitions.
  function Sealed(d: Drive): Drive
  {
    Closed(Closed(d.SeekEnd(IP).SeekEnd(DP), DP), IP)
  }

  lemma ClosedStop(d: Drive, p: Partition, committed: Index)
    requires StopOk(d.ip, d.dp, committed)
    ensures var n := Closed(d, p);
            && StopOk(n.ip, n.dp, committed) && LastIndex(n.Recs(p)) != |n.Recs(p)| - 1
            && IndexOf(n.Recs(p)) == IndexOf(d.Recs(p)) && d.Recs(p) <= n.Recs(p)
            && LastIndex(n.Recs(p)) == LastIndex(d.Recs(p)) && AtEnd(n.Recs(p)) == AtEnd(d.Recs(p))
            && (if p == IP then n.dp == d.dp && n.appendDp == d.appendDp && (n == d || n.appendIp == |n.ip|)
                else n.ip == d.ip && n.appendIp == d.appendIp && (n == d || n.appendDp == |n.dp|))
            && |n.Recs(p)| == EndWithMark(d.Recs(p)) && (Tight(n.dp) <==> Tight(d.dp))
  {
    hide StopOk, LastIndex, Tight;
    var recs := d.Recs(p);
    IpLong(d.ip, d.dp, committed);
    if LastIndex(recs) == |recs| - 1 {
      assert recs[..|recs|] == recs;
      TightPlain(d.dp, d.dp + [FileMark]);
      LastIndexAppend(recs, FileMark);
      if p == IP {
        IpCloseStop(d.ip, d.dp, committed);
      } else {
        DpPlainStop(d.ip, d.dp, FileMark, committed);
      }
    }
  }

  // Where the data partition goes on is behind its last index, and in front of some data just when
  // that lies beyond the end.
  lemma BeyondEnd(dp: seq<Record>, lastDp: nat)
    requires LastIndex(dp) != |dp| - 1
    ensures LastIndex(dp) + 1 < DpFrom(dp, lastDp) <= |dp|
    ensures DpFrom(dp, lastDp) < lastDp <==> |dp| < lastDp
  {
    hide LastIndex;
  }

  // A check that goes on past the end of the data partition's last index writes the next one
  // behind it, or behind the last block in use.
  lemma CheckedDp(d: Drive, x: Index, lastDp: nat)
    requires Settled(d.ip, d.dp, x) && d.appendDp == DpFrom(d.dp, lastDp) && LastIndex(d.dp) != |d.dp| - 1
    ensures var s := d.SeekAppend(DP);
            && s.CanWrite() && StopOk(s.ip, Base(s), x) && s.ip == d.ip
            && DpNext(s.ip, Base(s), NextIndex(x, true, Ptr(DP, s.at.block + 1)), x)
            && NextIndex(x, true, Ptr(DP, s.at.block + 1)).back == LastDp(Base(s)) && (Tight(Base(s)) <==> Tight(d.dp))
  {
    var s, cut := d.SeekAppend(DP), DpFrom(d.dp, lastDp);
    hide Settled, DpFrom, LastIndex, LastDp, Tight, StopOk, DpNext;
    BeyondEnd(d.dp, lastDp);
    SettledDp(d.ip, d.dp, x, cut);
    TightPlain(d.dp[..cut], d.dp);
  }

  lemma BothClosed(d: Drive, committed: Index)
    requires StopOk(d.ip, d.dp, committed)
    ensures var n := Sealed(d);
            && StopOk(n.ip, n.dp, committed) && d.dp <= n.dp && IndexOf(n.ip) == IndexOf(d.ip)
                && IndexOf(n.dp) == IndexOf(d.dp)
            && LastIndex(n.ip) != |n.ip| - 1 && LastIndex(n.dp) != |n.dp| - 1
            && AtEnd(n.ip) == AtEnd(d.ip) && AtEnd(n.dp) == AtEnd(d.dp) && LastIndex(n.ip) == LastIndex(d.ip)
            && LastIndex(n.dp) == LastIndex(d.dp) && d.ip <= n.ip
            && n.appendIp == |n.ip| && n.appendDp == |n.dp| == EndWithMark(d.dp) && (Tight(n.dp) <==> Tight(d.dp))
  {
    hide StopOk, LastIndex, AtEnd, Closed, Tight, IndexOf;
    var b := d.SeekEnd(IP).SeekEnd(DP);
    ClosedStop(b, DP, committed);
    ClosedStop(Closed(b, DP), IP, committed);
  }

  // What the check finds once the file marks are filled in: the index it decides for may count as
  // the committed one.
  lemma Checked(d: Drive, committed: Index)
    requires StopOk(d.ip, d.dp, committed)
    ensures var n := Sealed(d);
            && Chosen(n.ip, n.dp).Some? && Chosen(n.ip, n.dp) == Chosen(d.ip, d.dp)
                && Chosen(n.ip, n.dp).value.self.Ptr?
            && Settled(n.ip, n.dp, Chosen(n.ip, n.dp).value) && AtLeast(Chosen(n.ip, n.dp).value, committed)
            && (AtEnd(n.ip) ==> EndsInIndex(n.ip)) && (AtEnd(n.dp) ==> EndsInIndex(n.dp))
            && (Chosen(n.ip, n.dp).value.self.part == IP ==> AtEnd(n.ip))
            && (CheckPointers(IndexOf(d.ip), IndexOf(d.dp), d.dp) == UseIp <==>
                Chosen(d.ip, d.dp).value.self.part == IP)
  {
    BothClosed(d, committed);
    var n := Sealed(d);
    assert LastIndex(n.dp) >= 0;
    ClosingKeeps(d.ip, d.dp, n.ip, n.dp, committed);
    Settles(n.ip, n.dp, committed);
    EndsThere(n.ip, n.dp, committed);
    AtEndIs(n.ip);
    hide StopOk, LastIndex, Chosen, CheckPointers, Sealed, EndsInIndex, AtEnd;
  }

  // So much for when the check gives up.
  lemma Refusal(d: Drive, committed: Index, deep: bool, lastDp: nat, extentsOk: bool)
    requires StopOk(d.ip, d.dp, committed)
    ensures var n := Sealed(d);
            && Chosen(n.ip, n.dp).Some? && Chosen(n.ip, n.dp).value.self.Ptr?
            && (Refuses(d.ip, d.dp, deep, lastDp, extentsOk) <==>
                  || (!deep && !(AtEnd(n.ip) && AtEnd(n.dp))) || (LastIndex(n.ip) < 0 && !extentsOk)
                  || ((Chosen(n.ip, n.dp).value.self.part != IP || !AtEnd(n.ip) || !AtEnd(n.dp))
                      && lastDp > |n.dp|))
  {
    BothClosed(d, committed);
    Checked(d, committed);
    hide StopOk, LastIndex, AtEnd, Sealed, DpFrom, Chosen, CheckPointers, Settled, EndsInIndex, EndWithMark;
  }

  // An index partition that ends in an index is written over that one.
  lemma FromAppends(ip: seq<Record>, dp: seq<Record>, committed: Index, lastIp: nat)
    requires StopOk(ip, dp, committed) && AtEnd(ip) && EndsInIndex(ip)
    ensures AppendsOk(ip, dp, IpFrom(ip, lastIp), |dp|, true)
  {
    hide StopOk, LastIndex, First, AtEnd, EndsInIndex, Tail;
    CutsTail(ip, dp, committed);
  }

  // So is one that mount's fast path reads.
  lemma FastAppends(ip: seq<Record>, dp: seq<Record>, committed: Index)
    requires Quiet(ip, dp, committed, true, true)
    ensures LastIndex(ip) >= 0 && ip[LastIndex(ip)].idx.self.Ptr? && ip[LastIndex(ip)].idx.self.part == IP
    ensures var b := ip[LastIndex(ip)].idx.self.block; b >= 5 && AppendsOk(ip, dp, b - 1, 0, true)
    ensures IpCut(ip, |ip|)
  {
    hide StopOk, NoneNewer, AllSuperseded, Whole, AtEnd, First, IpCut, LastIndex, Tail, CommittedLast;
    QuietStop(ip, dp, committed, true, true);
    CutsTail(ip, dp, committed);
    LastIp(ip, dp, committed);
  }

  lemma CutsTail(ip: seq<Record>, dp: seq<Record>, committed: Index)
    requires StopOk(ip, dp, committed) && EndsInIndex(ip)
    ensures 4 <= |ip| && LastIndex(ip) >= 0 && IpCut(ip, |ip|) && 5 <= First(ip, LastIndex(ip)) <= |ip|
    ensures Tail(ip[..First(ip, LastIndex(ip)) - 1])
  {
    hide StopOk, Whole, First;
    IpLong(ip, dp, committed);
    CutBehind(ip, |ip|);
    CutOver(ip, dp, committed);
  }

  lemma DpFromEnd(dp: seq<Record>, lastDp: nat)
    ensures AtEnd(dp) ==> DpFrom(dp, lastDp) == |dp|
  {
  }

  lemma AtEndIs(recs: seq<Record>)
    ensures EndsInIndex(recs) ==> AtEnd(recs)
  {
  }

  // Mount's fast path passes over the newest index, which is on the data partition.
  predicate SkipsIndex(d: Drive)
  {
    d.dpMam.count <= d.ipMam.count && LastIndex(d.ip) >= 0 && d.ip[LastIndex(d.ip)].idx.back != LastDp(d.dp)
  }

  // What is on a cartridge that was formatted and then got its index on the data partition.
  ghost predicate SkipMedium(ip: seq<Record>, dp: seq<Record>, tree: nat, parts: nat)
  {
    var first, second := Index(1, Ptr(DP, 5), NoPtr, tree), Index(1, Ptr(IP, 5), Ptr(DP, 5), tree);
    ip == Formatted(second, parts) && GotIndex(Formatted(first, parts), dp, second, false)
  }

  // Stopped there with both records stored, its newest index is passed over.
  lemma SkipExample(d: Drive, tree: nat, parts: nat)
    requires SkipMedium(d.ip, d.dp, tree, parts)
    requires 0 < d.vcr && d.ipMam == Coherency(1, 5, d.vcr) && d.dpMam == Coherency(1, 8 + parts, d.vcr)
    ensures Survives(Stop(d, Index(1, Ptr(DP, 8 + parts), Ptr(DP, 5), tree)))
    ensures FastPathUsable(d.vcr, d.ipMam, d.dpMam) && SkipsIndex(d)
  {
    hide StopOk, Quiet, IndexClosed, IndexPut, LastIndex, Formatted, First, EndsInIndex, Whole, Describes, DpNext, Tail,
         FastPathOk;
    var first, second := Index(1, Ptr(DP, 5), NoPtr, tree), Index(1, Ptr(IP, 5), Ptr(DP, 5), tree);
    var third := Index(1, Ptr(DP, 8 + parts), Ptr(DP, 5), tree);
    var ip, dp, more := d.ip, Formatted(first, parts), d.dp[LastIndex(d.dp)].parts;
    FormattedIsQuiet(first, second, parts);
    FormattedTail(first, parts);
    FormattedTail(second, parts);
    NextDpFacts(ip, dp, second, false, second, true, true);
    QuietStop(ip, dp, second, true, true);
    DpIndexDone(ip, dp, third, more, second, true);
    QuietStop(ip, d.dp, third, true, true);
    PutShape(dp, third, more);
    DescribesLast(ip, 5 + parts, d.ipMam);
    DescribesLast(d.dp, |dp| + more + 1, d.dpMam);
    QuietFast(ip, d.dp, third, d.vcr, d.ipMam, d.dpMam);
  }

  lemma QuietFast(ip: seq<Record>, dp: seq<Record>, committed: Index, vcr: nat, ipMam: Coherency, dpMam: Coherency)
    requires Quiet(ip, dp, committed, true, true)
    ensures FastPathOk(ip, dp, committed, vcr, ipMam, dpMam)
  {
  }

  lemma FormattedTail(first: Index, parts: nat)
    ensures Tail(Formatted(first, parts))
  {
    PutShape(LABELS, first, parts);
  }

  lemma DescribesLast(recs: seq<Record>, b: nat, coh: Coherency)
    requires EndsInIndex(recs) && LastIndex(recs) == b && First(recs, b) == coh.setId && recs[b].idx.gen == coh.count
    ensures Describes(coh, recs)
  {
  }

  // Data is written in blocks of the volume's block size; only the last may be shorter.
  function Chop(data: seq<byte>, bs: nat): (recs: seq<Record>)
    requires 0 < bs
    ensures data != [] ==> recs != []
    ensures forall k :: 0 <= k < |recs| ==> recs[k].Block?
  {
    if data == [] then []
    else if |data| <= bs then [Block(data)]
    else [Block(data[..bs])] + Chop(data[bs..], bs)
  }

  // What a mounted volume can be asked to do to its tape.
  datatype TapeRequest = ChangeTree | Sync | Data(part: Partition, bytes: seq<byte>) | Close

  // How often the first n requests change the tree.
  function Changes(requests: seq<TapeRequest>, n: nat): nat
    requires n <= |requests|
  {
    if n == 0 then 0 else Changes(requests, n - 1) + if requests[n - 1].ChangeTree? then 1 else 0
  }

  // Some records lie one after the other where no write ever cuts them off again.
  ghost predicate Lying(d: Drive, p: Partition, recs: seq<Record>)
  {
    d.appendIp <= |d.ip| && exists b: nat {:trigger LyingAt(Target(d, p), b, recs)} :: LyingAt(Target(d, p), b, recs)
  }

  predicate LyingAt(all: seq<Record>, b: nat, recs: seq<Record>)
  {
    b + |recs| <= |all| && all[b..b + |recs|] == recs
  }

  lemma LyingNow(d: Drive, p: Partition, start: nat, recs: seq<Record>)
    requires d.appendIp <= |d.ip| && start <= |Target(d, p)| && Target(d, p) == Target(d, p)[..start] + recs
    ensures Lying(d, p, recs)
  {
    assert LyingAt(Target(d, p), start, recs);
  }

  lemma LyingMore(all: seq<Record>, more: seq<Record>, b: nat, recs: seq<Record>)
    requires LyingAt(all, b, recs) && all <= more
    ensures LyingAt(more, b, recs)
  {
    forall k | 0 <= k < |recs|
      ensures more[b + k] == recs[k]
    {
      assert all[b..b + |recs|][k] == all[b + k] == more[b + k];
    }
  }

  lemma LyingStill(d: Drive, l: seq<Stop>, d': Drive, l': seq<Stop>, p: Partition, recs: seq<Record>)
    requires Lying(d, p, recs) && Grows(d, l, d', l')
    ensures Lying(d', p, recs)
  {
    var b: nat :| LyingAt(Target(d, p), b, recs);
    LyingMore(Target(d, p), Target(d', p), b, recs);
  }

  // The data of one request is on the tape.
  ghost predicate DataLies(d: Drive, r: TapeRequest, bs: nat)
    requires 0 < bs
  {
    r.Data? && r.bytes != [] ==> Lying(d, r.part, Chop(r.bytes, bs))
  }

  lemma DataLiesStill(d: Drive, l: seq<Stop>, d': Drive, l': seq<Stop>, r: TapeRequest, bs: nat)
    requires 0 < bs && DataLies(d, r, bs) && Grows(d, l, d', l')
    ensures DataLies(d', r, bs)
  {
    hide Lying, Chop;
    if r.Data? && r.bytes != [] {
      LyingStill(d, l, d', l', r.part, Chop(r.bytes, bs));
    }
  }

  class Volume {
    const blocksize: nat
    var drive: Drive

    // Whether each attempt to write to cartridge memory will succeed, and how many there were.
    const stores: nat -> bool
    var tries: nat

    // The index in memory, whether it changed since it was written, and whether each
    // partition ends in an index.
    var index: Index
    var dirty: bool
    var ipEnd: bool
    var dpEnd: bool
    var ipCoh: Coherency
    var dpCoh: Coherency

    // One-block read cache.
    var lastPos: Ptr
    var lastBlock: seq<byte>

    // What an observer of the tape keeps: the last index written completely, and every state the
    // medium has been in.
    var committed: Index
    var log: seq<Stop>

    ghost predicate Valid()
      reads this
    {
      && 0 < blocksize
      && Quiet(drive.ip, drive.dp, committed, ipEnd, dpEnd)
      && Remembered(drive.ip, ipEnd, index, dirty, committed)
      && AppendsOk(drive.ip, drive.dp, drive.appendIp, drive.appendDp, ipEnd)
      && MamOk(drive.ip, drive.dp, drive.vcr, drive.ipMam, drive.dpMam)
          && CohOk(drive.ip, drive.dp, drive.vcr, ipEnd, dpEnd, ipCoh, dpCoh)
      && CacheOk(drive.ip, drive.dp, drive.appendIp, lastPos, lastBlock)
      && AllSurvive(log, committed, drive.ip, drive.dp)
    }

    // Every index of the data partition points back to the one before it, and so will the next one.
    ghost predicate Straight()
      reads this
    {
      Tight(drive.dp) && !Passes(index, drive.dp)
    }

    // Writing to cartridge memory never fails.
    ghost predicate Reliable()
    {
      forall k {:trigger stores(k)} :: stores(k)
    }

    // The records of the partitions that end in an index are stored, and current.
    ghost predicate Stamped()
      reads this
    {
      (ipEnd ==> drive.ipMam.vcr == drive.vcr) && (dpEnd ==> drive.dpMam.vcr == drive.vcr)
    }

    // What formatting leaves: a label and the same first index on both partitions.
    constructor Format(bs: nat, tree: nat, parts: nat, memory: nat -> bool)
      requires 0 < bs
      ensures Valid() && ipEnd && dpEnd && !dirty && committed == Index(1, Ptr(IP, 5), Ptr(DP, 5), tree)
      ensures drive.ip == Formatted(index, parts) && drive.dp == Formatted(Index(1, Ptr(DP, 5), NoPtr, tree), parts)
      ensures blocksize == bs && log == [] && index == committed && Straight() && drive.appendIp == 4
      ensures stores == memory && drive.vcr == 14
    {
      var first := Index(1, Ptr(DP, 5), NoPtr, tree);
      var second := Index(1, Ptr(IP, 5), Ptr(DP, 5), tree);
      var coh := Coherency(1, 5, 14);
      FormattedIsQuiet(first, second, parts);
      blocksize, stores, tries := bs, memory, 0;
      drive := Drive(Formatted(second, parts), Formatted(first, parts), Ptr(IP, 7 + parts), 4, 7 + parts, 14, coh, coh);
      ipCoh, dpCoh := coh, coh;
      index, dirty, ipEnd, dpEnd := second, false, true, true;
      lastPos, lastBlock := NoPtr, [];
      committed, log := second, [];
      new;
      FirstStraight(first, second, parts);
      hide Quiet, Formatted;
    }

    // ---------------------------------------------------------------- tape operations

    method WriteRecord(r: Record)
      requires drive.CanWrite() && AllSurvive(log, committed, drive.ip, drive.dp)
      requires NoNewerMam(drive) && 0 < drive.vcr
      requires StopOk(drive.Put(r).ip, drive.Put(r).dp, committed)
      modifies `drive, `log
      ensures drive == old(drive.Put(r)) && AllSurvive(log, committed, drive.ip, drive.dp)
              && log == old(log) + [Stop(drive, committed)]
      ensures Survives(Stop(drive, committed))
    {
      hide AllSurvive, StopOk;
      PutOne(drive, r);
      drive := drive.Put(r);
      hide OneWrite;
      SurvivesMore(log, old(drive), Stop(drive, committed));
      log := log + [Stop(drive, committed)];
    }

    method LogStop()
      requires Quiet(drive.ip, drive.dp, committed, ipEnd, dpEnd)
               && MamOk(drive.ip, drive.dp, drive.vcr, drive.ipMam, drive.dpMam)
                   && AllSurvive(log, committed, drive.ip, drive.dp)
      modifies `log
      ensures AllSurvive(log, committed, drive.ip, drive.dp) && log == old(log) + [Stop(drive, committed)]
    {
      if FastPathUsable(drive.vcr, drive.ipMam, drive.dpMam) {
        BothEnd(drive.ip, drive.dp, committed, ipEnd, dpEnd);
      }
      hide AllSurvive;
      QuietStop(drive.ip, drive.dp, committed, ipEnd, dpEnd);
      hide Quiet, MamOk;
      SurvivesMore(log, drive, Stop(drive, committed));
      log := log + [Stop(drive, committed)];
    }

    // ---------------------------------------------------------------- coherency records

    // Write the record of a partition to cartridge memory, if that works.
    method SetCartCoherency(p: Partition, coh: Coherency)
      requires Quiet(drive.ip, drive.dp, committed, ipEnd, dpEnd) && AllSurvive(log, committed, drive.ip, drive.dp)
               && MamOk(drive.ip, drive.dp, drive.vcr, drive.ipMam, drive.dpMam)
      requires coh.vcr == drive.vcr && Describes(coh, drive.Recs(p))
      modifies `drive, `log, `tries
      ensures MamOk(drive.ip, drive.dp, drive.vcr, drive.ipMam, drive.dpMam)
              && AllSurvive(log, committed, drive.ip, drive.dp)
      ensures tries == old(tries) + 1
      ensures if stores(old(tries)) then
                && drive == (if p == IP then old(drive).(ipMam := coh) else old(drive).(dpMam := coh))
                && log == old(log) + [Stop(drive, committed)]
              else drive == old(drive) && log == old(log)
    {
      hide Quiet, Describes, AllSurvive, MamOk;
      if stores(tries) {
        StoreOk(drive, coh, p);
        drive := if p == IP then drive.(ipMam := coh) else drive.(dpMam := coh);
        LogStop();
      }
      tries := tries + 1;
    }

    // Store the current change reference with the position of the last index, for every
    // partition that ends in one.  Writing to cartridge memory may fail; that is ignored.
    method UpdateCoherency()
      requires Quiet(drive.ip, drive.dp, committed, ipEnd, dpEnd) && AllSurvive(log, committed, drive.ip, drive.dp)
               && MamOk(drive.ip, drive.dp, drive.vcr, drive.ipMam, drive.dpMam) && index == committed
      requires drive.vcr < VCR_MAX && ipEnd && index.self.part != IP ==> Describes(ipCoh, drive.ip)
      requires drive.vcr < VCR_MAX && dpEnd && index.self.part != DP ==> Describes(dpCoh, drive.dp)
      modifies `ipCoh, `dpCoh, `drive, `log, `tries
      ensures MamOk(drive.ip, drive.dp, drive.vcr, drive.ipMam, drive.dpMam)
              && CohOk(drive.ip, drive.dp, drive.vcr, ipEnd, dpEnd, ipCoh, dpCoh)
                  && AllSurvive(log, committed, drive.ip, drive.dp)
      ensures drive == old(drive).(ipMam := drive.ipMam, dpMam := drive.dpMam) && Added(old(log), log, drive.dp)
      ensures if log == old(log) then drive == old(drive) else log != [] && log[|log| - 1] == Stop(drive, committed)
      ensures RecordedIn(drive.vcr < VCR_MAX && ipEnd, stores(old(tries)), IP, index, drive.vcr, old(ipCoh), ipCoh,
              old(drive.ipMam), drive.ipMam)
      ensures RecordedIn(drive.vcr < VCR_MAX && dpEnd, stores(old(tries) + if ipEnd then 1 else 0), DP, index,
              drive.vcr,
              old(dpCoh), dpCoh, old(drive.dpMam), drive.dpMam)
      ensures Reliable() && drive.vcr < VCR_MAX ==> Stamped()
    {
      hide Quiet, Describes, AllSurvive, MamOk, Tight;
      if drive.vcr >= VCR_MAX {
        return;
      }
      if ipEnd {
        RefreshedDescribes(drive.ip, drive.dp, committed, ipEnd, dpEnd, ipCoh, IP, drive.vcr);
        if index.self.part == IP {
          ipCoh := ipCoh.(count := index.gen, setId := index.self.block);
        }
        ipCoh := ipCoh.(vcr := drive.vcr);
        SetCartCoherency(IP, ipCoh);
      }
      if dpEnd {
        RefreshedDescribes(drive.ip, drive.dp, committed, ipEnd, dpEnd, dpCoh, DP, drive.vcr);
        if index.self.part == DP {
          dpCoh := dpCoh.(count := index.gen, setId := index.self.block);
        }
        dpCoh := dpCoh.(vcr := drive.vcr);
        SetCartCoherency(DP, dpCoh);
      }
    }

    // ---------------------------------------------------------------- index writes

    // The partition ends in the committed index, which is the one in memory.
    ghost predicate WrittenTo(p: Partition)
      reads this
    {
      && !dirty && index == committed && index.self.Ptr? && index.self.part == p
      && (if p == IP then ipEnd else dpEnd)
    }

    // One record more behind those written since the log read `log0`.
    method WriteAlong(ghost d: Drive, ghost recs: seq<Record>, r: Record, ghost log0: seq<Stop>)
      requires drive.CanWrite() && AllSurvive(log, committed, drive.ip, drive.dp) && NoNewerMam(drive) && 0 < drive.vcr
      requires d.at.Ptr? && d.at.block <= |recs| && drive == Laid(d, recs) && drive.Put(r) == Laid(d, recs + [r])
      requires StopOk(drive.Put(r).ip, drive.Put(r).dp, committed) && Added(log0, log, drive.dp)
      modifies `drive, `log
      ensures drive == Laid(d, recs + [r]) && AllSurvive(log, committed, drive.ip, drive.dp)
              && Added(log0, log, drive.dp)
      ensures log != [] && log[|log| - 1] == Stop(drive, committed)
    {
      hide AllSurvive, StopOk, Drive.Put, Added;
      WriteRecord(r);
      AddedOne(log0, old(log), old(drive.dp), Stop(drive, committed));
    }

    // File mark, the blocks of the index, file mark; the last one commits the index.
    method WriteClosed(next: Index, parts: nat)
      requires StopsOk(drive, next, parts, committed) && AllSurvive(log, committed, drive.ip, drive.dp)
      modifies `drive, `log, `committed
      ensures old(StopsOk(drive, next, parts, committed))
              && old(drive.at.block) <= |IndexClosed(old(Base(drive)), next, parts)|
      ensures drive == Laid(old(drive), IndexClosed(old(Base(drive)), next, parts)) && committed == next
      ensures AllSurvive(log, committed, drive.ip, drive.dp) && Added(old(log), log, drive.dp)
      ensures log != [] && log[|log| - 1] == Stop(drive, committed)
    {
      hide AllSurvive, StopOk, Drive.Put, Base, Started, Added;
      ghost var d, base := drive, Base(drive);
      FirstPut(d, FileMark);
      StartedNext(base, 0);
      AddedNone(log, Laid(d, Started(base, 0)).dp);
      WriteRecord(FileMark);
      AddedOne(old(log), old(log), drive.dp, Stop(drive, committed));
      var j := 0;
      while j < parts
        invariant j <= parts && |Started(base, j)| > d.at.block && drive == Laid(d, Started(base, j))
        invariant AllSurvive(log, committed, drive.ip, drive.dp) && Added(old(log), log, drive.dp)
                  && committed == old(committed)
      {
        NextPut(d, Started(base, j), IndexPart);
        StartedNext(base, j);
        StartedNext(base, j + 1);
        WriteAlong(d, Started(base, j), IndexPart, old(log));
        j := j + 1;
      }
      NextPut(d, Started(base, parts), IndexFile(next, parts));
      WriteAlong(d, Started(base, parts), IndexFile(next, parts), old(log));
      NextPut(d, IndexPut(base, next, parts), FileMark);
      CommitsMore(log, committed, drive, next);
      committed := next;
      WriteAlong(d, IndexPut(base, next, parts), FileMark, old(log));
    }

    // Ready for an index write to the data partition, from a quiet state or during recovery.
    ghost predicate ReadyDp()
      reads this
    {
      var d := drive.SeekAppend(DP);
      && 0 < blocksize && AllSurvive(log, committed, drive.ip, drive.dp) && d.CanWrite()
          && StopOk(d.ip, Base(d), committed)
      && DpNext(d.ip, Base(d), NextIndex(index, dirty, Ptr(DP, d.at.block + 1)), committed)
      && (ipEnd ==> EndsInIndex(d.ip)) && Tail(d.ip)
      && MamOk(drive.ip, drive.dp, drive.vcr, drive.ipMam, drive.dpMam)
      && (drive.vcr < VCR_MAX && ipEnd ==> Describes(ipCoh, drive.ip))
    }

    // The state right after an index write, but for the append positions and the cache.
    ghost predicate JustWritten(p: Partition)
      reads this
    {
      && 0 < blocksize && AllSurvive(log, committed, drive.ip, drive.dp) && WrittenTo(p)
      && Quiet(drive.ip, drive.dp, committed, ipEnd, dpEnd)
      && MamOk(drive.ip, drive.dp, drive.vcr, drive.ipMam, drive.dpMam)
      && CohOk(drive.ip, drive.dp, drive.vcr, ipEnd, dpEnd, ipCoh, dpCoh)
    }

    // Give the index in memory its new place, and write it there.
    method LayIndex(p: Partition, parts: nat)
      requires var d := drive.SeekAppend(p);
               && d.CanWrite() && Tail(Base(d)) && MamOk(drive.ip, drive.dp, drive.vcr, drive.ipMam, drive.dpMam)
               && StopsOk(d, NextIndex(index, dirty, Ptr(p, d.at.block + 1)), parts, committed)
      requires AllSurvive(log, committed, drive.ip, drive.dp)
      modifies `drive, `index, `log, `committed
      ensures var d := old(drive.SeekAppend(p));
              && d.CanWrite() && index == committed == NextIndex(old(index), old(dirty), Ptr(p, d.at.block + 1))
              && d.at.block <= |IndexClosed(Base(d), index, parts)|
              && drive == Laid(d, IndexClosed(Base(d), index, parts))
              && d.at.block <= |d.Recs(p)| && d.at.block <= |drive.Recs(p)|
              && drive.Recs(p)[..d.at.block] == d.Recs(p)[..d.at.block]
              && Base(d) <= drive.Recs(p) && IpAppend(drive.Recs(p), true) == d.at.block
      ensures MamOk(drive.ip, drive.dp, drive.vcr, drive.ipMam, drive.dpMam)
      ensures AllSurvive(log, committed, drive.ip, drive.dp) && Added(old(log), log, drive.dp)
      ensures log != [] && log[|log| - 1] == Stop(drive, committed)
    {
      hide StopsOk, IndexClosed, AllSurvive, MamOk, NoNewerMam, IpAppend, Added, Tight, Tail;
      drive := drive.SeekAppend(p);
      index := NextIndex(index, dirty, Ptr(p, drive.at.block + 1));
      LaidDrive(drive, index, parts);
      WriteClosed(index, parts);
    }

    // Write the index in memory to the data partition.  How many blocks that takes is left open.
    method PutIndexDp() returns (parts: nat)
      requires ReadyDp()
      modifies this
      ensures JustWritten(DP) && Added(old(log), log, drive.dp) && ipEnd == old(ipEnd)
              && AtLeast(committed, old(committed))
      ensures log != [] && log[|log| - 1] == Stop(drive, committed)
      ensures var d := old(drive.SeekAppend(DP));
              && d.CanWrite() && index == NextIndex(old(index), old(dirty), Ptr(DP, d.at.block + 1))
              && drive.dp == IndexClosed(Base(d), index, parts) && drive.appendDp == |drive.dp|
              && drive.vcr == d.vcr + |drive.dp| - d.at.block
      ensures Reliable() && drive.vcr < VCR_MAX ==> Stamped()
      ensures drive.ip == old(drive.ip) && drive.appendIp == old(drive.appendIp)
      ensures lastPos == old(lastPos) && lastBlock == old(lastBlock)
    {
      hide StopsOk, IndexClosed, Quiet, AllSurvive, MamOk, NoNewerMam, Base, Describes, IpAppend, ReadyDp, Added, Tight,
           CohOk, AtLeast, Tail, RecordedIn, Volume.Reliable;
      parts := *;
      DpReadyFacts(parts);
      LayIndex(DP, parts);
      ghost var mid := log;
      dpEnd := true;
      UpdateCoherency();
      AddedTwice(old(log), mid, drive.dp, log, drive.dp);
      dirty := false;
    }

    lemma DpReadyFacts(parts: nat)
      requires ReadyDp()
      ensures 0 < blocksize && AllSurvive(log, committed, drive.ip, drive.dp)
              && MamOk(drive.ip, drive.dp, drive.vcr, drive.ipMam, drive.dpMam)
      ensures drive.vcr < VCR_MAX && ipEnd ==> Describes(ipCoh, drive.ip)
      ensures var d := drive.SeekAppend(DP);
              var next := NextIndex(index, dirty, Ptr(DP, d.at.block + 1));
              && d.CanWrite() && Tail(Base(d)) && StopsOk(d, next, parts, committed) && AtLeast(next, committed)
              && Quiet(d.ip, IndexClosed(Base(d), next, parts), next, ipEnd, true)
    {
      hide AllSurvive, MamOk, Describes, StopOk, EndsInIndex, StopsOk, DpNext, IndexClosed, Quiet;
      var d := drive.SeekAppend(DP);
      IndexToDp(d, NextIndex(index, dirty, Ptr(DP, d.at.block + 1)), parts, committed, ipEnd);
    }

    // Ready for an index write to the index partition.
    ghost predicate ReadyIp()
      reads this
    {
      var d := drive.SeekAppend(IP);
      && 0 < blocksize && AllSurvive(log, committed, drive.ip, drive.dp) && d.CanWrite() && dpEnd
      && Quiet(d.ip, d.dp, committed, ipEnd, true)
      && committed.self.part == DP && InMemory(index, dirty, committed)
      && 4 <= d.at.block && Tail(d.ip[..d.at.block])
      && MamOk(drive.ip, drive.dp, drive.vcr, drive.ipMam, drive.dpMam)
      && (drive.vcr < VCR_MAX ==> Describes(dpCoh, drive.dp))
    }

    // Write the index in memory to the index partition, over the index that ends it.
    method PutIndexIp() returns (parts: nat)
      requires ReadyIp()
      modifies this
      ensures JustWritten(IP) && dpEnd && Added(old(log), log, drive.dp) && AtLeast(committed, old(committed))
      ensures index.back == LastDp(drive.dp)
      ensures var d := old(drive.SeekAppend(IP));
              && d.CanWrite() && index == NextIndex(old(index), old(dirty), Ptr(IP, d.at.block + 1))
              && d.at.block <= |drive.ip| && drive.ip[..d.at.block] == d.ip[..d.at.block]
              && drive.ip == IndexClosed(Base(d), index, parts)
              && drive.appendIp == IpAppend(drive.ip, true) == d.at.block
      ensures drive.dp == old(drive.dp) && drive.appendDp == old(drive.appendDp)
      ensures Reliable() && drive.vcr < VCR_MAX ==> Stamped()
      ensures lastPos == old(lastPos) && lastBlock == old(lastBlock)
    {
      hide StopsOk, IndexClosed, Quiet, AllSurvive, MamOk, NoNewerMam, Base, Describes, IpAppend, ReadyIp, Added, Tight,
           LastDp, CohOk, AtLeast, Tail, RecordedIn, Volume.Reliable;
      parts := *;
      IpReadyFacts(parts);
      LayIndex(IP, parts);
      ghost var mid := log;
      ipEnd := true;
      QuietBack(drive.ip, drive.dp, committed, true, true);
      UpdateCoherency();
      AddedTwice(old(log), mid, drive.dp, log, drive.dp);
      drive := drive.(appendIp := index.self.block - 1);
      dirty := false;
    }

    lemma IpReadyFacts(parts: nat)
      requires ReadyIp()
      ensures 0 < blocksize && AllSurvive(log, committed, drive.ip, drive.dp) && dpEnd
              && MamOk(drive.ip, drive.dp, drive.vcr, drive.ipMam, drive.dpMam)
      ensures drive.vcr < VCR_MAX ==> Describes(dpCoh, drive.dp)
      ensures var d := drive.SeekAppend(IP);
              var next := NextIndex(index, dirty, Ptr(IP, d.at.block + 1));
              && d.CanWrite() && Tail(Base(d)) && StopsOk(d, next, parts, committed) && AtLeast(next, committed)
              && Quiet(IndexClosed(Base(d), next, parts), d.dp, next, true, true)
    {
      hide AllSurvive, MamOk, Describes, StopOk, EndsInIndex, StopsOk, IpNext, IndexClosed;
      var d := drive.SeekAppend(IP);
      QuietStop(d.ip, d.dp, committed, ipEnd, true);
      QuietFlags(d.ip, d.dp, committed, ipEnd, true);
      QuietEnds(d.ip, d.dp, committed, ipEnd);
      hide Quiet;
      NextIpFacts(d.ip, d.dp, d.at.block, index, dirty, committed, ipEnd);
      IndexToIp(d, NextIndex(index, dirty, Ptr(IP, d.at.block + 1)), parts, committed);
    }

    // A quiet volume is ready for an index write to either partition.
    lemma IsReady()
      requires Valid()
      ensures Tail(drive.dp)
      ensures ReadyDp() && drive.SeekAppend(DP).at.block == |drive.dp| && Base(drive.SeekAppend(DP)) == drive.dp
      ensures committed.self.Ptr? && (committed.self.part == DP && dpEnd && !Passes(index, drive.dp) ==> ReadyIp())
      ensures drive.SeekAppend(IP).at == Ptr(IP, drive.appendIp)
    {
      hide AllSurvive, MamOk, EndsInIndex, Describes, StopOk, NoneNewer, AllSuperseded, LastIndex, LastDp, DpNext,
           CommittedLast, Skips, Tail, CacheOk, First, Copy;
      QuietFlags(drive.ip, drive.dp, committed, ipEnd, dpEnd);
      QuietStop(drive.ip, drive.dp, committed, ipEnd, dpEnd);
      NextDpFacts(drive.ip, drive.dp, index, dirty, committed, ipEnd, dpEnd);
      PassesIs(drive.ip, drive.dp, index, dirty, committed, ipEnd, dpEnd);
      assert drive.dp[..|drive.dp|] == drive.dp;
    }

    // What the index in memory has to do with the committed one.  They differ in the tree, while
    // that is dirty; and a mount may have gone on with a copy on the index partition.
    lemma InStep()
      requires Valid()
      ensures index.self.Ptr? && index.gen == committed.gen && (!dirty ==> index.root == committed.root)
      ensures if Passes(index, drive.dp) then ipEnd && committed.self.Ptr? && committed.self.part == DP
              else InMemory(index, dirty, committed)
      ensures index.self.part == IP ==>
              ipEnd && LastIndex(drive.ip) >= 0 && First(drive.ip, LastIndex(drive.ip)) == index.self.block
    {
      hide Quiet, MamOk, CohOk, CacheOk, AllSurvive, LastIndex, First;
      PassesIs(drive.ip, drive.dp, index, dirty, committed, ipEnd, dpEnd);
    }

    // Write the index behind everything on the data partition.
    method WriteIndexDp()
      requires Valid()
      modifies this
      ensures Valid() && Grows(old(drive), old(log), drive, log) && WrittenTo(DP)
      ensures index.gen == old(index.gen) + (if old(dirty) then 1 else 0) && index.root == old(index.root)
      ensures ipEnd == old(ipEnd) && drive.ip == old(drive.ip) && drive.appendIp == old(drive.appendIp)
      ensures index.back == if old(Passes(index, drive.dp)) then old(index.back) else old(LastDp(drive.dp))
      ensures GotIndex(old(drive.dp), drive.dp, old(index), old(dirty))
              && drive.vcr == old(drive.vcr) + |drive.dp| - |old(drive.dp)|
      ensures Reliable() && drive.vcr < VCR_MAX ==> Stamped()
      ensures Added(old(log), log, drive.dp) && (Straight() <==> old(Straight()))
      ensures log != [] && log[|log| - 1] == Stop(drive, committed)
      ensures lastPos == old(lastPos) && lastBlock == old(lastBlock)
    {
      hide Quiet, MamOk, CohOk, CacheOk, AllSurvive, AppendsOk, Grows, IndexClosed, ReadyDp, ReadyIp, Base, EndsInIndex,
           LastIndex, First, IpAppend, Added, Tight, LastDp, Remembered, Whole, AtEnd, IndexPut,
           GotIndex;
      IsReady();
      NextDpBack(drive.ip, drive.dp, index, dirty, committed, ipEnd, dpEnd);
      var parts := PutIndexDp();
      PutShape(old(drive.dp), index, parts);
      PutGot(old(drive.dp), old(index), old(dirty), parts);
      TightPut(old(drive.dp), index, parts);
      AfterDp(old(drive), old(log), drive, log, lastPos, lastBlock, ipEnd);
      IsRemembered(drive.ip, ipEnd, index, committed);
    }

    // Write the index to a partition.  The data partition gets it first if the index
    // partition would otherwise lose the only current one.
    method WriteIndex(p: Partition)
      requires Valid()
      modifies this
      ensures Valid() && Grows(old(drive), old(log), drive, log) && WrittenTo(p)
      ensures index.gen == old(index.gen) + (if old(dirty) then 1 else 0) && index.root == old(index.root)
      ensures if p == IP then dpEnd else ipEnd == old(ipEnd) && drive.ip == old(drive.ip)
      ensures drive.appendIp == old(drive.appendIp)
      ensures index.back == if p == IP then LastDp(drive.dp)
                            else if old(Passes(index, drive.dp)) then old(index.back) else old(LastDp(drive.dp))
      ensures Added(old(log), log, drive.dp) && (Straight() <==> old(Straight()))
      ensures p == DP ==> GotIndex(old(drive.dp), drive.dp, old(index), old(dirty))
                          && drive.vcr == old(drive.vcr) + |drive.dp| - |old(drive.dp)|
      ensures Reliable() && drive.vcr < VCR_MAX ==> Stamped()
      ensures p == DP ==> log != [] && log[|log| - 1] == Stop(drive, committed)
      ensures p == IP ==>
              if old(!dpEnd || (ipEnd && index.self.Ptr? && index.self.part == IP)) then
                GotIndex(old(drive.dp), drive.dp, old(index), old(dirty))
              else drive.dp == old(drive.dp)
      ensures lastPos == old(lastPos) && lastBlock == old(lastBlock)
    {
      hide Quiet, MamOk, CohOk, CacheOk, AllSurvive, AppendsOk, Grows, ReadyDp, ReadyIp, Base, EndsInIndex,
           LastIndex, First, IpAppend, Added, Tight, LastDp, Remembered, GotIndex;
      if p == DP {
        WriteIndexDp();
        return;
      }
      AddedNone(log, drive.dp);
      GrowsSelf(drive, log, ipEnd);
      InStep();
      QuietFlags(drive.ip, drive.dp, committed, ipEnd, dpEnd);
      if !dpEnd || (ipEnd && index.self.part == IP) {
        WriteIndexDp();
      }
      AppendsKept(drive.ip, drive.dp, drive.appendIp, drive.appendDp, ipEnd);
      ghost var mid, midlog, midEnd := drive, log, ipEnd;
      IsReady();
      var _ := PutIndexIp();
      AfterIp(mid, midlog, drive, log, lastPos, lastBlock, midEnd);
      GrowsTwice(old(drive), old(log), mid, midlog, drive, log);
      AddedTwice(old(log), midlog, mid.dp, log, drive.dp);
      IsRemembered(drive.ip, ipEnd, index, committed);
    }

    // Write an index to a partition just before data goes to the other one, unless it
    // already ends in one that may stay the only current index.
    method WriteIndexConditional(p: Partition)
      requires Valid()
      modifies this
      ensures Valid() && Grows(old(drive), old(log), drive, log)
      ensures if p == IP then ipEnd else dpEnd && committed.self.part == DP && !Passes(index, drive.dp)
      ensures index.root == old(index.root)
      ensures Added(old(log), log, drive.dp) && (Straight() <==> old(Straight()))
      ensures lastPos == old(lastPos) && lastBlock == old(lastBlock)
      ensures drive.appendIp == old(drive.appendIp)
      ensures if old(if p == IP then !ipEnd else !dpEnd || (ipEnd && index.self.Ptr? && index.self.part == IP)) then
                && WrittenTo(p) && (Reliable() && drive.vcr < VCR_MAX ==> Stamped())
                && (p == DP ==>
                  && drive.ip == old(drive.ip) && GotIndex(old(drive.dp), drive.dp, old(index), old(dirty))
                  && drive.vcr == old(drive.vcr) + |drive.dp| - |old(drive.dp)| && ipEnd == old(ipEnd) && dpEnd
                  && log != [] && log[|log| - 1] == Stop(drive, committed))
              else drive == old(drive) && index == old(index) && log == old(log)
    {
      hide Quiet, MamOk, CohOk, CacheOk, AllSurvive, Added, Tight, LastDp, Remembered, GotIndex;
      QuietFlags(drive.ip, drive.dp, committed, ipEnd, dpEnd);
      InStep();
      AddedNone(log, drive.dp);
      if p == IP && !ipEnd {
        WriteIndex(IP);
      } else if p == DP && (!dpEnd || (ipEnd && index.self.part == IP)) {
        WriteIndex(DP);
      }
    }

    // Between operations the end flags tell the truth, and one of them is up; with the newest
    // index on the index partition, that partition ends in it, and it points back to the last
    // index of the data partition, unless a mount has passed over that one.
    lemma Flags()
      requires Valid()
      ensures (ipEnd || dpEnd) && (ipEnd ==> EndsInIndex(drive.ip)) && (dpEnd ==> EndsInIndex(drive.dp))
      ensures index.self.Ptr?
      ensures index.self.part == IP ==>
              && ipEnd && LastIndex(drive.ip) >= 0 && First(drive.ip, LastIndex(drive.ip)) == index.self.block
              && drive.appendIp == index.self.block - 1
              && (index.back == LastDp(drive.dp) <==> committed == index.(root := committed.root))
    {
      hide MamOk, CohOk, CacheOk, AllSurvive, StopOk, NoneNewer, LastDp, LastIndex;
      QuietFlags(drive.ip, drive.dp, committed, ipEnd, dpEnd);
      PassesIs(drive.ip, drive.dp, index, dirty, committed, ipEnd, dpEnd);
    }

    // The tree in memory changed.
    method Touch()
      requires Valid()
      modifies `index, `dirty
      ensures Valid() && dirty && index == old(index).(root := old(index.root) + 1)
      ensures Straight() <==> old(Straight())
    {
      hide Quiet, MamOk, CohOk, CacheOk, AllSurvive, Tight, LastDp;
      dirty, index := true, index.(root := index.root + 1);
    }

    // Flush a changed index: to the index partition if that is known to be cheap, else to
    // the data partition.
    method SyncIndex()
      requires Valid()
      modifies this
      ensures Valid() && Grows(old(drive), old(log), drive, log) && !dirty
      ensures committed.root == old(index.root) && (committed == index <==> !Passes(index, drive.dp))
      ensures old(dirty) ==> committed.gen == old(index.gen) + 1 && committed == index
      ensures drive.appendIp == old(drive.appendIp)
      ensures old(dirty) && Reliable() && drive.vcr < VCR_MAX ==> Stamped()
      ensures old(dirty) ==>
              if old(dpEnd && !ipEnd) then WrittenTo(IP) && drive.dp == old(drive.dp)
              else WrittenTo(DP) && drive.ip == old(drive.ip) && GotIndex(old(drive.dp), drive.dp, old(index), true)
      ensures !old(dirty) ==> drive == old(drive) && committed == old(committed)
      ensures Added(old(log), log, drive.dp) && (Straight() <==> old(Straight()))
    {
      hide Quiet, MamOk, CohOk, CacheOk, AllSurvive, Added, Tight, LastDp, Remembered, GotIndex;
      AddedNone(log, drive.dp);
      if dirty {
        if dpEnd && !ipEnd {
          WriteIndex(IP);
        } else {
          WriteIndex(DP);
        }
      }
      NotPassed();
    }

    // The index in memory is the committed one, unless a mount has passed over that.
    lemma NotPassed()
      requires Valid() && !dirty
      ensures committed == index <==> !Passes(index, drive.dp)
      ensures committed.root == index.root && index.self.Ptr?
    {
      hide Quiet, MamOk, CohOk, CacheOk, AllSurvive, LastDp;
      PassesIs(drive.ip, drive.dp, index, dirty, committed, ipEnd, dpEnd);
    }

    // Leave the medium consistent: the current index ends the index partition.  Behind a mount that
    // passed over the last index of the data partition, a volume that did not change keeps that one.
    method Unmount()
      requires Valid()
      modifies this
      ensures Valid() && Grows(old(drive), old(log), drive, log) && !dirty
      ensures committed.root == index.root == old(index.root) && ipEnd && index.self.Ptr? && index.self.part == IP
      ensures old(!dirty && index.self.Ptr? && index.self.part == IP) ==> drive == old(drive) && index == old(index)
      ensures old(dirty || (index.self.Ptr? && index.self.part != IP)) && Reliable() && drive.vcr < VCR_MAX ==>
              Stamped()
      ensures Passes(index, drive.dp) <==> !old(dirty) && old(Passes(index, drive.dp))
      ensures WrittenTo(IP) <==> !Passes(index, drive.dp)
      ensures CheckPointers(IndexOf(drive.ip), IndexOf(drive.dp), drive.dp) ==
              if Passes(index, drive.dp) then UseDp else UseIp
      ensures Added(old(log), log, drive.dp) && (Straight() <==> old(Straight()))
    {
      hide Quiet, MamOk, CohOk, CacheOk, AllSurvive, Added, Tight, LastDp, Remembered, CheckPointers, IndexOf;
      InStep();
      AddedNone(log, drive.dp);
      if dirty || index.self.part != IP {
        WriteIndex(IP);
      }
      NotPassed();
      InStep();
      EndVerdict(drive.ip, drive.dp, committed, ipEnd, dpEnd);
    }

    method WriteBlock(p: Partition, r: Record)
      requires MidWrite(drive, p, committed, ipCoh, dpCoh) && AllSurvive(log, committed, drive.ip, drive.dp) && r.Block?
               && drive.appendIp <= |drive.ip|
      modifies `drive, `log
      ensures MidWrite(drive, p, committed, ipCoh, dpCoh) && AllSurvive(log, committed, drive.ip, drive.dp)
      ensures Grows(old(drive), old(log), drive, log) && Target(drive, p) == old(Target(drive, p)) + [r]
      ensures if p == IP then drive.appendIp == |drive.ip| && drive.dp == old(drive.dp) else drive.ip == old(drive.ip)
      ensures Added(old(log), log, drive.dp) && SameChain(old(drive.dp), drive.dp)
      ensures log != [] && log[|log| - 1] == Stop(drive, committed)
    {
      hide MidWrite, AllSurvive, StopOk, Drive.Put, Added, SameChain;
      BlockStep(drive, p, committed, r, ipCoh, dpCoh);
      WriteRecord(r);
      AddedNone(old(log), drive.dp);
      AddedOne(old(log), old(log), drive.dp, Stop(drive, committed));
      OneBlock(old(drive.dp), drive.dp, r);
    }

    method WriteBlocks(p: Partition, data: seq<byte>)
      requires MidWrite(drive, p, committed, ipCoh, dpCoh) && AllSurvive(log, committed, drive.ip, drive.dp)
               && drive.appendIp <= |drive.ip|
      requires 0 < blocksize && data != []
      modifies `drive, `log
      ensures MidWrite(drive, p, committed, ipCoh, dpCoh) && AllSurvive(log, committed, drive.ip, drive.dp)
      ensures Grows(old(drive), old(log), drive, log)
      ensures Target(drive, p) == old(Target(drive, p)) + Chop(data, blocksize)
      ensures if p == IP then drive.appendIp == |drive.ip| && drive.dp == old(drive.dp) else drive.ip == old(drive.ip)
      ensures Added(old(log), log, drive.dp) && SameChain(old(drive.dp), drive.dp)
      ensures log != [] && log[|log| - 1] == Stop(drive, committed)
    {
      hide MidWrite, AllSurvive, Target, Added, LastDp, Tight;
      AddedNone(log, drive.dp);
      var rest := data;
      while rest != []
        invariant MidWrite(drive, p, committed, ipCoh, dpCoh) && AllSurvive(log, committed, drive.ip, drive.dp)
                  && drive.appendIp <= |drive.ip|
        invariant Grows(old(drive), old(log), drive, log)
        invariant Target(drive, p) + Chop(rest, blocksize) == old(Target(drive, p)) + Chop(data, blocksize)
        invariant if p == IP then (rest != data ==> drive.appendIp == |drive.ip|) && drive.dp == old(drive.dp)
                  else drive.ip == old(drive.ip)
        invariant Added(old(log), log, drive.dp) && SameChain(old(drive.dp), drive.dp)
        invariant rest != data ==> log != [] && log[|log| - 1] == Stop(drive, committed)
        decreases |rest|
      {
        ghost var d1, log1 := drive, log;
        var n := if |rest| > blocksize then blocksize else |rest|;
        assert rest[..|rest|] == rest;
        assert Chop(rest, blocksize) == [Block(rest[..n])] + Chop(rest[n..], blocksize);
        WriteBlock(p, Block(rest[..n]));
        AddedTwice(old(log), log1, d1.dp, log, drive.dp);
        rest := rest[n..];
      }
    }

    // Append blocks to a partition while the other one ends in an index that may stay the only
    // current one.
    method AppendBlocks(p: Partition, data: seq<byte>)
      requires Valid() && data != [] && drive.appendIp <= |drive.ip|
      requires if p == IP then dpEnd && committed.self.part == DP && !Passes(index, drive.dp) else ipEnd
      modifies `drive, `log, `ipEnd, `dpEnd
      ensures Valid() && Grows(old(drive), old(log), drive, log) && !(if p == IP then ipEnd else dpEnd)
      ensures drive.appendIp <= |drive.ip| && Target(drive, p) == old(Target(drive, p)) + Chop(data, blocksize)
      ensures if p == IP then drive.appendIp == |drive.ip| && drive.dp == old(drive.dp) else drive.ip == old(drive.ip)
      ensures Added(old(log), log, drive.dp) && SameChain(old(drive.dp), drive.dp)
      ensures log != [] && log[|log| - 1] == Stop(drive, committed)
    {
      hide Quiet, MidWrite, MamOk, CohOk, CacheOk, AllSurvive, Added, LastDp, Remembered, Target, Chop, AppendsOk,
           Grows, SameChain;
      InStep();
      AppendsKept(drive.ip, drive.dp, drive.appendIp, drive.appendDp, ipEnd);
      StartWrite(drive, p, committed, ipEnd, dpEnd, ipCoh, dpCoh, log);
      if p == IP {
        ipEnd := false;
      } else {
        dpEnd := false;
      }
      drive := drive.SeekAppend(p);
      ghost var s := drive;
      WriteBlocks(p, data);
      EndWrite(drive, p, committed, ipCoh, dpCoh);
      GrowsTwice(old(drive), old(log), s, old(log), drive, log);
      StillRemembered(old(drive.ip), old(ipEnd), drive.ip, ipEnd, index, dirty, committed);
      CacheGrows(old(drive), old(log), drive, log, lastPos, lastBlock);
    }

    // Append data to a partition, in blocks, and say where it starts.
    method WriteData(p: Partition, data: seq<byte>) returns (start: nat)
      requires Valid() && data != []
      modifies this
      ensures Valid() && Grows(old(drive), old(log), drive, log) && index.root == old(index.root)
      ensures old(drive.appendIp) <= |old(drive.ip)| && drive.appendIp <= |drive.ip|
      ensures |old(Target(drive, p))| <= start <= |Target(drive, p)|
      ensures Target(drive, p) == Target(drive, p)[..start] + Chop(data, blocksize)
      ensures p == IP ==> start == old(drive.appendIp) && drive.appendIp == |drive.ip|
      ensures if p == IP then
                old(dpEnd && !(ipEnd && index.self.Ptr? && index.self.part == IP)) ==>
                  drive.dp == old(drive.dp) && index == old(index)
              else old(ipEnd) ==> drive.ip == old(drive.ip) && index == old(index)
      ensures !(if p == IP then ipEnd else dpEnd)
      ensures log != [] && log[|log| - 1] == Stop(drive, committed)
      ensures lastPos == old(lastPos) && lastBlock == old(lastBlock)
      ensures Added(old(log), log, drive.dp) && (Straight() <==> old(Straight()))
    {
      hide Quiet, MamOk, CohOk, CacheOk, AllSurvive, Added, Tight, LastDp, Remembered, Chop, AppendsOk;
      AppendsKept(drive.ip, drive.dp, drive.appendIp, drive.appendDp, ipEnd);
      WriteIndexConditional(if p == IP then DP else IP);
      AppendsKept(drive.ip, drive.dp, drive.appendIp, drive.appendDp, ipEnd);
      ghost var d1, log1 := drive, log;
      start := if p == IP then drive.appendIp else |drive.dp|;
      AppendBlocks(p, data);
      GrowsTwice(old(drive), old(log), d1, log1, drive, log);
      AddedTwice(old(log), log1, d1.dp, log, drive.dp);
    }

    // The cached block is what the tape holds.
    lemma CacheHolds()
      requires Valid() && lastPos.Ptr?
      ensures drive.appendIp <= |drive.ip|
      ensures var recs := Stable(drive.ip, drive.dp, drive.appendIp, lastPos.part);
              lastPos.block < |recs| && recs[lastPos.block] == Block(lastBlock)
    {
    }

    // Move the drive to a block.
    method Seek(p: Partition, block: nat)
      requires Valid()
      modifies `drive
      ensures Valid() && drive == old(drive).(at := Ptr(p, block))
    {
      hide Quiet, MamOk, CohOk, CacheOk, AllSurvive;
      drive := drive.(at := Ptr(p, block));
    }

    // Read the block under the drive into the one-block cache.
    method Fetch(p: Partition, block: nat) returns (data: seq<byte>)
      requires Valid() && drive.at == Ptr(p, block) && drive.appendIp <= |drive.ip|
      requires var recs := Stable(drive.ip, drive.dp, drive.appendIp, p); block < |recs| && recs[block].Block?
      modifies `drive, `lastPos, `lastBlock
      ensures Valid() && drive == old(drive).(at := Ptr(p, block + 1))
      ensures lastPos == Ptr(p, block) && lastBlock == data
      ensures Stable(drive.ip, drive.dp, drive.appendIp, p)[block] == Block(data)
    {
      hide Quiet, MamOk, CohOk, AllSurvive;
      data := drive.Recs(p)[block].data;
      drive := drive.(at := Ptr(p, block + 1));
      lastPos, lastBlock := Ptr(p, block), data;
    }

    // ---------------------------------------------------------------- mounting

    // A cartridge was loaded that some earlier life of the drive left at a stop.
    ghost predicate Unmounted()
      reads this
    {
      && 0 < blocksize && AllSurvive(log, committed, drive.ip, drive.dp) && Survives(Stop(drive, committed))
      && drive.appendIp == 0 && drive.appendDp == 0 && !ipEnd && !dpEnd && lastPos == NoPtr
    }

    constructor Load(bs: nat, s: Stop, memory: nat -> bool)
      requires 0 < bs && Survives(s)
      ensures Unmounted() && committed == s.committed && blocksize == bs && log == [s] && stores == memory
      ensures drive == s.drive.(at := NoPtr, appendIp := 0, appendDp := 0)
    {
      hide Survives;
      blocksize, stores, tries := bs, memory, 0;
      drive := s.drive.(at := NoPtr, appendIp := 0, appendDp := 0);
      index, dirty, ipEnd, dpEnd := s.committed, false, false, false;
      ipCoh, dpCoh := s.drive.ipMam, s.drive.dpMam;
      lastPos, lastBlock := NoPtr, [];
      committed, log := s.committed, [s];
      new;
      Reflexive(committed);
      SameMedium(s, Stop(drive, committed));
    }

    // Fill in the file mark that an index at the very end of a partition lacks.
    method CloseIndex(p: Partition)
      requires AllSurvive(log, committed, drive.ip, drive.dp) && Survives(Stop(drive, committed))
      modifies `drive, `log
      ensures AllSurvive(log, committed, drive.ip, drive.dp) && Survives(Stop(drive, committed))
      ensures drive == Closed(old(drive), p) && Added(old(log), log, drive.dp)
      ensures Tight(drive.dp) <==> Tight(old(drive.dp))
    {
      hide AllSurvive, StopOk, LastIndex, Describes, AtEnd, IndexOf, Added, Tight, EndWithMark;
      ClosedStop(drive, p, committed);
      AddedNone(log, drive.dp);
      var recs := drive.Recs(p);
      if LastIndex(recs) >= 0 && LastIndex(recs) == |recs| - 1 {
        drive := drive.SeekEnd(p);
        WriteRecord(FileMark);
        AddedNone(old(log), drive.dp);
        AddedOne(old(log), old(log), drive.dp, Stop(drive, committed));
      }
    }

    // Ready for the index writes that make both partitions end in the index in memory.
    ghost predicate Restorable()
      reads this
    {
      && (if dpEnd then ReadyIp() else ReadyDp())
      && IpCut(drive.ip, if drive.appendIp == 0 then |drive.ip| else drive.appendIp)
      && (if dpEnd then drive.appendDp == 0 || drive.appendDp == |drive.dp| else BackToEnd())
    }

    // The next index of the data partition will point back to the last one there, of which nothing
    // is cut off.
    ghost predicate BackToEnd()
      reads this
    {
      var d := drive.SeekAppend(DP);
      && d.CanWrite() && NextIndex(index, dirty, Ptr(DP, d.at.block + 1)).back == LastDp(Base(d))
      && (Tight(Base(d)) <==> Tight(drive.dp))
    }

    lemma ReadyAgain()
      requires JustWritten(DP) && IpCut(drive.ip, if drive.appendIp == 0 then |drive.ip| else drive.appendIp)
      ensures ReadyIp()
    {
      hide Quiet, MamOk, AllSurvive, Describes;
    }

    // Write the index to the index partition, and before that to the data partition if that does
    // not end in one.
    method Restore()
      requires Restorable() && lastPos == NoPtr
      modifies this
      ensures Valid() && dpEnd && WrittenTo(IP) && Added(old(log), log, drive.dp)
      ensures index.root == old(index.root) && index.gen == old(index.gen) + (if old(dirty) then 1 else 0)
      ensures AtLeast(committed, old(committed)) && drive.appendIp == index.self.block - 1
      ensures Reliable() && drive.vcr < VCR_MAX ==> Stamped()
      ensures !Passes(index, drive.dp) && (Tight(drive.dp) <==> Tight(old(drive.dp)))
      ensures WrittenOn(old(drive.ip), drive.ip, old(if drive.appendIp == 0 then |drive.ip| else drive.appendIp))
      ensures if old(dpEnd) then drive.dp == old(drive.dp)
              else WrittenOn(old(drive.dp), drive.dp, old(if drive.appendDp == 0 then |drive.dp| else drive.appendDp))
    {
      hide ReadyDp, ReadyIp, MamOk, CohOk, AllSurvive, IndexClosed, Base, Quiet, Added, Tight, LastDp, WrittenOn;
      AddedNone(log, drive.dp);
      if !dpEnd {
        BaseTail();
        var parts := PutIndexDp();
        TightPut(old(Base(drive.SeekAppend(DP))), index, parts);
        AppendedOn(old(drive), DP, index, parts);
        ReadyAgain();
      }
      ghost var mid, d1, dp1 := log, drive, drive.dp;
      var more := PutIndexIp();
      AppendedOn(d1, IP, index, more);
      AddedTwice(old(log), mid, dp1, log, drive.dp);
    }

    // Where an index write goes.
    lemma AppendedOn(d: Drive, p: Partition, next: Index, parts: nat)
      requires d.SeekAppend(p).CanWrite()
      ensures var at := if p == IP then if d.appendIp == 0 then |d.ip| else d.appendIp
                        else if d.appendDp == 0 then |d.dp| else d.appendDp;
              WrittenOn(d.Recs(p), IndexClosed(Base(d.SeekAppend(p)), next, parts), at)
    {
      hide IndexClosed, WrittenOn;
      ClosedOn(d.Recs(p), d.SeekAppend(p).at.block, next, parts);
    }

    lemma BaseTail()
      requires ReadyDp()
      ensures drive.SeekAppend(DP).CanWrite() && Tail(Base(drive.SeekAppend(DP)))
    {
    }

    // What a check knows when it has decided for the index in memory.
    ghost predicate Decided()
      reads this
    {
      && 0 < blocksize && AllSurvive(log, committed, drive.ip, drive.dp) && Settled(drive.ip, drive.dp, index)
      && committed == index && dirty && MamOk(drive.ip, drive.dp, drive.vcr, drive.ipMam, drive.dpMam)
      && (ipEnd ==> EndsInIndex(drive.ip) && Describes(ipCoh, drive.ip))
      && IpCut(drive.ip, drive.appendIp)
    }

    // If the data partition ends in an index, the index partition may be written.
    lemma DecidedIp()
      requires Decided() && dpEnd && index.self.Ptr? && index.self.part == DP
      requires EndsInIndex(drive.dp) && Describes(dpCoh, drive.dp) && drive.appendDp == |drive.dp|
      ensures Restorable()
    {
      hide StopOk, AllSurvive, MamOk, Describes, LastIndex, EndsInIndex, NoneNewer, AllSuperseded;
      SettledQuiet(drive.ip, drive.dp, index, ipEnd);
      hide Quiet, Settled;
    }

    // If not, the data partition may, behind its last index or the last block in use.
    lemma DecidedDp(lastDp: nat)
      requires Decided() && !dpEnd && LastIndex(drive.dp) != |drive.dp| - 1
      requires drive.appendDp == DpFrom(drive.dp, lastDp)
      ensures Restorable()
    {
      hide StopOk, AllSurvive, MamOk, Describes, LastIndex, EndsInIndex, NoneNewer, AllSuperseded, AtEnd, DpNext,
           DpFrom, Tight, LastDp;
      CheckedDp(drive, index, lastDp);
    }

    // Look for the last index of both partitions, and fill in missing file marks.
    method SeekIndexes()
      requires Unmounted()
      modifies `drive, `log, `ipCoh, `dpCoh
      ensures drive == Sealed(old(drive)) && Added(old(log), log, drive.dp)
      ensures AllSurvive(log, committed, drive.ip, drive.dp) && Survives(Stop(drive, committed))
      ensures Tight(drive.dp) <==> Tight(old(drive.dp))
      ensures EndsInIndex(drive.ip) ==> Describes(ipCoh, drive.ip)
      ensures EndsInIndex(drive.dp) ==> Describes(dpCoh, drive.dp)
    {
      hide AllSurvive, MamOk, StopOk, Describes, FastPathOk, Closed, EndsInIndex, Added, Tight;
      drive := drive.SeekEnd(IP).SeekEnd(DP);
      CloseIndex(DP);
      ghost var mid, dp1 := log, drive.dp;
      CloseIndex(IP);
      AddedTwice(old(log), mid, dp1, log, drive.dp);
      FoundDescribes(drive.ip, drive.dp, committed, ipCoh);
      FoundDescribes(drive.ip, drive.dp, committed, dpCoh);
      ipCoh, dpCoh := Found(ipCoh, drive.ip), Found(dpCoh, drive.dp);
    }

    // A check has decided for the index in memory.
    ghost predicate Chose()
      reads this
    {
      && 0 < blocksize && AllSurvive(log, committed, drive.ip, drive.dp) && Settled(drive.ip, drive.dp, index)
          && committed == index
      && MamOk(drive.ip, drive.dp, drive.vcr, drive.ipMam, drive.dpMam) && lastPos == NoPtr
      && LastIndex(drive.ip) != |drive.ip| - 1 && LastIndex(drive.dp) != |drive.dp| - 1
      && ipEnd == AtEnd(drive.ip) && dpEnd == AtEnd(drive.dp)
      && (ipEnd ==> EndsInIndex(drive.ip) && Describes(ipCoh, drive.ip))
      && (dpEnd ==> EndsInIndex(drive.dp) && Describes(dpCoh, drive.dp))
      && drive.appendIp == |drive.ip| && drive.appendDp == |drive.dp|
      && index.self.Ptr? && (index.self.part == IP ==> ipEnd)
      && (dirty <==> index.self.part != IP || !ipEnd || !dpEnd)
    }

    // Go on with that index.  What lies behind the last index of a partition is given up, but for
    // the blocks that the index refers to; the last of them on each partition are `lastIp` and
    // `lastDp`.
    method GoOn(lastIp: nat, lastDp: nat) returns (ok: bool)
      requires Chose()
      modifies this
      ensures AllSurvive(log, committed, drive.ip, drive.dp) && Added(old(log), log, drive.dp)
              && AtLeast(committed, old(committed))
      ensures ok <==> !(old(dirty) && |old(drive.dp)| < lastDp)
      ensures ok ==> Valid() && dpEnd && WrittenTo(IP) && !Passes(index, drive.dp)
      ensures ok ==> index.root == old(index.root) && index.gen == old(index.gen) + (if old(dirty) then 1 else 0)
      ensures ok ==> Spared(old(drive.ip), drive.ip, lastIp) && Spared(old(drive.dp), drive.dp, lastDp)
      ensures ok && Reliable() && drive.vcr < VCR_MAX ==> Stamped()
      ensures Tight(drive.dp) <==> Tight(old(drive.dp))
    {
      hide AllSurvive, MamOk, CohOk, StopOk, LastIndex, Describes, AtEnd, Restorable, EndsInIndex, IpCut, IpFrom,
           DpFrom, First, Quiet, AppendsOk, NoneNewer, AllSuperseded, Added, Tight, LastDp, Remembered, WrittenOn,
           Spared;
      ghost var d, dpThere := drive, dpEnd;
      Reflexive(committed);
      AddedNone(log, drive.dp);
      IpFromCuts(drive.ip, drive.dp, committed, lastIp);
      drive := drive.(appendIp := IpFrom(drive.ip, lastIp), appendDp := DpFrom(drive.dp, lastDp));
      DpFromEnd(drive.dp, lastDp);
      BeyondEnd(drive.dp, lastDp);
      ok := !dirty || drive.appendDp == 0 || lastDp <= drive.appendDp;
      if ok && dirty {
        if dpEnd {
          DecidedIp();
        } else {
          DecidedDp(lastDp);
        }
        CutSome(drive.ip, IpFrom(drive.ip, lastIp));
        Restore();
        IpSpares(d.ip, d.dp, old(committed), drive.ip, lastIp);
        if dpThere {
          EndSpares(d.dp, lastDp);
        } else {
          DpSpares(d.ip, d.dp, old(committed), drive.dp, lastDp);
        }
      } else if ok {
        EndSpares(drive.ip, lastIp);
        EndSpares(drive.dp, lastDp);
        SettledQuiet(drive.ip, drive.dp, index, true);
        FromAppends(drive.ip, drive.dp, committed, lastIp);
        IsRemembered(drive.ip, ipEnd, index, committed);
        UpdateCoherency();
      }
    }

    // Check the medium, and restore it: the index on it that the pointer check decides for is the
    // one to go on with.
    method CheckMedium(deep: bool, lastIp: nat, lastDp: nat, extentsOk: bool) returns (ok: bool)
      requires Unmounted()
      modifies this
      ensures AllSurvive(log, committed, drive.ip, drive.dp) && Added(old(log), log, drive.dp)
              && AtLeast(committed, old(committed))
      ensures ok <==> !Refuses(old(drive.ip), old(drive.dp), deep, lastDp, extentsOk)
      ensures ok ==> Valid() && dpEnd && WrittenTo(IP) && !Passes(index, drive.dp)
      ensures ok && Reliable() && drive.vcr < VCR_MAX ==> Stamped()
      ensures Tight(drive.dp) <==> Tight(old(drive.dp))
      ensures ok ==> var chosen := Chosen(old(drive.ip), old(drive.dp));
                     chosen.Some? && committed.root == chosen.value.root && committed.gen >= chosen.value.gen
      ensures ok ==> Spared(old(drive.ip), drive.ip, lastIp) && Spared(old(drive.dp), drive.dp, lastDp)
    {
      hide AllSurvive, MamOk, CohOk, StopOk, LastIndex, Describes, CheckPointers, Chosen, AtEnd, Settled, Sealed,
           EndsInIndex, FastPathOk, Quiet, AppendsOk, CacheOk, DpFrom, IndexOf, Refuses, Added, Tight, LastDp,
               Remembered, Spared;
      BothClosed(drive, committed);
      Checked(drive, committed);
      Refusal(drive, committed, deep, lastDp, extentsOk);
      SeekIndexes();
      ipEnd, dpEnd := AtEnd(drive.ip), AtEnd(drive.dp);
      ok := false;
      Reflexive(committed);
      if (!deep && !(ipEnd && dpEnd)) || (LastIndex(drive.ip) < 0 && !extentsOk) {
        return;
      }
      index := Chosen(drive.ip, drive.dp).value;
      dirty := index.self.part != IP || !ipEnd || !dpEnd;
      CommitsMore(log, committed, drive, index);
      committed := index;
      ghost var mid, d1, dp1 := log, drive, drive.dp;
      ok := GoOn(lastIp, lastDp);
      AddedTwice(old(log), mid, dp1, log, drive.dp);
      if ok {
        SparedBefore(old(drive.ip), d1.ip, drive.ip, lastIp);
        SparedBefore(old(drive.dp), d1.dp, drive.dp, lastDp);
      }
    }

    // The committed index, read from the data partition, may be written again.
    lemma FastRestorable()
      requires Unmounted() && Quiet(drive.ip, drive.dp, committed, true, true) && index == committed && !dirty
      ensures Restorable()
    {
      hide AllSurvive, StopOk, Describes, NoneNewer, AllSuperseded, LastIndex, IpCut, DpNext, MamOk, FastPathOk,
           EndsInIndex, Tight, LastDp;
      FastAppends(drive.ip, drive.dp, committed);
      QuietStop(drive.ip, drive.dp, committed, true, true);
      IsRemembered(drive.ip, true, index, committed);
      NextDpFacts(drive.ip, drive.dp, index, dirty, committed, true, true);
      NextDpBack(drive.ip, drive.dp, index, dirty, committed, true, true);
      PassesIs(drive.ip, drive.dp, index, dirty, committed, true, true);
      assert drive.dp[..|drive.dp|] == drive.dp;
    }

    // It is, and nothing is cut off.
    method FastRestore()
      requires Unmounted() && Quiet(drive.ip, drive.dp, committed, true, true) && index == committed && !dirty
      modifies this
      ensures Valid() && dpEnd && WrittenTo(IP) && Added(old(log), log, drive.dp)
              && drive.appendIp == index.self.block - 1
      ensures index.root == old(index.root) && index.gen == old(index.gen) && AtLeast(committed, old(committed))
      ensures !Passes(index, drive.dp) && (Tight(drive.dp) <==> Tight(old(drive.dp)))
      ensures Reliable() && drive.vcr < VCR_MAX ==> Stamped()
      ensures AllData(old(drive.ip), drive.ip) && AllData(old(drive.dp), drive.dp)
    {
      hide AllSurvive, StopOk, Describes, Quiet, LastIndex, AppendsOk, LastDp, IpCut, Restorable, Added, Tight, AllData,
           WrittenOn, Survives, CohOk, MamOk, CacheOk, Remembered;
      FastRestorable();
      Restore();
      NoneLost(old(drive.ip), drive.ip);
      NoneLost(old(drive.dp), drive.dp);
    }

    // What the records lead to.
    lemma FastReads()
      requires Unmounted() && ipCoh == drive.ipMam && dpCoh == drive.dpMam
      requires drive.vcr < VCR_MAX && FastPathUsable(drive.vcr, ipCoh, dpCoh)
      ensures Quiet(drive.ip, drive.dp, committed, true, true)
      ensures CohOk(drive.ip, drive.dp, drive.vcr, true, true, ipCoh, dpCoh)
              && MamOk(drive.ip, drive.dp, drive.vcr, drive.ipMam, drive.dpMam)
      ensures var at := FastPath(ipCoh, dpCoh);
              var x := ReadIndex(drive.Recs(at.part), at.block);
              && x.Some? && Copy(x.value, committed) && (at.part == DP <==> dpCoh.count > ipCoh.count)
              && (if at.part == DP then x.value == committed
                  else LastIndex(drive.ip) >= 0 && x.value == drive.ip[LastIndex(drive.ip)].idx
                       && (x.value == committed <==> x.value.back == LastDp(drive.dp)))
    {
      hide AllSurvive, StopOk, Describes, Quiet, LastIndex, AppendsOk, LastDp, IpCut;
      FastPathReads(drive.ip, drive.dp, committed, ipCoh, dpCoh);
      FastAppends(drive.ip, drive.dp, committed);
    }

    // Read the index that the coherency records lead to.
    method FastMount()
      requires Unmounted() && ipCoh == drive.ipMam && dpCoh == drive.dpMam
      requires drive.vcr < VCR_MAX && FastPathUsable(drive.vcr, ipCoh, dpCoh)
      modifies this
      ensures Valid() && Added(old(log), log, drive.dp) && AtLeast(committed, old(committed))
      ensures index.gen == committed.gen && index.root == committed.root && index.self.Ptr? && index.self.part == IP
      ensures !dirty && (Passes(index, drive.dp) <==> old(SkipsIndex(drive)))
      ensures Reliable() && drive.vcr < VCR_MAX ==> Stamped()
      ensures AllData(old(drive.ip), drive.ip) && AllData(old(drive.dp), drive.dp)
      ensures Tight(drive.dp) <==> Tight(old(drive.dp))
    {
      hide AllSurvive, StopOk, Describes, Quiet, LastIndex, AppendsOk, LastDp, IpCut, Restorable, Added, Tight, AllData,
           WrittenOn, Survives, MamOk, CohOk, FastPathOk, ReadIndex, Remembered;
      NoneLost(drive.ip, drive.ip);
      NoneLost(drive.dp, drive.dp);
      FastReads();
      FastAppends(drive.ip, drive.dp, committed);
      Reflexive(committed);
      AddedNone(log, drive.dp);
      var at := FastPath(ipCoh, dpCoh);
      index, dirty := ReadIndex(drive.Recs(at.part), at.block).value, false;
      if at.part == DP {
        FastRestore();
      } else {
        PassedRemembered(drive.ip, drive.dp, index, committed);
      }
      drive := drive.(appendIp := index.self.block - 1);
      ipEnd, dpEnd := true, true;
    }

    // Mount: by the coherency records if they are current, otherwise after a check of the medium.
    // `full` stands for all that makes the code distrust the records.
    method Mount(full: bool, deep: bool, lastIp: nat, lastDp: nat, extentsOk: bool) returns (ok: bool)
      requires Unmounted()
      modifies this
      ensures AllSurvive(log, committed, drive.ip, drive.dp) && Added(old(log), log, drive.dp)
              && AtLeast(committed, old(committed))
      ensures var fast := !full && old(drive.vcr < VCR_MAX && FastPathUsable(drive.vcr, drive.ipMam, drive.dpMam));
              && (ok <==> fast || !Refuses(old(drive.ip), old(drive.dp), deep, lastDp, extentsOk))
              && (ok ==> (Passes(index, drive.dp) <==> fast && old(SkipsIndex(drive))))
      ensures ok ==> Valid() && !dirty && index.gen == committed.gen && index.root == committed.root
                     && index.self.Ptr? && index.self.part == IP
      ensures ok ==>
              if !full && old(drive.vcr < VCR_MAX && FastPathUsable(drive.vcr, drive.ipMam, drive.dpMam)) then
                AllData(old(drive.ip), drive.ip) && AllData(old(drive.dp), drive.dp)
              else Spared(old(drive.ip), drive.ip, lastIp) && Spared(old(drive.dp), drive.dp, lastDp)
      ensures ok && Reliable() && drive.vcr < VCR_MAX ==> Stamped()
      ensures Tight(drive.dp) <==> Tight(old(drive.dp))
    {
      hide AllSurvive, Quiet, CohOk, CacheOk, StopOk, MamOk, FastPathOk, LastIndex, LastDp, AppendsOk, Refuses, Added,
           Tight, Remembered, Spared, AllData;
      ipCoh, dpCoh := drive.ipMam, drive.dpMam;
      if drive.vcr >= VCR_MAX {
        ipCoh, dpCoh := Coherency(0, 0, 0), Coherency(0, 0, 0);
      }
      ok := true;
      if !full && FastPathUsable(drive.vcr, ipCoh, dpCoh) {
        FastMount();
        return;
      }
      ok := CheckMedium(deep, lastIp, lastDp, extentsOk);
      if ok {
        Flags();
        drive := drive.(appendIp := index.self.block - 1);
        ipEnd, dpEnd := true, true;
      }
    }

    // One request.
    method Serve(request: TapeRequest)
      requires Valid()
      modifies this
      ensures Valid() && Grows(old(drive), old(log), drive, log) && DataLies(drive, request, blocksize)
      ensures Added(old(log), log, drive.dp) && (Straight() <==> old(Straight()))
      ensures index.root == old(index.root) + if request.ChangeTree? then 1 else 0
      ensures request.Sync? || request.Close? ==> !dirty && committed.root == index.root
      ensures request.Close? ==> ipEnd && index.self.Ptr? && index.self.part == IP
      ensures request.ChangeTree? ==> dirty && drive == old(drive)
    {
      hide Quiet, MamOk, CohOk, CacheOk, AllSurvive, Grows, Added, Tight, LastDp, Remembered, AppendsOk, Chop, Lying;
      AddedNone(log, drive.dp);
      GrowsSelf(drive, log, ipEnd);
      match request {
        case ChangeTree =>
          Touch();
        case Sync =>
          SyncIndex();
          NotPassed();
        case Data(p, bytes) =>
          if bytes != [] {
            var start := WriteData(p, bytes);
            LyingNow(drive, p, start, Chop(bytes, blocksize));
          }
        case Close =>
          Unmount();
      }
    }

    // Any run at all: whatever is asked, in whatever order, every state that any tape
    // operation left behind survives.
    method Run(requests: seq<TapeRequest>)
      requires Valid()
      modifies this
      ensures Valid() && Grows(old(drive), old(log), drive, log) && AllSurvive(log, committed, drive.ip, drive.dp)
      ensures Added(old(log), log, drive.dp) && (Straight() <==> old(Straight()))
      ensures index.root == old(index.root) + Changes(requests, |requests|)
      ensures forall k {:trigger requests[k]} :: 0 <= k < |requests| ==> DataLies(drive, requests[k], blocksize)
      ensures requests != [] && (requests[|requests| - 1].Sync? || requests[|requests| - 1].Close?) ==>
                !dirty && committed.root == index.root
    {
      hide Quiet, MamOk, CohOk, CacheOk, AllSurvive, Grows, Added, Tight, LastDp, Remembered, AppendsOk, DataLies;
      GrowsSelf(drive, log, ipEnd);
      AddedNone(log, drive.dp);
      for i := 0 to |requests|
        invariant Valid() && Grows(old(drive), old(log), drive, log)
        invariant Added(old(log), log, drive.dp) && (Straight() <==> old(Straight()))
        invariant index.root == old(index.root) + Changes(requests, i)
        invariant forall k {:trigger requests[k]} :: 0 <= k < i ==> DataLies(drive, requests[k], blocksize)
        invariant i > 0 && (requests[i - 1].Sync? || requests[i - 1].Close?) ==> !dirty && committed.root == index.root
      {
        ghost var d1, log1 := drive, log;
        Serve(requests[i]);
        forall k | 0 <= k < i
          ensures DataLies(drive, requests[k], blocksize)
        {
          DataLiesStill(d1, log1, drive, log, requests[k], blocksize);
        }
        GrowsTwice(old(drive), old(log), d1, log1, drive, log);
        AddedGrows(old(log), d1, log1, drive, log);
      }
    }
  }

  // ---------------------------------------------------------------- passing over an index

  // A run that gets there.  A cartridge is formatted, and gets its index on the data partition, as
  // every data write to the index partition begins; then the power fails, with the log's last state
  // on the tape.  With both records stored, the next mount goes on with the copy on the index
  // partition, and if the tree is then written, the new index does not point back to the one before
  // it; an unmount without a change leaves the pointer check deciding for the data partition.
  method SkipRun(bs: nat, tree: nat, parts: nat, change: bool) returns (s: Stop, d: Drive)
    requires 0 < bs
    ensures Survives(s) && SkipMedium(s.drive.ip, s.drive.dp, tree, parts) && Tight(s.drive.dp)
    ensures s.drive.vcr < VCR_MAX ==>
              && FastPathUsable(s.drive.vcr, s.drive.ipMam, s.drive.dpMam) && SkipsIndex(s.drive)
              && (if change then !Tight(d.dp) else CheckPointers(IndexOf(d.ip), IndexOf(d.dp), d.dp) == UseDp)
    ensures s.drive.vcr == 14 + |s.drive.dp| - (7 + parts)
  {
    hide AllSurvive, Survives, SkipsIndex, Refuses, Quiet, MamOk, CohOk, CacheOk, AppendsOk, Added, Tight, Remembered,
         CheckPointers, IndexOf, Formatted, GotIndex;
    var always := (k: nat) => true;
    var v := new Volume.Format(bs, tree, parts, always);
    assert v.Reliable();
    FormattedSize(Index(1, Ptr(DP, 5), NoPtr, tree), parts);
    v.WriteIndexConditional(DP);
    LastSurvives(v.log, v.committed, v.drive);
    s := v.log[|v.log| - 1];
    if s.drive.vcr < VCR_MAX {
      StoredSkips(s.drive, s.committed, tree, parts);
    }
    var w := new Volume.Load(bs, s, always);
    SameSkips(s.drive, w.drive);
    var ok := w.Mount(false, false, 0, 0, true);
    if ok && change {
      w.Touch();
      w.SyncIndex();
    } else if ok {
      w.Unmount();
    }
    d := w.drive;
  }

  lemma FormattedSize(first: Index, parts: nat)
    ensures |Formatted(first, parts)| == 7 + parts
  {
    PutShape(LABELS, first, parts);
  }

  // ---------------------------------------------------------------- losing blocks in use

  // A run after which a check writes over a block in use.  A file gets a block on the index partition, and
  // the index that refers to it is written behind it; for the next block that index is first written to
  // the data partition, and then cut off by it.  There the power fails.  The index partition now holds two
  // blocks and no index, the index to go on with refers to block 4, and the check writes over that.
  method LostRun(bs: nat, tree: nat, parts: nat, memory: nat -> bool) returns (s: Stop, d: Drive)
    requires 0 < bs
    ensures Survives(s) && LastIndex(s.drive.ip) < 0 && |s.drive.ip| == 6
            && s.drive.ip[4] == Block([1]) && s.drive.ip[5] == Block([2])
    ensures CheckPointers(IndexOf(s.drive.ip), IndexOf(s.drive.dp), s.drive.dp) == UseDp
    ensures Spared(s.drive.ip, d.ip, 5) && !Still(s.drive.ip, d.ip, 4)
  {
    hide AllSurvive, Survives, Refuses, Quiet, MamOk, CohOk, CacheOk, AppendsOk, Added, Tight, Remembered, Spared,
         CheckPointers, IndexOf, Formatted, GotIndex, FastPathUsable, LastIndex, LastDp;
    var v := new Volume.Format(bs, tree, parts, memory);
    LabelsFirst(v.index, parts);
    assert v.drive.appendIp == 4;
    var b := v.WriteData(IP, [1]);
    assert v.drive.ip == LABELS + [Block([1])];
    v.Flags();
    v.Touch();
    v.SyncIndex();
    assert v.drive.ip[..5] == LABELS + [Block([1])];
    var c := v.WriteData(IP, [2]);
    assert v.drive.ip == LABELS + [Block([1]), Block([2])];
    LastSurvives(v.log, v.committed, v.drive);
    s := v.log[|v.log| - 1];
    NoIndexLeft(s);
    var w := new Volume.Load(bs, s, memory);
    var ok := w.Mount(true, true, 5, 0, true);
    d := w.drive;
    BlockLost(s.drive.ip, d.ip, 5);
  }

  lemma LabelsFirst(first: Index, parts: nat)
    ensures LABELS <= Formatted(first, parts)
  {
    hide LastIndex, IndexClosed, First, Whole;
    PutShape(LABELS, first, parts);
  }

  // Labels, two blocks and no index.
  lemma NoIndexLeft(s: Stop)
    requires Survives(s) && s.drive.ip == LABELS + [Block([1]), Block([2])]
    ensures LastIndex(s.drive.ip) < 0 && |s.drive.ip| == 6
            && s.drive.ip[4] == Block([1]) && s.drive.ip[5] == Block([2])
    ensures CheckPointers(IndexOf(s.drive.ip), IndexOf(s.drive.dp), s.drive.dp) == UseDp
    ensures !Refuses(s.drive.ip, s.drive.dp, true, 0, true)
  {
    hide MamOk, FastPathOk, CommittedThere, IpBack, DpChain, IpOk, AtEnd;
    assert LastIndex(s.drive.ip) < 0;
  }

  lemma BlockLost(was: seq<Record>, now: seq<Record>, end: nat)
    requires Spared(was, now, end) && |was| > 4 && was[4].Block? && LastIndex(was) < 0
    ensures !Still(was, now, 4)
  {
  }

  lemma SameSkips(d: Drive, n: Drive)
    requires n.ip == d.ip && n.dp == d.dp && n.ipMam == d.ipMam && n.dpMam == d.dpMam
    ensures SkipsIndex(n) == SkipsIndex(d)
  {
  }

  // Records that are current say what the medium holds.
  lemma StoredSkips(d: Drive, committed: Index, tree: nat, parts: nat)
    requires SkipMedium(d.ip, d.dp, tree, parts) && Survives(Stop(d, committed))
    requires FastPathUsable(d.vcr, d.ipMam, d.dpMam)
    ensures SkipsIndex(d)
  {
    hide StopOk, Quiet, IndexClosed, IndexPut, LastIndex, Formatted, First, EndsInIndex, Whole, FastPathOk;
    var first, second := Index(1, Ptr(DP, 5), NoPtr, tree), Index(1, Ptr(IP, 5), Ptr(DP, 5), tree);
    var third, more := Index(1, Ptr(DP, 8 + parts), Ptr(DP, 5), tree), d.dp[LastIndex(d.dp)].parts;
    FormattedIsQuiet(first, second, parts);
    FormattedTail(first, parts);
    PutShape(Formatted(first, parts), third, more);
  }

  // ---------------------------------------------------------------- many lives

  // One life of a volume: which writes to cartridge memory succeed, how it is mounted, what is asked of
  // it, and how many tape operations after loading the power fails.
  datatype Life = Life(memory: nat -> bool, full: bool, deep: bool, lastIp: nat, lastDp: nat, extentsOk: bool,
                       requests: seq<TapeRequest>, stop: nat)

  // All back pointers of the data partition are exact, at every stop.
  ghost predicate AllTight(log: seq<Stop>)
  {
    forall k {:trigger log[k]} :: 0 <= k < |log| ==> Tight(log[k].drive.dp)
  }

  // What a log says up to its last stop.
  ghost predicate Survived(log: seq<Stop>)
  {
    && log != []
    && var last := log[|log| - 1];
       AllSurvive(log, last.committed, last.drive.ip, last.drive.dp)
  }

  // All data of some requests is on a medium.
  ghost predicate AllThere(d: Drive, requests: seq<TapeRequest>, bs: nat)
    requires 0 < bs
  {
    forall k {:trigger requests[k]} :: 0 <= k < |requests| && requests[k].Data? && requests[k].bytes != [] ==>
      exists b: nat {:trigger LyingAt(d.Recs(requests[k].part), b, Chop(requests[k].bytes, bs))} ::
        LyingAt(d.Recs(requests[k].part), b, Chop(requests[k].bytes, bs))
  }

  lemma ThereAll(d: Drive, d': Drive, requests: seq<TapeRequest>, bs: nat)
    requires 0 < bs && d'.ip == d.ip && d'.dp == d.dp
    requires forall k {:trigger requests[k]} :: 0 <= k < |requests| ==> DataLies(d, requests[k], bs)
    ensures AllThere(d', requests, bs)
  {
    hide Chop;
    forall k | 0 <= k < |requests| && requests[k].Data? && requests[k].bytes != []
      ensures exists b: nat {:trigger LyingAt(d'.Recs(requests[k].part), b, Chop(requests[k].bytes, bs))} ::
        LyingAt(d'.Recs(requests[k].part), b, Chop(requests[k].bytes, bs))
    {
      var p, recs := requests[k].part, Chop(requests[k].bytes, bs);
      assert DataLies(d, requests[k], bs);
      var b: nat :| LyingAt(Target(d, p), b, recs);
      LyingMore(Target(d, p), d'.Recs(p), b, recs);
    }
  }

  // Mount what a stop left, and go on with any run.  The log goes up to the tape operation at which the
  // power fails, or to the end.  `ok` tells whether the mount did not fail, and `straight` whether it did
  // not pass over an index.
  method Live(bs: nat, first: Stop, life: Life) returns (log: seq<Stop>, ok: bool, straight: bool)
    requires 0 < bs && Survives(first)
    ensures Survived(log) && log[0] == first && |log| <= life.stop + 1
    ensures straight && Tight(first.drive.dp) ==> AllTight(log)
    ensures var d := first.drive;
            var fast := !life.full && d.vcr < VCR_MAX && FastPathUsable(d.vcr, d.ipMam, d.dpMam);
            && (ok <==> fast || !Refuses(d.ip, d.dp, life.deep, life.lastDp, life.extentsOk))
            && (straight <==> !ok || !(fast && SkipsIndex(d)))
    ensures ok && |log| <= life.stop ==> AllThere(log[|log| - 1].drive, life.requests, bs)
  {
    hide AllSurvive, Survives, SkipsIndex, Refuses, FastPathUsable, Quiet, MamOk, CohOk, CacheOk, AppendsOk, LastDp,
         Added, Tight, AllTight, Remembered, DataLies, AllThere;
    var v := new Volume.Load(bs, first, life.memory);
    SameSkips(first.drive, v.drive);
    ok := v.Mount(life.full, life.deep, life.lastIp, life.lastDp, life.extentsOk);
    straight := !ok || !Passes(v.index, v.drive.dp);
    if ok {
      ghost var mid, dp1 := v.log, v.drive.dp;
      v.Run(life.requests);
      AddedGrowing([first], mid, dp1, v.log, v.drive.dp);
    }
    var n := if life.stop < |v.log| then life.stop + 1 else |v.log|;
    FirstKept(first, v.log, v.drive.dp);
    log := v.log[..n];
    AddedTight(first, v.log, v.drive.dp, n);
    LogPrefix(v.log, v.committed, v.drive, n);
    if ok && |log| <= life.stop {
      LogEnds(v.log, v.committed, v.drive);
      assert log == v.log;
      ThereAll(v.drive, log[|log| - 1].drive, life.requests, bs);
    }
  }

  lemma FirstKept(first: Stop, log: seq<Stop>, dp: seq<Record>)
    requires Added([first], log, dp)
    ensures log != [] && log[0] == first
  {
    hide Tight;
  }

  lemma AddedTight(first: Stop, log: seq<Stop>, dp: seq<Record>, n: nat)
    requires Added([first], log, dp) && 0 < n <= |log|
    ensures Tight(first.drive.dp) && Tight(dp) ==> AllTight(log[..n])
  {
    hide Tight;
  }

  lemma LogEnds(log: seq<Stop>, committed: Index, d: Drive)
    requires AllSurvive(log, committed, d.ip, d.dp) && log != []
    ensures log[|log| - 1].drive.ip == d.ip && log[|log| - 1].drive.dp == d.dp
  {
  }

  // One log behind another.
  function Joint(log: seq<Stop>, next: seq<Stop>, k: nat): Stop
    requires log != [] && next != [] && k < |log| + |next| - 1
  {
    if k < |log| then log[k] else next[k - |log| + 1]
  }

  lemma JointAt(log: seq<Stop>, next: seq<Stop>)
    requires log != [] && next != [] && next[0] == log[|log| - 1]
    ensures var all := log + next[1..];
            && |all| == |log| + |next| - 1 && all[|all| - 1] == next[|next| - 1]
            && forall k {:trigger all[k]} :: 0 <= k < |all| ==> all[k] == Joint(log, next, k)
  {
  }

  lemma JointStep(log: seq<Stop>, next: seq<Stop>, k: nat)
    requires Survived(log) && Survived(next) && next[0] == log[|log| - 1] && k < |log| + |next| - 1
    ensures Survives(Joint(log, next, k)) && AtLeast(next[|next| - 1].committed, Joint(log, next, k).committed)
    ensures 0 < k ==> OneWrite(Joint(log, next, k - 1).drive, Joint(log, next, k).drive)
  {
    hide Survives, OneWrite;
    assert AtLeast(next[|next| - 1].committed, next[0].committed);
    if k < |log| {
      assert AtLeast(log[|log| - 1].committed, log[k].committed);
      assert 0 < k ==> Stepped(log, k);
    } else {
      assert Stepped(next, k - |log| + 1);
    }
  }

  lemma JointOrder(log: seq<Stop>, next: seq<Stop>, j: nat, k: nat)
    requires Survived(log) && Survived(next) && next[0] == log[|log| - 1] && j < k < |log| + |next| - 1
    ensures AtLeast(Joint(log, next, k).committed, Joint(log, next, j).committed)
  {
    hide Survives, OneWrite;
    var at := |log| - 1;
    if j < at < k {
      assert AtLeast(log[at].committed, log[j].committed) && AtLeast(next[k - at].committed, next[0].committed);
    } else if at <= j {
      assert AtLeast(next[k - at].committed, next[j - at].committed);
    }
  }

  lemma SurvivedIs(log: seq<Stop>)
    requires log != []
    requires forall k {:trigger log[k]} :: 0 <= k < |log| ==>
               Survives(log[k]) && AtLeast(log[|log| - 1].committed, log[k].committed)
    requires forall j, k {:trigger log[j], log[k]} :: 0 <= j < k < |log| ==>
               AtLeast(log[k].committed, log[j].committed)
    requires forall k {:trigger Stepped(log, k)} :: 0 < k < |log| ==> Stepped(log, k)
    ensures Survived(log)
  {
    hide Survives, AtLeast, Stepped;
  }

  lemma LivesOn(log: seq<Stop>, next: seq<Stop>)
    requires log != [] && next != []
    requires Survived(log) && Survived(next) && next[0] == log[|log| - 1]
    ensures Survived(log + next[1..])
  {
    hide Survived, Survives, AtLeast, OneWrite, Joint;
    var all := log + next[1..];
    JointAt(log, next);
    forall j, k | 0 <= j < k < |all|
      ensures AtLeast(all[k].committed, all[j].committed)
    {
      JointOrder(log, next, j, k);
    }
    forall k | 0 <= k < |all|
      ensures Survives(all[k]) && AtLeast(all[|all| - 1].committed, all[k].committed)
      ensures 0 < k ==> Stepped(all, k)
    {
      JointStep(log, next, k);
    }
    SurvivedIs(all);
  }

  // Any number of lives, each of which may end after any tape operation, during a mount as well
  // as after it: every state of the medium survives, and what is committed never gets older.  As long
  // as no mount passes over an index, all back pointers are exact.
  method Lives(bs: nat, first: Stop, lives: seq<Life>) returns (log: seq<Stop>, straight: bool)
    requires 0 < bs && Survives(first)
    ensures Survived(log) && log[0] == first
    ensures straight && Tight(first.drive.dp) ==> AllTight(log)
  {
    hide AllSurvive, Survives, Tight, Survived, Refuses, SkipsIndex, FastPathUsable, AllThere;
    FirstLog(first);
    log, straight := [first], true;
    for i := 0 to |lives|
      invariant log != [] && Survived(log) && log[0] == first
      invariant straight && Tight(first.drive.dp) ==> AllTight(log)
    {
      SurvivedLast(log);
      var next, _, s := Live(bs, log[|log| - 1], lives[i]);
      SurvivedLast(next);
      LivesOn(log, next);
      straight := straight && s;
      log := log + next[1..];
    }
  }

  lemma FirstLog(s: Stop)
    requires Survives(s)
    ensures Survived([s])
  {
    hide Survives;
    Reflexive(s.committed);
  }

  lemma SurvivedLast(log: seq<Stop>)
    requires Survived(log)
    ensures log != [] && Survives(log[|log| - 1])
  {
    hide Survives;
  }

  lemma LastSurvives(log: seq<Stop>, committed: Index, d: Drive)
    requires AllSurvive(log, committed, d.ip, d.dp) && log != []
    ensures Survives(log[|log| - 1])
  {
    hide Survives;
  }

  lemma LogAt(log: seq<Stop>, committed: Index, d: Drive, j: nat, k: nat)
    requires AllSurvive(log, committed, d.ip, d.dp) && j <= k < |log|
    ensures Survives(log[k]) && AtLeast(log[k].committed, log[j].committed)
    ensures 0 < k ==> Stepped(log, k)
  {
    hide Survives, Stepped;
    Reflexive(log[k].committed);
  }

  lemma LogPrefix(log: seq<Stop>, committed: Index, d: Drive, n: nat)
    requires AllSurvive(log, committed, d.ip, d.dp) && 0 < n <= |log|
    ensures Survived(log[..n])
  {
    hide AllSurvive, Survived, Survives, AtLeast, OneWrite;
    var all := log[..n];
    forall j, k | 0 <= j < k < |all|
      ensures AtLeast(all[k].committed, all[j].committed)
    {
      LogAt(log, committed, d, j, k);
    }
    forall k | 0 <= k < |all|
      ensures Survives(all[k]) && AtLeast(all[|all| - 1].committed, all[k].committed)
      ensures 0 < k ==> Stepped(all, k)
    {
      LogAt(log, committed, d, k, n - 1);
      LogAt(log, committed, d, k, k);
    }
    SurvivedIs(all);
  }
}
