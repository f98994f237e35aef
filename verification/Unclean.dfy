// What happens at a write that is not clean: the two ways in which a write loses bytes.
module Unclean {
  import opened Medium
  import opened Volume
  import opened Extents
  import opened Flat
  import opened RawFile
  import opened Queues
  import opened Requests
  import opened Sweep
  import opened Placing
  import opened Keeping
  import opened Showing
  import opened Hiding
  import opened AltList
  import opened View
  import opened Reading
  import opened Scheduler

  // ---------------------------------------------------------------- overtaking a request

  // Of the requests that cover a byte the first one shows, and the last one is what is stored
  // after all were written out in list order.
  lemma {:induction false} LastIsStored(reqs: seq<Request>, n: nat, b: nat, store: seq<byte>, x: nat)
    requires b < n <= |reqs| && reqs[b].Covers(x) && forall k :: b < k < n ==> !reqs[k].Covers(x)
    ensures var w := WrittenOut(reqs, n, store); x < |w| && Some(w[x]) == One(reqs[b], x)
  {
    if n - 1 > b {
      LastIsStored(reqs, n - 1, b, store, x);
    }
  }

  // So where two waiting requests overlap, the bytes of the later one come back.
  lemma OvertakenComesBack(reqs: seq<Request>, a: nat, b: nat, store: seq<byte>, x: nat)
    requires a < b < |reqs| && reqs[a].Covers(x) && reqs[b].Covers(x)
    requires forall k :: 0 <= k < |reqs| && (k < a || k > b) ==> !reqs[k].Covers(x)
    ensures Look(reqs, x) == One(reqs[a], x)
    ensures var w := WrittenOut(reqs, |reqs|, store); x < |w| && Some(w[x]) == One(reqs[b], x)
  {
    LookAt(reqs, a, x);
    LookMiss(reqs, 0, a, x);
    LastIsStored(reqs, |reqs|, b, store, x);
  }

  // A short request waits in the middle of where a write goes, behind another one that the
  // write fills up: it stays in the list, under the new bytes.
  lemma OvertakenLeaves()
    ensures var reqs := [Request(0, [1], Partial), Request(2, [2], Partial)];
            && !Clean(reqs, 0, 4, 8)
            && Placed(Put(0, [9, 9, 9, 9], 8), reqs) == [Request(0, [9, 9, 9, 9], Partial), Request(2, [2], Partial)]
  {
    var reqs, w := [Request(0, [1], Partial), Request(2, [2], Partial)], Put(0, [9, 9, 9, 9], 8);
    var now := [Request(0, [9, 9, 9, 9], Partial), Request(2, [2], Partial)];
    assert Advance(reqs[0], 0, 0, 4, 8) == 4;
    assert !CleanFrom(reqs, 1, 4, 0, 4, 8);
    var s, t := Spot(reqs, 0, -1, 0), Spot(now, 1, 0, 4);
    assert w.data[0..] == w.data && w.data[..4] == w.data;
    assert Fill(reqs[0], 0, w.data, 8) == now[0];
    assert Updated(reqs, 0, 0, w.data, 8) == now;
    assert ResolveRun(w, s) == (t, MergeOn);
    VisitMeets(w, s, true, s, t, MergeOn);
    TraverseVisit(w, s, t, false);
    TraverseSkip(w, t);
    TraverseEnd(w, t.(i := 2));
  }

  // ---------------------------------------------------------------- hiding a byte

  // With cache blocks of 4 bytes, a file bound for the index partition: eight bytes waiting,
  const EIGHT: seq<Request> := [Request(0, [1, 1, 1, 1], Dp), Request(4, [2, 2, 2, 2], Dp)]
  // written out, and staying for the index partition,
  const FLUSHED: seq<Request> := [Request(0, [1, 1, 1, 1], Ip), Request(4, [2, 2, 2, 2], Ip)]
  // with two new bytes in front of them,
  const FRONTED: seq<Request> :=
    [Request(0, [8, 8], Partial), Request(2, [1, 1], Ip), Request(4, [2, 2, 2, 2], Ip)]
  // and after a write of one byte to offset 4.
  const HIDDEN: seq<Request> :=
    [Request(0, [8, 8], Partial), Request(2, [1, 1, 2, 2], Ip), Request(4, [9], Partial), Request(6, [2, 2], Ip)]

  lemma EightLeaves()
    ensures Placed(Put(0, [1, 1, 1, 1, 2, 2, 2, 2], 4), []) == EIGHT && Clean([], 0, 8, 4)
  {
    hide AppendMore;
    var w := Put(0, [1, 1, 1, 1, 2, 2, 2, 2], 4);
    CleanAppend([], 0, 8, 4);
    assert w.data[0..] == w.data && w.data[..4] == [1, 1, 1, 1] && w.data[4..] == [2, 2, 2, 2];
    assert Chunk(w, 0) == EIGHT[0] && Chunk(w, 4) == EIGHT[1] by {
      assert w.data[4..][..4] == [2, 2, 2, 2];
    }
    assert Insert([], 0, EIGHT[0]) == [EIGHT[0]] && Insert([EIGHT[0]], 1, EIGHT[1]) == EIGHT;
    AppendOnly(w, [], 0);
    AppendNext(w, [], 0);
    AppendNext(w, [EIGHT[0]], 4);
    AppendNext(w, EIGHT, 8);
  }

  lemma FlushLeaves()
    ensures PassRun(EIGHT, 0, {Partial, Dp}, 4) == FLUSHED
  {
    hide PassRun;
    var half := [FLUSHED[0], EIGHT[1]];
    assert EIGHT[0 := EIGHT[0].(state := Ip)] == half && half[1 := half[1].(state := Ip)] == FLUSHED;
    PassNext(EIGHT, 0, {Partial, Dp}, 4, half, 1);
    PassNext(half, 1, {Partial, Dp}, 4, FLUSHED, 2);
    PassEnd(FLUSHED, {Partial, Dp}, 4);
  }

  // A write to the front of the first request is clean, and cuts it.
  lemma FrontLeaves()
    ensures Placed(Put(0, [8, 8], 4), FLUSHED) == FRONTED && Clean(FLUSHED, 0, 2, 4)
  {
    hide VisitRun, TraverseRun, InsertRun, Insert, Again, ResolveRun, Merged, Cut;
    var w := Put(0, [8, 8], 4);
    var cut := [FRONTED[1], FRONTED[2]];
    var s, d, a := Spot(FLUSHED, 0, -1, 0), Spot(cut, 0, -1, 0), Spot(FRONTED, 1, 0, 2);
    assert Behead(FLUSHED[0], 2) == FRONTED[1];
    assert FLUSHED[0 := FRONTED[1]] == cut;
    InsertDone(w, s);
    ResolveIp(w, s);
    VisitMeets(w, s, true, s, d, InFront);
    FrontInserted();
    InsertNext(w, d);
    InsertDone(w, a);
    OtherBound(FRONTED, 0, 1, 4);
    VisitOver(w, d, false, a);
    TraverseVisit(w, s, a, true);
    FrontClean();
  }

  lemma FrontClean()
    ensures Clean(FLUSHED, 0, 2, 4)
  {
    assert Advance(FLUSHED[0], 0, 0, 2, 4) == 2 && Advance(FLUSHED[1], 2, 0, 2, 4) == 2;
    assert CleanFrom(FLUSHED, 2, 2, 0, 2, 4);
    assert CleanFrom(FLUSHED, 1, 2, 0, 2, 4);
  }

  lemma FrontInserted()
    ensures Inserted(Put(0, [8, 8], 4), Spot([FRONTED[1], FRONTED[2]], 0, -1, 0)) == Spot(FRONTED, 1, 0, 2)
  {
    var w := Put(0, [8, 8], 4);
    assert w.data[0..][..2] == [8, 8];
    assert Chunk(w, 0) == FRONTED[0];
  }

  // Requests bound for different partitions, side by side.
  lemma OtherBound(reqs: seq<Request>, p: nat, i: nat, cap: nat)
    requires p < i < |reqs| && |reqs[p].data| <= cap && reqs[p].End() == reqs[i].offset
    requires reqs[p].state != Ip && reqs[i].state == Ip
    ensures Cut(reqs[p], reqs[i], cap) == 0 && Merged(reqs, p, i, cap) == reqs
  {
  }

  // The write to offset 4: the old byte shows, not the new one.
  lemma HiddenLeaves()
    ensures !Clean(FRONTED, 4, 1, 4) && Hides(FRONTED, 4, 4)
    ensures Placed(Put(4, [9], 4), FRONTED) == HIDDEN && Look(HIDDEN, 4) == Some(2)
  {
    hide Placed, Clean, TwoIp, Look, Sized, Apart;
    HiddenTwo();
    HiddenPlaced();
    HiddenByMerge(Put(4, [9], 4), FRONTED, 2);
    TwoUnclean(FRONTED, 2, 4, 1, 4);
  }

  lemma HiddenTwo()
    ensures Sized(FRONTED, 4) && Apart(FRONTED) && TwoIp(FRONTED, 2, 4, 4) && One(FRONTED[2], 4) == Some(2)
  {
  }

  lemma HiddenMerged()
    ensures Merged(FRONTED, 1, 2, 4) == [FRONTED[0], HIDDEN[1], HIDDEN[3]] && Cut(FRONTED[1], FRONTED[2], 4) == 2
  {
    assert FRONTED[2].data[0..] == [2, 2, 2, 2] && FRONTED[2].data[2..] == [2, 2];
    assert Fill(FRONTED[1], 4, [2, 2, 2, 2], 4) == HIDDEN[1];
  }

  lemma HiddenPlaced()
    ensures Placed(Put(4, [9], 4), FRONTED) == HIDDEN
  {
    hide Merged, VisitRun, TraverseRun, InsertRun, Insert, Cut, Again;
    var w := Put(4, [9], 4);
    var s, a := Spot(FRONTED, 2, 1, 4), Spot(HIDDEN, 3, 2, 5);
    SkippedTo(w, FRONTED, 0, 1);
    PassedBy(w, FRONTED, 2);
    HiddenVisit();
    TraverseVisit(w, s, a, true);
  }

  lemma HiddenVisit()
    ensures VisitRun(Put(4, [9], 4), Spot(FRONTED, 2, 1, 4), true) == (Spot(HIDDEN, 3, 2, 5), true)
  {
    hide Merged, VisitRun, InsertRun, Insert, Cut, Again, ResolveRun;
    var w, merged := Put(4, [9], 4), [FRONTED[0], HIDDEN[1], HIDDEN[3]];
    var s, b, a := Spot(FRONTED, 2, 1, 4), Spot(merged, 2, 1, 4), Spot(HIDDEN, 3, 2, 5);
    HiddenMerged();
    InsertDone(w, s);
    VisitBehind(w, s, true, b);
    HiddenInserted();
    InsertNext(w, b);
    InsertDone(w, a);
    NoCut(HIDDEN[2], HIDDEN[3], 4);
    MergesNothing(HIDDEN, 2, 3, 4);
    VisitOver(w, b, false, a);
  }

  lemma NoCut(dest: Request, src: Request, cap: nat)
    requires src.offset > dest.End()
    ensures Cut(dest, src, cap) == 0
  {
  }

  lemma HiddenInserted()
    ensures Inserted(Put(4, [9], 4), Spot([FRONTED[0], HIDDEN[1], HIDDEN[3]], 2, 1, 4)) == Spot(HIDDEN, 3, 2, 5)
  {
    var w := Put(4, [9], 4);
    assert w.data[0..][..1] == [9];
    assert Chunk(w, 4) == HIDDEN[2];
  }

  lemma HiddenBytes(inflight: seq<Request>, store: seq<byte>)
    ensures ViewOf(HIDDEN, inflight, store, 8) == [8, 8, 1, 1, 2, 2, 2, 2]
  {
    hide WrittenOut;
    var v: seq<byte> := [8, 8, 1, 1, 2, 2, 2, 2];
    forall x: nat | x < 8
      ensures SeenAt(HIDDEN, inflight, store, x) == v[x]
    {
      LookAt(HIDDEN, 0, x);
      LookAt(HIDDEN, 1, x);
      LookSplit(HIDDEN, 0, 1, 1, x);
      LookAt(HIDDEN, 3, x);
    }
  }

  lemma HiddenWrites()
    ensures var eight: seq<byte> := [1, 1, 1, 1, 2, 2, 2, 2];
            && WriteAt([], 0, eight) == eight && WriteAt(eight, 0, [8, 8]) == [8, 8, 1, 1, 2, 2, 2, 2]
            && WriteAt([8, 8, 1, 1, 2, 2, 2, 2], 4, [9]) == [8, 8, 1, 1, 9, 2, 2, 2]
  {
  }

  // ---------------------------------------------------------------- on the scheduler itself

  lemma FirstWrite()
    ensures Placed(Put(0, [1], 8), []) == [Request(0, [1], Partial)] && Clean([], 0, 1, 8)
  {
    CleanAppend([], 0, 1, 8);
    assert Chunk(Put(0, [1], 8), 0) == Request(0, [1], Partial);
    AppendNext(Put(0, [1], 8), [], 0);
    AppendNext(Put(0, [1], 8), [Request(0, [1], Partial)], 1);
  }

  lemma SecondWrite()
    ensures var one := [Request(0, [1], Partial)];
            Placed(Put(2, [2], 8), one) == one + [Request(2, [2], Partial)] && Clean(one, 2, 1, 8)
  {
    hide AppendMore;
    var one, w := [Request(0, [1], Partial)], Put(2, [2], 8);
    CleanAppend(one, 2, 1, 8);
    assert Chunk(w, 2) == Request(2, [2], Partial);
    assert Insert(one, 1, Request(2, [2], Partial)) == one + [Request(2, [2], Partial)];
    AppendOnly(w, one, 2);
    AppendNext(w, one, 2);
    AppendNext(w, one + [Request(2, [2], Partial)], 3);
  }

  lemma OvertakenBytes()
    ensures var reqs := [Request(0, [9, 9, 9, 9], Partial), Request(2, [2], Partial)];
            ViewOf(reqs, [], [], 4) == [9, 9, 9, 9] && WrittenOut(reqs, 2, []) == [9, 9, 2, 9]
  {
    var reqs := [Request(0, [9, 9, 9, 9], Partial), Request(2, [2], Partial)];
    forall x: nat | x < 4
      ensures SeenAt(reqs, [], [], x) == 9
    {
      LookAt(reqs, 0, x);
      assert One(reqs[0], x) == Some(9);
    }
    assert WrittenOut(reqs, 1, []) == WriteAt([], 0, [9, 9, 9, 9]) == [9, 9, 9, 9];
    assert WrittenOut(reqs, 2, []) == WriteAt([9, 9, 9, 9], 2, [2]);
  }

  // Two writes to a new file on a formatted cartridge, with cache blocks of 8 bytes: one byte at
  // 0 and one byte at 2.
  method TwoWrites() returns (f: DentryPriv)
    ensures f.Valid() && f.cap == 8 && f.id < |f.sched.writeIp| && !f.sched.writeIp[f.id] && f.inflight == []
    ensures f.requests == [Request(0, [1], Partial), Request(2, [2], Partial)]
    ensures f.View() == [1, 0, 2] && f.fileSize == 3 && f.file.Contents() == []
    ensures fresh(f) && fresh(f.file) && fresh(f.file.vol) && fresh(f.sched)
  {
    hide Clean, Placed, ViewOf, Volume.Valid, UnifiedData.Valid, Sorted, Mapped, Sum, Content, Cached, AltFits, Count,
         Readable, InOrder, WriteAt, NonIp, OnlyMine;
    FirstWrite();
    SecondWrite();
    ThreeWrites();
    var v := new Volume.Format(8, 0, 0, (k: nat) => true);
    var d := new Dentry(v);
    var u := new UnifiedData();
    f := new DentryPriv(d, u, false, 0);
    f.Write(0, [1], 100, false);
    f.Write(2, [2], 100, false);
  }

  // A third one, of four bytes over both: the file shows it while it waits, and byte 2 is the old
  // one when it has been written out.
  method OvertakenExample() returns (f: DentryPriv, ghost was: seq<byte>, ghost shown: seq<byte>)
    ensures was == [1, 0, 2] && shown == WriteAt(was, 0, [9, 9, 9, 9]) == [9, 9, 9, 9]
    ensures f.file.Valid() && f.file.Contents() == [9, 9, 2, 9]
  {
    hide Clean, Placed, ViewOf, WrittenOut, Volume.Valid, UnifiedData.Valid, Sorted, Mapped, Sum, Content, Cached,
         AltFits, Count, Readable, InOrder, WriteAt, NonIp, OnlyMine;
    OvertakenLeaves();
    OvertakenBytes();
    ThreeWrites();
    f := TwoWrites();
    was := f.View();
    f.Write(0, [9, 9, 9, 9], 100, false);
    shown := f.View();
    f.WriteAllOut();
  }

  lemma ThreeWrites()
    ensures WriteAt(WriteAt([], 0, [1]), 2, [2]) == [1, 0, 2] && WriteAt([1, 0, 2], 0, [9, 9, 9, 9]) == [9, 9, 9, 9]
  {
    assert WriteAt([], 0, [1]) == [1];
  }

  // A new file that is bound for the index partition, with cache blocks of 4 bytes: it gets eight
  // bytes and is flushed, and gets two new bytes at the front.
  method FrontedFile() returns (f: DentryPriv)
    ensures f.Valid() && f.cap == 4 && f.requests == FRONTED && f.fileSize == 8
    ensures f.View() == [8, 8, 1, 1, 2, 2, 2, 2]
    ensures fresh(f) && fresh(f.file) && fresh(f.file.vol) && fresh(f.sched)
  {
    hide Clean, Placed, ViewOf, WrittenOut, Volume.Valid, UnifiedData.Valid, Sorted, Mapped, Sum, Content, Cached,
         AltFits, Count, Readable, InOrder, WriteAt, NonIp, OnlyMine, Hides, PassRun, Grows, AllIp, AfterWrite;
    EightLeaves();
    FlushLeaves();
    FrontLeaves();
    HiddenWrites();
    var v := new Volume.Format(4, 0, 0, (k: nat) => true);
    var d := new Dentry(v);
    var u := new UnifiedData();
    f := new DentryPriv(d, u, true, 100);
    f.Write(0, [1, 1, 1, 1, 2, 2, 2, 2], 100, false);
    f.Flush();
    f.Write(0, [8, 8], 100, false);
  }

  // One more byte at offset 4 of that file does not show at all.
  method HiddenExample() returns (f: DentryPriv, ghost was: seq<byte>, ghost shown: seq<byte>)
    ensures was == [8, 8, 1, 1, 2, 2, 2, 2] && WriteAt(was, 4, [9]) == [8, 8, 1, 1, 9, 2, 2, 2]
    ensures shown == was && f.requests == HIDDEN && f.file.Valid() && f.View() == shown
  {
    hide Clean, Placed, ViewOf, Volume.Valid, UnifiedData.Valid, Sorted, Mapped, Sum, Content, Cached, AltFits, Count,
         Readable, InOrder, WriteAt, NonIp, OnlyMine, Hides, AfterWrite, Look;
    HiddenLeaves();
    HiddenWrites();
    f := FrontedFile();
    was := f.View();
    f.Write(4, [9], 100, false);
    HiddenBytes(f.inflight, f.file.Contents());
    shown := f.View();
  }
}
