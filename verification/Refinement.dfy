// Whole runs: the unified scheduler, with any number of files waiting over one tape, shows
// what direct writes show.
module Refinement {
  import opened Medium
  import opened Volume
  import opened Extents
  import opened Flat
  import opened RawFile
  import opened Queues
  import opened Requests
  import opened Sweep
  import opened View
  import opened Scheduler

  // What can happen to a file.  The last four are the background writer's: starting a pass,
  // writing one request out, and writing to the index partition; and all else on the tape.
  datatype Op =
    | WriteOp(off: nat, data: seq<byte>, maxFileSize: nat, lowSpace: bool)
    | TruncateOp(len: nat, maxFileSize: nat, matchesName: bool, deleted: bool)
    | FlushOp
    | PlaceOp(maxFileSize: nat, matchesName: bool, deleted: bool)
    | DataPass(partialToo: bool)
    | DataStep
    | IndexPass
    | TapeOps(requests: seq<TapeRequest>)

  // What it means for a flat array of bytes.
  function FlatStep(c: seq<byte>, op: Op): seq<byte>
  {
    match op
    case WriteOp(off, data, _, _) => if data == [] then c else WriteAt(c, off, data)
    case TruncateOp(len, _, _, _) => Resize(c, len)
    case _ => c
  }

  // Files [0, n) of a run: each operation concerns one of them.
  function FlatRun(contents: seq<seq<byte>>, ops: seq<(nat, Op)>, n: nat): (r: seq<seq<byte>>)
    requires n <= |ops| && forall k :: 0 <= k < |ops| ==> ops[k].0 < |contents|
    ensures |r| == |contents|
  {
    if n == 0 then contents
    else
      var before := FlatRun(contents, ops, n - 1);
      before[ops[n - 1].0 := FlatStep(before[ops[n - 1].0], ops[n - 1].1)]
  }

  // ---------------------------------------------------------------- one operation

  // Index writes and the data of files that do not wait here.
  method TapeActivity(dpr: DentryPriv, requests: seq<TapeRequest>)
    requires dpr.Valid()
    modifies dpr.file.vol
    ensures dpr.Valid() && dpr.View() == old(dpr.View())
    ensures Grows(old(dpr.file.vol.drive), old(dpr.file.vol.log), dpr.file.vol.drive, dpr.file.vol.log)
  {
    hide Volume.Valid, UnifiedData.Valid, Grows, OnlyMine, ViewOf, NonIp, Cached, AltFits, Content, Sorted, Mapped, Sum;
    dpr.ItsOwn();
    ghost var t, store, ip := Settled(dpr.file.vol.drive), dpr.file.Contents(), dpr.sched.writeIp[dpr.id];
    dpr.file.vol.Run(requests);
    GrowsExtends(old(dpr.file.vol.drive), old(dpr.file.vol.log), dpr.file.vol.drive, dpr.file.vol.log);
    TapeFacts(dpr.file.vol);
    dpr.Undisturbed(t, store, ip);
  }

  lemma TapeFacts(vol: Volume)
    requires vol.Valid()
    ensures vol.drive.appendIp <= |vol.drive.ip| && 0 < vol.blocksize
  {
  }

  // Something that no one asked for: it cannot be seen.
  method Background(dpr: DentryPriv, op: Op)
    requires dpr.Valid() && (op.DataPass? || op.DataStep? || op.IndexPass? || op.TapeOps?)
    modifies dpr, dpr.file, dpr.sched, dpr.file.vol
    ensures dpr.Valid() && dpr.View() == old(dpr.View())
    ensures OnlyMine(old(dpr.sched.counters), dpr.sched.counters, dpr.id) && dpr.sched.writeIp == old(dpr.sched.writeIp)
    ensures op.DataPass? ==> NoneLeft(dpr.requests, |dpr.requests|, PassOver(op.partialToo))
    ensures op.IndexPass? ==> NoIp(dpr.requests)
    ensures op.DataStep? ==> dpr.inflight == old(dpr.inflight)[if old(dpr.inflight) == [] then 0 else 1..]
    ensures Grows(old(dpr.file.vol.drive), old(dpr.file.vol.log), dpr.file.vol.drive, dpr.file.vol.log)
  {
    hide Dentry.Valid, Grows, OnlyMine, ViewOf, NonIp, Cached, AltFits, Content;
    OnlyMineSelf(dpr.sched.counters, dpr.id);
    DriveGrows(dpr.file);
    dpr.SteadyIsLegible({});
    if op.TapeOps? {
      TapeActivity(dpr, op.requests);
    } else if op.DataStep? {
      if dpr.inflight != [] {
        dpr.WriteNext({});
      }
    } else {
      dpr.Drain({});  // one pass at a time
      ghost var d, log := dpr.file.vol.drive, dpr.file.vol.log;
      if op.DataPass? {
        dpr.ProcessDataQueue(op.partialToo);
      } else {
        dpr.ProcessIndexQueue();
      }
      GrowsTwice(old(dpr.file.vol.drive), old(dpr.file.vol.log), d, log, dpr.file.vol.drive, dpr.file.vol.log);
    }
  }

  // Do one operation.  A write that would overtake a waiting request is not started.
  method Step(dpr: DentryPriv, op: Op) returns (done: bool)
    requires dpr.Valid()
    modifies dpr, dpr.file, dpr.sched, dpr.file.vol
    ensures dpr.Valid() && dpr.View() == if done then FlatStep(old(dpr.View()), op) else old(dpr.View())
    ensures done <==> op.WriteOp? && op.data != [] ==>
              Clean(old(dpr.Prepared(op.off + |op.data|, op.maxFileSize, op.lowSpace)), op.off, |op.data|, dpr.cap)
    ensures OnlyMine(old(dpr.sched.counters), dpr.sched.counters, dpr.id)
    ensures |dpr.sched.writeIp| == old(|dpr.sched.writeIp|)
    ensures forall j :: 0 <= j < |dpr.sched.writeIp| && j != dpr.id ==>
            dpr.sched.writeIp[j] == old(dpr.sched.writeIp)[j]
    ensures Grows(old(dpr.file.vol.drive), old(dpr.file.vol.log), dpr.file.vol.drive, dpr.file.vol.log)
  {
    hide Volume.Valid, UnifiedData.Valid, Grows, OnlyMine, ViewOf, Clean, NonIp, Cached, AltFits, Content, Sorted,
         Mapped, Sum;
    done := true;
    OnlyMineSelf(dpr.sched.counters, dpr.id);
    DriveGrows(dpr.file);
    if op.WriteOp? {
      if op.data != [] && !Clean(dpr.Prepared(op.off + |op.data|, op.maxFileSize, op.lowSpace), op.off, |op.data|,
          dpr.cap) {
        return false;
      }
      dpr.Write(op.off, op.data, op.maxFileSize, op.lowSpace);
    } else if op.TruncateOp? {
      dpr.Truncate(op.len, op.maxFileSize, op.matchesName, op.deleted);
    } else if op.FlushOp? {
      dpr.Flush();
    } else if op.PlaceOp? {
      dpr.UpdateDataPlacement(op.maxFileSize, op.matchesName, op.deleted);
    } else {
      Background(dpr, op);
    }
  }

  // ---------------------------------------------------------------- many files

  // Files of one scheduler over one tape, each with its own number and dentry.
  ghost predicate Mounted(files: seq<DentryPriv>, u: UnifiedData, v: Volume)
    reads files, set f | f in files :: f.file
  {
    && (forall f {:trigger f in files} :: f in files ==> f.sched == u && f.file.vol == v)
    && (forall i, j {:trigger files[i], files[j]} :: 0 <= i < j < |files| ==>
          files[i] != files[j] && files[i].file != files[j].file && files[i].id != files[j].id)
  }

  ghost predicate AllValid(files: seq<DentryPriv>, u: UnifiedData, v: Volume)
    reads files, set f | f in files :: f.file, u, v
  {
    Mounted(files, u, v) && forall k {:trigger files[k]} :: 0 <= k < |files| ==> files[k] in files && files[k].Valid()
  }

  ghost predicate Show(files: seq<DentryPriv>, u: UnifiedData, v: Volume, contents: seq<seq<byte>>)
    requires AllValid(files, u, v)
    reads files, set f | f in files :: f.file, u, v
  {
    |contents| == |files| && forall k {:trigger files[k]} {:trigger contents[k]} :: 0 <= k < |files| ==>
      files[k] in files && files[k].View() == contents[k]
  }

  // One operation on file k; the others show what they showed.
  method StepOne(files: seq<DentryPriv>, u: UnifiedData, v: Volume, k: nat, op: Op, ghost contents: seq<seq<byte>>)
      returns (done: bool)
    requires AllValid(files, u, v) && Show(files, u, v, contents) && k < |files|
    modifies files, set f | f in files :: f.file, u, v
    ensures AllValid(files, u, v)
    ensures Show(files, u, v, if done then contents[k := FlatStep(contents[k], op)] else contents)
    ensures done <==> (op.WriteOp? && op.data != [] ==>
              Clean(old(files[k].Prepared(op.off + |op.data|, op.maxFileSize, op.lowSpace)), op.off, |op.data|,
                  files[k].cap))
  {
    hide Volume.Valid, UnifiedData.Valid, Sorted, Mapped, Sum, Content, Cached, AltFits, NoIp, DentryPriv.Own, ViewOf,
         Grows, Clean, Extends, Settled, NonIp, Tally;
    var f := files[k];
    assert f in files;
    forall j | 0 <= j < |files|
      ensures v.drive.appendIp <= |v.drive.ip| && files[j].file.Valid() && files[j].id < |u.writeIp|
      ensures files[j].Own(Settled(v.drive), files[j].file.Contents(), u.writeIp[files[j].id])
    {
      assert files[j] in files;
      files[j].ItsOwn();
    }
    TapeFacts(v);
    done := Step(f, op);
    GrowsExtends(old(v.drive), old(v.log), v.drive, v.log);
    TapeFacts(v);
    forall j | 0 <= j < |files| && j != k
      ensures files[j].Valid() && files[j].View() == old(files[j].View())
    {
      assert files[j] in files && files[j] != f && files[j].file != f.file && files[j].id != f.id;
      files[j].Undisturbed(old(Settled(v.drive)), old(files[j].file.Contents()), old(u.writeIp[files[j].id]));
    }
  }

  // Any run over any number of files: every file shows what the flat arrays hold, up to the
  // first write that would overtake a waiting request.
  method RunAll(files: seq<DentryPriv>, u: UnifiedData, v: Volume, ops: seq<(nat, Op)>,
      ghost contents: seq<seq<byte>>) returns (n: nat)
    requires AllValid(files, u, v) && Show(files, u, v, contents)
    requires forall k :: 0 <= k < |ops| ==> ops[k].0 < |contents|
    modifies files, set f | f in files :: f.file, u, v
    ensures n <= |ops| && AllValid(files, u, v) && Show(files, u, v, FlatRun(contents, ops, n))
    ensures n < |ops| ==>
              && ops[n].0 < |files| && ops[n].1.WriteOp? && 0 < files[ops[n].0].cap
              && var (k, w) := ops[n];
              !Clean(files[k].Prepared(w.off + |w.data|, w.maxFileSize, w.lowSpace), w.off, |w.data|, files[k].cap)
  {
    hide AllValid, Show, Clean, FlatRun;
    n := 0;
    FlatStart(contents, ops);
    while n < |ops|
      invariant n <= |ops| && AllValid(files, u, v) && Show(files, u, v, FlatRun(contents, ops, n))
    {
      var (k, op) := ops[n];
      SameLength(files, u, v, FlatRun(contents, ops, n));
      var ready := CanStart(files, u, v, k, op);
      if !ready {
        return;
      }
      var done := StepOne(files, u, v, k, op, FlatRun(contents, ops, n));
      FlatNext(contents, ops, n);
      n := n + 1;
    }
  }

  lemma FlatStart(contents: seq<seq<byte>>, ops: seq<(nat, Op)>)
    requires forall k :: 0 <= k < |ops| ==> ops[k].0 < |contents|
    ensures FlatRun(contents, ops, 0) == contents
  {
  }

  lemma FlatNext(contents: seq<seq<byte>>, ops: seq<(nat, Op)>, n: nat)
    requires n < |ops| && forall k :: 0 <= k < |ops| ==> ops[k].0 < |contents|
    ensures var before := FlatRun(contents, ops, n);
            FlatRun(contents, ops, n + 1) == before[ops[n].0 := FlatStep(before[ops[n].0], ops[n].1)]
  {
  }

  lemma SameLength(files: seq<DentryPriv>, u: UnifiedData, v: Volume, contents: seq<seq<byte>>)
    requires AllValid(files, u, v) && Show(files, u, v, contents)
    ensures |files| == |contents|
  {
  }

  // Whether a write overtakes no waiting request.
  method CanStart(files: seq<DentryPriv>, u: UnifiedData, v: Volume, k: nat, op: Op) returns (ready: bool)
    requires AllValid(files, u, v) && k < |files|
    ensures 0 < files[k].cap
    ensures ready <==> (op.WriteOp? && op.data != [] ==>
              Clean(files[k].Prepared(op.off + |op.data|, op.maxFileSize, op.lowSpace), op.off, |op.data|,
                  files[k].cap))
  {
    hide Volume.Valid, UnifiedData.Valid, Sorted, Mapped, Sum, Content, Cached, AltFits, NoIp, ViewOf, Clean, NonIp,
         Tally;
    ready := !op.WriteOp? || op.data == [] ||
             Clean(files[k].Prepared(op.off + |op.data|, op.maxFileSize, op.lowSpace), op.off, |op.data|, files[k].cap);
  }

  // ---------------------------------------------------------------- flushing everything

  // Nothing of the file waits for the data partition.
  ghost predicate OnlyIpLeft(f: DentryPriv)
    reads f
  {
    f.inflight == [] && AllIp(f.requests, |f.requests|)
  }

  lemma NoneCounted(reqs: seq<Request>)
    requires Tally(reqs).partial == 0 && Tally(reqs).dp == 0
    ensures AllIp(reqs, |reqs|)
  {
    CountZero(reqs, |reqs|, Partial);
    CountZero(reqs, |reqs|, Dp);
  }

  // Flush one file, or just let the background writer finish with it.
  method SettleOne(files: seq<DentryPriv>, u: UnifiedData, v: Volume, k: nat, flush: bool,
      ghost contents: seq<seq<byte>>)
    requires AllValid(files, u, v) && Show(files, u, v, contents) && k < |files| && (flush ==> files[k].inflight == [])
    modifies files[k], files[k].file, u, v
    ensures AllValid(files, u, v) && Show(files, u, v, contents)
    ensures files[k].inflight == []
            && (if flush then OnlyIpLeft(files[k]) else files[k].requests == old(files[k].requests))
    ensures OnlyMine(old(u.counters), u.counters, files[k].id) && (!flush ==> u.counters == old(u.counters))
  {
    hide Volume.Valid, UnifiedData.Valid, Sorted, Mapped, Sum, Content, Cached, AltFits, NoIp, DentryPriv.Own, ViewOf,
         Grows, Extends, Settled, NonIp, Tally, AllIp;
    var f := files[k];
    assert f in files;
    forall j | 0 <= j < |files|
      ensures v.drive.appendIp <= |v.drive.ip| && files[j].file.Valid() && files[j].id < |u.writeIp|
      ensures files[j].Own(Settled(v.drive), files[j].file.Contents(), u.writeIp[files[j].id])
    {
      assert files[j] in files;
      files[j].ItsOwn();
    }
    TapeFacts(v);
    OnlyMineSelf(u.counters, f.id);
    if flush {
      f.Flush();
    } else {
      f.SteadyIsLegible({});
      f.Drain({});
    }
    GrowsExtends(old(v.drive), old(v.log), v.drive, v.log);
    TapeFacts(v);
    forall j | 0 <= j < |files| && j != k
      ensures files[j].Valid() && files[j].View() == old(files[j].View())
    {
      assert files[j] in files && files[j] != f && files[j].file != f.file && files[j].id != f.id;
      files[j].Undisturbed(old(Settled(v.drive)), old(files[j].file.Contents()), old(u.writeIp[files[j].id]));
    }
  }

  // Flush every file that has something waiting for the data partition.  It waits for background
  // passes to end first.  Afterwards the stores alone hold what the files show.
  method FlushAll(files: seq<DentryPriv>, u: UnifiedData, v: Volume, ghost contents: seq<seq<byte>>)
    requires AllValid(files, u, v) && Show(files, u, v, contents)
    modifies files, set f | f in files :: f.file, u, v
    ensures AllValid(files, u, v) && Show(files, u, v, contents)
    ensures forall k {:trigger files[k]} :: 0 <= k < |files| ==>
              files[k] in files && OnlyIpLeft(files[k]) && files[k].file.Contents() == contents[k]
  {
    hide AllValid, Show, OnlyIpLeft, OnlyMine;
    for k := 0 to |files|
      invariant AllValid(files, u, v) && Show(files, u, v, contents)
      invariant forall j {:trigger files[j]} :: 0 <= j < k ==> files[j] in files && OnlyIpLeft(files[j])
    {
      SettleFile(files, u, v, k, contents);
    }
    forall k | 0 <= k < |files|
      ensures files[k] in files && files[k].file.Valid() && |contents| == |files|
              && files[k].file.Contents() == contents[k]
    {
      ShowsStore(files, u, v, contents, k);
    }
  }

  // A file in one of the two queues is flushed.
  method SettleFile(files: seq<DentryPriv>, u: UnifiedData, v: Volume, k: nat, ghost contents: seq<seq<byte>>)
    requires AllValid(files, u, v) && Show(files, u, v, contents) && k < |files|
    modifies files[k], files[k].file, u, v
    ensures AllValid(files, u, v) && Show(files, u, v, contents) && OnlyIpLeft(files[k])
  {
    hide Dentry.Valid, Show, OnlyMine, Cached, AltFits, AllIp, Content, Count;
    var f := files[k];
    assert f in files;
    if f.inflight != [] {
      SettleOne(files, u, v, k, false, contents);
    }
    if f.id in u.dpQueue || f.id in u.workingSet {
      SettleOne(files, u, v, k, true, contents);
    } else {
      NoneCounted(f.requests);
    }
  }

  lemma ShowsStore(files: seq<DentryPriv>, u: UnifiedData, v: Volume, contents: seq<seq<byte>>, k: nat)
    requires AllValid(files, u, v) && Show(files, u, v, contents) && k < |files| && OnlyIpLeft(files[k])
    ensures files[k] in files && files[k].file.Valid() && |contents| == |files|
            && files[k].file.Contents() == contents[k]
  {
    hide Dentry.Valid, Cached, AltFits, AllIp, Content, Count, ViewOf;
    var f := files[k];
    StoreIsView(f.requests, f.file.Contents(), f.fileSize, f.cap);
  }

  // ---------------------------------------------------------------- tearing down

  // Nothing is left to do for the file.
  ghost predicate Gone(f: DentryPriv)
    reads f
  {
    f.requests == [] && f.inflight == [] && f.alt == []
  }

  method DestroyOne(files: seq<DentryPriv>, u: UnifiedData, v: Volume, k: nat, ghost contents: seq<seq<byte>>)
    requires AllValid(files, u, v) && Show(files, u, v, contents) && k < |files|
    modifies files[k], files[k].file, u, v
    ensures AllValid(files, u, v) && Show(files, u, v, contents) && Gone(files[k])
  {
    hide Volume.Valid, UnifiedData.Valid, Sorted, Mapped, Sum, Content, Cached, AltFits, NoIp, DentryPriv.Own, ViewOf,
         Grows, Extends, Settled, NonIp, Tally, AllIp;
    var f := files[k];
    assert f in files;
    forall j | 0 <= j < |files|
      ensures v.drive.appendIp <= |v.drive.ip| && files[j].file.Valid() && files[j].id < |u.writeIp|
      ensures files[j].Own(Settled(v.drive), files[j].file.Contents(), u.writeIp[files[j].id])
    {
      assert files[j] in files;
      files[j].ItsOwn();
    }
    TapeFacts(v);
    f.Destroy();
    GrowsExtends(old(v.drive), old(v.log), v.drive, v.log);
    TapeFacts(v);
    forall j | 0 <= j < |files| && j != k
      ensures files[j].Valid() && files[j].View() == old(files[j].View())
    {
      assert files[j] in files && files[j] != f && files[j].file != f.file && files[j].id != f.id;
      files[j].Undisturbed(old(Settled(v.drive)), old(files[j].file.Contents()), old(u.writeIp[files[j].id]));
    }
  }

  // Tear the scheduler down, file by file: the stores alone hold what the files showed.
  method DestroyAll(files: seq<DentryPriv>, u: UnifiedData, v: Volume, ghost contents: seq<seq<byte>>)
    requires AllValid(files, u, v) && Show(files, u, v, contents)
    modifies files, set f | f in files :: f.file, u, v
    ensures AllValid(files, u, v) && |files| == |contents|
    ensures forall k {:trigger files[k]} :: 0 <= k < |files| ==>
              files[k] in files && Gone(files[k]) && files[k].file.Valid() && files[k].file.Contents() == contents[k]
  {
    hide AllValid, Show, Gone;
    for k := 0 to |files|
      invariant AllValid(files, u, v) && Show(files, u, v, contents)
      invariant forall j {:trigger files[j]} :: 0 <= j < k ==> files[j] in files && Gone(files[j])
    {
      assert files[k] in files;
      DestroyOne(files, u, v, k, contents);
    }
    SameLength(files, u, v, contents);
    forall k | 0 <= k < |files|
      ensures files[k] in files && files[k].file.Valid() && files[k].file.Contents() == contents[k]
    {
      GoneIsFlushed(files[k]);
      ShowsStore(files, u, v, contents, k);
    }
  }

  lemma GoneIsFlushed(f: DentryPriv)
    requires Gone(f)
    ensures OnlyIpLeft(f)
  {
  }

  // ---------------------------------------------------------------- the direct scheduler

  // Files of the first-come, first-served scheduler over one tape.
  ghost predicate Direct(files: seq<Dentry>, v: Volume)
    reads files, v
  {
    && (forall k {:trigger files[k]} :: 0 <= k < |files| ==> files[k] in files && files[k].vol == v && files[k].Valid())
    && (forall i, j {:trigger files[i], files[j]} :: 0 <= i < j < |files| ==> files[i] != files[j])
  }

  ghost predicate Hold(files: seq<Dentry>, v: Volume, contents: seq<seq<byte>>)
    requires Direct(files, v)
    reads files, v
  {
    |contents| == |files| && forall k {:trigger files[k]} {:trigger contents[k]} :: 0 <= k < |files| ==>
      files[k] in files && files[k].Contents() == contents[k]
  }

  // What others write to the tape changes nothing in a file.
  lemma FileKept(file: Dentry, t: Tape)
    requires file.vol.Valid() && 0 < file.vol.blocksize && file.vol.drive.appendIp <= |file.vol.drive.ip|
    requires Sorted(file.extents, file.vol.blocksize) && file.realsize == Sum(file.extents)
    requires Mapped(t, file.extents, file.size, file.vol.blocksize) && Extends(t, Settled(file.vol.drive))
    ensures file.Valid() && file.Contents() == Content(t, file.extents, file.size, file.vol.blocksize)
  {
    hide Volume.Valid, Sorted, Sum, Mapped, Content, Settled, Extends;
    ContentKept(t, Settled(file.vol.drive), file.extents, file.size, file.vol.blocksize);
  }

  // Every byte that is anywhere is on partition p.
  ghost predicate OnlyOn(exts: seq<Extent>, p: Partition, bs: nat)
  {
    forall x: nat {:trigger Find(exts, x, bs)} :: Find(exts, x, bs) != Hole ==> Find(exts, x, bs).part == p
  }

  lemma OnlyPut(was: seq<Extent>, now: seq<Extent>, data: seq<byte>, off: nat, p: Partition, from: nat, t: Tape,
      bs: nat)
    requires 0 < bs && PutOn(was, now, data, off, p, from, t, bs) && OnlyOn(was, p, bs)
    ensures OnlyOn(now, p, bs)
  {
    hide Find;
  }

  lemma OnlyCut(was: seq<Extent>, now: seq<Extent>, len: nat, p: Partition, bs: nat)
    requires CutOff(was, now, len, bs) && OnlyOn(was, p, bs)
    ensures OnlyOn(now, p, bs)
  {
    hide Find;
  }

  // What one operation of the direct scheduler does to a file's extents.
  ghost predicate Lands(was: seq<Extent>, now: seq<Extent>, op: Op, t: Tape, t': Tape, bs: nat)
    requires 0 < bs
  {
    if op.WriteOp? && op.data != [] then PutOn(was, now, op.data, op.off, DP, |t.dp|, t', bs)
    else if op.TruncateOp? then CutOff(was, now, op.len, bs)
    else now == was
  }

  // It passes every request straight to the store, and all data to the data partition.
  method DirectStep(files: seq<Dentry>, v: Volume, k: nat, op: Op, ghost contents: seq<seq<byte>>)
    requires Direct(files, v) && Hold(files, v, contents) && k < |files|
    modifies files[k], v
    ensures Direct(files, v) && Hold(files, v, contents[k := FlatStep(contents[k], op)])
    ensures 0 < v.blocksize && old(v.drive.appendIp <= |v.drive.ip|) && v.drive.appendIp <= |v.drive.ip|
            && Lands(old(files[k].extents), files[k].extents, op, old(Settled(v.drive)), Settled(v.drive), v.blocksize)
    ensures old(OnlyOn(files[k].extents, DP, v.blocksize)) ==> OnlyOn(files[k].extents, DP, v.blocksize)
  {
    hide Volume.Valid, Sorted, Sum, Mapped, Content, Settled, Extends, Grows, PutOn, CutOff, OnlyOn;
    TapeFacts(v);
    var f := files[k];
    DriveGrows(f);
    if op.WriteOp? && op.data != [] {
      var ok := f.Write(op.data, op.off, DP, true, true);
      if old(OnlyOn(f.extents, DP, v.blocksize)) {
        OnlyPut(old(f.extents), f.extents, op.data, op.off, DP, |old(Settled(v.drive)).Recs(DP)|, Settled(v.drive),
            v.blocksize);
      }
    } else if op.TruncateOp? {
      f.Truncate(op.len);
      if old(OnlyOn(f.extents, DP, v.blocksize)) {
        OnlyCut(old(f.extents), f.extents, op.len, DP, v.blocksize);
      }
    }
    TapeFacts(v);
    GrowsExtends(old(v.drive), old(v.log), v.drive, v.log);
    forall j | 0 <= j < |files| && j != k
      ensures files[j].Valid() && files[j].Contents() == old(files[j].Contents())
    {
      assert files[j] in files && files[j] != f;
      FileKept(files[j], old(Settled(v.drive)));
    }
  }

  method RunDirect(files: seq<Dentry>, v: Volume, ops: seq<(nat, Op)>, ghost contents: seq<seq<byte>>)
    requires Direct(files, v) && Hold(files, v, contents) && |contents| == |files|
    requires forall k :: 0 <= k < |ops| ==> ops[k].0 < |contents|
    modifies files, v
    ensures Direct(files, v) && Hold(files, v, FlatRun(contents, ops, |ops|))
    ensures forall k {:trigger files[k]} :: 0 <= k < |files| && old(OnlyOn(files[k].extents, DP, v.blocksize)) ==>
              OnlyOn(files[k].extents, DP, v.blocksize)
  {
    hide Hold, FlatRun, OnlyOn, Lands, Dentry.Valid;
    FlatStart(contents, ops);
    for i := 0 to |ops|
      invariant Direct(files, v) && Hold(files, v, FlatRun(contents, ops, i))
      invariant forall k {:trigger files[k]} :: 0 <= k < |files| && old(OnlyOn(files[k].extents, DP, v.blocksize)) ==>
                  OnlyOn(files[k].extents, DP, v.blocksize)
    {
      FlatNext(contents, ops, i);
      assert files[ops[i].0] in files;
      DirectStep(files, v, ops[i].0, ops[i].1, FlatRun(contents, ops, i));
    }
  }

  // A run, and if no write was unclean, the end of it.
  method RunToEnd(files: seq<DentryPriv>, u: UnifiedData, v: Volume, ops: seq<(nat, Op)>,
      ghost contents: seq<seq<byte>>) returns (n: nat)
    requires AllValid(files, u, v) && Show(files, u, v, contents)
    requires forall k :: 0 <= k < |ops| ==> ops[k].0 < |contents|
    modifies files, set f | f in files :: f.file, u, v
    ensures n <= |ops| && AllValid(files, u, v) && |files| == |contents|
    ensures n < |ops| ==>
              && ops[n].0 < |files| && ops[n].1.WriteOp? && 0 < files[ops[n].0].cap
              && var (k, w) := ops[n];
              !Clean(files[k].Prepared(w.off + |w.data|, w.maxFileSize, w.lowSpace), w.off, |w.data|, files[k].cap)
    ensures n == |ops| ==> forall k {:trigger files[k]} :: 0 <= k < |files| ==>
              && files[k] in files && files[k].file.vol == v && Gone(files[k]) && files[k].file.Valid()
              && files[k].file.Contents() == FlatRun(contents, ops, n)[k]
  {
    hide AllValid, Show, Clean, FlatRun, Dentry.Valid, Content, Gone;
    SameLength(files, u, v, contents);
    n := RunAll(files, u, v, ops, contents);
    if n == |ops| {
      DestroyAll(files, u, v, FlatRun(contents, ops, n));
      AllOn(files, u, v);
    }
  }

  lemma AllOn(files: seq<DentryPriv>, u: UnifiedData, v: Volume)
    requires AllValid(files, u, v)
    ensures forall k {:trigger files[k]} :: 0 <= k < |files| ==> files[k] in files && files[k].file.vol == v
  {
  }

  // The same requests to the same files from the same contents: after the unified scheduler has
  // been torn down, every store holds what the direct scheduler's store of that file holds.
  method SameAsDirect(files: seq<DentryPriv>, u: UnifiedData, v: Volume, direct: seq<Dentry>, dv: Volume,
      ops: seq<(nat, Op)>, ghost contents: seq<seq<byte>>) returns (n: nat)
    requires AllValid(files, u, v) && Show(files, u, v, contents)
    requires Direct(direct, dv) && Hold(direct, dv, contents) && |direct| == |contents|
    requires dv != v && forall d :: d in direct ==> d !in (set f | f in files :: f.file)
    requires forall k :: 0 <= k < |ops| ==> ops[k].0 < |contents|
    modifies files, set f | f in files :: f.file, u, v, direct, dv
    ensures n <= |ops| && AllValid(files, u, v) && Direct(direct, dv) && |files| == |direct|
    ensures n < |ops| ==>
              && ops[n].0 < |files| && ops[n].1.WriteOp? && 0 < files[ops[n].0].cap
              && var (k, w) := ops[n];
              !Clean(files[k].Prepared(w.off + |w.data|, w.maxFileSize, w.lowSpace), w.off, |w.data|, files[k].cap)
    ensures n == |ops| ==> forall k {:trigger files[k]} {:trigger direct[k]} :: 0 <= k < |files| ==>
              && files[k] in files && files[k].file.Valid() && direct[k] in direct && direct[k].Valid()
              && files[k].file.Contents() == direct[k].Contents()
  {
    hide AllValid, Show, Clean, FlatRun, Dentry.Valid, Content, Gone;
    n := RunToEnd(files, u, v, ops, contents);
    if n == |ops| {
      ghost var now := FlatRun(contents, ops, n);
      RunDirect(direct, dv, ops, contents);
      forall k | 0 <= k < |files|
        ensures files[k] in files && direct[k] in direct && direct[k].Valid() && direct[k].Contents() == now[k]
        ensures files[k].file.Valid() && files[k].file.Contents() == now[k]
      {
        assert files[k] in files && files[k].file !in direct;
        HeldAt(direct, dv, now, k);
      }
    }
  }

  lemma HeldAt(files: seq<Dentry>, v: Volume, contents: seq<seq<byte>>, k: nat)
    requires Direct(files, v) && Hold(files, v, contents) && k < |files|
    ensures k < |contents| && files[k] in files && files[k].Valid() && files[k].Contents() == contents[k]
  {
  }
}
