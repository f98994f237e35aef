# WinLtfs: a verified model of its hard core

WinLtfs is a tape file system.  A cartridge has two partitions, an index partition (IP) and a
data partition (DP), each a sequence of blocks and file marks that can only be cut off and
appended to.  This project models the five parts of it that are hardest to get right, and proves
that they do what they are for.

* **Index commit protocol** (`Medium`, `Protocol`, `Recovery`, `Volume`).  `Volume.Volume` is a
  mounted cartridge.  Every tape operation of every run, down to the single blocks of an index, is
  logged together with the index that was committed at that moment; none is missing, for each logged
  state comes from the one before by writing one record.  Each of them still holds
  that index, complete; the pointer check decides for one at least as new, and so does mount's fast
  path where the coherency records allow it.  From each such state the check restores a valid
  volume with the index it decided for, or refuses, in just the cases of the code: blocks behind the
  last index of a partition if it may not go deep, extents that are not sound, or, if it has to write
  an index, data beyond the end of the data partition.  Which data it spares is stated block by block.
  `Volume.Lives` closes the circle: however often the volume is mounted, used and stopped, what is
  committed never gets older.
* **Extent store** (`Flat`, `Extents`, `RawFile`).  `RawFile.Dentry` is a file as a list of extents
  over a `Volume`.  Adding, truncating and reading refine a flat array of bytes, through splitting,
  joining, block arithmetic, 64-bit wrap-around and the one-block read cache.
* **Unified scheduler** (`Queues`, `Requests`, `Sweep`, `Placing`, `Keeping`, `Showing`, `Hiding`,
  `Filling`, `AltList`, `Carrying`, `View`, `Homing`, `Reading`, `Scheduler`, `Unclean`, `Refinement`).
  `Scheduler.DentryPriv` is the write-back cache of one file, `Queues.UnifiedData` the queues and
  counters of all of them.  Whole runs over many files on one tape show what flat arrays show, and end
  with the stores that the first-come, first-served scheduler would have made.  Every pass states which
  requests it writes, in which order, to which partition, and that the extents lead to their bytes there.
* **Glob matcher** (`Glob`).  The iterative matcher with its two-place backtrack stack accepts just
  the names that the recursive relation accepts.
* **Directory tree** (`Tree`, `Paths`, `Outcomes`, `Directory`).  `Directory.Index` holds the dentries
  with their parents, tables, link and handle counts; what its operations answer is stated in terms of
  paths.

The model has the source's shape: what the source updates in place is a class whose methods are
proved against functions of the old state, and loops are loops.  The proof work is done on values
(what one step does to a list of requests, a partition, a tree), in small lemmas.

## What was found

Six promises do not hold of the code as it stands.  The code is modelled as it is; each has the
exact condition under which the promise is kept, and a concrete input that breaks it.

* *A write that overtakes a waiting request.*  `unified.c:803` skips a request when the write cursor
  is past its end.  The cursor may be past it because an earlier block of the same write just covered
  it; the request then stays in the list, overlapping, and its old bytes come back when it is written
  out (`Unclean.OvertakenComesBack`).  `Unclean.OvertakenExample` makes it happen on a new file: after
  one byte at 0, one at 2 and four bytes 9 over both, the file shows 9 at offset 2, and the old byte
  is stored there.
* *A merge that hides the first byte of a write.*  With two requests bound for the index partition
  side by side, the first not full, and a write that starts where the second one does, the merge at
  `unified.c:823` moves bytes of the second into the first before the overlap with the write is
  handled; line 833, which asks whether this can happen, then inserts the new bytes behind the old
  ones.  Whatever such a list, the file goes on to show the old byte (`Hiding.HiddenByMerge`).
  `Unclean.HiddenExample` makes it happen on a new file bound for the index partition: after eight
  bytes, a flush and two bytes at the front, one byte written to offset 4 does not show at all.
* *A flush that does not wait.*  Flushing one file returns at once if its list is empty
  (`unified.c:2024`), even while the background writer still writes requests that it took off the
  list.  The file then has not reached the tape (`View.NotYetWritten`).  `Scheduler.DentryPriv.Flush`
  states exactly when it has: if the list was not empty, or nothing was under way.  Flushing all files
  (`Refinement.FlushAll`) waits and is not affected.
* *A mount that passes over an index.*  With the same generation in both coherency records, mount
  reads the index on the index partition (`ltfs.c:1588`), even if a newer copy on the data partition
  followed it, as the first step of every data write to the index partition.  The tree is the same, and
  whatever the volume is asked to do from there on survives like any other run.  But the next index on
  the data partition points back past that copy, and if nothing changes, the pointer check goes on to
  prefer the data partition after an unmount.  `Volume.Volume.Mount` passes over an index if and only if
  the records are current and the medium is like that (`Volume.SkipsIndex`); `Volume.Volume.Run` keeps
  back pointers exact if and only if the mount before it did not; and `Volume.Volume.Unmount` states
  which answer the check gives.  `Volume.SkipRun` gets there from a new cartridge.
* *A check that writes over data in use.*  With no index on the index partition, a check that goes deep
  sets the append position there to block 4 (`ltfs_internal.c:1162-1165`), whatever blocks the index that
  it goes on with refers to.  A stop in the middle of a data write to the index partition leaves just
  that medium, for the write cuts off the index behind older data in use (`Volume.LostRun`).  A check
  keeps, of each partition, exactly the data in front of the last index and in front of the last block
  in use, or, without an index, in front of block 4 (`Recovery.Spared`); so it keeps all data in use if
  and only if the partition has an index or no data in use behind block 4 (`Recovery.SparesInUse`).
* *An entry in a file.*  Neither create nor rename asks whether the new parent is a directory, so
  `/f/g` can be made below a file `/f` (`Tree.EntryInFile`).  An empty last component breaks the
  tree, too.

`Sweep.Clean` is the condition for the first two: a predicate on the list and the extent of the write,
computed by following the cursor once through the list.  `Scheduler.DentryPriv.Write` keeps the
invariant if and only if it holds.  What the file shows right after the write is another matter: that is
right, whatever the bytes, if and only if the write does not meet two requests as in the second case
(`Sweep.Hides`); overtaking alone shows only later.  Clean or not, every write leaves the list that
`Placing.Placed` computes, sorted and fit to be read.  `Directory.Index.Create` and `Directory.Index.Rename` keep a
proper tree if and only if the parent is a directory and the name is not empty.

The alternate extent list may hold overlapping entries, since `unified.c:1524` keeps an entry whole
where it would have to be split.  The comment there claims that this is correct, and it is: entries
that overlap stand in the order in which they were written, so adding them in list order is right.

## Model

| member | source | states |
|---|---|---|
| Volume.Lives | ltfs/src/libltfs/ltfs.c:1505-1730 | Over any number of lives, each of a mount and, if that does not fail, a run, each ended by a stop after any tape operation of the mount or the run: every state of the medium survives, each differs from the one before by one record written or by cartridge memory, and what is committed never gets older. As long as no mount passes over an index, each DP index points back to just the one before it in all of them. |
| Volume.Live | ltfs/src/libltfs/ltfs.c:1505-1730 | One such life: whether its mount fails, and whether it passes over an index, depends on the stop it starts from as `Volume.Volume.Mount` says; the log ends with the tape operation asked for, or, if there were fewer, with all data of the run on the medium. |
| Volume.Volume.Run | ltfs/src/libltfs/ltfs.c:2171-2351 | Over any run of tree changes, syncs, data writes and unmounts, also behind a mount that passed over an index, the medium after every single tape operation survives a stop there, and what is committed never gets older; nothing but the index at the end of the IP is ever cut off. Every change of the tree is in the index in memory, all data written lies in blocks of its partition, and after a sync or an unmount at the end the tree is committed. That every DP index points back to the one before it, and the next one will, holds afterwards if and only if it did before, and then at every stop in between. |
| Volume.Volume.Mount | ltfs/src/libltfs/ltfs.c:1505-1730 | Mounting what any stop left: it fails just if the records are not current and the check refuses; if not, the volume is valid, the index in memory has the tree and generation of the committed one, which is at least as new as before, and every stop on the way survives. It passes over an index if and only if the records are current and the copy at the end of the IP does not point back to the last DP index. Where it does not check the medium, no data is lost; where it does, exactly what the check gives up. Where cartridge memory works, both records are current afterwards. |
| Volume.Volume.CheckMedium | ltfs/src/libltfs/ltfs_internal.c:1014-1225 | Refuses just in the cases of the code: extra blocks without going deep, unsound extents with no index on the IP, or an index to be written with data in use beyond the end of the DP. If it does not, it leaves a valid volume whose IP ends in the committed index, with the tree of the index that the pointer check decided for, however the medium was stopped. A data block of a partition with an index is still there if and only if it lies in front of the last index or in front of the end of the blocks in use; one of a partition without an index, if and only if it lies in front of block 4. |
| Volume.Volume.GoOn | ltfs/src/libltfs/ltfs_internal.c:1133-1219 | With that index in memory, the append positions are set and the indexes written, in an order in which every stop survives; just the data blocks named above stay; it gives up just if an index has to be written and the last block in use lies beyond the end of the DP, as the seek to the end of data recorded it. |
| Volume.BeyondEnd | ltfs/src/libltfs/ltfs_internal.c:1164-1207 | Where the DP is written on lies behind its last index, and in front of the last block in use just if that lies beyond the end of data. |
| Recovery.SparesInUse | ltfs/src/libltfs/ltfs_internal.c:1151-1181 | All data in use on a partition survives the check if and only if the partition has an index, or has no data in use from block 4 on. |
| Recovery.IpSpares | ltfs/src/libltfs/ltfs_internal.c:1133-1165 | Whatever the stop, what is written to the IP from the append position on leaves exactly the blocks in front of its last index and those in use. |
| Recovery.DpSpares | ltfs/src/libltfs/ltfs_internal.c:1167-1181 | The same for the DP. |
| Volume.LostRun | ltfs/src/libltfs/ltfs_internal.c:1162-1165 | A run of two data writes to the IP with a sync in between, and a stop: the medium survives, with two blocks and no index on the IP; a deep check told that blocks before 5 are in use does not refuse, and block 4 is lost. |
| Volume.SkipExample | ltfs/src/libltfs/ltfs.c:1585-1642 | A newly formatted cartridge that got its index on the DP and then lost power survives; with both records stored, mount passes over that index. |
| Volume.SkipRun | ltfs/src/libltfs/ltfs.c:1585-1642 | A run from formatting on that leaves this medium in its log. Where cartridge memory works and the change reference is in range, both records are current, the next mount passes over the index, and then either the next DP index does not point back to the one before it, or, with no change, the pointer check prefers the DP after an unmount. |
| Recovery.ChosenIsNewest | ltfs/src/libltfs/ltfs_internal.c:659-728 | The index that the pointer check decides for is at least as new as every other index on the medium; if it is on the IP, that ends in it and it points back to the last DP index. |
| Recovery.Settles | ltfs/src/libltfs/ltfs_internal.c:1014-1128 | With missing file marks filled in, the chosen index may count as the committed one from then on. |
| Recovery.FastPathReads | ltfs/src/libltfs/ltfs.c:1585-1642 | The fast path reads the committed index, or, with equal generations, one on the IP with the same tree that points back past it. |
| Volume.SurvivingStop | ltfs/src/libltfs/ltfs_internal.c:659-728 | What surviving means: the last committed index is on the medium between file marks, the pointer check decides for an index at least as new, and the fast path reads one whenever it is usable. |
| Volume.BackPointers | ltfs/src/libltfs/ltfs.c:2233-2252 | At every stop, each DP index knows its own position and points back to a DP index that can be read there, and all it passes over are copies of the one before it; behind lives without a mount that passed over an index, it is just the one before it. Generations do not fall. |
| Protocol.NextBack | ltfs/src/libltfs/ltfs.c:2233-2252 | The next DP index points back to the last one there, or, with a copy of that in memory, to where the copy points; both lead to a DP index behind which there are only copies. |
| Protocol.PassesIs | ltfs/src/libltfs/ltfs.c:1585-1642 | The index in memory is on the IP and does not point back to the last DP index if and only if it is not the committed one but a copy of it at the end of the IP. |
| Protocol.TightPut | ltfs/src/libltfs/ltfs.c:2233-2309 | An index written to the DP keeps all back pointers exact if and only if they were and it names the last one. |
| Volume.Volume.WriteClosed | ltfs/src/libltfs/ltfs.c:2272-2309 | File mark, every block of the index, file mark: the medium after each of these tape operations is logged and survives, and the last one commits the index. |
| Volume.Volume.WriteIndex | ltfs/src/libltfs/ltfs.c:2199-2351 | The partition ends in the index in memory, in as many blocks as it takes, one generation up if the tree changed; on the IP its back pointer names the last DP index, on the DP the last one before it, unless a mount passed over that; the IP is written only after the DP ends in an index as new, and the DP is written before that only if it has to; every stop on the way survives. Where cartridge memory works, the records of the partitions that end in an index are then current. |
| Volume.Volume.WriteIndexConditional | ltfs/src/libltfs/ltfs_internal.c:1282-1296 | Afterwards the partition ends in an index that may stay the only current one; nothing was done if it did before, and if it did not, the index in memory was written there; all stops on the way survive. |
| Volume.Volume.WriteData | ltfs/src/libltfs/ltfs_fsops_raw.c:180-238 | The data lies in blocks of the partition behind everything settled, from the reported block on; the other partition ends in an index, and was not touched if it did before; the end flag of this one is down; all stops survive. |
| Volume.Volume.SyncIndex | ltfs/src/libltfs/ltfs.c:3313-3390 | The changed tree is committed, one generation up, on the IP alone if the DP ends in an index and the IP does not, else on the DP alone; an unchanged one leaves the tape alone, and is the committed one, whose index is in memory but for a mount that passed over it. |
| Volume.Volume.Unmount | ltfs/src/libltfs/ltfs.c:1811-1856 | The tree in memory is committed, and an index with it ends the IP; with no change and the index there already, nothing is written; the pointer check then answers that the IP index is the newer one, unless a mount passed over an index and nothing changed since: then, and only then, it prefers the DP. |
| Volume.Volume.Flags | ltfs/src/libltfs/ltfs_internal.c:1246-1268 | Between operations some partition ends in an index, the end flags are true, and a self pointer on the IP implies that the IP ends in that index, which points back to the last DP index just if no mount passed over that. |
| Volume.Volume.UpdateCoherency | ltfs/src/libltfs/ltfs_internal.c:1235-1271 | For each partition that ends in an index, and no other, the record gets the change reference and, where the index in memory is, its generation and position; it is stored if and only if that write to cartridge memory succeeds. Whatever subset gets stored, a stored record that carries the current change reference describes the last, complete index of its partition. |
| Volume.Volume.Format | ltfs/src/libltfs/ltfs.c:2896-2920 | What formatting leaves, labels and the same first index on both partitions, is a valid start with the DP index committed first and the IP index pointing back to it. |
| Volume.Volume.CacheHolds | ltfs/src/libltfs/ltfs_fsops_raw.c:613-645 | The one-block read cache holds what the tape has at the position it claims. |
| Protocol.StopIsRecoverable | ltfs/src/libltfs/ltfs_internal.c:659-728 | Whatever the last tape operation was, the pointer check finds an index at least as new as the committed one. |
| Protocol.QuietOnIp | ltfs/src/libltfs/ltfs_internal.c:690-695 | With the committed index on the IP, the pointer check answers that the IP is newer. |
| Protocol.DpIndexStops | ltfs/src/libltfs/ltfs.c:2272-2309 | Stopping before or after any block of an index on the DP leaves the old committed index recoverable; stopping after the closing file mark, the new one. |
| Protocol.IpIndexStops | ltfs/src/libltfs/ltfs.c:2199-2309 | The same for any block of an index on the IP, which cuts off the old IP index, because the DP holds the committed one by then. |
| Protocol.FastPathPicksNewest | ltfs/src/libltfs/ltfs.c:1585-1642 | With current coherency records, mount reads a complete index at least as new as the committed one and as every other index on either partition. |
| Extents.InsertExtent | ltfs/src/libltfs/ltfs_fsops_raw.c:303-393 | The new list maps the bytes of the extent to it and every other byte to the same linear tape address; it stays sorted and disjoint and the size is the sum; a failed split leaves all as it was, and only happens when an entry reaches over both ends. |
| Extents.CutExtents | ltfs/src/libltfs/ltfs_fsops_raw.c:711-726 | Bytes below the length keep their place, the others have none; the size is the sum. |
| Extents.SplicedFind | ltfs/src/libltfs/ltfs_fsops_raw.c:311-365 | Clipping the list on both sides and putting the extent in between overlays it on the old map. |
| Extents.JoinedSame | ltfs/src/libltfs/ltfs_fsops_raw.c:368-378 | Joining the extent to the entry it continues looks the same to every byte as inserting it. |
| Extents.TrimFrontKeeps | ltfs/src/libltfs/ltfs_fsops_raw.c:318-329 | Trimming an extent in front by block division and remainder leaves every byte at its linear address, and the byte offset within the first block. |
| Extents.SweepStop | ltfs/src/libltfs/ltfs_fsops_raw.c:379-384 | The first entry from behind that starts below the extent ends the reverse loop with the spliced list. |
| RawFile.Dentry.AddExtent | ltfs/src/libltfs/ltfs_fsops_raw.c:281-416 | The file becomes the old one with the extent's bytes written into it, and its extents lead to the new one for those bytes and elsewhere as before; without memory for the copy or a split, nothing changes. |
| RawFile.Dentry.Write | ltfs/src/libltfs/ltfs_fsops_raw.c:452-499 | Data through the tape and the extent list is a write into a flat byte array. It lies in new blocks of the partition asked for, behind everything settled there; the extents lead to these blocks for its bytes and elsewhere as before; the end flag of the partition is down. |
| RawFile.Dentry.Truncate | ltfs/src/libltfs/ltfs_fsops_raw.c:695-742 | Cutting, or extending with a hole, is resizing a flat byte array with zeros; bytes that stay keep their place. |
| RawFile.Dentry.Read | ltfs/src/libltfs/ltfs_fsops_raw.c:501-693 | Delivers just the wanted bytes that lie within the file, equal to its content, with zeros in holes and at a sparse end, and touches no other byte of the buffer. |
| RawFile.Dentry.ReadExtent | ltfs/src/libltfs/ltfs_fsops_raw.c:579-655 | The block loop, with its cursors in wrapping 64-bit arithmetic, delivers what the extent holds, block by block. |
| RawFile.Dentry.LoadBlock | ltfs/src/libltfs/ltfs_fsops_raw.c:613-645 | The cache then holds the wanted block, whether it was there or is read, with the position as the caller knows it. |
| RawFile.Dentry.SeekIfNeeded | ltfs/src/libltfs/ltfs_fsops_raw.c:586-601 | Skipping the seek leaves the drive in front of the wanted block, or just behind it with the block in the cache. |
| RawFile.WrapAround | ltfs/src/libltfs/ltfs_fsops_raw.c:604-611 | A block that starts before the file does wraps below zero, and every quantity computed from it comes out right. |
| RawFile.ChopAt | ltfs/src/libltfs/ltfs_fsops_raw.c:224-238 | Byte i of written data is byte i mod blocksize of block i div blocksize. |
| RawFile.BlockOfExtent | ltfs/src/libltfs/ltfs_fsops_raw.c:586-611 | The block that the read arithmetic computes is on the tape, large enough, and holds the file's bytes at the offsets used; so the small-block error cannot occur. |
| RawFile.OverlayWrites | ltfs/src/libltfs/ltfs_fsops_raw.c:396-399 | Overlaying an extent on the map is writing its bytes into the file, growing the size to its end. |
| RawFile.CutResizes | ltfs/src/libltfs/ltfs_fsops_raw.c:728-731 | Cutting the map is resizing the content. |
| RawFile.ContentKept | ltfs/src/libltfs/ltfs_fsops_raw.c:201-238 | Later writes to the tape change no stored file. |
| RawFile.GapReadsZero | ltfs/src/libltfs/ltfs_fsops_raw.c:565-575 | What the read fills with zeros is what the file holds there. |
| Queues.UnifiedData.UpdateQueueMembership | ltfs/src/iosched/unified.c:1603-1705 | Counters change by one, or drop to zero; every queue still holds just the files with requests in that state, each once; a file enters at the end, and leaves without changing the order of the others; the global counters remain the sums, the DP one only over files not bound for the IP; nothing underflows. |
| Queues.UnifiedData.SetWriteIp | ltfs/src/iosched/unified.c:2186-2196 | Takes a file's DP requests out of the global counter, which stays the exact sum. |
| Queues.UnifiedData.UnsetWriteIp | ltfs/src/iosched/unified.c:2206-2236 | Puts them back. |
| Queues.UnifiedData.AddFile | ltfs/src/iosched/unified.c:1411-1463 | A new file starts with no requests, and all queues and sums stay right. |
| Queues.Requeued | ltfs/src/iosched/unified.c:1610-1703 | Entering a queue at its end with the first request and leaving it with the last keeps membership exact and everyone else in turn. |
| Requests.MergeLook | ltfs/src/iosched/unified.c:1926-1978 | Merging a request into the one before it shows at no offset. |
| Requests.MergePair | ltfs/src/iosched/unified.c:1926-1978 | What the two requests are after a merge: sizes, states, ends, and every byte they hold. |
| Requests.FillOne | ltfs/src/iosched/unified.c:1873-1910 | Updating a request overlays as many bytes as its block has room for, and keeps the rest. |
| Requests.UpdatedShort | ltfs/src/iosched/unified.c:1895-1902 | Filling up a partly filled request promotes it and just the partly filled ones up to the offset; so none that is full counts as partly filled. |
| Requests.MergeFills | ltfs/src/iosched/unified.c:1936-1964 | Two requests for the same partition that touch are merged until the first is full or the second is gone; between requests for different partitions no byte passes; what is left of a full request counts as partly filled. |
| Filling.PlacedShort | ltfs/src/iosched/unified.c:761-891 | No write, clean or not, leaves a full request that counts as partly filled. |
| Carrying.CarriedTwice | ltfs/src/iosched/unified.c:1313-1372 | Where two lots of requests are written one after the other, the extents lead to the bytes of both, the later ones first, on the partition and behind all that was there, and elsewhere as before. |
| Carrying.HavingMergedBack | ltfs/src/iosched/unified.c:1323-1325 | Merging a request that waits for the IP into the one before it leaves the requests for the DP, and their order, as they are. |
| Homing.HomeAll | ltfs/src/iosched/unified.c:382-420 | A flush, an index pass and the hand-over of the alternate extents bring every byte that waited to the tape, to the IP for a file bound for it and to the DP else; every other byte stays where the alternate extents, or else the store, had it. |
| Sweep.SkipStep | ltfs/src/iosched/unified.c:802-804 | Skipping keeps the loop invariant: either the request ended before the write, or the write overtook it and the overlap stays, and then the write is not clean. |
| Sweep.InsertStep | ltfs/src/iosched/unified.c:806-819 | Inserting a block in front of a request keeps it. |
| Sweep.MergeStep | ltfs/src/iosched/unified.c:821-825 | Merging with the previous request keeps it, or leaves the state that line 833 asks about, exactly for two IP requests as described above. |
| Sweep.UpdateStep | ltfs/src/iosched/unified.c:838-845 | Updating a request in place keeps it. |
| Sweep.RemoveStep | ltfs/src/iosched/unified.c:848-857 | Removing a covered IP request keeps it. |
| Sweep.FrontStep | ltfs/src/iosched/unified.c:858-863 | Cutting the front off an IP request keeps it. |
| Sweep.BackStep | ltfs/src/iosched/unified.c:864-866 | Cutting the end off an IP request keeps it. |
| Sweep.SplitStep | ltfs/src/iosched/unified.c:867-880 | Splitting an IP request around the write keeps it. |
| Sweep.AppendUpdate | ltfs/src/iosched/unified.c:774-781 | Filling up the last request keeps the invariant of appending. |
| Sweep.AppendInsert | ltfs/src/iosched/unified.c:783-795 | So does a new last request. |
| Sweep.CleanAppend | ltfs/src/iosched/unified.c:771-773 | A write behind everything is always clean. |
| Sweep.WholeWrite | ltfs/src/iosched/unified.c:761-891 | At the end, whatever mix of appending and traversing it took: the list is free of overlaps if and only if the write was clean, and then it shows the written bytes and all others as before. |
| AltList.UpdateAltExtentList | ltfs/src/iosched/unified.c:1472-1556 | The list, which may overlap, maps the bytes of the new extent to it and all others as before, when later entries win, and stays in an order in which later entries were written later. |
| AltList.TruncateAltExtentList | ltfs/src/iosched/unified.c:1003-1011 | Bytes below the length keep their place, the others lose it. |
| AltList.LaidFind | ltfs/src/iosched/unified.c:1482-1552 | Where the loop puts the extent, overlapping entries in front of it are older, so it wins. |
| View.WriteShows | ltfs/src/iosched/unified.c:675-917 | A write that placed its bytes in the list is a write into the visible content; the size is the maximum of before and its end. |
| View.SizeIsMax | ltfs/src/iosched/unified.c:1057-1089 | file_size is the maximum of the stored size and the ends of all requests. |
| View.FlushToIp | ltfs/src/iosched/unified.c:1327-1342 | Writing a request to the DP and keeping it for the IP is invisible, and the request then holds what the store holds. |
| View.FlushAway | ltfs/src/iosched/unified.c:1987-2064 | Writing a request to the DP and dropping it is invisible. |
| View.DetachInvisible | ltfs/src/iosched/unified.c:1344-1352 | Taking a request off the list to be written is invisible. |
| View.WriteNextInvisible | ltfs/src/iosched/unified.c:1358-1372 | Writing it is invisible, even if newer requests for the same bytes wait by then. |
| View.NonIpInvisible | ltfs/src/iosched/unified.c:2206-2236 | Dropping all IP requests is invisible. |
| View.TruncateShows | ltfs/src/iosched/unified.c:989-1014 | Cutting requests and store resizes the visible content. |
| View.StoreIsView | ltfs/src/iosched/unified.c:2067-2107 | With only IP requests left, the store alone holds the visible content. |
| View.IndexStep | ltfs/src/iosched/unified.c:1213-1261 | An IP request that is written to the IP leaves the list invisibly, and the alternate extents then lead to its bytes. |
| View.PushStep | ltfs/src/iosched/unified.c:1564-1589 | Adding the next alternate extent keeps: every byte comes from the last added extent that has it, else from the store. |
| View.PushDone | ltfs/src/iosched/unified.c:1564-1589 | Adding all of them in list order leaves every byte as it was. |
| View.JustNewest | ltfs/src/libltfs/ltfs_fsops_raw.c:201-215 | Blocks just appended to the IP lie behind every block used before. |
| Unclean.OvertakenComesBack | ltfs/src/iosched/unified.c:802-804 | Where waiting requests overlap, the first one shows while they wait, and the byte of the last one is stored after all were written out in list order. |
| Unclean.OvertakenLeaves | ltfs/src/iosched/unified.c:802-804 | The list that such a write leaves: both requests, overlapping. |
| Unclean.OvertakenExample | ltfs/src/iosched/unified.c:675-917 | Three writes to a new file on a formatted cartridge: the file shows the last of them, and after its list was written out in order, offset 2 holds the old byte. |
| Hiding.HiddenByMerge | ltfs/src/iosched/unified.c:821-836 | For every list with two such requests, what the whole write leaves still shows the old byte at the offset of the write. |
| Unclean.HiddenLeaves | ltfs/src/iosched/unified.c:821-836 | The list that such a write leaves: the old byte in front of the new one. |
| Unclean.HiddenExample | ltfs/src/iosched/unified.c:675-917 | A run from a new file bound for the IP, eight bytes, a flush and two bytes at the front, after which one more byte at offset 4 does not show. |
| Showing.TraverseShown | ltfs/src/iosched/unified.c:800-891 | Through every traversal that meets no two such requests, clean or not, the bytes placed so far show, and all bytes outside the write show as before. |
| Showing.AppendRunShown | ltfs/src/iosched/unified.c:771-796 | So they do through appending. |
| Showing.MergeFarLook | ltfs/src/iosched/unified.c:821-825 | Merging a request into an earlier one that is not its neighbour shows at no offset, as long as that one reaches as far as all between them. |
| Showing.CleanShows | ltfs/src/iosched/unified.c:821-836 | A clean write hides no byte. |
| Reading.AllServed | ltfs/src/iosched/unified.c:546-629 | Bytes taken from requests in list order, with the gaps filled from the store and with zeros, are the visible bytes, also if requests overlap. |
| Reading.TailServed | ltfs/src/iosched/unified.c:631-648 | The read behind the last request completes them, with the right count. |
| Reading.FirstWins | ltfs/src/iosched/unified.c:577-592 | Of overlapping requests the first in the list is the one that is read. |
| Reading.PastEof | ltfs/src/iosched/unified.c:605-625 | After one short read every later gap is beyond the end of the store. |
| Scheduler.DentryPriv.Write | ltfs/src/iosched/unified.c:675-917 | The invariant holds afterwards if and only if the write was clean for the list it met. The visible content is the old one with the bytes written at the offset, unless the write met two requests that hide its first byte; then the old byte shows there. In any case the list is the one that the traversal as a function gives, sorted and fit to be read, the size is the maximum, and counters are exact. |
| Scheduler.DentryPriv.PlaceBytes | ltfs/src/iosched/unified.c:761-891 | All bytes are placed; the list is disjoint if and only if the write was clean, and shows the write and nothing else changed unless it hides a byte. It is sorted in any case, and every byte that was waiting or was placed is in it. |
| Keeping.TraverseRunKept | ltfs/src/iosched/unified.c:800-891 | A traversal keeps the list sorted, and in it every byte that was waiting or was placed so far. |
| Keeping.AppendRunKept | ltfs/src/iosched/unified.c:771-796 | So does appending. |
| Scheduler.DentryPriv.Read | ltfs/src/iosched/unified.c:495-657 | From whatever list a write left, overlapping or not, with requests in flight or without, delivers just the wanted part of the first-wins view, and no byte more. |
| Scheduler.DentryPriv.Truncate | ltfs/src/iosched/unified.c:959-1048 | The visible content is resized, the placement is recomputed by the rule in the code, and the invariant holds. What was in flight is written to the DP first, then extents, alternate extents and requests are all cut at the length; leaving the IP drops just the IP requests and the alternate extents. |
| Scheduler.DentryPriv.Flush | ltfs/src/iosched/unified.c:1987-2064 | Invisible; what was in flight and then every DP and partial request of the list is written to the DP, in this order, and the extents lead there; afterwards only IP requests are on the list: for a file bound for the IP the old ones, merged one after the other into the one before, else none, and then the store is what writing the list in its order makes of it; and nothing is in flight, and the store alone holds the visible content, if and only if the list was not empty or nothing was in flight before. |
| Scheduler.DentryPriv.WriteAllOut | ltfs/src/iosched/unified.c:1987-2064 | The same order, to the DP, for a list that may overlap. |
| Reading.WriteNextReadable | ltfs/src/iosched/unified.c:1358-1372 | Writing out a request in flight is invisible under any list, overlapping or not. |
| Reading.WriteReadable | ltfs/src/iosched/unified.c:675-917 | A sorted list in which no byte went missing can be read, and its last byte is the end of the file. |
| View.NotYetWritten | ltfs/src/iosched/unified.c:2024-2025 | A file with an empty list whose content is not stored, since a request is in flight. |
| Scheduler.DentryPriv.ProcessDataQueue | ltfs/src/iosched/unified.c:1313-1356 | A background pass is invisible, and leaves no request in the states it was asked for, and no full one but for the IP. For a file bound for the IP just those requests are written to the DP, in list order, and stay for the IP, merged; else just those are taken off the list, in order, and the others and the store are as they were. |
| Scheduler.DentryPriv.WriteNext | ltfs/src/iosched/unified.c:1358-1372 | Each single write of the background writer puts the first request in flight on the DP, and is invisible, whatever happened to the file in between, unclean writes included. |
| Scheduler.DentryPriv.ProcessIndexQueue | ltfs/src/iosched/unified.c:1213-1261 | Invisible. Every byte of an IP request lies on the IP afterwards, behind everything settled before, and the alternate extents lead to it; for every other byte they lead where they led. The other requests and the store are as they were. |
| Scheduler.DentryPriv.UpdateDataPlacement | ltfs/src/iosched/unified.c:1102-1144 | Invisible, and the file goes to the IP just if it is small enough, matches and is not deleted; only if it leaves the IP do its IP requests and alternate extents go. |
| Scheduler.DentryPriv.UnsetWriteIp | ltfs/src/iosched/unified.c:2206-2236 | Just the IP requests and the alternate extents go, invisibly, with counters exact. |
| Scheduler.DentryPriv.PushAltExtentList | ltfs/src/iosched/unified.c:1564-1589 | The store's extents lead every byte that has an alternate extent to where the last such one has it, and every other byte where they led; its content is what it was, and the list is empty. |
| Scheduler.DentryPriv.Destroy | ltfs/src/iosched/unified.c:382-420 | After the final flush, IP pass and release, nothing waits and the store holds what the file showed. Every byte that waited lies on the tape behind all that was there, on the IP if the file is bound for it, else on the DP; every other byte lies where the alternate extents had it, or else the store. |
| Scheduler.DentryPriv.MergeRequests | ltfs/src/iosched/unified.c:1926-1978 | The list becomes the merged one, the answer says how much of the request went, and counters follow. |
| Scheduler.DentryPriv.UpdateRequest | ltfs/src/iosched/unified.c:1873-1910 | The request takes as many bytes as it has room for; filling it up promotes all partial requests up to it. |
| Scheduler.DentryPriv.InsertNewRequest | ltfs/src/iosched/unified.c:1795-1856 | A new request of at most one cache block, in the right state, and the file size kept up. |
| Scheduler.DentryPriv.Undisturbed | ltfs/src/iosched/unified.c:1263-1398 | What other files do to the tape and the counters disturbs neither a file's invariant nor what it shows. |
| Refinement.RunAll | ltfs/src/iosched/unified.c:495-1144 | Any run of writes, truncates, flushes, placement changes, background passes, single background writes and index writes over any number of files: each file shows what a flat array shows, up to the first write that is not clean. |
| Refinement.SameAsDirect | ltfs/src/iosched/fcfs.c:151-211 | The same requests to any number of files: up to the first write that is not clean, and if there is none, every store of the torn-down unified scheduler holds what the store of the first-come, first-served one holds for that file. |
| Refinement.DestroyAll | ltfs/src/iosched/unified.c:382-420 | Tearing down every file leaves nothing waiting anywhere, and each store holds what its file showed. |
| Refinement.RunDirect | ltfs/src/iosched/fcfs.c:173-211 | The direct scheduler, with any number of files over one tape, is the flat arrays themselves, and puts nothing on the IP. |
| Refinement.DirectStep | ltfs/src/iosched/fcfs.c:173-211 | One of its operations: a write puts its bytes on the DP, behind all that was there, and leaves every other byte where it was; a truncate cuts the extents; nothing else changes them. |
| Refinement.FlushAll | ltfs/src/iosched/unified.c:2074-2107 | No DP or partial request is left in any file, and every file's store alone holds what it shows. |
| Glob.MatchName | ltfs/src/libltfs/index_criteria.c:641-768 | Terminates, and accepts just the names of the recursive glob relation. |
| Glob.LastStarSuffices | ltfs/src/libltfs/index_criteria.c:818-848 | If an earlier asterisk could still succeed, so can the last one from where the matcher stands; so two places on the stack are enough. |
| Glob.ConsumeStar | ltfs/src/libltfs/index_criteria.c:680-689 | Meeting an asterisk, nothing but that asterisk decides the match. |
| Glob.PopStep | ltfs/src/libltfs/index_criteria.c:726-760 | A stuck position fails the match if the stack is empty, and otherwise the newest mark decides it. |
| Glob.MatchCriteria | ltfs/src/libltfs/index_criteria.c:546-597 | A name is eligible just if criteria with a size bound are set and, where patterns are given, one of them matches. |
| Directory.Index.PathLookup | ltfs/src/libltfs/fs.c:491-594 | Finds the dentry the path names or the right error; handle counts change by one on the result, one more on its parent if that is asked for, and not at all on failure. |
| Directory.Index.DirectoryLookup | ltfs/src/libltfs/fs.c:455-489 | The entry under a name, with one handle more on it. |
| Directory.Index.DentryPath | ltfs/src/libltfs/fs.c:375-453 | The printed path, looked up, gives the same dentry. |
| Directory.Index.IsPredecessor | ltfs/src/libltfs/fs.c:822-833 | Terminates, and answers whether the one is the other or above it. |
| Directory.Index.Create | ltfs/src/libltfs/ltfs_fsops.c:243-385 | Adds just the one path asked for if the directory is there, the name is short enough and nothing has that path; else it fails with the error that says which, and changes nothing, handles included. The result is a proper tree if and only if the parent is a directory and the name is not empty. |
| Directory.Index.Unlink | ltfs/src/libltfs/ltfs_fsops.c:387-523 | Takes away just the one path, which is then not found, if it is there, is not the root and has no entries; else it fails with the error that says which, and changes nothing. |
| Directory.Index.Rename | ltfs/src/libltfs/ltfs_fsops.c:525-818 | With a dentry under the old path and a directory and a short name for the new one, it succeeds if and only if the dentry is not above that directory and what has the new path, if anything, is the dentry itself or has no entries; each other case has its error, as far as paths and names can tell. It moves the dentry and all below it to the new path, drops the entry it replaces, changes no other path; where it fails it changes nothing; the result is a proper tree if and only if the new parent is a directory and the name is not empty. |
| Directory.Index.Do | ltfs/src/libltfs/ltfs_fsops.c:243-818 | One operation keeps a proper tree if and only if it does not succeed in putting an entry into a file or leaving it without a name; if it does, no order of the dentries makes a tree of it. |
| Directory.Index.Run | ltfs/src/libltfs/ltfs_fsops.c:243-818 | Any run of operations, failing ones among them, keeps a proper tree, up to the first one that succeeds in breaking it. |
| Directory.Index.Place | ltfs/src/libltfs/ltfs_fsops.c:347-358 | In a proper tree a directory has two links and one for each subdirectory, a file has one link and no entries, every dentry is listed by its parent under its own name, and none is above its own parent. |
| Directory.Index.SplitPath | ltfs/src/libltfs/fs.c:596-606 | Splits at the last slash. |
| Outcomes.RulingAnswers | ltfs/src/libltfs/ltfs_fsops.c:557-760 | What a rename finds out, directory by directory and entry by entry, says in terms of paths when it succeeds and which error it gives else: below itself, over a directory in use, a file over what it lies in, a missing path, or a name of more than 255 characters. |
| Outcomes.VacancyAnswers | ltfs/src/libltfs/ltfs_fsops.c:270-330 | The same for create. |
| Outcomes.RemovalAnswers | ltfs/src/libltfs/ltfs_fsops.c:405-440 | The same for unlink. |
| Outcomes.LookupFails | ltfs/src/libltfs/fs.c:491-594 | A lookup that fails says that there is no such dentry, or, only with a component of more than 255 characters in the path, that a name is too long. |
| Paths.LookupIsPath | ltfs/src/libltfs/fs.c:491-594 | A path names a dentry if and only if it is that dentry's path. |
| Paths.JoinedPath | ltfs/src/libltfs/fs.c:388-437 | The names collected from the dentry up to the root, joined with slashes, are its path. |
| Paths.CreatedPaths | ltfs/src/libltfs/ltfs_fsops.c:343-363 | After create, every old dentry has its old path, and the new one the path asked for. |
| Paths.UnlinkedPaths | ltfs/src/libltfs/ltfs_fsops.c:479-501 | After unlink, every other dentry has its old path. |
| Paths.RenamedPaths | ltfs/src/libltfs/ltfs_fsops.c:724-818 | After rename, paths below the moved dentry have the new path in place of the old one as prefix, and all others are unchanged. |
| Paths.RenamedOk | ltfs/src/libltfs/ltfs_fsops.c:687-818 | Rename gives a proper tree if and only if the new place is in a directory and has a name. |
| Tree.PathRoundTrip | ltfs/src/libltfs/fs.c:375-453 | Looking up the path of a dentry finds that dentry. |
| Tree.CreatedOk | ltfs/src/libltfs/ltfs_fsops.c:343-363 | Create gives a proper tree if and only if the new entry is in a directory and has a name. |
| Tree.UnlinkedOk | ltfs/src/libltfs/ltfs_fsops.c:479-501 | Unlinking a dentry without entries gives a proper tree. |
| Tree.AttachKeeps | ltfs/src/libltfs/ltfs_fsops.c:785-818 | Hanging a floating subtree below a directory outside it gives a proper tree, without cycles. |
| Tree.EntryInFile | ltfs/src/libltfs/ltfs_fsops.c:300-358 | A tree with a file in which create puts an entry. |
| Tree.NotAboveParent | ltfs/src/libltfs/fs.c:822-833 | No dentry is above its own parent, so climbing ends. |

## Left out

- Failing tape operations: protocol and scheduler are modelled for operations that succeed, and for a stop after any one of them. The return value of the nested DP index write (`ltfs.c:2203-2210`) is mostly ignored by the code, and write errors only clear requests; neither is modelled.
- Failing allocations, except those of the extent copy and the split, which the code recovers from; elsewhere cache blocks and list elements are always to be had.
- A write that waits for a free cache block gives up the file's lock and starts over (`write_start`); here the block is there at once.
- Locks: operations are atomic steps, except the background writer, which takes requests off the list in one step and writes them in later ones, with anything in between. Reading, truncating and flushing wait for it where the code waits for `io_lock`.
- Scheduler.DentryPriv.Truncate: waits for the background writer before it cuts the list rather than just before it cuts the store, and cuts the store before it decides on the placement; the steps that change places touch different data.
- Scheduler.DentryPriv.ProcessIndexQueue: runs only while the file has no requests in flight, as the code holds the scheduler's lock exclusively there.
- Membership in `ext_queue`, which truncate does not keep up, and the moment at which scheduler data of a closed file is freed; Destroy stands for the release on unmount.
- The first write sets up scheduler data (`DentryPriv` constructor); reads and truncates of files without it go straight to the store, which is what `RawFile.Dentry` is.
- RawFile.Dentry.Read: asks for offsets and sizes whose sum with the block size is below 2^64; and a failing read, after which the code keeps a cache position for an overwritten buffer, is not modelled.
- Volume.Volume.UpdateCoherency: the change reference grows with every write to the medium and does not wrap; which writes to cartridge memory succeed is given to a volume when it is made.
- Volume.Volume.CheckMedium: the ends of the blocks that the chosen index refers to (`_ltfs_last_ref`) and the extent check are parameters. Placing extra blocks in lost and found, which rewrites the tree, is not modelled, nor is a medium without any index on the data partition, which no stop leaves. What one read of an index finds is its last block; the search over file marks that leads there (`ltfs_seek_index`) is one step.
- Traversal by generation, rollback mounts, write-protected and write-once cartridges.
- Glob.MatchName: names are sequences of grapheme clusters, taken as given; case folding and cluster boundaries belong to the Unicode library.
- Directory.Index: one table of numbered dentries stands for pointers; a disposed dentry stays in it, marked deleted and without handles. Names are compared as they are, and a path has been normalized to start with a slash.
- Directory.Index.Rename: does not model `file_count`, which the code adjusts by testing the wrong dentry (`ltfs_fsops.c:763`), nor the path through the dentry cache.
- Timestamps and access-time dirtiness, `valid_blocks`, uids, extended attributes, symbolic links, encryption, option parsing, the drive's own error handling.
