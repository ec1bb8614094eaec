# Mbroker-TFS: a verified model

The repository holds a small file system, TécnicoFS, in two versions (`p1/fs` with hard
and symbolic links, `p2/fs` without), and a message broker, `p2/mbroker`, in which worker
threads store the messages of publishers in files ("boxes") and pass them on to
subscribers. Requests reach the workers through a bounded queue, `p2/producer-consumer`.
This project models the three and proves what holds in every state and every run, for any
number of inodes, blocks, handles, directory entries, boxes, workers and threads, and for
any block size and message length.

**TécnicoFS with links** (`Tfs*.dfy`, `TecnicoFs.dfy`, `SymlinkWalk.dfy`).
`TecnicoFs.Tfs` is the array program: inode table, bitmaps, blocks, a directory inside a
block, an open-file table, first-fit scans, the loop that follows links, and roll-back after a
failed creation. `TfsDisk.Fsck` is its consistency: a block is taken exactly when one live
inode with contents owns it; a file's link count is the number of entries that name it; a
link has one entry; names are unique and name live inodes; handles are on live files.
`TfsSpec` says what a user sees: names lead to node numbers, these to bytes or
link targets, handles to a node and an offset. It knows no tables, bitmaps, blocks or link
counts. Every call of the class keeps `Fsck` and does to the abstraction of the tables
exactly what `TfsSpec` says, with the same return value. `TfsAnswers` says of each call, name
by name and byte by byte, exactly when it succeeds, what it returns and that nothing else
changes; `TfsLaws` and `TfsRoundTrip` prove over `TfsSpec` what users rely on.

**The broker** (`Broker*.dfy`, `BoxTable.dfy`). `BrokerSystem` is a transition system:
each worker has a program counter with the source's line numbers (`SubPc`, `PubPc`,
`RemPc`), each box a mutex, a wait set, counters and a status; a remover holds the table
lock across steps; sleepers may wake spuriously. `SubStep`, `PubStep` and `RemStep` are
the steps of `handle_register_subscriber`, `handle_register_publisher` and `box_remove`;
`AddSub`, `AddPub`, `StartRemove` and `Create` are the sections under the table lock. File
calls are atomic, because `g_library_mutex` makes them so (`BrokerFs`); in every run they are
calls of a TécnicoFS without links (`BrokerSimulation`). `Ok` in `BrokerRuns` collects
the invariants that hold in every state of every run (`RunOk`), and `AmpleOk` those that need
at least as many handles as workers (`RunAmple`); the lemmas after them say what they mean.
`BrokerPipes` adds the named pipes of publishers to the system: FIFOs that clients make and
unlink, the read ends that sessions have open, the path at each box, and the codes of
removers that are in a FIFO and have not been read. `BrokerHearing` and `BrokerMissed` follow
such a code, and removal with it, to the end. `BoxTable` is the
table of boxes in memory, with its scans; what its methods do are steps of the transition
system.

**The queue** (`Queue*.dfy`, `PcQueue.dfy`). `QueueSystem` is a transition system at the
grain of the five locks, with the values stored and loaded so far as history. `PcQueue` is
the ring buffer in memory, one method for each locked section, each a step of the system.

`Counting` holds counting and sums over sequences.

What turned out not to hold unconditionally, with the exact condition or an example run:

- Truncating a file that another handle has advanced into leaves that handle beyond the
  end, and the subtraction at p1/fs/operations.c:301 would wrap: exactly then
  (`OpenStrandsIff`), and an import does it exactly when it leaves less than the handle has
  reached (`ImportStrandsIff`). Three calls on an empty file system do it
  (`StrandedExample`). In the broker it never happens (`HandlesInOrder`).
- The loop that follows links ends exactly when there is no cycle, and then within as many
  steps as the directory has entries (`StopsIffNoCycle`, `WalkBound`). One tfs_sym_link on
  an empty file system makes a path that tfs_open never returns from (`LoopingExample`).
- The source clears neither fs_data nor the names of a new directory's entries. The tables
  that tfs_init leaves are consistent exactly when every entry of the first block begins
  with a NUL (`TfsInit`). What a caller can see of it: add_dir_entry refuses a name that no
  file has, after tfs_init at once or after any further calls, exactly when an entry after
  the first spells a name of 1 to 39 bytes (`RefusesIff`).
- The queue is not FIFO at the grain of its locks: a load returns the next element exactly
  when stores are neither behind nor more than a round ahead (`LoadInOrderIff`). For any
  capacity and number of threads some run delivers out of order if and only if there are a
  slot and two threads (`DisorderIff`); both failures happen (`EarlyLoadHappens`,
  `LateLoadHappens`). It is FIFO when counting an element and moving it are one step
  (`SettledRunsAreFifo`).
- Given that the code a remover writes reaches its publisher, a removal can get stuck if and
  only if there are more workers than handles, at least one handle and at least one slot
  (`RemovalSticksIff`). For every such number of workers a run ends in a deadlock
  that only a spurious wakeup could end (`TooManyWorkers`); otherwise every removal can go
  on until its slot is free (`RemovalEnds`).
- A remover that looks up the path at its box is led to its publisher's FIFO if and only if
  the session has not closed its end, the client has left the FIFO where it was when the
  session opened it, and the path at the box is the session's: it has been copied, or an
  earlier session left the same one (`LookupFinds`). The shipped client unlinks its FIFO when
  its input ends (p2/publisher/pub.c:19-23). Led to no FIFO, the remover's write fails an
  assertion; led to one that nobody reads, its open waits with the table lock and the box's
  mutex until somebody does (`WaitsUntilRead`), and if the FIFO is unlinked, for ever
  (`WaitsForever`).
- Even a code that is written can miss the publisher: exactly if at the write the publisher may
  still read again, and either the code goes to another FIFO, with none left of an earlier
  removal in its own, or a session of another box that may still read has the same FIFO open,
  or the publisher is at the read of a message that the box's file has room for (`MissedIff`,
  with no more workers than handles). The first happens where the path at the box is still
  that of an earlier session (`CodeStrays`). The last comes of the shipped client, whose
  messages are one byte short (p2/publisher/pub.c:74-75), so that the 1024-byte read at
  p2/mbroker/mbroker.c:230 takes the code that follows for the message's last byte
  (`MessageTakesCode`). The publisher then waits for its client, and until the client writes
  or hangs up the remover gets no further and keeps the table lock (`DeafLasts`). If the code
  does not miss, no step of anybody can make removal stop before the slot is free
  (`HeardRemovalEnds`).
- With a slot and a handle, runs to where the write ends the process, and to where the open
  waits for ever, exist if and only if there is more than one worker; runs to where the code
  misses the publisher, if and only if there are more than two, or two and a message fits into
  a box (`PokeFailsIff`). These three are all that can stop a removal, with no more workers than
  handles (`PipedRemovalEnds`).
- The comment at p2/mbroker/mbroker.c:128-130 says that the last subscriber signals the
  manager; in fact every leaving subscriber signals, and this is what keeps a signal from
  being lost when publisher and subscribers wait on the same condition variable
  (`SignalNotLost`).
- The comment at p2/fs/operations.c:158 allows for a created file that could not be opened;
  with no more workers than handles this does not happen in the broker (`CreateTakesSlot`).

## Model

| member | source | states |
|---|---|---|
| TecnicoFs.Tfs.StateInit | p1/fs/state.c:103-146 | tables of the given sizes, everything free, blocks holding whatever memory was found |
| TecnicoFs.Tfs.TfsInit | p1/fs/operations.c:24-43 | fails exactly without an inode or a block for the root; otherwise the tables are consistent if and only if the first block spells no names, and then they show an empty file system |
| TecnicoFs.Tfs.InodeAlloc | p1/fs/state.c:193-210 | takes the first free inode, or changes nothing |
| TecnicoFs.Tfs.InodeCreateAux | p1/fs/state.c:213-227 | gives an inode a whole block, or without one gives the inode back |
| TecnicoFs.Tfs.InodeCreateFile | p1/fs/state.c:247-298 | the first free inode becomes an empty file with one link |
| TecnicoFs.Tfs.InodeCreateSymlink | p1/fs/state.c:247-298 | first free inode and block become a link; out of blocks, both tables are as before |
| TecnicoFs.Tfs.InodeCreateDirectory | p1/fs/state.c:247-298 | a directory with every entry free and the names its bytes spell; what every table is without an inode or without a block |
| TecnicoFs.Tfs.InodeDelete | p1/fs/state.c:307-326 | frees the inode, and its block if the size is positive |
| TecnicoFs.Tfs.FindInDir | p1/fs/state.c:499-530 | the scan returns what the entries in use, read as a map, say, whatever names free entries have |
| TfsDirProofs.LookupAgrees | p1/fs/state.c:499-530 | a lookup finds a name exactly when the directory, as a map, has it, with the same number |
| TecnicoFs.Tfs.AddDirEntry | p1/fs/state.c:443-484 | fills the first free entry, or refuses a bad length, a full directory, or a name that any other entry has, in use or not |
| TfsStaleNames.RefusesIff | p1/fs/state.c:464-472 | after tfs_init some calls lead to where a name is refused that no file has, if and only if an entry after the first spells a name of 1 to 39 bytes; that name is refused from the start |
| TfsStaleNames.StaleBefore | p1/fs/state.c:403-484 | no call makes a free entry spell a name |
| TecnicoFs.Tfs.ClearDirEntry | p1/fs/state.c:403-425 | frees the first entry of this name, in use or not, and no other |
| TecnicoFs.Tfs.DataBlockAlloc | p1/fs/state.c:540-556 | takes the first free block, or changes nothing |
| TecnicoFs.Tfs.AddToOpenFileTable | p1/fs/state.c:603-619 | takes the first free handle for this inode and offset, or changes nothing |
| TecnicoFs.Tfs.FileIsOpen | p1/fs/state.c:630-642 | true exactly when some handle is open on the node, as users see it |
| TecnicoFs.Tfs.GetSymlinkInumber | p1/fs/state.c:371-388 | one step of the abstract walk: the node the link's target names, or broken |
| TecnicoFs.Tfs.TfsLookup | p1/fs/operations.c:68-73 | the node a valid path names, or -1 |
| TecnicoFs.Tfs.FollowLinks | p1/fs/operations.c:94-103 | the loop computes where the walk along links stops, and that is a file or a broken link |
| TecnicoFs.Tfs.CreateFile | p1/fs/operations.c:117-145 | a new empty file under a new name; a failure part of the way leaves the old abstract state |
| TecnicoFs.Tfs.TfsOpen | p1/fs/operations.c:75-159 | keeps Fsck and refines TfsSpec.Open, in new state and return value |
| TecnicoFs.Tfs.TfsClose | p1/fs/operations.c:226-228 | keeps Fsck and refines TfsSpec.Close |
| TecnicoFs.Tfs.TfsSymLink | p1/fs/operations.c:164-189 | keeps Fsck and refines TfsSpec.SymLink; failures roll back to the same abstract state |
| TecnicoFs.Tfs.TfsLink | p1/fs/operations.c:194-224 | keeps Fsck and refines TfsSpec.HardLink; links to links are refused |
| TecnicoFs.Tfs.TfsUnlink | p1/fs/operations.c:324-370 | keeps Fsck and refines TfsSpec.Unlink; the node goes with its last name, an open file stays |
| TecnicoFs.Tfs.TfsWrite | p1/fs/operations.c:230-280 | keeps Fsck and refines TfsSpec.Write, cut at the block size |
| TecnicoFs.Tfs.TfsRead | p1/fs/operations.c:285-319 | keeps Fsck and refines TfsSpec.Read: the bytes of the file at the offset, which moves on |
| TecnicoFs.Tfs.TfsCopyFromExternal | p1/fs/operations.c:375-415 | the loop over chunks of 127 bytes refines one import: the destination gets the first min(length, block size) bytes; fails exactly if the source, the open or the block fails |
| TfsContentProofs.BlocksConserved | p1/fs/state.c:540-573 | taken blocks = 1 + links + non-empty files |
| TfsContentProofs.BlockAllocAgrees | p1/fs/state.c:540-556 | the allocator fails exactly when nodes in use need every block |
| TfsContentProofs.FsckConsistent | p1/fs/state.c:247-326 | consistent tables show a consistent name space: no dangling name, no unnamed node, one name a link, handles on files only |
| TfsContentProofs.InitialFsck | p1/fs/operations.c:24-43 | tables with a root directory whose free entries have no names are consistent and show nothing |
| TfsContentProofs.ImportStep | p1/fs/operations.c:394-409 | one chunk of the copy loop extends the copied prefix, and is cut short only at the end of the block |
| TfsDiskProofs.FileAddedRefines | p1/fs/operations.c:117-142 | a new inode with a new entry keeps Fsck and is one new file in the abstraction |
| TfsDiskProofs.LinkAddedRefines | p1/fs/operations.c:164-189 | the same for a link, with the target read back from its block |
| TfsDiskProofs.RelinkedRefines | p1/fs/operations.c:216-222 | changing an entry together with the link count keeps Fsck and changes names only |
| TfsDiskProofs.NodeDroppedRefines | p1/fs/operations.c:351-369 | dropping the last name frees the inode and its block, and nothing else |
| TfsContentProofs.WriteRefines | p1/fs/operations.c:247-276 | writing into an owned or a fresh block changes one file and one handle |
| TfsContentProofs.ReadRefines | p1/fs/operations.c:300-316 | what the block holds at the offset is what the file holds there |
| SymlinkWalk.WalkBound | p1/fs/operations.c:94-103 | the walk stops if and only if it stops within as many steps as there are directory entries |
| SymlinkWalk.StopsIffNoCycle | p1/fs/operations.c:94-103 | the walk stops if and only if it never returns to a link |
| SymlinkWalk.StoppedAtResolve | p1/fs/operations.c:94-103 | wherever it stops is the resolved node, a file or a broken link |
| SymlinkWalk.RankedStops | p1/fs/operations.c:94-103 | every walk of an acyclic link graph stops |
| SymlinkWalk.LongWalkCycles | p1/fs/operations.c:94-103 | a walk over more links than names has been round a cycle |
| TfsLaws.StepSound | p1/fs/operations.c:75-415 | every call that does not cut a file under an advanced handle keeps all offsets inside their files |
| TfsLaws.RunsStaySound | p1/fs/operations.c:75-415 | hence they are in every state of a run, and no handle is ever on a link or a deleted node |
| TfsLaws.OpenStrandsIff | p1/fs/operations.c:110-120 | an open leaves an offset beyond its file if and only if it truncates a file another handle has advanced into |
| TfsLaws.ImportStrandsIff | p1/fs/operations.c:375-415 | an import does if and only if some handle on the destination has advanced beyond what the import leaves |
| TfsLaws.StrandedExample | p1/fs/operations.c:301-304 | with room for one file, a create and a write lead from the empty file system to where a truncating open does |
| TfsLaws.LoopingExample | p1/fs/operations.c:94-103 | with room for one link, one successful tfs_sym_link leads from the empty file system to a path whose open never returns |
| TfsRoundTrip.ChunkedWrite | p1/fs/operations.c:230-280 | writing in any chunks is writing their concatenation, cut at the end of the block |
| TfsRoundTrip.ChunkedRead | p1/fs/operations.c:285-319 | reading in any chunks is reading once |
| TfsRoundTrip.RoundTrip | p1/fs/operations.c:230-319 | what is written in any chunks through one name reads back in any chunks through any other name of the file |
| TfsRoundTrip.HardLinkOpens | p1/fs/operations.c:194-224 | after tfs_link both names open the same file |
| TfsRoundTrip.SymLinkOpens | p1/fs/operations.c:164-189 | after tfs_sym_link to something that opens, both names open the same file |
| TfsRoundTrip.UnlinkKeepsOthers | p1/fs/operations.c:324-370 | removing a name leaves every other name and its contents |
| TfsRoundTrip.UnlinkFreesBlock | p1/fs/operations.c:351-365 | a block becomes free exactly when the last name of its owner goes |
| TfsAnswers.OpenThereAnswers | p1/fs/operations.c:86-154 | opening a path that leads to a file, in all eight modes: emptied if and only if truncated, the first free handle, at the end of the file if appending, created or not; -1 only if no handle is free, and then, too, a truncation stays |
| TfsAnswers.OpenNewAnswers | p1/fs/operations.c:126-154 | opening a path to no name: without TFS_O_CREAT, a new name of 1 to 39 bytes and a free inode -1 and nothing changes; otherwise an empty file, and a handle at 0 if one is free |
| TfsAnswers.OpenBrokenAnswers | p1/fs/operations.c:95-103 | opening a path whose links lead to no name: -1, and nothing changes |
| TfsAnswers.CloseAnswers | p1/fs/operations.c:226-228 | 0 if and only if the handle is open; it is gone, and no other |
| TfsAnswers.WriteAnswers | p1/fs/operations.c:230-280 | when a write fails, how many bytes it stores, and every byte of the file after it: the buffer's at the offset, the hole's beyond the old end, all others as they were |
| TfsAnswers.ReadAnswers | p1/fs/operations.c:285-319 | how many bytes a read returns and each of them; only this handle moves |
| TfsAnswers.SymLinkAnswers | p1/fs/operations.c:164-189 | 0 if and only if there are an inode, a block, a directory entry and a new name of 1 to 39 bytes, whether or not the target is there; otherwise nothing changes |
| TfsAnswers.HardLinkAnswers | p1/fs/operations.c:194-224 | 0 if and only if the target is a path to a file, not a link, and there are an entry and a new name, whatever the file holds and whoever has it open; otherwise nothing changes |
| TfsAnswers.UnlinkAnswers | p1/fs/operations.c:324-370 | 0 if and only if the path leads to a link or to a file that no handle is on; then exactly that name is gone, and its node if it was the last; otherwise nothing changes |
| TfsAnswers.UnlinkUndoesSymLink | p1/fs/operations.c:164-370 | unlinking a symbolic link that has just been made gives the old state back |
| TfsAnswers.UnlinkUndoesHardLink | p1/fs/operations.c:194-370 | unlinking a hard link that has just been made gives the old state back if and only if no handle is on the file |
| TfsAnswers.ImportThereAnswers | p1/fs/operations.c:375-417 | importing over a file: 0 if and only if there are a handle and, for a source with bytes, a block; then the file is the source up to the block size, otherwise it is empty, and nothing else changes |
| TfsAnswers.ImportNewAnswers | p1/fs/operations.c:375-417 | importing under a new name: the same for a new file, if it can be created |
| TfsAnswers.ImportNothingAnswers | p1/fs/operations.c:379-388 | without a source that can be read, or over a broken link: -1, and nothing changes |
| BrokerRuns.RunOk | p2/mbroker/mbroker.c:89-258 | every state of every run, with any number of workers, satisfies the invariants of locks, counters, files and delivery |
| BrokerRuns.RunAmple | p2/mbroker/mbroker.c:89-258 | with no more workers than handles, besides, no open has failed and no signal is lost |
| BrokerRuns.NextOk | p2/mbroker/mbroker.c:89-258 | every step keeps the first: of a session, of a remover, an entry, a spurious wakeup |
| BrokerRuns.NextAmple | p2/mbroker/mbroker.c:89-258 | and the second |
| BrokerRuns.CountersExact | p2/mbroker/data.c:60-106 | counters equal registered sessions, at most one publisher, box_amount equals taken slots, taken names differ, taken boxes are open when the table lock is free |
| BrokerRuns.HandlesInOrder | p2/fs/operations.c:186-284 | a session whose open succeeded has a handle of its own, on the box's file, inside it, at its end for a publisher; so no read or write fails for want of one, no subtraction wraps, and the status assertion of box_remove holds |
| BrokerRuns.OpensNeverFail | p2/mbroker/mbroker.c:102-108 | with no more workers than handles no session is where its open has failed |
| BrokerRuns.CreateTakesSlot | p2/mbroker/data.c:88-100 | with no more workers than handles box_create fails only for want of room for the file, never for want of a handle |
| BrokerRuns.SignalNotLost | p2/mbroker/data.c:130-171 | with no more workers than handles: remover asleep with no publisher left, a woken subscriber is on its way to its signal; asleep for subscribers, there are some |
| BrokerRuns.NoMissedMessage | p2/mbroker/mbroker.c:115-121 | a waiting subscriber has been sent the whole file, or a publisher is between write and broadcast |
| BrokerRuns.DeliveredInOrder | p2/mbroker/mbroker.c:110-144 | what was sent is a prefix of what was published, message by message, no gap, double or reordering; only the last piece may be cut, and then the block is full |
| BrokerRuns.SizeShown | p2/mbroker/mbroker.c:241-245 | with no message about to be announced, box_size is the size of the file, or short of a full block by less than a message |
| BrokerRuns.SafeRemoval | p2/mbroker/data.c:166-180 | a slot is freed only with no session at it and no handle on its file, which goes with it |
| BrokerRuns.SessionSameBox | p2/mbroker/mbroker.c:97-153 | from registration to exit a session's slot holds the same box, name and file, and its history only grows |
| BrokerRuns.RemovalBounded | p2/mbroker/data.c:120-180 | in any run without spurious wakeups, until a closed box's slot is free the steps of its workers are bounded, with any number of workers |
| BrokerRuns.RemovalEnds | p2/mbroker/data.c:120-180 | with no more workers than handles, besides, one of them can step, given that the remover's code reaches the publisher |
| BrokerRest.RestIsDelivery | p2/mbroker/mbroker.c:110-144 | when only clients could make something happen: publishers wait for a code, every subscriber sleeps and has been sent its box's whole file, a remover sleeps |
| BrokerRest.NobodyRemoves | p2/mbroker/data.c:120-180 | and with no more workers than handles no removal is under way |
| BrokerRest.DeliveryIsEventual | p2/mbroker/mbroker.c:110-246 | steps no client asks for are bounded from any reachable state; after the last one delivery is complete and, with no more workers than handles, every removal over |
| BrokerRest.MoveWork | p2/mbroker/mbroker.c:110-257 | each of them lowers a measure over all boxes and workers, even one that wakes or feeds everybody |
| BrokerControl.MoveControl | p2/mbroker/data.c:123-171 | mutexes, counters, status and the table lock stay in order under every step of a session or remover |
| BrokerControl.EnterControl | p2/mbroker/data.c:60-120 | and under every entry |
| BrokerFiles.HandlesSuffice | p2/fs/state.c:468-480 | while some worker has no handle and there are no more workers than handles, one is free |
| BrokerFiles.MoveFiles | p2/fs/operations.c:79-328 | names, files and handles stay in order under every step; no subtraction wraps and the status assertion holds |
| BrokerFiles.MoveOpened | p2/mbroker/mbroker.c:102-108 | with no more workers than handles no step's open fails |
| BrokerFiles.EnterFiles | p2/mbroker/data.c:60-106 | and under every entry, with creation |
| BrokerBaton.MoveBaton | p2/mbroker/mbroker.c:124-133 | every step passes the signal on or delivers it |
| BrokerBaton.MoveNews | p2/mbroker/mbroker.c:237-245 | every step keeps a broadcast due for whoever waits with something unread |
| BrokerDelivery.MoveDelivery | p2/mbroker/mbroker.c:199-246 | the file stays the published messages cut at the block size, and every subscriber's pieces stay those messages |
| BrokerDelivery.ReadPiece | p2/fs/operations.c:263-277 | a read that finds something returns exactly the next message, as far as it fits |
| BrokerDelivery.WritePiece | p2/fs/operations.c:204-236 | a write at the end stores what there is room for of the message |
| BrokerDelivery.DeliveredPrefix | p2/mbroker/mbroker.c:110-144 | pieces put together are a prefix of the published bytes |
| BrokerSize.MoveSize | p2/mbroker/mbroker.c:241-245 | announced size plus the message about to be announced is the bytes of the messages stored whole |
| BrokerRemoval.MoveLowers | p2/mbroker/data.c:130-180 | every step at a closed box lowers the measure |
| BrokerRemoval.OtherMoveKeeps | p2/mbroker/data.c:130-180 | steps at other boxes leave it alone |
| BrokerRemoval.WhoIsNext | p2/mbroker/data.c:130-171 | who can step: the mutex holder, the remover, the publisher, a subscriber with the baton, a subscriber left |
| BrokerRemoval.NeverStuck | p2/mbroker/data.c:130-171 | so somebody can step without a code from a client, given that the remover's code reaches the publisher |
| BrokerTooMany.RemovalSticksIff | p2/mbroker/mbroker.c:102-108 | some run leaves a removal stuck, or ends in a deadlock, if and only if there are more workers than handles, a handle and a slot |
| BrokerTooMany.TooManyWorkers | p2/mbroker/mbroker.c:102-108 | for every such number of workers, handles and slots, a run that ends in a deadlock of box_remove |
| BrokerTooMany.NeverStuckWithHandles | p2/mbroker/data.c:130-171 | otherwise no reachable state has a removal that is stuck |
| BrokerSessions.PublishesOnCode | p2/mbroker/mbroker.c:204-232 | in every state of every run a session reads, writes or announces a message only after a publish code |
| BrokerSessions.OnlyMessagesRead | p2/mbroker/mbroker.c:230-237 | in one step a box gets nothing, or the message that a session of its own has read, as it was read |
| BrokerSessions.MessagePublished | p2/mbroker/mbroker.c:230-240 | a session that has read a message holds it until it publishes it, once, or finds no block for it in an empty file and ends |
| BrokerSessions.SilentEnd | p2/mbroker/mbroker.c:204-258 | a client that hangs up, or sends another code, ends its session: it can leave as soon as nobody has the mutex, its handle is closed, and box and file are as they were |
| BrokerSessions.WakesExactly | p2/mbroker/mbroker.c:124-253 | whom each step of a session or remover wakes: all that sleep at the box, exactly one if there is any, or nobody |
| BrokerPipes.LookupFinds | p2/mbroker/data.c:133-137 | where the path at the box leads a remover, by what the session and its client have done since it opened its FIFO: to that FIFO if and only if the end is open, the FIFO still linked, and the path copied or left there before |
| BrokerPipes.NextPipes | p2/mbroker/mbroker.c:171-257 | every step of workers and clients keeps: an end is open exactly from registration to its close, a copied path stays at the box, a remover at its write holds the mutex of a closed box with a publisher |
| BrokerPipes.PipedRunOk | p2/mbroker/mbroker.c:171-257 | so it is in every run, and all that holds of the broker holds with its pipes |
| BrokerPipes.WaitsUntilRead | p2/mbroker/data.c:134 | while nobody reads the FIFO it was led to, the remover keeps the table lock, and the box stays |
| BrokerPipes.WaitsForever | p2/mbroker/data.c:134 | once that FIFO is unlinked with no reader, in every continuation |
| BrokerHearing.RemovalGoesOn | p2/mbroker/data.c:120-180 | with no more workers than handles, until the slot is free somebody can step without a client, unless the remover's write ends the process, its open waits, or the publisher reads a FIFO without a code |
| BrokerHearing.PipedRemovalBounded | p2/mbroker/data.c:120-180 | in any run with pipes and without spurious wakeups, until a closed box's slot is free the steps of its removal are bounded by the measure at its start, with the steps of the remover's write and the copying of the path |
| BrokerHearing.PipedRemovalEnds | p2/mbroker/data.c:120-180 | and after every such run one more is possible, or the write ends the process, the open waits, or the publisher reads without a code |
| BrokerHearing.NextHeard | p2/mbroker/mbroker.c:199-246 | once the code is sure to be heard it stays so until the slot is free, whatever sessions, clients and FIFOs do |
| BrokerHearing.HeardRemovalEnds | p2/mbroker/data.c:139-180 | from then on none of the three can happen, the steps that are left are bounded, and one of them is possible until the slot is free |
| BrokerHearing.DeafLasts | p2/mbroker/data.c:139-145 | a publisher that reads without a code: until its client writes or hangs up the remover stays at its wait, with the table lock, in every continuation |
| BrokerMissed.MissedIff | p2/mbroker/data.c:134-137 | seen from the write: the code can miss the publisher if and only if it may read again and the code goes elsewhere, with none left in its own FIFO, or another session may take it there, or it is at the read of a message that fits; and otherwise it is sure to be heard |
| BrokerMissed.CanBeDeafIff | p2/mbroker/mbroker.c:199-246 | the same seen right after the write: steps that leave the publisher without a code exist exactly if it is not sure to hear one |
| BrokerMissed.RivalDeaf | p2/mbroker/mbroker.c:199-246 | from any place where a session of another box may still read the same FIFO, steps of it take every code in it, whoever has its box's mutex |
| BrokerPipeRuns.PokeFailsIff | p2/mbroker/data.c:133-137 | with a slot and a handle, runs to where the write ends the process, and to where the open waits for ever, exist if and only if there is more than one worker; runs to where the code has missed the publisher, if and only if there are more than two, or two and a message fits into a box |
| BrokerPipeRuns.UnlinkedAborts | p2/publisher/pub.c:19-23 | the client unlinks its FIFO while its session reads codes, and the remover's write ends the process |
| BrokerPipeRuns.UnnamedAborts | p2/mbroker/mbroker.c:186-196 | the first publisher of a box has not copied its path, and the remover's write ends the process |
| BrokerPipeRuns.ShutBlocks | p2/mbroker/mbroker.c:247-253 | the session has closed its end and wants the mutex, and the remover's open waits; with the FIFO unlinked, for ever |
| BrokerPipeRuns.CodeStrays | p2/mbroker/data.c:134-136 | the path at the box is an earlier session's and leads to the FIFO of one that waits to register: the code goes there, and the publisher, with its own FIFO in place, waits for its client |
| BrokerPipeRuns.MessageTakesCode | p2/mbroker/mbroker.c:230 | the code is in the FIFO that only the publisher reads, and may still be read as a part of a message |
| BrokerPipeRuns.NamedReaches | p2/mbroker/data.c:133-137 | with the FIFO in place and the path copied, a run in which the code is heard |
| BrokerSimulation.RunSimulates | p2/fs/operations.c:79-328 | in every run whose room is what TfsSpec finds, the broker's files are the view of a sound file system without links, empty at first, and each step is at most two of its calls |
| BrokerFsView.OpenView | p2/fs/operations.c:79-161 | opening is TfsSpec.Open on a file system without links |
| BrokerFsView.CloseView | p2/fs/operations.c:163-184 | closing is TfsSpec.Close |
| BrokerFsView.MakeEmptyView | p2/fs/operations.c:99-151 | creating and emptying is, too, open or not |
| BrokerFsView.WriteView | p2/fs/operations.c:186-243 | writing a message at any offset in the block is TfsSpec.Write; beyond it the subtraction wraps |
| BrokerFsView.ReadView | p2/fs/operations.c:245-284 | reading is TfsSpec.Read; the subtraction wraps if and only if the offset is beyond the end |
| BrokerFsView.UnlinkView | p2/fs/operations.c:286-328 | unlinking removes the name and its file, and differs from TfsSpec.Unlink if and only if the file is open |
| BoxTable.BoxTable.constructor | p2/mbroker/data.c:20-37 | every slot free: an initial state of the broker, for any workers |
| BoxTable.BoxTable.FindBox | p2/mbroker/data.c:49-58 | the first taken slot of this name, or -1 exactly when there is none |
| BoxTable.BoxTable.AddSubscriber | p2/mbroker/data.c:257-269 | the AddSub step, or no such box |
| BoxTable.BoxTable.AddPublisher | p2/mbroker/data.c:238-255 | the AddPub step, or no such box, or one with a publisher |
| BoxTable.BoxTable.CreateBox | p2/mbroker/data.c:60-106 | the Create step at the first free slot, or -1 exactly if the name is there, -2 if no slot is free; -3 leaves the slot free |
| BoxTable.BoxTable.StartRemoval | p2/mbroker/data.c:113-120 | the StartRemove step at the box of this name, or no such box |
| BoxTable.BoxTable.FreeSlot | p2/mbroker/data.c:173-177 | the last step of a removal |
| BoxTable.BoxTable.GetAll | p2/mbroker/data.c:214-236 | with box_amount right, as many copies as there are taken slots, filling the array made for them, and the box of every taken slot at the place given by the number of taken slots before it |
| BoxTable.TakenAt | p2/mbroker/data.c:226-231 | where the box of a taken slot is in the list |
| BoxTable.TakenCount | p2/mbroker/data.c:226-234 | the list is as long as there are taken slots |
| PcQueue.PcQueue.constructor | p2/producer-consumer/producer-consumer.c:12-28 | an initial state, for any threads |
| PcQueue.PcQueue.CheckPush | p2/producer-consumer/producer-consumer.c:55-65 | the PushCheck step |
| PcQueue.PcQueue.StoreElement | p2/producer-consumer/producer-consumer.c:67-70 | the Store step; the accounts keep the index inside the buffer and the capacity positive |
| PcQueue.PcQueue.CheckPop | p2/producer-consumer/producer-consumer.c:86-95 | the PopCheck step |
| PcQueue.PcQueue.LoadElement | p2/producer-consumer/producer-consumer.c:97-100 | the Load step |
| QueueTickets.StepKeeps | p2/producer-consumer/producer-consumer.c:52-108 | every step keeps locks, counts and ring in order |
| QueueTickets.TicketAccounting | p2/producer-consumer/producer-consumer.c:64-71 | in every state of a run size = stores + reserved - loads - reserved, in 0..capacity; tail and head count stores and loads modulo the capacity; stores minus loads in -1..capacity+1 |
| QueueTickets.LoadReturns | p2/producer-consumer/producer-consumer.c:97-100 | what a load returns in each of the possible cases |
| QueueTickets.LoadInOrderIff | p2/producer-consumer/producer-consumer.c:97-100 | a load takes the element of the last ticket stored in its slot, and that is the next ticket if and only if stores minus loads is in 1..capacity |
| QueueWakeups.StepOwed | p2/producer-consumer/producer-consumer.c:54-75 | every step keeps: with a pusher waiting, free slots are at most the pops not yet signalled plus woken pushers; the same for poppers |
| QueueWakeups.WakeupsNeverLost | p2/producer-consumer/producer-consumer.c:54-105 | hence in every state of every run |
| QueueWakeups.AtRest | p2/producer-consumer/producer-consumer.c:56-92 | when nobody can go on, pushers sleep only on a full queue and poppers only on an empty one |
| QueueWakeups.WorkEnds | p2/producer-consumer/producer-consumer.c:52-108 | every step but a call or a spurious wakeup lowers a rank |
| QueueWakeups.WorkIsBounded | p2/producer-consumer/producer-consumer.c:52-108 | so threads come to rest within that many steps |
| QueueCalls.PushStoresItsElement | p2/producer-consumer/producer-consumer.c:52-77 | from the call of pcq_enqueue to its return the thread stores the element of the call, once, whatever the others do |
| QueueCalls.PopReturnsItsElement | p2/producer-consumer/producer-consumer.c:83-108 | from the call of pcq_dequeue to its return the thread loads one element, once, and returns it |
| QueueCalls.HistoryOfCalls | p2/producer-consumer/producer-consumer.c:67-100 | nothing else is stored or loaded |
| QueueFifo.SettledRunsAreFifo | p2/producer-consumer/producer-consumer.c:64-71 | with counting and moving as one step, loads are a prefix of stores in every state of every run |
| QueueDisorder.DisorderIff | p2/producer-consumer/producer-consumer.c:52-108 | for any capacity and number of threads, some run delivers out of order if and only if there are a slot and two threads |
| QueueDisorder.EarlyLoadHappens | p2/producer-consumer/producer-consumer.c:94-101 | for every such capacity and number, a run in which a popper returns what nobody has stored |
| QueueDisorder.LateLoadHappens | p2/producer-consumer/producer-consumer.c:64-71 | and a run in which the first element is overwritten and lost, and the popper returns the last |
| QueueFifo.LateLoadSkips | p2/producer-consumer/producer-consumer.c:64-71 | once stores are a round and one ahead, the next load, whenever it comes, takes the ticket of a round later and skips the element that is next in order |

## Left out

- TecnicoFs.Tfs.TfsOpen: requires that the walk along links stops; on a cycle of links the source loops forever.
- TecnicoFs.Tfs.TfsRead: requires the offset inside the file; beyond it line 301 wraps around (see `OpenStrandsIff` for exactly when).
- TecnicoFs.Tfs.TfsWrite: the sum of the length and the offset does not wrap around (line 248); bytes between the end of a file and an offset beyond it are whatever the block held.
- TecnicoFs.Tfs.TfsSymLink: requires a target of 1 to block-size minus 1 characters; line 179 does not check it.
- TecnicoFs.Tfs.StateInit: the -1 returns for tables that are there already or a malloc that fails are not modelled.
- BrokerRuns.RemovalEnds: the code that box_remove writes (p2/mbroker/data.c:133-137) is taken to reach the publisher; `PipedRemovalEnds` and `MissedIff` do without that.
- BrokerRemoval.NeverStuck: the same; besides, a message is taken to come with its code (p2/mbroker/mbroker.c:230), which `RemovalGoesOn` does without, and the write to a subscriber's pipe (line 141) to return. The assertion of write_pipe there (p2/utils/pipeutils.c:24) is not modelled.
- BrokerRemoval.WhoIsNext: the same.
- BrokerRest.NobodyRemoves: the same.
- BrokerRest.DeliveryIsEventual: the same.
- BrokerRuns.RunAmple: requires no more workers than handles (there are 16 handles; the number of workers is a command-line argument, p2/mbroker/mbroker.c:69, though the repository's README.md:6 says 10); without it, see `RemovalSticksIff`.
- BrokerRuns.RunOk: requires a positive message length, as MAX_MSG_LENGTH is.
- BrokerPipes.LookupFinds: only workers open FIFOs for reading, and a path leads to a FIFO or to nothing; a path that is copied while it is looked up is not modelled.
- BrokerHearing.RemovalGoesOn: the FIFO has room for one more byte, and the write to a subscriber's pipe returns. What clients write is not kept apart from the steps that read it: a read may find something of the client's at any time, and only codes of removers are counted.
- BrokerMissed.MissedIff: with no more workers than handles, so that no open fails.
- TfsContentProofs.InitialFsck: of a root block whose entries have no names; `TfsInit` says exactly when the source's is one.
- TecnicoFs.Tfs.ClearDirEntry: requires a name of less than 40 bytes, or no entry of 40 bytes without a NUL; strcmp would run on past such an entry.
- The locks of p1/fs: its calls are atomic here. They could not be proved deadlock-free: inode_create takes its own mutex again through inode_delete when there is no block for a link.
- A data block is either bytes or directory entries; the layout of an entry in bytes is not modelled, only its size of 44.
- The tables of p2/fs in memory: its scans are those of p1/fs, so the broker uses values, tied to `TfsSpec` by `BrokerFsView`. Which inode is taken, and whether there is room for a file or a block, is left open.
- The session loops, wait loops and locks of the broker and the queue as imperative code: several threads interleave, so they are transition systems over values; only sections that run under a lock are methods.
- box_add_pub, box_add_sub and box_create are one step each, under the table lock. A session that is refused does not change the state.
- The pipes of subscribers and managers, the server's pipe, wire formats and messages to managers; a message is any block of bytes of the fixed length, and the bytes that follow a piece in a response are not modelled. Of short reads only that a message can take removers' codes with it.
- The bytes that were read but not sent because the box was found closed (p2/mbroker/mbroker.c:117-133) count as not delivered.
- The list of p2/manager, whose insertion does not keep it sorted; client programs; box_kill, data_kill, state_destroy, pcq_destroy; delays, logging, failures of malloc and of pthread calls.
- Integer widths other than where named: counters and sizes are unbounded.
- Fairness: `RemovalEnds` and `DeliveryIsEventual` bound the steps that are left, and show that one is possible until the end; not that a scheduler takes it.
