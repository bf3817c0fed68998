# Verified model of the streaming engine's block scheduler

This project models the part of the streaming torrent engine that decides who fetches which block,
and proves that it keeps its books. The engine splits a torrent into 16 KiB blocks. Every peer
connection claims, steals, copies, cancels and delivers blocks through one shared table; web seeds
write blocks too; a hasher verifies full pieces; bounded storage may drop them again; readers and a
playback window decide what is wanted next.

## How it is put together

- `Types`, `Geometry`: blocks, pieces, bytes and the index arithmetic between them.
- `BlockTable`: the shared table of owners and second copies, as a class and as a value.
- `Protocol`: what each handler call does, as functions on values.
- `Swarm`: any number of connections, web seeds, hash workers and storage refreshes as a transition
  system. One event is one handler call; a storage write is two events, so anything may happen while
  it is under way.
- `Effects`: what each event does to single blocks, holds and pieces, said without the protocol's own
  functions; `LastWord`: what holds at the end of a run is what was said last.
- `Ownership`, `Lifecycle`, `Availability`, `Bounds`: what every run of that system keeps.
- `Handlers`: the handlers themselves as classes that update their fields step by step, each proved
  equal to its `Protocol` function, so the results about runs are about them.
- `Reservation`, `Notify`: two small protocols at the grain of single atomic reads and writes.
- `Wanted`, `Picker`: the shared scan of wanted pieces with its cache, and the four picking passes.
- `Counterexamples`: concrete runs in which the engine does less than one would expect.
- `Reader`: how far a reader may read.
- `SeekIndex`, `SampleTables`, `KeyframeOrder`: the MP4 sample-table walk, the tables as a muxer writes
  them, and the order in which keyframes are fetched.
- `PlaybackWindow`, `Coordinator`: the cache budget of the playback window and the merging of demands.
- `Lsd`: the BEP 14 announce printer and parser.

## What is assumed

- Each method of the block table is one atomic step. In the engine `clear` drops the owned bit just
  after it releases the row's lock.
- Live connections have distinct keys, and a connection has one handler at a time.
- A handler reads the clock once. Rates, ages and round trips are arbitrary: every time or speed test
  is a parameter, and the results hold whatever it answers.
- Sequentially consistent memory for the two atomic-grain protocols.
- The torrent's info is known from the start of a run, and the piece list has the length the info says.
- Storage refuses a write that leaves the piece it is addressed to.
- The torrent's own indexes fit 32 bits; `Geometry.NoTruncation` says for which torrents they do. Indexes a
  peer names in a block or reject message are not checked by the engine and wrap, here as there.

## Where the code and its words differ

- No piece is stranded only when delivered blocks are well addressed. A received block is marked under
  its request index, but the piece tested for completeness is the one the message names. An empty block
  that begins exactly one piece length in passes storage and marks the next piece's first block.
  `Counterexamples.EmptyBlockStrands` gives the run and `Lifecycle.MisaddressedExactly` the exact condition.
- When the hasher refuses a job a comment says the piece is requestable again. Its blocks stay dirty
  (`Counterexamples.RefusedJobStrands`), and the picker gains nothing in it
  (`Counterexamples.FullPieceGainsNothing`); `Lifecycle.StepExact` counts that as a stranded piece.
- Write reservations are exclusive exactly for blocks inside the bit sets: past them every caller wins
  (`Reservation.ExclusiveExactly`).
- A keyframe budget below zero by a whole fetch turns into a huge unsigned count and chooses every keyframe:
  `KeyframeOrder.PiecesForKeyframes` has the exact condition, `KeyframeOrder.Overrun` is an input, and the
  budget bound is for budgets that are not negative. The one caller found
  (`playback.rs` line 1540) passes a quarter of the stream cache limit, which has a positive minimum, or a
  positive constant.
- An idle peer may steal a block that a web seed has just delivered or is delivering: the stalled pass does
  not look. Such a steal is always refused, yet its holder loses the block (`Picker.PickedAreClaimed`, with
  a run in `Counterexamples.StealOfDeliveredBlock`).

## Model

| member | source | states |
|---|---|---|
| Geometry.RangesPartition | engine-rs/crates/wt-core/src/picker.rs:47-64 | A request index is in a piece's range if and only if it is below the torrent's last index and its piece is that piece: ranges are consecutive, disjoint and complete |
| Geometry.ConversionsInvert | engine-rs/crates/wt-core/src/picker.rs:12-45 | Index to coordinates and back is the identity; coordinates to index and back gives the piece and the start of the block, inside the piece's range |
| Geometry.FocusNamesTheBlock | engine-rs/crates/wt-core/src/torrent.rs:1181-1198 | A byte has a focus index exactly when it is in the torrent, and a block holds the byte if and only if it is that index: every byte is in exactly one block |
| Geometry.BlocksSumToTotal | engine-rs/crates/wt-core/src/picker.rs:12-34 | The blocks before a block hold exactly the bytes before its first byte, and all blocks together the total length, short last piece and odd piece lengths included |
| Geometry.NoTruncation | engine-rs/crates/wt-core/src/picker.rs:12-64 | No computation with an index or offset of the torrent leaves 32 bits when the piece length and the padded block count fit |
| Geometry.WireExact | engine-rs/crates/wt-core/src/picker.rs:36-45 | A block inside a piece of the torrent, its end included, is named by a message without wrapping |
| Geometry.CapacityCovers | engine-rs/crates/wt-core/src/torrent.rs:1161-1164 | The bit sets have a bit for every block of the torrent |
| BlockTables.BlockTable.BeginWrite | engine-rs/crates/wt-core/src/sched.rs:141-143 | Wins exactly when the writing bit was clear, and sets it; past the bit set's capacity everyone wins and nothing is recorded |
| BlockTables.BlockTable.EndWrite | engine-rs/crates/wt-core/src/sched.rs:145-147 | Clears only this writing bit |
| BlockTables.BlockTable.Owner | engine-rs/crates/wt-core/src/sched.rs:153-158 | The bit-guarded lookup gives the row's owner inside the bit sets and nobody past them |
| BlockTables.BlockTable.Claim | engine-rs/crates/wt-core/src/sched.rs:165-174 | Succeeds exactly when no other peer owns the block; then the peer owns it and nothing else changes; the owned bit stays exact inside the bit sets, past them it is dropped, and no row is left empty |
| BlockTables.BlockTable.Release | engine-rs/crates/wt-core/src/sched.rs:176-187 | Removes the owner only if it is this peer; an emptied row goes with it |
| BlockTables.BlockTable.ClearOwner | engine-rs/crates/wt-core/src/sched.rs:189-198 | Removes any owner, keeps the second copy, leaves no empty row |
| BlockTables.BlockTable.ClaimSecond | engine-rs/crates/wt-core/src/sched.rs:201-209 | Succeeds exactly when the block has no second copy |
| BlockTables.BlockTable.ClearSecond | engine-rs/crates/wt-core/src/sched.rs:211-219 | Removes any second copy, keeps the owner, leaves no empty row |
| BlockTables.BlockTable.ReleaseSecond | engine-rs/crates/wt-core/src/sched.rs:221-231 | Removes the second copy only if it is this peer's |
| BlockTables.BlockTable.Clear | engine-rs/crates/wt-core/src/sched.rs:234-237 | Nobody holds the block afterwards; nothing else changes |
| BlockTables.BlockTable.HeldBy | engine-rs/crates/wt-core/src/sched.rs:240-243 | True exactly when the abstract table names the peer as owner or second copy |
| BlockTables.BlockTable.ForgetPeer | engine-rs/crates/wt-core/src/sched.rs:246-259 | The loop over all rows, in any order, removes exactly this peer's holds |
| Ownership.EveryHolderAnswers | engine-rs/crates/wt-core/src/peer_conn.rs:744-944 | In every run of any number of peers, whoever the table names as holder of a block is live and has it outstanding or is writing it now, owner and second copy differ, and each connection's request sets are consistent (outstanding and cancelled disjoint, receive counts, cancel times, peak) |
| Ownership.StepKeeps | engine-rs/crates/wt-core/src/peer_conn.rs:1143-1355 | Every event of every peer, web seed, hasher and storage keeps the ownership invariant |
| Ownership.RefillKeeps | engine-rs/crates/wt-core/src/peer_conn.rs:851-944 | A refill keeps the books and leaves at most the larger of the old queue and the nominal limit outstanding |
| Ownership.RefillReconciles | engine-rs/crates/wt-core/src/peer_conn.rs:826-944 | After any refill the queue is exactly the set of blocks the table credits to the peer, none of them delivered |
| Ownership.ClaimKeeps | engine-rs/crates/wt-core/src/peer_conn.rs:883-931 | A claim takes a block from nobody but the holder a steal names, and giving it back after a failed send restores the table, except that a stolen block's holder has lost it |
| Ownership.ReconcileKeeps | engine-rs/crates/wt-core/src/peer_conn.rs:826-850 | The first half of a refill keeps the books; a request is outstanding afterwards if and only if it was before, the table credits it to this peer, it is not delivered and, after a seek, its piece is wanted at once; every hold stays except this peer's on the dropped requests |
| Ownership.CancelKeeps | engine-rs/crates/wt-core/src/peer_conn.rs:744-760 | Cancelling removes exactly this peer's holds on the cancelled blocks, also when another peer has stolen one meanwhile |
| Ownership.ExpireKeeps | engine-rs/crates/wt-core/src/peer_conn.rs:763-814 | Expiry keeps the books, including the queue peak that it lowers |
| Ownership.WrittenKeeps | engine-rs/crates/wt-core/src/peer_conn.rs:1314-1348 | Finishing a write, successful or not, leaves the writer answerable for nothing it no longer has |
| Ownership.RejectKeeps | engine-rs/crates/wt-core/src/peer_conn.rs:1733-1762 | A reject keeps the books, including the peak it lowers |
| Effects.ReconcileDrops | engine-rs/crates/wt-core/src/torrent_impls.rs:321-333 | A refill drops exactly the outstanding requests that others took or delivered and, after a seek, those not wanted at once, with this peer's holds on them and nobody else's; a peer that answers cancels is waited for |
| Effects.ChokeDrops | engine-rs/crates/wt-core/src/peer_conn.rs:1143-1160 | A choke drops exactly the requests outside the allowed-fast pieces |
| Effects.BitfieldDrops | engine-rs/crates/wt-core/src/peer_conn.rs:1184-1237 | A bitfield replaces what the peer has and drops exactly the requests in pieces it had and no longer claims |
| Effects.ExpireDrops | engine-rs/crates/wt-core/src/peer_conn.rs:763-814 | Expiry forgets exactly the old cancels; a request is dropped if and only if the peer was silent and its block has been owed for over 30 seconds, and the peak falls by as many |
| Effects.AcceptEffect | engine-rs/crates/wt-core/src/peer_conn.rs:1262-1305 | An awaited block settles its request and one answer; it is reserved if and only if its piece is open and nobody wrote or writes it, and otherwise costs this peer its claims |
| Effects.RejectEffect | engine-rs/crates/wt-core/src/peer_conn.rs:1733-1762 | A reject settles the request and one answer and takes this peer's holds on the block; the peak falls only for a live request |
| Effects.WrittenEffect | engine-rs/crates/wt-core/src/peer_conn.rs:1314-1348 | A stored block is received, begins its piece and is held by nobody; a failed one is only given back by its writer |
| Effects.QueueEffect | engine-rs/crates/wt-core/src/torrent_impls.rs:460-507 | A piece goes to the hasher exactly when all its blocks are there, it is neither verified nor under check, and the hasher takes it |
| Effects.HashedEffect | engine-rs/crates/wt-core/src/torrent.rs:643-681 | A verdict ends the check and makes the piece complete exactly when the hash was right; a failed piece has no received block left and is fetched again if wanted; every other piece keeps its entry and blocks |
| Effects.RefreshedEffect | engine-rs/crates/wt-core/src/lib.rs:500-571 | A refresh makes a piece complete exactly when storage says it is good and complete; its blocks are lost exactly when it was complete and is not, or when there was data that cannot be read |
| Effects.NobodyElseLoses | engine-rs/crates/wt-core/src/peer_conn.rs:883-931 | No event of any kind takes a hold from a peer other than its own, unless it is a steal that names the peer or the delivery of that very block |
| Effects.RefillDates | engine-rs/crates/wt-core/src/peer_conn.rs:883-931 | After a refill every owner is as before or is this peer as of now; each request it sent is awaited once more and no longer cancelled |
| Effects.RefillShape | engine-rs/crates/wt-core/src/peer_conn.rs:840-944 | A refill sets the limit, raises the peak to the new queue, and gives a peer with everything the pieces it lacks; nothing else of the connection but its requests changes |
| Effects.BatchEffect | engine-rs/crates/wt-core/src/webseed_download.rs:127-154 | A web seed reserves a block of an open piece that nobody wrote or writes, passes over any other, and ends its extent at the first failed write |
| Effects.ReqqEffect | engine-rs/crates/wt-core/src/peer_conn.rs:1460-1464 | A peer's own request limit counts up to what the protocol allows, and a limit of 0 is ignored |
| LastWord.CompleteExactly | engine-rs/crates/wt-core/src/torrent.rs:643-695 | In every run a piece is complete if and only if the last verdict or refresh of it said so, or there was none and it was complete from the start |
| LastWord.SaidExactly | engine-rs/crates/wt-core/src/peer_conn.rs:1143-1237 | In every run a peer has a piece, chokes, or allows a piece while choking, if and only if its last message about it says so |
| Lifecycle.StepExact | engine-rs/crates/wt-core/src/torrent_impls.rs:176-207 | From any good state an event leads to a good state (reservations exclusive, checked pieces full, queued with the hasher and without writers, full pieces verified, being checked or still in a web seed's hands) if and only if it does not leave a full piece unqueued |
| Lifecycle.NoPieceStranded | engine-rs/crates/wt-core/src/peer_conn.rs:1294-1348 | In every run of well-addressed blocks with a hasher that takes every job, across deliveries, web seeds, hash results and eviction, a full piece is complete, being checked or about to be, and a piece being checked is full, has a job at the hasher and no writer in it; a block with bytes is well addressed as soon as indexes fit 32 bits |
| Lifecycle.MisaddressedExactly | engine-rs/crates/wt-core/src/peer_conn.rs:1246-1247 | A block storage accepts is credited to a piece other than the one its message names if and only if it is empty, begins exactly one piece length in, and pieces are whole blocks; it is then the next piece's first block |
| Lifecycle.WrappedIsRefused | engine-rs/crates/wt-core/src/peer_conn.rs:1246-1247 | A block whose named index wrapped around 32 bits is never inside the piece it names, so its write fails |
| Counterexamples.EmptyBlockStrands | engine-rs/crates/wt-core/src/peer_conn.rs:1346-1348 | Without well-addressed blocks the promise fails: a peer that has the second piece and was asked for it as the picker may answers with an empty block, which fills that piece while the named first piece is tested, and the full piece is never queued |
| Counterexamples.RefusedJobStrands | engine-rs/crates/wt-core/src/torrent_impls.rs:493-505 | A run in which the hasher refuses the job: the piece stays full, unverified and unchecked |
| Counterexamples.FullPieceGainsNothing | engine-rs/crates/wt-core/src/torrent_impls.rs:493-505 | All the picker may list of a full piece are steals, and none of them is granted: the piece is not requestable again |
| Counterexamples.StealOfDeliveredBlock | engine-rs/crates/wt-core/src/sched.rs:675-705 | A run in which a web seed delivers a requested block and another peer then steals it as the picker may: the thief gets nothing, and the waiting peer is no longer its owner |
| Lifecycle.ProperNeverStrands | engine-rs/crates/wt-core/src/torrent_impls.rs:460-507 | A block with bytes (indexes fitting 32 bits), or one whose piece is the named one, never leaves a full piece unqueued while the hasher accepts |
| Lifecycle.ReservationStep | engine-rs/crates/wt-core/src/torrent_impls.rs:176-207 | Every event keeps each write reservation with exactly one writer and off the readable blocks |
| Lifecycle.VerdictStep | engine-rs/crates/wt-core/src/torrent.rs:643-695 | Hash results and storage refreshes keep checked pieces full and full pieces served |
| Lifecycle.JobsStep | engine-rs/crates/wt-core/src/torrent_impls.rs:460-507 | Every event keeps a hash job behind every piece marked as checking, also across eviction and re-queueing |
| Lifecycle.BatchEndStep | engine-rs/crates/wt-core/src/webseed_download.rs:127-154 | A web seed that finishes its extent leaves no full piece behind unless the hasher refuses it |
| Reservation.WrittenOncePerClearing | engine-rs/crates/wt-core/src/torrent_impls.rs:157-207 | With every flag read and write a separate step, in every interleaving a block has at most one reservation holder, a writer finds it not dirty, its writing bit is set exactly while it has a holder, and the storage writes of it that succeed between two clearings are at most one |
| Reservation.FreeIsTaken | engine-rs/crates/wt-core/src/torrent_impls.rs:176-198 | A block that is neither dirty nor held is there for the taking: an undisturbed thread gets to write it |
| Reservation.ExclusiveExactly | engine-rs/crates/wt-core/src/piece_state/chunk_bits.rs:45-49 | Exclusion over all runs holds if and only if the block is inside the bit sets; past them two threads both win |
| Reservation.StepKeeps | engine-rs/crates/wt-core/src/torrent_impls.rs:176-207 | One atomic step of any thread keeps the guard of a block: one holder, the writing bit set, not dirty while being written, one write per clearing |
| Notify.NoLostWakeup | engine-rs/crates/wt-core/src/torrent.rs:378-404 | In every interleaving of notifiers and waiters, a waiter asleep (or committed to sleeping) on a passed version has a notifier still to come; with no notifier left nobody sleeps on news; whoever returns has a published version, a later one than it waited for if and only if it did not time out |
| Notify.StepKeeps | engine-rs/crates/wt-core/src/torrent.rs:378-404 | Each atomic step keeps the lock, the waiter count and the pending-notifier invariant |
| Availability.AvailabilityConserved | engine-rs/crates/wt-core/src/peer_conn.rs:1170-1237 | In every run a piece's counter is the number of live non-have-all peers holding it, the have-all counter the number of live have-all peers, and their sum the number of peers that have the piece |
| Availability.AvailabilityIsWhatWasSaid | engine-rs/crates/wt-core/src/peer_conn.rs:1170-1237 | From the events alone: a piece's counter and the have-all counter add up to the number of peers whose last word about the piece was that they have it |
| Availability.BitfieldSettles | engine-rs/crates/wt-core/src/peer_conn.rs:1184-1214 | A replacement bitfield, also after have-all, changes each counter by exactly the change in what the peer announces |
| Availability.HaveAllSettles | engine-rs/crates/wt-core/src/peer_conn.rs:1716-1729 | Have-all moves the peer from the per-piece counters to the have-all counter, once |
| Availability.ClosedStep | engine-rs/crates/wt-core/src/peer_conn.rs:1797-1804 | Closing takes back exactly what the peer had announced |
| Handlers.TorrentInner.BeginChunkWrite | engine-rs/crates/wt-core/src/torrent_impls.rs:176-198 | Reserves exactly when the piece is open and the block neither dirty nor being written; past the bit sets nothing is recorded |
| Handlers.TorrentInner.FinishChunkWrite | engine-rs/crates/wt-core/src/torrent_impls.rs:200-207 | Ends the reservation; once written, a block inside the bit sets is dirty and its piece partial |
| Handlers.TorrentInner.PieceAllDirty | engine-rs/crates/wt-core/src/torrent_impls.rs:256-264 | The range scan finds exactly whether the piece has blocks and all are dirty |
| Handlers.TorrentInner.QueuePieceHash | engine-rs/crates/wt-core/src/torrent_impls.rs:460-507 | An open piece is marked as checking and queued once; a refused job leaves it as it was |
| Handlers.TorrentInner.ApplyHashResult | engine-rs/crates/wt-core/src/torrent.rs:643-681 | The new state is the verdict's function of the old one; Effects.HashedEffect says what that is piece by piece and LastWord.CompleteExactly what it comes to over runs |
| Handlers.TorrentInner.RefreshPieceCompletion | engine-rs/crates/wt-core/src/lib.rs:500-571 | The new state is the refresh's function of the old one, and no change is reported only if there is none; Effects.RefreshedEffect says what that is |
| Handlers.TorrentInner.NoteEach | engine-rs/crates/wt-core/src/torrent_impls.rs:266-270 | Adds the change to the counters of exactly the given pieces that exist |
| Handlers.TorrentInner.ClaimRequest | engine-rs/crates/wt-core/src/torrent_impls.rs:525-529 | Claims exactly when the block is neither delivered nor being written nor another peer's |
| Handlers.TorrentInner.ClaimHedge | engine-rs/crates/wt-core/src/torrent_impls.rs:569-571 | Takes a second copy exactly when the block is not delivered and has none |
| Handlers.PeerConnHandler.CancelOutstanding | engine-rs/crates/wt-core/src/peer_conn.rs:744-760 | One cancel equals the set-wise cancel of that block: nothing when it is not outstanding, a stolen block stays the thief's |
| Handlers.PeerConnHandler.CancelEach | engine-rs/crates/wt-core/src/peer_conn.rs:838 | Cancelling one by one in any order equals one set-wise cancel |
| Handlers.PeerConnHandler.HandleChoke | engine-rs/crates/wt-core/src/peer_conn.rs:1143-1160 | Cancels exactly the outstanding blocks outside the allowed-fast set |
| Handlers.PeerConnHandler.ExpireStaleRequests | engine-rs/crates/wt-core/src/peer_conn.rs:763-814 | Forgets old cancels, and only a silent peer loses its overdue requests and queue peak |
| Handlers.PeerConnHandler.SendRequest | engine-rs/crates/wt-core/src/peer_conn.rs:947-960 | A queued request raises the receive count and voids an earlier cancel; a refused one changes nothing |
| Handlers.PeerConnHandler.ClaimAndSend | engine-rs/crates/wt-core/src/peer_conn.rs:883-931 | The loop of claims, steals, copies and undone sends equals the fold over the picked list, stopping at the first refused send |
| Handlers.PeerConnHandler.UpdateRequests | engine-rs/crates/wt-core/src/peer_conn.rs:826-944 | A whole refill with any picked list equals its specification: what survives it is in Ownership.ReconcileKeeps, what it claims in Picker.RefillGets, its limit in Ownership.RefillKeeps; picks inside the bit sets leave every owned block inside them |
| Handlers.PeerConnHandler.HandleHave | engine-rs/crates/wt-core/src/peer_conn.rs:1170-1182 | A new announcement is counted once |
| Handlers.PeerConnHandler.HandleBitfield | engine-rs/crates/wt-core/src/peer_conn.rs:1184-1237 | Replaces the announced pieces, moves the counters and cancels requests for withdrawn pieces |
| Handlers.PeerConnHandler.HandleHaveAll | engine-rs/crates/wt-core/src/peer_conn.rs:1716-1729 | Counts the peer as have-all once, taking back its per-piece counts |
| Handlers.PeerConnHandler.ReceivePiece | engine-rs/crates/wt-core/src/peer_conn.rs:1246-1305 | An expected block, found by its named index modulo 2^32, leaves the request sets and is reserved or, as a duplicate, gives up its claims; an unexpected one changes nothing; past the bit sets the reservation leaves no trace |
| Handlers.PeerConnHandler.FinishPiece | engine-rs/crates/wt-core/src/peer_conn.rs:1315-1348 | Ends the write: a failure gives the block back, a success clears every holder and queues a full piece; past the bit sets no block is marked |
| Handlers.PeerConnHandler.HandleReject | engine-rs/crates/wt-core/src/peer_conn.rs:1733-1762 | Drops the request at the named index modulo 2^32 and this peer's holds, and lowers the peak only for a live request |
| Handlers.PeerConnHandler.OnClosed | engine-rs/crates/wt-core/src/peer_conn.rs:1789-1813 | Takes back the announcements and every hold of the peer |
| Handlers.PeerConnHandler.NominalMax | engine-rs/crates/wt-core/src/peer_conn.rs:354-365 | The largest queue that respects every limit: at least one request, at most double the peak, and within the peer's, the protocol's and the pipeline's limit |
| Handlers.SelectPieces | engine-rs/crates/wt-core/src/peer_conn.rs:1193-1198 | Exactly the set bits, cut at the piece count once it is known |
| Wanted.Scan | engine-rs/crates/wt-core/src/torrent.rs:333-363 | One pass lists exactly the requestable pieces, each once, sorted by priority, then background rank, then index, with exact counts of wanted, incomplete and checking pieces |
| Wanted.FetchOrder | engine-rs/crates/wt-core/src/torrent.rs:192-198 | What the order is: sooner wanted first; among background pieces begun ones first, then those at fewer than three peers, rarest first; else by position |
| Wanted.CountIsSize | engine-rs/crates/wt-core/src/torrent.rs:338-343 | The counts of a scan are the numbers of pieces counted |
| Wanted.InsertOrders | engine-rs/crates/wt-core/src/torrent.rs:348-352 | The stable place keeps the order with the index as last tie-break |
| Wanted.PieceTable.PiecesMut | engine-rs/crates/wt-core/src/torrent.rs:315-319 | Taking the write lock outdates every cached scan before anything is written |
| Wanted.PieceTable.WantedNow | engine-rs/crates/wt-core/src/torrent.rs:323-365 | Whatever is returned, cached or new, agrees with a fresh scan of the current pieces; a cached scan that is too old is not used, so its availability figures are current |
| Wanted.PieceTable.AnyWantedIncomplete | engine-rs/crates/wt-core/src/torrent_impls.rs:209-211 | The cached answer equals the plain definition over all pieces (the default in peer_conn.rs lines 137-141) |
| Picker.PlayheadTake | engine-rs/crates/wt-core/src/sched.rs:485-524 | Whatever the measurements say, an eligible undelivered block is taken free only if nobody holds it, from its current owner, or as a copy of another peer's |
| Picker.PlayheadMeans | engine-rs/crates/wt-core/src/sched.rs:485-524 | Rule by rule when a block is asked for, taken over, copied because it is late, or copied near a fresh seek, and that nothing else is taken |
| Picker.EligibleMeans | engine-rs/crates/wt-core/src/sched.rs:467-484 | A block is eligible if and only if its piece is wanted, unverified, unchecked and at this peer, which may be asked for it and has neither requested nor cancelled it |
| Picker.PickPlayhead | engine-rs/crates/wt-core/src/sched.rs:449-526 | At most the wanted number, no block twice, all inside the window and proper, in order; every block of the window the pass has a use for is in it, or the list is full of earlier ones; interest only for a wanted piece the peer has |
| Picker.PickFromPiece | engine-rs/crates/wt-core/src/sched.rs:585-600 | Exactly the free eligible blocks of one piece outside the window between the old and the new cursor, which stops short of the piece's end only when the list is full |
| Picker.SharedQueue.PickQueue | engine-rs/crates/wt-core/src/sched.rs:528-605 | Proper list with no block twice across both passes; interest exact despite early stops; what is handed out lies between each piece's old and new cursor, the cursors pass over no block the peer could have had, and they start over only on the first call, after a seek, on a changed piece count or an old rewind; the open count grows by exactly the untouched pieces started, and unless the peer is starving those not wanted at once are at most what the limit leaves; entries come in fetch order, and a free block ahead of its cursor is left out only if the list is full of nothing later, the open limit stops its piece, or it is in one of at most ten pieces a slow peer leaves to faster ones |
| Picker.RecountIs | engine-rs/crates/wt-core/src/sched.rs:548-555 | The recounted open pieces are exactly those under check and those wanted that are begun on disk or by the cursors |
| Picker.SharedQueue.Rewind | engine-rs/crates/wt-core/src/sched.rs:407-409 | A seek makes the next refill start over |
| Picker.NothingTwice | engine-rs/crates/wt-core/src/sched.rs:528-605 | Over any sequence of refills by any peers without a rewind no block is handed out twice |
| Picker.PickEndgame | engine-rs/crates/wt-core/src/sched.rs:636-673 | Proper list; every eligible free block is in it unless it is full; it holds only free blocks unless no eligible block is free, and then a copy of every block others hold unless it is full; interest exact |
| Picker.PickStalled | engine-rs/crates/wt-core/src/sched.rs:675-705 | Takes blocks only from current owners other than this peer, at most the wanted number, and all such blocks of the first 256 candidates unless the list is full |
| Picker.PickBlocks | engine-rs/crates/wt-core/src/sched.rs:415-442 | All passes together: at most the wanted number, no block twice, every entry in a wanted piece the peer has and may be asked for, neither outstanding nor cancelled, true of the table; interested if and only if the peer has a wanted, incomplete, unchecked piece. With a playhead and not just saving, the 128 blocks ahead of it come first and every one the playhead pass has a use for is listed unless the list is full of earlier ones; outside them the queue's laws hold with the open limit of the mode; with no playhead and at most 16 MiB wanted the endgame's laws hold instead; an empty list for an unchoked, moving peer means no stuck block is left in the first 256 candidates; after a seek a peer short of work gets work whenever there is a block it could fetch |
| Picker.FindsWork | engine-rs/crates/wt-core/src/sched.rs:415-442 | From the state alone: if some block is wanted, missing, held by nobody, at the peer and open to it, and need not be left to a quicker one, then after a seek a starving peer's list is not empty |
| Picker.FirstDecides | engine-rs/crates/wt-core/src/sched.rs:423-424 | The torrent is only being saved exactly when nothing wanted for playback soon is left to fetch |
| Picker.ReachableIsSound | engine-rs/crates/wt-core/src/peer_conn.rs:829-877 | In every reachable state, whatever its reconciling cancels are, a refill gives the picker what it relies on, with any current scan: the table after the cancels credits the connection only with its outstanding blocks |
| Picker.PickedAreClaimed | engine-rs/crates/wt-core/src/peer_conn.rs:883-931 | Exactly what claiming any proper list does while every request is sent: a free block is gained; a steal is gained if and only if the block is neither delivered nor being delivered, and otherwise still costs its holder the block; a copy is gained if and only if the block is not delivered, has no second copy and an eager one is paid for; no other block changes hands and earlier claims never spoil later ones |
| Picker.RefillGets | engine-rs/crates/wt-core/src/peer_conn.rs:829-931 | In every reachable state a whole refill with a list the picker may return there, all sent, gives every attempt exactly that outcome and touches no other block; a request from before is still outstanding, and held by this peer, if and only if it survives the reconciling cancels |
| Picker.FrontIsTried | engine-rs/crates/wt-core/src/peer_conn.rs:863-877 | Of a longer list a refill tries exactly as many entries, from the front, as the limit has room for |
| Picker.StopsAtFailedSend | engine-rs/crates/wt-core/src/peer_conn.rs:908-917 | A claimed request that cannot be sent ends the refill: earlier claims stand, this one is given back, later entries are not tried |
| Picker.PickedIsSensible | engine-rs/crates/wt-core/src/sched.rs:415-442 | A refill with a proper list asks only for blocks of the torrent |
| Bounds.EveryIndexHasItsBits | engine-rs/crates/wt-core/src/torrent.rs:1161-1164 | In every run of such refills every block anybody owns, copies, requested, cancelled, expects or writes is inside the bit sets |
| Bounds.StepKeeps | engine-rs/crates/wt-core/src/peer_conn.rs:826-944 | Every event keeps all indexes below the torrent's last block |
| Reader.Have | engine-rs/crates/wt-core/src/torrent_impls.rs:853-903 | The length of the longest run of readable bytes from the offset, capped at a non-negative length: every byte in it is readable and it stops only at the cap or an unreadable byte; a negative length comes back unchanged, no info gives 0 |
| Reader.SameBlock | engine-rs/crates/wt-core/src/torrent_impls.rs:869-895 | All bytes of one step share the piece and the request index |
| SeekIndex.StblKeyframes | engine-rs/crates/wt-engine/src/seek_index.rs:187-238 | Well-formed tables give every sync sample's offset in order, each its chunk's offset plus the sizes of the earlier samples of that chunk; on any tables a result is exactly the offsets of the longest increasing run of sync samples, and only truncated or missing tables give none |
| SeekIndex.WalkTables | engine-rs/crates/wt-engine/src/seek_index.rs:199-237 | The one-pass walk over chunks and samples answers for the decoded track, truncated tables included |
| SeekIndex.WalkChunk | engine-rs/crates/wt-engine/src/seek_index.rs:219-235 | Within a chunk each sync sample met is put at the chunk's offset plus the sizes of the earlier samples of that chunk |
| SeekIndex.FoundOnce | engine-rs/crates/wt-engine/src/seek_index.rs:187-238 | The answer is unique: no other list of offsets fits the tables |
| SeekIndex.LastRunStarting | engine-rs/crates/wt-engine/src/seek_index.rs:213-218 | With runs in order, a chunk's samples come from the last run that starts at or before it (section 8.7.4 of ISO/IEC 14496-12) |
| SeekIndex.RunResumes | engine-rs/crates/wt-engine/src/seek_index.rs:211-217 | Keeping the run cursor from chunk to chunk finds the same run as starting over |
| SampleTables.Be32Back | engine-rs/crates/wt-engine/src/seek_index.rs:88-90 | Reading the four base-256 digits of any 32-bit number, most significant first, gives the number |
| SampleTables.Be64Back | engine-rs/crates/wt-engine/src/seek_index.rs:92-94 | The same for eight digits |
| SampleTables.DecodeEncode | engine-rs/crates/wt-engine/src/seek_index.rs:187-238 | The tables a muxer writes for any track, with any grouping into runs, one or many sample sizes, and chunk offsets of 32 or 64 bits, decode to that track and are whole |
| SampleTables.KeyframesBack | engine-rs/crates/wt-engine/src/seek_index.rs:187-238 | Reading those tables gives the file offset of every sync sample of the track, in order |
| KeyframeOrder.EachIndexOnce | engine-rs/crates/wt-engine/src/seek_index.rs:35-40 | The coarse-to-fine order lists every index below n exactly once |
| KeyframeOrder.PrefixIsEven | engine-rs/crates/wt-engine/src/seek_index.rs:34-40 | Before the cut at n the first 2^k values are exactly the multiples of 2^(bits - k) |
| KeyframeOrder.CoarserFirst | engine-rs/crates/wt-engine/src/seek_index.rs:34-40 | In the order for n indexes, at every step width 2^(bits - k), no multiple stands behind an index that is none |
| KeyframeOrder.ShiftedReverse | engine-rs/crates/wt-engine/src/seek_index.rs:38 | Reversing a whole word and shifting down equals reversing the low bits, for any word size |
| KeyframeOrder.ReverseTwice | engine-rs/crates/wt-engine/src/seek_index.rs:38 | Bit reversal undoes itself |
| KeyframeOrder.PiecesForKeyframes | engine-rs/crates/wt-engine/src/seek_index.rs:44-75 | Distinct pieces of the file, all from chosen keyframes and all of those unless the budget ran out, together at most a non-negative byte budget, grown keyframe by keyframe in the coarse-to-fine order; a negative budget returns nothing if and only if it is less than one fetch (or one longer piece) below zero or no keyframe touches the file |
| KeyframeOrder.EvenlyChosen | engine-rs/crates/wt-engine/src/seek_index.rs:64-65 | The keyframe for a point is the one that fraction of the way into the list |
| KeyframeOrder.FetchesMeans | engine-rs/crates/wt-engine/src/seek_index.rs:66-72 | A piece of the file is fetched exactly when it shares a byte with the half MiB at the keyframe |
| KeyframeOrder.BudgetBuys | engine-rs/crates/wt-engine/src/seek_index.rs:55-61 | A budget that is not negative buys as many keyframes, at half a MiB or a longer piece each, and as many pieces as fit in it |
| KeyframeOrder.NoBudgetExactly | engine-rs/crates/wt-engine/src/seek_index.rs:55-59 | Without a budget no keyframe is chosen if and only if the budget is less than one fetch (or one longer piece) below zero; from there on the count wraps around and every keyframe is |
| KeyframeOrder.Overrun | engine-rs/crates/wt-engine/src/seek_index.rs:55-75 | One keyframe and a budget of minus one fetch: its piece is returned although the budget allows nothing |
| KeyframeOrder.OverrunInput | engine-rs/crates/wt-engine/src/seek_index.rs:55-60 | On that input one keyframe is chosen, its piece belongs to the file and there is room for it |
| PlaybackWindow.BudgetWindow | engine-rs/crates/wt-engine/src/playback.rs:1336-1407 | Spans adjacent from the playhead piece, inside the file, urgent never empty, as large as the allowance, the reach and the file let them be and with no piece the reach does not need, or in the shares of a window that looks further ahead; window pieces times readers plus keyframes fit the cache if and only if one piece per reader does; no budgeted window exactly when less than a piece is left |
| PlaybackWindow.AllowanceMeans | engine-rs/crates/wt-engine/src/playback.rs:1376-1380 | The allowance is one piece, or the most pieces such that as many for every reader leave a twentieth of the budget or a piece in reserve |
| PlaybackWindow.FitsExactly | engine-rs/crates/wt-engine/src/playback.rs:1376-1380 | A window within the allowance fits exactly when one piece per reader fits |
| PlaybackWindow.PlayInFile | engine-rs/crates/wt-engine/src/playback.rs:1210-1215 | The clamped offset's piece is one of the file's pieces |
| PlaybackWindow.FilePieces | engine-rs/crates/wt-policy/src/piece_span.rs:85-97 | A file's pieces run from the one of its first byte to the one of its last |
| PlaybackWindow.KeyframesLeaveRoom | engine-rs/crates/wt-engine/src/playback.rs:1343-1345 | With keyframes in at most a quarter of the cache, readers that fit in the other three quarters meet that condition |
| Coordinator.Merge | engine-rs/crates/wt-engine/src/playback.rs:449-481 | The merged demand holds exactly the pieces somebody asks for, each at the capped highest priority anyone asks |
| Coordinator.Raise | engine-rs/crates/wt-engine/src/playback.rs:451-458 | Raising by a demand in any order is the pointwise maximum |
| Coordinator.MergedOnce | engine-rs/crates/wt-engine/src/playback.rs:449-481 | The merged demand is determined by the demands: no visiting order changes it |
| Coordinator.AlwaysMerged | engine-rs/crates/wt-engine/src/playback.rs:326-481 | After every operation of every run the published demand is exact, also after a focus call that returns early |
| Coordinator.OwnersExactly | engine-rs/crates/wt-engine/src/playback.rs:410-431 | From the operations alone: a session has a demand if and only if it was updated and not removed since, and it is the one of its latest update |
| Coordinator.HintsExactly | engine-rs/crates/wt-engine/src/playback.rs:339-343 | The hints are the last ones set, or none |
| Coordinator.FocusExactly | engine-rs/crates/wt-engine/src/playback.rs:326-333 | The focus is the last one set, or none, also when an equal one was skipped |
| Coordinator.PreviewExactly | engine-rs/crates/wt-engine/src/playback.rs:345-349 | The preview demand is the last one set, or none |
| Coordinator.ResumeExactly | engine-rs/crates/wt-engine/src/playback.rs:356-382 | The resume demand is the one of a hold after which there was no hold, no prepare and no expiry of its own generation, or none |
| Coordinator.PositionsExactly | engine-rs/crates/wt-engine/src/playback.rs:352-362 | A file's resume position is that of its latest prepare, or without one the first remembered |
| Coordinator.PublishedExactly | engine-rs/crates/wt-engine/src/playback.rs:326-481 | From the operations alone: a piece is published if and only if one of exactly those demands asks for it, at the highest priority any of them asks, capped while two sessions ask and while a preview is wanted |
| Coordinator.ExpiryMatchesItsHold | engine-rs/crates/wt-engine/src/playback.rs:356-382 | Over any run, a resume timer changes nothing at all if a later hold or prepare replaced its own, and ends the hold if none did |
| Coordinator.PlaybackCoordinator.SetFocus | engine-rs/crates/wt-engine/src/playback.rs:326-333 | Unchanged focus changes nothing; a new one is merged |
| Coordinator.PlaybackCoordinator.SetHints | engine-rs/crates/wt-engine/src/playback.rs:339-343 | New hints are merged |
| Coordinator.PlaybackCoordinator.SetPreview | engine-rs/crates/wt-engine/src/playback.rs:345-349 | New preview demand is merged, with the preview cap |
| Coordinator.PlaybackCoordinator.RememberResume | engine-rs/crates/wt-engine/src/playback.rs:352-354 | Keeps the first remembered position and merges nothing |
| Coordinator.PlaybackCoordinator.PrepareResume | engine-rs/crates/wt-engine/src/playback.rs:356-362 | Ends any hold, starts a new generation and merges |
| Coordinator.PlaybackCoordinator.HoldResume | engine-rs/crates/wt-engine/src/playback.rs:364-370 | Starts a new generation with this demand and returns it |
| Coordinator.PlaybackCoordinator.ExpireResume | engine-rs/crates/wt-engine/src/playback.rs:376-382 | Ends the hold of exactly this generation, otherwise returns nothing and changes nothing |
| Coordinator.PlaybackCoordinator.Update | engine-rs/crates/wt-engine/src/playback.rs:410-420 | Replaces one session's demand, keeps every other, and merges; over runs this is Coordinator.OwnersExactly and Coordinator.PublishedExactly |
| Coordinator.PlaybackCoordinator.Remove | engine-rs/crates/wt-engine/src/playback.rs:422-431 | Removes one session's demand and merges |
| Lsd.RoundTrip | engine-rs/crates/wt-discovery/src/lsd.rs:31-76 | For every non-zero port and list of 40-digit hex hashes, parsing the printed announce gives back port, cookie and decoded hashes if and only if the cookie has no line break and no surrounding blanks |
| Lsd.BytesBack | engine-rs/crates/wt-discovery/src/lsd.rs:31-76 | The same for hashes as bytes: printed in hex of either case they come back as they were |
| Lsd.HashBack | engine-rs/crates/wt-discovery/src/lsd.rs:68-73 | Twenty bytes in hex, higher digit first, decode to themselves |
| Lsd.HashExactly | engine-rs/crates/wt-discovery/src/lsd.rs:68-73 | A value is taken as a hash if and only if it is the hex of one in whatever case, and that is what it decodes to |
| Lsd.HeadDecides | engine-rs/crates/wt-discovery/src/lsd.rs:54-57 | Nothing that starts in any other way is an announce |
| Lsd.MessageText | engine-rs/crates/wt-discovery/src/lsd.rs:31-42 | A printed announce letter by letter |
| Lsd.LastPort | engine-rs/crates/wt-discovery/src/lsd.rs:61-65 | The last port line decides, and makes the announce useless if it is no port or port 0 |
| Lsd.LastCookie | engine-rs/crates/wt-discovery/src/lsd.rs:66-67 | The last cookie line decides |
| Lsd.AllHashes | engine-rs/crates/wt-discovery/src/lsd.rs:68-73 | The hash lines add up in order, and lines that are no hash are passed over |
| Lsd.PrintAnnounce | engine-rs/crates/wt-discovery/src/lsd.rs:31-42 | The loop prints exactly the message's lines |
| Lsd.ParseAnnounce | engine-rs/crates/wt-discovery/src/lsd.rs:52-76 | The line loop equals the fold over lines, whose fields Lsd.LastPort, Lsd.LastCookie and Lsd.AllHashes describe; the first line is checked, and no port means no result |
| Lsd.SplitLines | engine-rs/crates/wt-discovery/src/lsd.rs:54 | Splitting at line breaks gives back the joined lines |
| Lsd.CookieClean | engine-rs/crates/wt-discovery/src/lsd.rs:62-67 | Every cookie that comes out of the parser is trimmed and has no line break |
| Lsd.PortBack | engine-rs/crates/wt-discovery/src/lsd.rs:65 | A printed 16-bit number parses to itself |

## Left out

- Sockets, dialing, handshakes, encryption, trackers, the DHT, UPnP and NAT-PMP: input and output only.
- The control router, JSON and JNI layers, telemetry, settings and the HTTP body: routing and formatting.
- SHA-1 and the storage engine: the hasher is an event with either verdict, storage one that may succeed, fail or drop a piece.
- Rates, round-trip estimates, queue depth and arrival formulas: arbitrary values here.
- Availability counted before the info arrives: a have-all peer that also announces single pieces then is counted twice.
- A second connection on an address whose first handler has not closed, and key collisions of IPv6 addresses.
- Piece priorities set per file, and the server's republishing of priorities: they would add only easy members.
- Uploading, choking of others, peer exchange, metadata exchange and interest messages.
- The search for MP4 boxes and the Matroska index: the walk starts from the bodies of the sample-table boxes.
- The ghost, exploration and seeding heuristics, GeoIP and the benchmark scripts.
- Lifecycle.NoPieceStranded: needs well-addressed blocks and a hasher that takes every job, because the code breaks the promise otherwise; Lifecycle.StepExact is the exact statement for one event.
- Handlers.PeerConnHandler.UpdateRequests: takes the picked list and the outcome of each send as arguments; Picker proves what the list is, and waking, probing and interest messages are not modelled.
- Handlers.TorrentInner.BeginChunkWrite: at handler grain the second look at the dirty bit cannot differ from the first; Reservation models the two looks as separate steps.
- Picker.PickBlocks: sees one snapshot of the table and the flags, while in the engine other handlers may change them during a pass; the claims that follow test again.
- Wanted.Scan: keeps the candidates sorted as it goes instead of sorting them at the end; the order is the same stable one.
- SeekIndex.StblKeyframes: file offsets are unbounded integers, so a sum past 63 bits is not modelled.
- PlaybackWindow.BudgetWindow: the byte-based spans without a budget and those of the opening phase are not modelled.
- Coordinator.PlaybackCoordinator.Remove: the window, active-reader and playing records of a session are not modelled; the merged demand does not depend on them.
- Lsd.ParseAnnounce: works on characters, so a datagram that is not valid UTF-8 has no counterpart here.
