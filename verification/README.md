# hyperspace-rs: a verified model

hyperspace-rs keeps append-only feeds (hypercores) in a store on disk, replicates them between
peers, and serves them to clients over RPC. This project models its four stateful parts in Dafny
and proves what they guarantee over whole runs.

| files | part | source |
|---|---|---|
| `Peer.dfy`, `Replication.dfy`, `Convergence.dfy`, `Accounts.dfy` | the Want/Have/Request/Data protocol | `replicator/src/peer.rs` |
| `ByteStream.dfy`, `ReadStream.dfy` | poll-driven readers of a remote feed | `client/src/stream.rs` |
| `Keys.dfy`, `FeedMap.dfy`, `Corestore.dfy`, `CorestoreRuns.dfy` | the store of feeds across sessions | `corestore/src/corestore.rs`, `corestore/src/feed_map.rs` |
| `Bridge.dfy` | handing the store's feeds to the replicator | `corestore/src/replicate.rs`, `replicator/src/lib.rs` |
| `NamedMap.dfy`, `Sessions.dfy`, `Connection.dfy`, `Mirror.dfy` | remote sessions and the client's copy of a feed's lengths | `client/src/freemap.rs`, `client/src/session.rs`, `server/src/rpc/session.rs` |

`Common.dfy` holds bytes, blocks and byte sums; `Hypercore.dfy` the contract of a feed.

Code that works by changing fields is a class whose methods are proved to compute a function on
values (`Peer.ReceiveHave` computes `OnHave`, `ByteStream.PollRead` computes `ReadStep`,
`InnerCorestore.Open` performs `PlanOpen`, and so on). The theorems are about those functions and about
runs built from them. Automatic induction is off in every lemma: each induction is written out.

How the outside world appears:

- A Merkle proof with its signature is the sequence of blocks it commits to; a feed accepts a block
  if it is the one committed to. Whether storing a block emits `Download` is a choice of each step.
- A `Have` carries the decoded bitfield. The run-length codec only has to give back what was encoded.
- The outcome of polling a future is a parameter of the call, so every pattern of pending results is
  covered; so are the growth of the feed between calls and every buffer size.
- Key derivation, the public key of a seed and the discovery key are function parameters. The theorems
  assume that no two names of a finite set, from which all opened names come, share a key, and that no two
  keys share a discovery key; `CollisionFreeIsPossible` shows that this can be met.
- Building a feed writes its public key to the file `key` of its directory. That is a contract of the
  hypercore crate; everything opened by discovery key (`RestartRoundTrip`, `RemoteDkeyCovered`) rests on it.
- Replication is the writer of a feed with any number of readers, one channel each, FIFO in both
  directions, any interleaving of handlers, feed events and appends, readers that may already hold
  blocks, and any number of `Open` messages in the channels at the start.

## Main results

**Replication.** In every reachable state every stored block and every block on the wire is the
writer's, no handler has failed, every announcement is truthful, nothing announced is lost, and uploads
equal downloads plus what is in flight (`Agreement`, `AnnouncementsTruthful`, `NothingAnnouncedIsLost`,
`TransfersConserved`). Without appends a run has at most `SystemWeight` steps (`RunsTerminate`) and is
never stuck (`SilentIffNoStep`). A silent reader holds exactly what it began with plus what was
announced (`QuietHoldings`). `Accounts.dfy` says, event by event and for every feed and peer, what is sent,
stored and counted (`WantAnswered`, `RequestAnswered`, `DataHandled`, `FeedEventAnnounced`), ties the counts
to the bytes of the log (`StepCounts`, `LogBytesConserved`), and shows that whatever a reader's feed reports
as downloaded comes to be announced to the writer (`DownloadsReported`).

Unconditional convergence is false of the code, since the handler of an `Append` event announces only
the newest block. `Overtaken` gives the exact fate of the newest block at an append: it reaches the
reader if and only if the reader had it from the start, it has been announced, or a window that speaks
of it is still to come. `ConvergesIff` lifts this to whole runs: a reader at rest holds the log if and
only if what it lacked of the older blocks at the start lay in the first window and no append of the run
overtook the newest block; `StoppingDeliversIff` adds the bound on the steps until then.
`TwoQuickAppends` is a run that loses a block. `Converges` and `StoppingDeliversAll` give a condition
that is easier to keep: each append waits for the previous one to be announced. `FirstAnswerCovers` gives
the exact length, one block more than a window of 2^20, up to which the first answer speaks of the whole
log.

**Streams.** `ReadsAreTheBytes`: what any sequence of reads returns is the stretch of the flattened feed
from the cursor. `ReadLength`: one read returns as much as fits of the current block, and a short one ends at
a block boundary. `EndOnlyAfterAllBytes`: an empty read comes exactly after the last byte. `SeekThenRead`:
from every state the reads after a completed seek return the feed from the byte the seek reported.
`SeekUntilCompletes`: that is the byte asked for if and only if no seek to another byte was outstanding;
`DroppedSeek` is a seek dropped while pending, after which a seek elsewhere arrives at the dropped target.
`RelativeSeekIffNothingRead`: a relative seek is right exactly when nothing was read since the last seek,
because reading does not advance the offset it counts from (`RelativeSeekAfterReading`). `ItemsInOrder`
does the same for block streams. `OverIffEndMet`: whatever lengths the session reports, a block stream is
over exactly if it is not live and some poll that completed a fetch saw an end equal to the index reached
(`OverExactlyAtEnd` for an end that stays the same, `LengthStepsBack` for a run that passes its end).
`NextBlockFetchedIff`: a stream that is not over fetches its next block as soon as it is polled, unless it has
met its end; then exactly if it is woken after its first poll there and polled again
(`FetchesIffWokenAndPolled`). `AppendMissed` is the append that comes before.

**Corestore.** `SameFeed`: one shared feed per key in a session, when no key is opened ahead of its name.
`SecondFeedIff` says exactly which call makes a second one, `OnePerKeyInSessionIff` the same of a whole
session, and `KeyAheadOfName` shows it for every name.
`OpensTheKeyAskedFor`: a by-key open gives that key even when a recovered name decides the key pair.
`RestartRoundTrip`: a feed opened by a non-empty name comes back with its name and secret key in every
later session.

**Remote sessions.** `CopiesAreSnapshots`: under any reordering a client shows lengths the feed really
had. `AgreesAtRestIff`: with delivery in order it agrees with the server at rest exactly when no append
came before the subscription of its notify loop, or something was sent since; `LeftBehind` is a run where
it does not, and `ResponseOvertaken` one where delivery out of order leaves a stale copy.
`DownloadSnapshotIff` is the exact condition under which a download notification leaves a consistent pair,
and `DownloadBreaksPair` a notification that does not. `ByKeyIntendedIff` and `ByNameIntendedIff` say, of
the state before an open, exactly when it returns the feed asked for; `NameSpellsKey` and `KeySpeltByName`
are the runs in which it does not, and `OpensAreIntended` shows that it always does in a run where no name
spells another feed's key. `NameThenKeyShares`: after an open by name, an open by key returns the very same
session and changes nothing; the other way round it does not (`KeyThenNameDoesNot`). `OpenSucceedsIff` says
when an open succeeds, `IdsCollide` why there may be only 2^32 sessions.

`Connection.dfy` takes opens apart and lets their parts interleave with each other and with notifications;
`OpenIsARun` shows that an open taken as a whole is one such run. `NotificationsReachTheirSession`: however
late and in whatever order things arrive, also before the client has the answer to its open, a notification
reaches a session on the feed that sent it if and only if it does not carry id 0. `NumberedSessionsWork`: if
every session is told its id before it is asked for, none does, and the server knows every open session by
its id; `AskedTooEarly` is the run of two tasks in which a session is filed under 0. `FoundThenOpen`,
`InsertedThenOpen` and `ConcurrentOpensAreIntended` carry over which feed an open returns, and
`RenamedIsShared` which session.

**Bridge.** `Coverage`: every feed of the store is in the replicator's map, or has exactly one event
waiting, or was opened between listing and subscribing, and with one entry per key exactly one of these.
`RemoteDkeyCovered`: a discovery key that a peer announces while the loop runs, of a feed the store knows,
is in the map whenever both queues are empty, unless it was opened in that gap. The queues do become empty
(`LoopDrains`). `HeardIffRunning`: a feed on disk that no call asks for is in the map, when both queues are
empty, if and only if a peer announced it while the loop ran; `LostUnlessRunning` is the half that says that
every earlier announcement is lost, and `AnnouncedTooEarly` a run of it. `OpenedInTheGap` is a run in which an
open feed is never replicated.

## Model

| member | source | states |
|---|---|---|
| Peering.Peer.SendWantsTo | replicator/src/peer.rs:157-167 | marks window `index / 2^20` and asks for exactly that window |
| Peering.Peer.WantsOfBits | replicator/src/peer.rs:186-192 | collects, in order, the set bits the feed does not hold |
| Peering.Peer.WantsOfRange | replicator/src/peer.rs:193-202 | collects, in order, the indices of the range the feed does not hold |
| Peering.Peer.ReceiveHave | replicator/src/peer.rs:183-217 | sends the requests that `AnsweredByRequests` characterises and changes nothing else |
| Peering.AnsweredByRequests | replicator/src/peer.rs:183-217 | a `Have` is answered with one request for each announced index not held, in increasing order, with no other message and no other effect |
| Peering.Peer.ReceiveWant | replicator/src/peer.rs:219-260 | the first `Want` is answered with the newest index and the window, later ones with the window |
| Peering.Peer.ReceiveData | replicator/src/peer.rs:262-302 | stores an accepted block and counts it, or fails and changes nothing |
| Peering.Peer.ReceiveRequest | replicator/src/peer.rs:304-331 | sends the block with its proof and counts it, or fails and changes nothing |
| Peering.Peer.Dispatch | replicator/src/peer.rs:122-142 | each event goes to its handler; an `Append` event announces `len - 1` and fails on an empty feed |
| Peering.Peer.Run | replicator/src/peer.rs:110-144 | the loop is the handlers in order, stopping at the first failure |
| Peering.LoopStopsAtFailure | replicator/src/peer.rs:122-142 | after a failing handler no later event has any effect |
| Accounts.AskedWindow | replicator/src/peer.rs:157-167 | asking for an index asks for the 1048576 entries of the window it lies in and marks that window |
| Accounts.OpenAsks | replicator/src/peer.rs:179-181 | a channel that opens is asked for the first 1048576 entries |
| Accounts.WantAnswered | replicator/src/peer.rs:219-260 | for every `Want`, which bits the answer has and for which entries, and when the newest entry is announced before it |
| Accounts.RequestAnswered | replicator/src/peer.rs:304-331 | for every feed, what is sent for a request, when it fails, and that one block and its bytes are counted as uploaded |
| Accounts.DataHandled | replicator/src/peer.rs:262-302 | for every feed, when a block is accepted, what is stored and announced, and that one block and its bytes are counted as downloaded |
| Accounts.ProofOnlyHandled | replicator/src/peer.rs:283-288 | a proof without a block stores none and counts no bytes |
| Accounts.FeedEventAnnounced | replicator/src/peer.rs:133-140 | a feed event announces exactly its block: the downloaded one, or the newest after an append; it fails only on an append to an empty feed |
| Accounts.OtherEventsNotCounted | replicator/src/peer.rs:83-92 | nothing but requests and data is counted |
| Replication.WriterHandles | replicator/src/peer.rs:122-331 | on what the invariant allows, the writer's peer never fails, never changes the feed, and sends only truthful messages |
| Replication.ReaderHandles | replicator/src/peer.rs:122-331 | on what the invariant allows, a reader's peer never fails and its replica stays a copy of the log |
| Replication.NothingMissing | replicator/src/peer.rs:183-217 | the writer never requests anything |
| Replication.TrackedKept | replicator/src/peer.rs:183-331 | every step keeps account of each announced index: held, requested or carried |
| Replication.ConservedKept | replicator/src/peer.rs:83-92 | every step keeps uploads equal to downloads plus data in flight |
| Replication.AskedKept | replicator/src/peer.rs:157-181 | a running reader's first `Want` is on the way or answered, and a running peer has marked window 0 only |
| Replication.Reachable | replicator/src/peer.rs:110-331 | the invariant holds in every state of every run |
| Convergence.Agreement | replicator/src/peer.rs:262-331 | in every reachable state all stored and in-flight blocks are the writer's and no handler has failed |
| Convergence.AnnouncementsTruthful | replicator/src/peer.rs:133-167 | every `Want` and bitfield starts at 0, every announced block is held by the writer, `len - 1` never underflows |
| Convergence.NothingAnnouncedIsLost | replicator/src/peer.rs:183-331 | every index a reader has been told is held, or requested, or on its way with the writer's value |
| Convergence.TransfersConserved | replicator/src/peer.rs:73-92 | uploaded blocks and bytes equal downloaded ones plus those in flight |
| Accounts.StepCounts | replicator/src/peer.rs:83-92 | each step adds to the counts exactly the block of the log that is handed out or taken in, and its bytes |
| Accounts.LogBytesConserved | replicator/src/peer.rs:83-92 | uploaded bytes are downloaded ones plus the bytes of the log's blocks on the way |
| Accounts.DownloadsReported | replicator/src/peer.rs:133-134 | each block a reader's feed reports as downloaded is announced or about to be, and at rest the writer has handled all these announcements |
| Accounts.AppendTells | replicator/src/peer.rs:117-140 | an append reaches exactly the peers that have subscribed, once each |
| Convergence.LinkWeightDecreases | replicator/src/peer.rs:122-331 | every handler step lowers the link's weight |
| Convergence.RunsTerminate | replicator/src/peer.rs:122-331 | a run without appends has at most as many steps as the system's weight |
| Convergence.SilentIffNoStep | replicator/src/peer.rs:110-144 | no peer has a step to take if and only if both ends of every link run and nothing waits |
| Convergence.CanFallSilent | replicator/src/peer.rs:110-144 | from every reachable state the peers alone can reach silence |
| Convergence.QuietHoldings | replicator/src/peer.rs:183-331 | a quiet reader holds exactly its initial blocks and the announced ones, and its `Want` was answered |
| Convergence.FirstAnswerAnnounces | replicator/src/peer.rs:231-259 | which indices an answer to a `Want` announces, both ways |
| Convergence.FirstAnswerCovers | replicator/src/peer.rs:231-259 | the first answer covers the log if and only if it has at most 2^20 + 1 blocks |
| Convergence.Converges | replicator/src/peer.rs:110-260 | after a run in which appends wait for the previous announcement, silence means every reader holds the whole log |
| Convergence.StoppingDeliversAll | replicator/src/peer.rs:110-331 | when the writer stops, a bounded number of steps brings every reader the whole log |
| Convergence.SecuredKept | replicator/src/peer.rs:122-331 | no step of a link changes whether a block that is not the newest will reach the reader |
| Convergence.FateSettled | replicator/src/peer.rs:110-331 | once a block is not the newest, every continuation of the run agrees on whether it reaches the reader |
| Convergence.NotAnnouncedAgain | replicator/src/peer.rs:133-142 | a block that is not the newest and out of every window to come is never announced again |
| Convergence.Overtaken | replicator/src/peer.rs:133-142 | at an append the newest block reaches the reader if and only if it was there from the start, is announced, or a window that speaks of it is still to come |
| Convergence.ConvergesIff | replicator/src/peer.rs:110-331 | a reader at rest holds the whole log if and only if its older missing blocks lay in the first window and no append overtook the newest block |
| Convergence.StoppingDeliversIff | replicator/src/peer.rs:110-331 | when the writer stops, a bounded number of steps ends with the whole log at a reader if and only if the run so far met that condition |
| Convergence.TwoQuickAppends | replicator/src/peer.rs:133-142 | a complete run that leaves a silent reader without the first of two blocks |
| ByteStreams.ByteStream.PollRead | client/src/stream.rs:179-231 | returns the bytes `ReadStep` says at the front of the buffer, leaves the rest of the buffer alone, and a pending read changes no byte |
| ByteStreams.ByteStream.TakeFrom | client/src/stream.rs:206-225 | hands out what fits of the block and moves past it when it is used up |
| ByteStreams.ByteStream.PollSeek | client/src/stream.rs:140-175 | starts or continues a seek and reports its target when it completes |
| ByteStreams.ReadStepCorrect | client/src/stream.rs:186-230 | one read returns the next bytes of the feed and moves the position by as many; pending moves nothing |
| ByteStreams.ReadLength | client/src/stream.rs:206-225 | one read returns as much as fits of what is left of the block, and moves to the next block exactly when that is all of it |
| ByteStreams.ReadWithoutBlock | client/src/stream.rs:192-204 | without a block a read is pending on the current block, or empty and the end of the stream |
| ByteStreams.NothingAfterFailure | client/src/stream.rs:192-204 | after a failed fetch every read returns nothing until a seek |
| ByteStreams.ReadsAreTheBytes | client/src/stream.rs:179-231 | any sequence of reads returns the stretch of the flattened feed from the cursor |
| ByteStreams.EmptyReadIffEnd | client/src/stream.rs:192-210 | on a fixed feed of non-empty blocks a read is empty if and only if the position is the end |
| ByteStreams.EndOnlyAfterAllBytes | client/src/stream.rs:179-231 | after any reads, a further read is empty if and only if all bytes have been returned |
| ByteStreams.SeekUntilCompletes | client/src/stream.rs:145-174 | from every state and after any number of pending polls a seek completes, and reports the byte asked for if and only if no seek to another byte was outstanding |
| ByteStreams.SeekThenRead | client/src/stream.rs:140-231 | from every state the reads after a completed seek return the feed from the byte it reported |
| ByteStreams.DroppedSeek | client/src/stream.rs:147-156 | after a seek dropped while pending, a seek to another byte arrives at the dropped target |
| ByteStreams.SeekTargets | client/src/stream.rs:159-163 | an absolute seek goes where it says, a relative one counts from the last byte sought, in 64 bits |
| ByteStreams.SeekLooksUpItsTarget | client/src/stream.rs:145-174 | a seek looks up one target, from its beginning to its end, and reports that one |
| ByteStreams.RelativeSeekIffNothingRead | client/src/stream.rs:159-163 | a relative seek counts from the reading position if and only if nothing was read since the last seek |
| ByteStreams.RelativeSeekAfterReading | client/src/stream.rs:159-163 | after reading a block a seek by nothing goes back to the start |
| ReadStreams.AwaitUpdate | client/src/stream.rs:27-41 | stops at the first append, or download of the block itself, and only passes all updates if there is none |
| ReadStreams.ReadStream.PollNext | client/src/stream.rs:77-96 | one poll computes `NextStep` |
| ReadStreams.ItemsInOrder | client/src/stream.rs:77-96 | item `j` is the outcome of fetching block `start + j`, under any appends and pending polls |
| ReadStreams.AnswerTells | client/src/stream.rs:77-96 | a poll answers with the end exactly if the stream is over, and with an item exactly if its fetch completed |
| ReadStreams.NextFuture | client/src/stream.rs:86-94 | after its last completed fetch a stream waits for the feed to change if and only if that poll met the end, and else fetches the next block |
| ReadStreams.NextBlockFetchedIff | client/src/stream.rs:27-96 | when the next block is fetched: at the next poll, or, at the end, if and only if woken and polled |
| ReadStreams.FirstBlockFetchedIff | client/src/stream.rs:64-72 | a new stream fetches its first block when it is polled |
| ReadStreams.OverIffEndMet | client/src/stream.rs:86-94 | whatever lengths are reported, a stream is over if and only if it is not live and a poll that completed a fetch saw an end equal to the index reached |
| ReadStreams.LengthStepsBack | client/src/stream.rs:86-94 | a stream that sees lengths 3, 1 and 1 gives three items and is not over |
| ReadStreams.OverExactlyAtEnd | client/src/stream.rs:86-94 | with the same end at every poll, a stream is over if and only if it is not live, began before its end and has given all items up to it |
| ReadStreams.OverStaysOver | client/src/stream.rs:78-80 | a stream that is over gives nothing more |
| ReadStreams.RangeExactly | client/src/stream.rs:64-96 | an ended stream over an available range has given exactly the range |
| ReadStreams.FetchesIffWokenAndPolled | client/src/stream.rs:27-41 | a waiting stream fetches if and only if it is woken after its future was first polled and polled again |
| ReadStreams.AppendMissed | client/src/stream.rs:27-41 | an append before the first poll is missed, however often the stream is polled then |
| Keys.HexInjective | corestore/src/corestore.rs:279-286 | different keys have different hexadecimal text |
| Keys.HexAt | corestore/src/corestore.rs:279-286 | byte `i` is two lower-case digits, the high one first |
| FeedMaps.FeedMap.Insert | corestore/src/feed_map.rs:37-50 | updates the five maps as `Inserted` says |
| FeedMaps.FeedMap.GetName | corestore/src/feed_map.rs:27-29 | a hit is a feed listed with the name, a miss means none was filed under it |
| FeedMaps.FeedMap.GetKey | corestore/src/feed_map.rs:30-32 | a hit is a feed with that key, a miss means no open feed has it |
| FeedMaps.FeedMap.GetDkey | corestore/src/feed_map.rs:33-35 | a hit is a feed with that discovery key, a miss means no open feed has it |
| FeedMaps.InsertedConsistent | corestore/src/feed_map.rs:37-50 | the five maps keep leading to the feeds they describe |
| FeedMaps.InsertedFinds | corestore/src/feed_map.rs:37-50 | the new feed is found under its key, discovery key and name, and what was found under others still is |
| FeedMaps.OnePerKeyMeansNoTwo | corestore/src/feed_map.rs:8-15 | every feed is where its key leads if and only if no two entries share a key |
| FeedMaps.InsertedOnePerKey | corestore/src/feed_map.rs:37-50 | a new entry is the only one for its key if and only if the key was not open |
| Corestores.FilePathInjective | corestore/src/corestore.rs:279-296 | no two feeds share a file |
| Corestores.FilePathParts | corestore/src/corestore.rs:279-296 | a file lies below the first byte of the discovery key, the second, and the whole key, in hexadecimal |
| Corestores.WrittenExactly | corestore/src/corestore.rs:309-319 | a write replaces the front of one file byte by byte |
| Corestores.FilesRead | corestore/src/corestore.rs:294-334 | which files hold names, keys and the master key |
| Corestores.InnerCorestore.constructor | corestore/src/corestore.rs:148-167 | the master key is read back, or made up and written |
| Corestores.InnerCorestore.Emit | corestore/src/corestore.rs:169-173 | every subscriber gets the event |
| Corestores.InnerCorestore.WriteNameIfEmpty | corestore/src/corestore.rs:309-319 | writes the name only into an empty file and says whether it did |
| Corestores.InnerCorestore.Open | corestore/src/corestore.rs:223-277 | performs the plan of the open: index, then name on disk, then key pair, storage, index and events |
| Corestores.InnerCorestore.OpenByDkey | corestore/src/corestore.rs:199-214 | answers from the index, else opens the key found on disk, else finds nothing |
| CorestoreRuns.BuiltFilesTrue | corestore/src/corestore.rs:252-267 | opening keeps name and key files true, overwrites no name and records the key |
| CorestoreRuns.RecoveredName | corestore/src/corestore.rs:236-250 | the name found with a key's files derives back to the key |
| CorestoreRuns.PlanByDkey | corestore/src/corestore.rs:199-214 | exactly when an open by discovery key finds nothing, and what it opens otherwise |
| CorestoreRuns.PlanOpenMeans | corestore/src/corestore.rs:223-277 | what an open with any key and any name comes to: which open feed, which new one with which secret, or a bad key |
| CorestoreRuns.OpensTheKeyAskedFor | corestore/src/corestore.rs:223-277 | a successful open gives the feed that was asked for, by key, name or discovery key |
| CorestoreRuns.RunOk | corestore/src/corestore.rs:148-334 | index and disk stay consistent through every run and restart |
| CorestoreRuns.SecondFeedIff | corestore/src/corestore.rs:223-277 | a call makes a second entry for a key if and only if it opens by an unindexed name whose key is open |
| CorestoreRuns.OnePerKeyInSessionIff | corestore/src/corestore.rs:223-277 | a session ends with one entry per key if and only if none of its calls opened by an unindexed name whose key was open |
| CorestoreRuns.OnePerKeyInRuns | corestore/src/corestore.rs:223-277 | one entry per key when no key is opened ahead of its name |
| CorestoreRuns.SameFeed | corestore/src/corestore.rs:199-277 | two calls of a session that denote the same key answer with the same shared feed |
| CorestoreRuns.KeyAheadOfName | corestore/src/corestore.rs:223-277 | for every name, opening by its key first and then by the name gives two shared feeds |
| CorestoreRuns.RestartRoundTrip | corestore/src/corestore.rs:148-334 | a feed opened by a non-empty name comes back with name and secret key in every later session |
| CorestoreRuns.FromNewDirectory | corestore/src/corestore.rs:148-167 | every store reached from a new directory satisfies the theorems' assumptions |
| Bridge.Replicator.Emit | replicator/src/lib.rs:66-70 | exactly the present subscribers get the event, once each |
| Bridge.Replicator.AddFeed | replicator/src/lib.rs:57-70 | files the feed under its own discovery key and tells every subscriber |
| Bridge.BridgeKept | corestore/src/replicate.rs:7-44 | every step keeps each feed in exactly one place and the map true |
| Bridge.HandledIsFiled | corestore/src/replicate.rs:36-38 | after the event of a feed the map leads to that very feed and is otherwise unchanged |
| Bridge.Coverage | corestore/src/replicate.rs:11-41 | each feed is in the replicator's map, or waits exactly once, or was opened in the gap; with one entry per key, exactly one of these |
| Bridge.ReplicatedIff | corestore/src/replicate.rs:11-41 | with one entry per key and no event waiting, a discovery key is in the map if and only if its feed is open and not from the gap |
| Bridge.RemoteDkeyCovered | corestore/src/replicate.rs:16-39 | a key announced while the loop runs, of a feed the store knows, is in the map once both queues are empty unless opened in the gap, and with one entry per key if and only if |
| Bridge.LostUnlessRunning | corestore/src/replicate.rs:16-39 | without a call for it, a feed announced only before the loop runs is never replicated |
| Bridge.HeardIffRunning | corestore/src/replicate.rs:16-39 | a feed on disk that no call asks for is in the map, with both queues empty, if and only if it was announced while the loop ran |
| Bridge.LoopDrains | corestore/src/replicate.rs:28-41 | every step of the loop lowers a weight, so the queues become empty |
| Bridge.DrainedIffNoStep | corestore/src/replicate.rs:28-41 | the loop has no step to take if and only if both queues are empty |
| Bridge.AnnouncedTooEarly | corestore/src/replicate.rs:11-18 | for every name a run in which its feed is on disk, announced before the subscription, and never replicated |
| Bridge.OpenedInTheGap | corestore/src/replicate.rs:12-17 | for every name a run in which its feed is opened between listing and subscribing and never replicated |
| Bridge.BridgeStarts | corestore/src/replicate.rs:7-14 | the loop may start on any store reached from a new directory |
| NamedMaps.InsertFresh | client/src/freemap.rs:40-48 | an inserted value gets a fresh id and the ids in use and free still partition 1..N |
| NamedMaps.InsertedExactly | client/src/freemap.rs:40-48 | the value is found under its id, others stay, and freed ids are used in order |
| NamedMaps.InnerMap.InsertWithName | client/src/freemap.rs:50-62 | the value is found under the name, other values stay, no name dangles |
| NamedMaps.InnerMap.GetByName | client/src/freemap.rs:105-112 | finds a value for every name in use, and one that is listed with the name |
| NamedMaps.RenameKeepsNames | client/src/freemap.rs:56-62 | the name leads to the value, other names lead where they did, and none dangles |
| Sessions.RemoteCorestore.EnsureOpen | client/src/session.rs:210-231 | opens a session once, with its id in 32 bits |
| Sessions.RemoteCorestore.OpenKey | client/src/session.rs:45-56 | finds the session filed under the text of the key or makes one, and opens it |
| Sessions.RemoteCorestore.OpenName | client/src/session.rs:58-75 | finds the session filed under the name or makes one, opens it, and files it under its key too |
| Sessions.ServerSession.Open | server/src/rpc/session.rs:144-176 | files the feed of the name, else of the key, under the id; a key that is not 32 bytes long, or a request with neither, is refused and files nothing |
| Sessions.OpenStays | client/src/session.rs:45-75 | no later open changes an open session |
| Sessions.ByKeyIntendedIff | client/src/session.rs:45-56 | a by-key open returns that key's feed if and only if it does not find, before the call, a session asked for by a name that spells the key |
| Sessions.ByNameIntendedIff | client/src/session.rs:58-75 | a by-name open returns that name's feed if and only if it does not find, before the call, another key's session under its text |
| Sessions.NameSpellsKey | client/src/session.rs:45-75 | opening by the text of a key and then by the key returns the wrong feed |
| Sessions.KeySpeltByName | client/src/session.rs:45-75 | opening by a key and then by its text returns the wrong feed |
| Sessions.OpensAreIntended | client/src/session.rs:45-75 | in a run of fewer than 2^32 opens where no name spells another feed's key, every open returns the feed it asked for |
| Sessions.OpenSucceedsIff | client/src/session.rs:45-75 | an open succeeds if and only if its session is open already, or is served and asks with a name or a key of 32 bytes |
| Sessions.OpenedAgain | client/src/session.rs:45-75 | repeated, a successful open returns the same session and changes nothing |
| Sessions.NamedIsFiledTwice | client/src/session.rs:58-75 | an open by name that makes a session files it under the name and under the text of its key |
| Sessions.NameThenKeyShares | client/src/session.rs:45-75 | after an open by name, an open by key returns that session and changes nothing, also after any opens that do not ask for the feed by another name |
| Sessions.KeyThenNameDoesNot | client/src/session.rs:45-75 | an open by key and then by name makes two sessions |
| Sessions.IdsCollide | client/src/session.rs:216-221 | two sessions whose ids agree in 32 bits share one place at the server |
| Connections.WireKept | client/src/session.rs:45-75 | every part of an open, in any interleaving, keeps every session on its feed and every message true of its session |
| Connections.OpenIsARun | client/src/session.rs:45-75 | an open taken as a whole is a run of its parts |
| Connections.NotificationsReachTheirSession | server/src/rpc/session.rs:107-176 | in every run of fewer than 2^32 sessions, a notification reaches a session on the feed that sent it, open or not, if and only if it does not carry id 0, and otherwise none |
| Connections.NumberedSessionsWork | client/src/session.rs:52-54 | if sessions are told their ids before they are asked for, every notification reaches its session and the server has every open session's feed under its id |
| Connections.AskedTooEarly | client/src/session.rs:52-54 | a run in which a session is asked for before it is told its id, opens, hears nothing, and uses an id the server does not know |
| Connections.FoundThenOpen | client/src/session.rs:45-75 | an open that finds a session, and returns it open after any interleaving, returns the feed asked for if and only if nothing stood in the way at the lookup |
| Connections.InsertedThenOpen | client/src/session.rs:45-75 | an open that makes its session returns the feed asked for |
| Connections.ConcurrentOpensAreIntended | client/src/session.rs:45-75 | when no name spells another feed's key, an open returns the feed asked for in any interleaving |
| Connections.RenamedIsShared | client/src/session.rs:69-73 | once a session is filed under its key's text, a lookup by key finds it through every interleaving that files none other there |
| Mirror.RemoteHypercore.OnResponse | client/src/session.rs:223-230 | the copy becomes the response's lengths, with its key and writability, and the session is open |
| Mirror.RemoteHypercore.OnAppend | client/src/session.rs:233-240 | the copy becomes the notification's lengths and every listener gets one event |
| Mirror.RemoteHypercore.OnDownload | client/src/session.rs:242-253 | the byte length is replaced, the length only raised, and every listener gets one event |
| Mirror.ServerFeed.AppendAll | server/src/rpc/session.rs:63-75 | all blocks are appended, one event each, and the response has the lengths after them |
| Mirror.ServerFeed.NotifyTurn | server/src/rpc/session.rs:107-124 | a notification has the lengths at the time of sending |
| Mirror.AppendAllIsAppend | server/src/rpc/session.rs:63-75 | the feed after `AppendAll`, and its answer, are those of the append steps |
| Mirror.NotifyTurnIsNotify | server/src/rpc/session.rs:107-124 | the feed after `NotifyTurn`, and the notification, are those of the notify step |
| Mirror.CopiesAreSnapshots | client/src/session.rs:146-160 | under any reordering a client's pair of lengths is one the feed had, and not ahead of it |
| Mirror.AgreesAtRestIff | client/src/session.rs:210-240 | with delivery in order a session at rest agrees with the server if and only if it has not missed an append |
| Mirror.AgreesOnceNotified | server/src/rpc/session.rs:107-124 | a session subscribed before an append, of any session or from elsewhere, agrees with the server whenever it is at rest afterwards |
| Mirror.ResponseOvertaken | client/src/session.rs:223-240 | a run in which a response delivered after a later notification leaves the client behind, at rest |
| Mirror.LeftBehind | server/src/rpc/session.rs:144-176 | a run in which an append before the notify loop subscribes leaves the client behind |
| Mirror.DownloadSnapshotIff | client/src/session.rs:242-253 | a download notification leaves a pair the feed had if and only if the copy then reaches the full length |
| Mirror.DownloadedMeans | client/src/session.rs:242-253 | the length is raised to take in the block and never lowered, and without a byte length the old one stays |
| Mirror.DownloadBreaksPair | client/src/session.rs:242-253 | a notification of the first of two unseen blocks leaves a pair the feed never had |

## Left out

- Sockets, RPC transport, discovery and swarm, command line and options: input and output only.
- The inside of hypercore feeds, Merkle proofs, signatures, hashing and Ed25519: only their contracts appear, as described above.
- The run-length codec and the byte-wise rebuilding in `parse_bitfield` (replicator/src/peer.rs:334-341): a `Have` carries the bits themselves; the page rounding of windows other than the first one, which no run asks for, is not modelled.
- Replication among readers: `on_want` announces `len - 1` without checking that a sparse replica holds it, so a reader that serves readers may be asked for what it lacks.
- Opening channels for feeds added after the handshake (replicator/src/lib.rs:136-161): nothing here rests on it.
- Integer widths other than those named: lengths and indices are unbounded, and an announced range that overflows 64 bits is not modelled.
- `uploading`, `downloading`, `remote_length` and `remote_bitfield` of a peer: never read or never changed after construction.
- Bounded channels, dropped subscribers and task handling: a send never fails or waits.
- Liveness of live streams: `FetchesIffWokenAndPolled` says when a waiting stream fetches, not that it is polled.
- Reading while a seek is pending, and a fetch that answers without a block inside `ByteStream`: both panic in the program; `CanRead` and the poll outcomes exclude them. A seek that fails panics as well. The server of this repository does not implement seeking, so what it answers is a contract (`Splits`).
- `SeekFrom::End`: unimplemented in the program.
- `_remove` of the feed map, which has no caller, and the commented-out `remove` of the named map.
- Several notify loops on one session, which two tasks that open it at the same time can start: `Connections` has them, `Mirror` has one loop per session.
- Mirror.AgreesAtRestIff: assumes that a response or notification is put in flight at the moment its lengths are read, and delivery in order; without either only `CopiesAreSnapshots` holds.
- Convergence.Converges: a sufficient condition only; `ConvergesIff` has the exact one.
- ReadStreams.OverExactlyAtEnd: assumes that the end stays the same from poll to poll; `OverIffEndMet` does not.
