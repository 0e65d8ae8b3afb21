# MelowGram: verified models of its algorithms and request state machines

MelowGram is a desktop messenger. This project models the parts of it whose correctness is not
visible from one function, and proves it:

* `Sha1.dfy`: the hand-written SHA-1 of the update packer, against FIPS 180-4.
* `ApiHash.dfy`: the 64-bit content hash that asks the server whether a list changed.
* `MeshCodec.dfy`, `MeshTools.dfy`: the encoder and decoder of the binary mesh format.
* `MessageData.dfy`, `FileReference.dfy`, `WebPages.dfy`: requests that many callers share.
* `Drafts.dfy`, `Albums.dfy`, `DialogsLoad.dfy`, `StickerSets.dfy`, `Forward.dfy`: multi-step
  operations of the API wrapper, whose answers arrive in any order.
* `BlockedPeers.dfy`, `MergedSearch.dfy`, `InviteLinks.dfy`: caches that must survive every order
  of answers.
* `FrameQueue.dfy`: the event queue between the web view shell and the page in its frame.
* `CallbackPool.dfy`: multisets of callbacks over maps, shared by three of these.
* `Options.dfy`: optional values.

## How the models are built

Algorithms over arrays and lists are methods with loops, proved against functions. Everything that
waits for answers is modelled twice. A datatype `State` holds the fields of the source class and, as
ghosts of a run, the requests on their way and a log; `Step` is one event (a call, an answer, a
failure, a timer) and `Run` folds any list of events, so a lemma about `Run` is about every
interleaving. An event that cannot happen, such as the answer to an unknown request, changes nothing.
Beside it a class holds the same fields and its methods, with the loops and branches of the source,
ensure that they perform exactly one `Step` of the model; the theorems about runs are about these
steps. Where a loop visits a map, the method returns the order of the visit as a ghost.

Sending a request only returns an id; answers arrive later, in any order. Objects that the source
updates through pointers inside a map (drafts, albums, sticker sets, slices) are values in the map.

## What the proofs found

* The padding of SHA-1 agrees with the standard exactly below 2^29 bytes: longer messages get a 32-bit
  bit length. From 2^32 - 64 bytes on the block loop does not end.
* The mesh files claim a byte-identical round trip; it holds exactly for whole triples, pairs and
  triangles, and for everything that the encoder produces.
* One changed value always changes the content hash; a second change can hide it, and a leading zero
  is never seen.
* An album gets stuck in three ways, each with its exact condition. A file that cannot be prepared is taken
  out without a check, so if it was the only item without a medium the album is never sent unless the
  user gives up another item. A file that fails in the uploader, or that becomes no medium, leaves its
  item waiting, so the album is never sent unless the user gives up that item.
* A save of a draft that is cancelled is never counted as finished, so its slot still counts as saving.
* The entry of a destroyed thread can name a cancelled request: exactly when a new thread of its slot
  saves at once. The next scheduled save removes it.
* A quit that waits for drafts is told when the last one is done, unless the timer of the scheduled saves
  erases the last entries; once all are sent, that happens exactly when all their threads are gone. Such a
  quit goes on only after its fixed time (core/application.cpp:1883-1891).
* A save of sticker sets cancels the requests of the save before that are still on their way, and no later
  save repeats them: the set that was removed there is not uninstalled on the server.
* A failed request for web pages has no handler, so its pages are never asked for again; all other asked
  pages have their request on its way. A due page that no item shows is left without a timer exactly when
  no page is early.
* A chat list answer that nothing was modified stops the load for good; no other load waits for a
  request that is gone.
* A permanent link that is set is not counted; the count goes on to cover the links exactly while it has
  room for that link, and for the links of a reload.
* Asking for more results after the end repeats the first page of the last search, with or without an
  old chat, unless it has no results. The caller's check of the total prevents it. Leaving out the old chat
  in the middle of a search is right exactly before its first page, or if it has no results.
* A stale answer of a blocked peer's request can tell a later caller the wrong outcome; a callback is told
  the outcome of its own request exactly when no other answer or change takes it first.

## Model

| member | source | states |
|---|---|---|
| `Sha1.PackerFunctions` | Telegram/SourceFiles/_other/packer.cpp:78-82 | the three round expressions of the packer are the functions f of FIPS 180-4 in each range of rounds |
| `Sha1.PackerShifts` | Telegram/SourceFiles/_other/packer.cpp:56-58 | the packer's shift pair is the rotation of the standard for the amounts 1, 5 and 30 |
| `Sha1.SchedulePrefix` | Telegram/SourceFiles/_other/packer.cpp:73-76 | the schedule built while the rounds run is a prefix of the whole schedule: building in place and building first agree |
| `Sha1.ScheduleStep` | Telegram/SourceFiles/_other/packer.cpp:73-76 | one in-place schedule assignment yields the next word of section 6.1.2 |
| `Sha1.RoundStep` | Telegram/SourceFiles/_other/packer.cpp:63-71 | one pass through the macro is one round of section 6.1.2 |
| `Sha1.ExtendSchedule` | Telegram/SourceFiles/_other/packer.cpp:73-76 | the array holds one more word of the schedule and nothing else changes |
| `Sha1.RunRounds` | Telegram/SourceFiles/_other/packer.cpp:61-82 | the 80 rounds over the array compute the rounds of the standard from the first 16 words alone |
| `Sha1.Sha1PartHash` | Telegram/SourceFiles/_other/packer.cpp:60-92 | one block: the five words become the compression of section 6.1.2 of the old ones and the first 16 words, whatever an earlier block left in the other 64 |
| `Sha1.PackerPadIsPad` | Telegram/SourceFiles/_other/packer.cpp:111-123 | the packer's padding equals the padding of section 5.1.1 if and only if the message is shorter than 2^29 bytes |
| `Sha1.OrStep` | Telegram/SourceFiles/_other/packer.cpp:114-117 | or-ing a byte into its word is appending it to the tail |
| `Sha1.MessageWord` | Telegram/SourceFiles/_other/packer.cpp:101-107 | a word of a whole block is made of its four message bytes, highest first |
| `Sha1.TailWord` | Telegram/SourceFiles/_other/packer.cpp:111-117 | a word of the last blocks is made of the remaining bytes, the bit 1 and zeros |
| `Sha1.LastWords` | Telegram/SourceFiles/_other/packer.cpp:118-123 | the last two words are 0 and the bit length modulo 2^32 |
| `Sha1.BlockLoopEnds` | Telegram/SourceFiles/_other/packer.cpp:101-109 | in 32-bit arithmetic the block loop ends if and only if the message is shorter than 2^32 - 64 bytes, and then after as many passes as there are whole pieces |
| `Sha1.FeedWholeBlocks` | Telegram/SourceFiles/_other/packer.cpp:101-109 | for every length on which the loop ends it compresses exactly the whole 64-byte pieces of the message |
| `Sha1.LoadTail` | Telegram/SourceFiles/_other/packer.cpp:111-117 | the tail is loaded with its end mark, over a cleared block |
| `Sha1.FeedTail` | Telegram/SourceFiles/_other/packer.cpp:111-123 | one or two more blocks, by `end >= 56`, finish the compression of all padded blocks |
| `Sha1.WriteDigest` | Telegram/SourceFiles/_other/packer.cpp:125-129 | the 20 bytes are the five words, highest byte first; nothing else is written |
| `Sha1.HashSha1` | Telegram/SourceFiles/_other/packer.cpp:96-132 | for every message shorter than 2^29 bytes the result is the SHA-1 digest of FIPS 180-4; for longer ones on which the source returns it is the hash of the packer's own padding |
| `ApiHash.FoldTwice` | Telegram/SourceFiles/api/api_hash.h:41-43 | an xor-shift by k done twice is the xor-shift by 2k, to the right and to the left |
| `ApiHash.ShrIsDivision` | Telegram/SourceFiles/api/api_hash.h:41-43 | the shift to the right is the division by the power of two |
| `ApiHash.ShlIsProduct` | Telegram/SourceFiles/api/api_hash.h:42 | the shift to the left is the product with the power of two, modulo 2^64 |
| `ApiHash.Right21` | Telegram/SourceFiles/api/api_hash.h:41 | the first step has an inverse on both sides |
| `ApiHash.Left35` | Telegram/SourceFiles/api/api_hash.h:42 | the second step is its own inverse on 64 bits |
| `ApiHash.Right4` | Telegram/SourceFiles/api/api_hash.h:43 | the third step has an inverse on both sides |
| `ApiHash.HashUpdate` | Telegram/SourceFiles/api/api_hash.h:40-45 | the four assignments compute one step of the hash |
| `ApiHash.StateBijection` | Telegram/SourceFiles/api/api_hash.h:40-45 | for every value a step is a bijection of 64-bit states, with the inverse given |
| `ApiHash.ValueBijection` | Telegram/SourceFiles/api/api_hash.h:40-45 | for every state a step is a bijection of the value |
| `ApiHash.CountHash` | Telegram/SourceFiles/api/api_hash.h:63-70 | the loop computes the fold of the steps from 0 |
| `ApiHash.HashConcat` | Telegram/SourceFiles/api/api_hash.h:63-70 | hashing a concatenation is hashing on from the hash of the first part |
| `ApiHash.ListBijection` | Telegram/SourceFiles/api/api_hash.h:63-70 | for every list the hash is a bijection of the state it starts from |
| `ApiHash.OnePosition` | Telegram/SourceFiles/api/api_hash.h:63-70 | with all other values fixed exactly one value in a position gives a wanted hash |
| `ApiHash.OneChangeChangesHash` | Telegram/SourceFiles/api/api_hash.h:63-70 | two lists of one length that differ in exactly one position have different hashes |
| `ApiHash.SecondChangeCanHide` | Telegram/SourceFiles/api/api_hash.h:63-70 | the guarantee ends there: exactly one change of a second position hides the first |
| `ApiHash.LeadingZero` | Telegram/SourceFiles/api/api_hash.h:36-45 | a leading zero is not noticed, so lists of different lengths can agree |
| `ApiHash.CountDocumentVectorHash` | Telegram/SourceFiles/api/api_hash.cpp:18-25 | the hash of a document vector is the list hash of its ids |
| `ApiHash.CountStickersOrderHash` | Telegram/SourceFiles/api/api_hash.cpp:38-61 | the list hash of the stored, neither special nor archived nor default sets, or 0 if the outdated default set is asked about and present |
| `ApiHash.CountFeaturedHash` | Telegram/SourceFiles/api/api_hash.cpp:63-78 | the list hash of the ids with a 1 after every unread set |
| `ApiHash.ChangedSetChangesOrderHash` | Telegram/SourceFiles/api/api_hash.cpp:46-60 | a new hash of one set changes the hash of the order if and only if the set is neither the default one nor special nor archived |
| `ApiHash.OrderHashesIs` | Telegram/SourceFiles/api/api_hash.cpp:46-57 | which sets of the order contribute their hash |
| `ApiHash.FeaturedConcat` | Telegram/SourceFiles/api/api_hash.cpp:66-76 | the featured values of an order are those of its sets one after the other |
| `ApiHash.FeaturedIs` | Telegram/SourceFiles/api/api_hash.cpp:66-76 | a featured set contributes its id, and a 1 if and only if it is stored and unread |
| `MeshFormat.IntRoundTrip` | Telegram/cmake/obj2binobj.py:61-69 | a 32-bit integer survives packing and unpacking |
| `MeshFormat.IntRoundTripBytes` | Telegram/cmake/binobj2obj.py:34-38 | four bytes survive unpacking and packing |
| `MeshFormat.FloatsRoundTrip` | Telegram/cmake/binobj2obj.py:40-44 | a list of floats survives packing and unpacking |
| `MeshFormat.CornersRoundTripBytes` | Telegram/cmake/binobj2obj.py:49-52 | whole corner records survive unpacking and packing |
| `MeshFormat.DecodeEncode` | Telegram/cmake/obj2binobj.py:60-69 | decoding what the encoder wrote gives back the same arrays |
| `MeshFormat.EncodeDecode` | Telegram/cmake/binobj2obj.py:46-55 | every accepted file is, byte for byte, the encoding of what was read from it |
| `MeshTools.Fan` | Telegram/cmake/obj2binobj.py:57-58 | a polygon of n corners becomes n - 2 triangles around its first corner |
| `MeshTools.CornerIs` | Telegram/cmake/obj2binobj.py:50-55 | fields count from 1, an empty or missing one gives -1, and those after the third do not matter |
| `MeshTools.ReadFace` | Telegram/cmake/obj2binobj.py:48-58 | a face line appends its fan, with indices counted from 0 and -1 for a missing one |
| `MeshTools.ReadObj` | Telegram/cmake/obj2binobj.py:35-58 | the reader computes the arrays of all lines, or the error of the first bad one |
| `MeshTools.WriteBinary` | Telegram/cmake/obj2binobj.py:60-69 | the encoding, or an error if a count or an index does not fit into 32 bits |
| `MeshTools.Reader.ReadInt` | Telegram/cmake/binobj2obj.py:34-38 | one integer is read and the shared offset moves by four |
| `MeshTools.Reader.ReadFloats` | Telegram/cmake/binobj2obj.py:40-44 | the floats are read and the shared offset moves past them |
| `MeshTools.Reader.ReadCorners` | Telegram/cmake/binobj2obj.py:49-52 | the corners are read at their offsets, in order |
| `MeshTools.Reader.ReadMesh` | Telegram/cmake/binobj2obj.py:46-55 | reading with the moving offset is decoding, with the trailing-bytes check |
| `MeshTools.WriteObj` | Telegram/cmake/binobj2obj.py:57-80 | the writer produces the lines of the whole triples, pairs and triangles |
| `MeshTools.ReadWritten` | Telegram/cmake/binobj2obj.py:57-80 | reading the written text gives back the whole triples, pairs and triangles, missing indices included |
| `MeshTools.RoundTrip` | Telegram/cmake/binobj2obj.py:9-20 | decompiling an accepted file and compiling the text gives the same bytes if and only if the file holds whole triples, pairs and triangles |
| `MeshTools.PartialTriple` | Telegram/cmake/binobj2obj.py:9-20 | a concrete accepted file that does not keep its bytes |
| `MeshTools.CompiledIsWhole` | Telegram/cmake/obj2binobj.py:41-58 | the compiler only produces whole triples, pairs and triangles |
| `MeshTools.CompileIsStable` | Telegram/cmake/binobj2obj.py:9-15 | compile, decompile, compile gives what compile gives, for every polygon text |
| `MessageData.StepKeeps` | Telegram/SourceFiles/apiwrap.cpp:634-765 | every request, resolve and answer keeps the invariant: asked entries are exactly the messages of outstanding requests, unasked ones have a resolve queued, and each callback waits for its message or has run, as often as it was registered for it |
| `MessageData.RunKeeps` | Telegram/SourceFiles/apiwrap.cpp:634-765 | the invariant holds in every run |
| `MessageData.NoMessageAskedTwice` | Telegram/SourceFiles/apiwrap.cpp:679-733 | no message is in two outstanding requests of one table |
| `MessageData.ResolveAsks` | Telegram/SourceFiles/apiwrap.cpp:679-733 | a resolve asks for every message that was not asked for, in one new request per table, and leaves the others |
| `MessageData.QuietRunHasRunAll` | Telegram/SourceFiles/apiwrap.cpp:735-765 | with nothing queued or outstanding no entry is left and every callback has run exactly as often as it was registered, message by message |
| `MessageData.RequestWaits` | Telegram/SourceFiles/apiwrap.cpp:634-647 | a registered callback takes the last place of its message |
| `MessageData.WaitingIsAsked` | Telegram/SourceFiles/apiwrap.cpp:634-733 | the message of a waiting callback is in exactly one outstanding request, or in none and a resolve is queued |
| `MessageData.KeepsWaiting` | Telegram/SourceFiles/apiwrap.cpp:634-765 | until the request that carries its message is answered a callback keeps its place, in every run |
| `MessageData.AnswerRuns` | Telegram/SourceFiles/apiwrap.cpp:735-765 | an answer runs each callback as often as it waits for one of the messages of that request, and no other callback |
| `MessageData.OnlyAnswersRun` | Telegram/SourceFiles/apiwrap.cpp:634-733 | nothing else runs a callback |
| `MessageData.Session.RequestMessageData` | Telegram/SourceFiles/apiwrap.cpp:634-647 | the method adds its callback and queues a resolve exactly when the message is not asked for |
| `MessageData.Session.CollectMessageIds` | Telegram/SourceFiles/apiwrap.cpp:649-660 | exactly the messages that were not asked for |
| `MessageData.Session.ResolveMessageDatas` | Telegram/SourceFiles/apiwrap.cpp:679-733 | the map loops refine the resolve step, in the order they happen to visit the channels |
| `MessageData.Session.FinalizeMessageDataRequest` | Telegram/SourceFiles/apiwrap.cpp:735-765 | the erase loop refines the answer step |
| `FileReference.StepKeeps` | Telegram/SourceFiles/apiwrap.cpp:2720-2771 | an origin has handlers if and only if exactly one request for it is outstanding, so the lookups in the answers never fail |
| `FileReference.RunKeeps` | Telegram/SourceFiles/apiwrap.cpp:2720-2994 | the invariant and the conservation of handlers hold in every run |
| `FileReference.QuietRunHasRunAll` | Telegram/SourceFiles/apiwrap.cpp:2755-2769 | with nothing outstanding nothing waits and every handler has run as often as it was passed in |
| `FileReference.TargetOf` | Telegram/SourceFiles/apiwrap.cpp:2784-2994 | exactly the message origins shown by an instant view or a rich page are redirected, to that web page and that cloud draft; exactly unknown items and peers and a missing origin fail; exactly the origins with a hook ask with it |
| `FileReference.TargetNeverRedirectsTwice` | Telegram/SourceFiles/apiwrap.cpp:2784-2994 | a redirected origin is not redirected again |
| `FileReference.RefreshedWaits` | Telegram/SourceFiles/apiwrap.cpp:2784-2994 | after a refresh that does not fail at once the handler waits for one outstanding request, for the origin or the one it is redirected to |
| `FileReference.KeepsWaiting` | Telegram/SourceFiles/apiwrap.cpp:2725-2729 | until that request is answered the handler keeps its place, whatever else happens |
| `FileReference.AnswerRuns` | Telegram/SourceFiles/apiwrap.cpp:2734-2770 | the answer, or the failure, runs the waiting handler with its outcome, in its place |
| `FileReference.RunHooks` | Telegram/SourceFiles/apiwrap.cpp:2792-2806 | in every run the hook of an origin waits right behind its first caller, exactly where there is one, and nowhere else |
| `FileReference.Session.RequestFileReference` | Telegram/SourceFiles/apiwrap.cpp:2720-2771 | joins the handlers of a known origin, or sends the one request |
| `FileReference.Session.RefreshFileReference` | Telegram/SourceFiles/apiwrap.cpp:2784-2994 | the method refines the refresh step with its redirects |
| `FileReference.Session.Answer` | Telegram/SourceFiles/apiwrap.cpp:2755-2769 | takes the handlers out before it runs them, in their order |
| `BlockedPeers.StepKeeps` | Telegram/SourceFiles/api/api_blocked_peers.cpp:75-224 | every step, with changes of the blocked flag from outside, keeps the tracked request outstanding, the callbacks conserved and the total at least the length of the list |
| `BlockedPeers.RunKeeps` | Telegram/SourceFiles/api/api_blocked_peers.cpp:75-224 | the invariant holds in every run |
| `BlockedPeers.QuietRunHasRunAll` | Telegram/SourceFiles/api/api_blocked_peers.cpp:75-187 | with no change request outstanding the map is empty and every accepted callback ran exactly once, stale answers included |
| `BlockedPeers.CallbackFate` | Telegram/SourceFiles/api/api_blocked_peers.cpp:84-166 | in every run a tracked request stays tracked until the first step that takes it; its callbacks are told the outcome of their own request if and only if that step is its own answer, and otherwise that answer is still to come |
| `BlockedPeers.TakenTells` | Telegram/SourceFiles/api/api_blocked_peers.cpp:84-187 | what each step that takes a request tells the callbacks, and when that is the outcome of their own request |
| `BlockedPeers.StaleAnswerTells` | Telegram/SourceFiles/api/api_blocked_peers.cpp:84-166 | a concrete run in which the answer to a block that was given up tells a later unblock that it failed, though it succeeds |
| `BlockedPeers.Tracker.SetIsBlocked` | Telegram/SourceFiles/data/data_peer.cpp:2133-2148 | refines the change of the flag by an update or by full user data |
| `BlockedPeers.TotalAlwaysCoversList` | Telegram/SourceFiles/api/api_blocked_peers.cpp:27-50 | the cached total is never less than the length of the cached list |
| `BlockedPeers.RunBlocked` | Telegram/SourceFiles/api/api_blocked_peers.cpp:84-158 | in every run a peer counts as blocked if and only if the last accepted change or outside update says so |
| `BlockedPeers.SliceStep` | Telegram/SourceFiles/api/api_blocked_peers.cpp:84-214 | which events change the cached slice, and to what |
| `BlockedPeers.WithoutIs` | Telegram/SourceFiles/api/api_blocked_peers.cpp:137-142 | the first item of the peer goes and the others keep their order |
| `BlockedPeers.BlockThenUnblock` | Telegram/SourceFiles/api/api_blocked_peers.cpp:90-148 | unblocking takes back what blocking did to the slice |
| `BlockedPeers.UnblockedTotal` | Telegram/SourceFiles/api/api_blocked_peers.cpp:143-145 | the total goes down by one unless it already is the length of the list |
| `BlockedPeers.LoadStep` | Telegram/SourceFiles/api/api_blocked_peers.cpp:189-224 | at most one load is on its way, and its answer or failure lets the next one be sent |
| `BlockedPeers.Tracker.BlockAlreadySent` | Telegram/SourceFiles/api/api_blocked_peers.cpp:168-187 | joins a request of the same kind, or cancels one of the other kind and takes its callbacks along |
| `BlockedPeers.Tracker.Block` | Telegram/SourceFiles/api/api_blocked_peers.cpp:75-114 | refines the block step |
| `BlockedPeers.Tracker.Unblock` | Telegram/SourceFiles/api/api_blocked_peers.cpp:116-166 | refines the unblock step |
| `BlockedPeers.Tracker.BlockDone` | Telegram/SourceFiles/api/api_blocked_peers.cpp:84-107 | refines the answer to a block request, which may be stale |
| `BlockedPeers.Tracker.UnblockDone` | Telegram/SourceFiles/api/api_blocked_peers.cpp:128-158 | refines the answer to an unblock request, which may be stale |
| `BlockedPeers.Tracker.LoadDone` | Telegram/SourceFiles/api/api_blocked_peers.cpp:24-50 | the slice of an answer replaces the cached one |
| `Drafts.StepKeeps` | Telegram/SourceFiles/apiwrap.cpp:2306-2572 | every step keeps this: a non-zero id of a live thread is outstanding, or waits for a refreshed file reference |
| `Drafts.RunKeeps` | Telegram/SourceFiles/apiwrap.cpp:2306-2590 | the invariant holds in every run, through cancels, overwrites and retries |
| `Drafts.StaleOnlyByOrphans` | Telegram/SourceFiles/apiwrap.cpp:2325-2531 | with all sent entries on their way, those of gone threads included, an event keeps them so if and only if it is not a save at once that cancels the request of another entry |
| `Drafts.OrphanIsGone` | Telegram/SourceFiles/apiwrap.cpp:2325-2531 | such an entry is that of a gone thread of the same slot |
| `Drafts.ScheduledRestores` | Telegram/SourceFiles/apiwrap.cpp:2533-2572 | after the scheduled saves every entry is sent and on its way, whatever was stale before |
| `Drafts.RunSentFly` | Telegram/SourceFiles/apiwrap.cpp:2306-2590 | in every run without such a save every sent entry is on its way, those of gone threads included |
| `Drafts.StaleEntry` | Telegram/SourceFiles/apiwrap.cpp:2325-2531 | a concrete run after which the entry of a gone thread names a cancelled request |
| `Drafts.PreventedMeansInFlight` | Telegram/SourceFiles/apiwrap.cpp:2574-2581 | when the quit is prevented every remaining entry is in flight |
| `Drafts.AnswerSignals` | Telegram/SourceFiles/apiwrap.cpp:2448-2453 | an answer signals that the quit can go on if and only if it empties the map |
| `Drafts.OnlyAnswersSignal` | Telegram/SourceFiles/apiwrap.cpp:2583-2590 | no other event signals |
| `Drafts.DraftDisappears` | Telegram/SourceFiles/apiwrap.cpp:2440-2447 | a cloud draft disappears if and only if the server takes it away, or its own scheduled save fails for good |
| `Drafts.DoneKeepsDrafts` | Telegram/SourceFiles/apiwrap.cpp:2474-2489 | an accepted save keeps every cloud draft, and the one that names it names no request any more |
| `Drafts.WhoClears` | Telegram/SourceFiles/apiwrap.cpp:2311-2330 | exactly the scheduled saves clear their drafts when they fail, through the retry too |
| `Drafts.FailureIs` | Telegram/SourceFiles/apiwrap.cpp:2498-2517 | only a rich save with a stale file reference is repeated, and only once; every other failure ends it |
| `Drafts.RetryIs` | Telegram/SourceFiles/apiwrap.cpp:2503-2513 | the retry takes the place of the failed save on its way, in the cloud draft and in the entry |
| `Drafts.DelayedIs` | Telegram/SourceFiles/apiwrap.cpp:2100-2108 | a delayed save adds an unsent entry exactly for a live thread that has none and is not skipped |
| `Drafts.DraftIsLost` | Telegram/SourceFiles/apiwrap.cpp:2440-2447 | in every run a cloud draft that is gone was lost in one of these two ways |
| `Drafts.DraftInput` | Telegram/SourceFiles/apiwrap.cpp:2440-2489 | a concrete scheduled save: its answer keeps the draft, its failure clears it |
| `Drafts.QuitIsTold` | Telegram/SourceFiles/apiwrap.cpp:2583-2590 | whatever happens while the quit waits, it is told by the first step that empties the map, and only then, if and only if that step is not one of the timer |
| `Drafts.EmptiedIsTold` | Telegram/SourceFiles/apiwrap.cpp:2440-2581 | a step that empties the map signals, unless it is a scheduled save that erases every entry |
| `Drafts.TimerErasesGone` | Telegram/SourceFiles/apiwrap.cpp:2533-2549 | with all entries sent the scheduled saves erase exactly the entries of threads that are gone, and do nothing else |
| `Drafts.ForgetsGone` | Telegram/SourceFiles/apiwrap.cpp:2533-2549 | so the timer empties the map if and only if no entry has a live thread |
| `Drafts.QuitGoesOn` | Telegram/SourceFiles/apiwrap.cpp:2574-2590 | after a prevented quit, whatever happens except a save at once that orphans an entry: all sent entries stay on their way; nothing is unsent without a new delayed save; the map is empty when everything has landed and nothing is unsent; and the signal is given when it becomes empty, unless the timer erased the last entries |
| `Drafts.ReachPrevented` | Telegram/SourceFiles/apiwrap.cpp:2574-2581 | a concrete quit that is prevented by one scheduled draft |
| `Drafts.QuitForgotten` | Telegram/SourceFiles/apiwrap.cpp:2533-2549 | a concrete run in which that quit is never told: the thread is destroyed, the timer fires, the save lands |
| `Drafts.RunCounts` | Telegram/SourceFiles/history/history.cpp:458-478 | the counter of running saves is the number of flights and of cancelled saves of the slot, in every run |
| `Drafts.LeftOverExactlyWhenCancelled` | Telegram/SourceFiles/history/history.cpp:458-478 | with nothing in flight a slot still counts as saving if and only if one of its saves was cancelled |
| `Drafts.LeftOver` | Telegram/SourceFiles/history/history.cpp:458-478 | a concrete run of two saves and an answer after which nothing is in flight and the slot still counts as saving |
| `Drafts.Session.SaveDraftToCloudDelayed` | Telegram/SourceFiles/apiwrap.cpp:2100-2108 | refines the delayed save |
| `Drafts.Session.SavePreparedDraftToCloud` | Telegram/SourceFiles/apiwrap.cpp:2325-2531 | refines one save: serialize, cancel the old request, count, send |
| `Drafts.Session.SaveDraftsToCloud` | Telegram/SourceFiles/apiwrap.cpp:2533-2572 | the erase loop refines the scheduled saves |
| `Drafts.Session.IsQuitPrevent` | Telegram/SourceFiles/apiwrap.cpp:2574-2581 | refines the quit check |
| `Drafts.Session.DraftSaved` | Telegram/SourceFiles/apiwrap.cpp:2474-2498 | refines the success answer, about which DoneKeepsDrafts says what stays |
| `Drafts.Session.DraftFailed` | Telegram/SourceFiles/apiwrap.cpp:2498-2517 | refines the failure answer, with the one retry after a stale file reference |
| `Drafts.Session.ReferenceRefreshed` | Telegram/SourceFiles/apiwrap.cpp:2503-2513 | refines the retry: a new id, or the cleanup |
| `Drafts.Session.FinishSavingCloudDraft` | Telegram/SourceFiles/history/history.cpp:465-478 | a counter of zero is removed |
| `Albums.StepKeeps` | Telegram/SourceFiles/apiwrap.cpp:5337-5483 | every event keeps the invariant: awaited media have an empty place in an open album, items of open albums exist, an album is logged at most once |
| `Albums.RunKeeps` | Telegram/SourceFiles/apiwrap.cpp:4251-5483 | the invariant holds in every run, and without a failed file no unsent album has all its media |
| `Albums.UploadFindsItem` | Telegram/SourceFiles/apiwrap.cpp:5345-5349 | the album of an uploaded medium is found, open, and the item has no medium yet: the asserts of the upload answer hold |
| `Albums.CancelFindsItem` | Telegram/SourceFiles/storage/localimageloader.cpp:389-394 | a cancelled item is found in its album: the assert of the removal holds |
| `Albums.CompleteExists` | Telegram/SourceFiles/apiwrap.cpp:5378-5393 | the items of a complete album exist, so the branch without a sample is never taken |
| `Albums.ReadyIs` | Telegram/SourceFiles/apiwrap.cpp:5370-5483 | the check sends an album exactly when it is open, not empty and complete, with all media in the order of the items |
| `Albums.WayIs` | Telegram/SourceFiles/apiwrap.cpp:5394-5461 | a complete album goes to the ephemeral messages if and only if its sample replies to one, otherwise it is paid if and only if it has a price, otherwise it is a single message if and only if one item is left; it stays in the map until the answer if and only if it was paid or had several items |
| `Albums.RunWays` | Telegram/SourceFiles/apiwrap.cpp:5394-5461 | in every run an album with a price is never sent as a single or plain multi message, and one without is never paid |
| `Albums.UploadSends` | Telegram/SourceFiles/apiwrap.cpp:5337-5350 | an uploaded medium sends its album if and only if it was the last one missing |
| `Albums.CancelSends` | Telegram/SourceFiles/apiwrap.cpp:5352-5368 | giving up an item sends the rest if and only if it was the only one missing, and drops an album that is empty |
| `Albums.OthersSendNothing` | Telegram/SourceFiles/apiwrap.cpp:5337-5368 | no other event sends anything |
| `Albums.AnswerIs` | Telegram/SourceFiles/apiwrap.cpp:5311-5330 | an answered plain album leaves the map; a delivered paid one leaves with its local messages, a refused one stays |
| `Albums.FailureStrands` | Telegram/SourceFiles/storage/localimageloader.cpp:1078-1089 | a file that cannot be prepared strands its album if and only if all other items have their media |
| `Albums.StuckStays` | Telegram/SourceFiles/storage/localimageloader.cpp:1078-1089 | a stranded album stays unsent in every run until one of its items is given up |
| `Albums.StrandedInput` | Telegram/SourceFiles/storage/localimageloader.cpp:1078-1089 | a concrete run of two files that ends in a complete album that was not sent |
| `Albums.UploadFailureLoses` | Telegram/SourceFiles/apiwrap.cpp:5055-5141 | an upload that gives no medium loses its item, which then waits for a medium that cannot come, if and only if the item still waits |
| `Albums.FileFailureLoses` | Telegram/SourceFiles/storage/file_upload.cpp:370-417 | a file that fails in the uploader loses its item if and only if it was being uploaded |
| `Albums.NothingElseLoses` | Telegram/SourceFiles/apiwrap.cpp:5337-5368 | no event but these two failures loses an item |
| `Albums.LostStays` | Telegram/SourceFiles/storage/file_upload.cpp:245-262 | the album of a lost item stays open and is not sent in every run until that item is given up |
| `Albums.RunComes` | Telegram/SourceFiles/apiwrap.cpp:4251-5483 | in every run without a file that fails to be prepared, to be uploaded or to become a medium, every unsent album has an item whose medium is still to come |
| `Albums.LostInput` | Telegram/SourceFiles/apiwrap.cpp:5055 | a concrete run of one file whose upload gives no medium |
| `Albums.LostFileInput` | Telegram/SourceFiles/storage/file_upload.cpp:370-417 | a concrete run of one file that fails in the uploader |
| `Albums.Session.SendFiles` | Telegram/SourceFiles/apiwrap.cpp:4251-4257 | the album starts with one item per task |
| `Albums.Session.RemoveFromAlbum` | Telegram/SourceFiles/storage/localimageloader.cpp:1078-1089 | takes the item of the failed task out, without a check |
| `Albums.Session.UploadDone` | Telegram/SourceFiles/apiwrap.cpp:5050-5142 | refines the upload answer |
| `Albums.Session.SendAlbumWithUploaded` | Telegram/SourceFiles/apiwrap.cpp:5337-5350 | fills the medium and checks the album |
| `Albums.Session.CancelLocalItem` | Telegram/SourceFiles/apiwrap.cpp:5352-5368 | removes the item and checks the album |
| `Albums.Session.SendAlbumIfReady` | Telegram/SourceFiles/apiwrap.cpp:5370-5483 | the loop over the items, and the four ways to send, refine the check |
| `Albums.Session.SendDone` | Telegram/SourceFiles/apiwrap.cpp:5321-5482 | the answers: a refused paid album stays, a delivered one takes its local items along |
| `DialogsLoad.NextOffset` | Telegram/SourceFiles/apiwrap.cpp:1022-1069 | the offset of a page is its last chat, and there is a next page if and only if some newest message has a date, which may be that of an earlier chat |
| `DialogsLoad.DateIs` | Telegram/SourceFiles/apiwrap.cpp:1043-1053 | the date of a chat is that of the last message of the page with its newest id and its peer, or 0 |
| `DialogsLoad.RunPlaces` | Telegram/SourceFiles/apiwrap.cpp:926-1069 | in every run each list request on its way, and the next one, starts at the end of the last dated page of its folder since the load started, or at the beginning if there was none |
| `DialogsLoad.ServedPage` | Telegram/SourceFiles/apiwrap.cpp:1022-1069 | a page of a server that goes on after the offset moves the place to its end, and after the last chat there is no next page |
| `DialogsLoad.PagesJoin` | Telegram/SourceFiles/apiwrap.cpp:909-1096 | with such a server the pages of a load follow each other without a gap in every run, and together they are the whole list when it is received |
| `DialogsLoad.StepKeeps` | Telegram/SourceFiles/apiwrap.cpp:909-1140 | every event keeps the invariant over loads, requests, history and the date block |
| `DialogsLoad.RunKeeps` | Telegram/SourceFiles/apiwrap.cpp:909-1140 | the invariant holds in every run |
| `DialogsLoad.OneRequestEach` | Telegram/SourceFiles/apiwrap.cpp:916-988 | a folder has at most one list and one pinned request on their way, its load exists, and none for a part that was received |
| `DialogsLoad.DoneAfterBoth` | Telegram/SourceFiles/apiwrap.cpp:1079-1096 | the end of a load is announced after its list and its pinned chats, each received exactly once since it started |
| `DialogsLoad.QuietLoadGoesOn` | Telegram/SourceFiles/apiwrap.cpp:916-924 | a load that waits for nothing can ask for its next page, unless an answer was ignored or the date blocks it |
| `DialogsLoad.BlockIsLifted` | Telegram/SourceFiles/apiwrap.cpp:1131-1141 | asking for older chats lifts the block and sends the request |
| `DialogsLoad.FlagsStep` | Telegram/SourceFiles/apiwrap.cpp:990-1000 | when the flags of the block by date follow the main list, and that they stay otherwise |
| `DialogsLoad.NextLoad` | Telegram/SourceFiles/apiwrap.cpp:1002-1020 | what is loaded next: nothing while the filters load, then the main list, then the archive if it is needed |
| `DialogsLoad.PageAsksOn` | Telegram/SourceFiles/apiwrap.cpp:941-977 | after a page of the main list the next one is asked for at once, from its end, unless the filters load or the date blocks it |
| `DialogsLoad.FailedIs` | Telegram/SourceFiles/apiwrap.cpp:978-980 | a failed list request can be sent again from the same place |
| `DialogsLoad.PinnedRequestIs` | Telegram/SourceFiles/apiwrap.cpp:1098-1112 | the pinned chats are asked for once, unless they came |
| `DialogsLoad.PinnedAnswerIs` | Telegram/SourceFiles/apiwrap.cpp:1104-1129 | after the pinned chats the load goes on, or is done if its list came before |
| `DialogsLoad.IgnoredIsStuck` | Telegram/SourceFiles/apiwrap.cpp:943-947 | an answer that nothing was modified leaves the load without a request and without a way to send one |
| `DialogsLoad.StuckStays` | Telegram/SourceFiles/apiwrap.cpp:943-947 | such a load never ends in any run |
| `DialogsLoad.StuckExactlyIgnored` | Telegram/SourceFiles/apiwrap.cpp:941-977 | in every run a load waits for a request that is gone if and only if an answer for its folder was ignored |
| `DialogsLoad.Session.RequestMoreDialogs` | Telegram/SourceFiles/apiwrap.cpp:916-988 | refines asking for the next page |
| `DialogsLoad.Session.DialogsDone` | Telegram/SourceFiles/apiwrap.cpp:941-977 | refines the answer to a list request, with everything it triggers |
| `DialogsLoad.Session.DialogsFailed` | Telegram/SourceFiles/apiwrap.cpp:978-980 | the load of a failed request still exists, so its unchecked use is safe |
| `DialogsLoad.Session.FindOffset` | Telegram/SourceFiles/apiwrap.cpp:1026-1057 | the loops from the end find the next offset |
| `DialogsLoad.Session.UpdateDialogsOffset` | Telegram/SourceFiles/apiwrap.cpp:1022-1069 | stores the next offset, or ends the list |
| `DialogsLoad.Session.FinalizePinned` | Telegram/SourceFiles/apiwrap.cpp:1104-1129 | refines the answer or failure of the pinned request |
| `DialogsLoad.Session.RefreshDialogsLoadBlocked` | Telegram/SourceFiles/apiwrap.cpp:990-1000 | the flags follow from the main load and the date |
| `DialogsLoad.Session.RequestMoreDialogsIfNeeded` | Telegram/SourceFiles/apiwrap.cpp:1002-1020 | refines the choice of what to load next |
| `StickerSets.SaveIs` | Telegram/SourceFiles/apiwrap.cpp:1681-1827 | the stored sets after a save, set by set and independent of the order of removals: who survives, with which flags, and that every survivor has a reason to be kept |
| `StickerSets.SaveFlags` | Telegram/SourceFiles/apiwrap.cpp:1717-1811 | flag by flag: when a set leaves the archive, is installed, and which date it has after a save |
| `StickerSets.SaveDrops` | Telegram/SourceFiles/apiwrap.cpp:1684-1825 | a set is dropped if and only if it is a removed recent list, was removed with nothing to keep it, or nothing keeps it any more |
| `StickerSets.OrderIs` | Telegram/SourceFiles/apiwrap.cpp:1777-1811 | the new order is the given one without the sets that do not survive the removal |
| `StickerSets.OrderIsInstalled` | Telegram/SourceFiles/apiwrap.cpp:1777-1811 | every set of the order is stored and installed, and has a date |
| `StickerSets.InstalledIsOrder` | Telegram/SourceFiles/apiwrap.cpp:1764-1811 | a set of the saved kind that is not archived is installed if and only if it is in the order |
| `StickerSets.OtherKindsStay` | Telegram/SourceFiles/apiwrap.cpp:1764-1775 | a set of another kind that is in no list stays as it is |
| `StickerSets.RecentIs` | Telegram/SourceFiles/apiwrap.cpp:1683-1728 | the recent stickers lose exactly those of removed sets, or all of them |
| `StickerSets.RequestsAre` | Telegram/SourceFiles/apiwrap.cpp:1729-1806 | each placed archived set is installed by exactly one request, and exactly the removed sets that are not archived are uninstalled |
| `StickerSets.ClearsAre` | Telegram/SourceFiles/apiwrap.cpp:1683-1715 | each recent list is cleared by its own request, as often as it is removed |
| `StickerSets.StepKeeps` | Telegram/SourceFiles/apiwrap.cpp:1590-1864 | every save and answer keeps the tracked requests the ones on their way, and those of the last save of their kind |
| `StickerSets.RunKeeps` | Telegram/SourceFiles/apiwrap.cpp:1590-1864 | the invariant holds in every run |
| `StickerSets.AnswerReorders` | Telegram/SourceFiles/apiwrap.cpp:1649-1660 | an answer sends the order if and only if it is the last one the save waits for, and the order has two sets or more |
| `StickerSets.QuietSaveIsOrdered` | Telegram/SourceFiles/apiwrap.cpp:1649-1660 | with nothing of a kind on its way the last order of two sets or more has been sent |
| `StickerSets.OrderFollowsSave` | Telegram/SourceFiles/apiwrap.cpp:1609-1660 | in every run a sent order is that of the last save of its kind, and was sent once |
| `StickerSets.SaveLoses` | Telegram/SourceFiles/apiwrap.cpp:1607-1611 | a save cancels exactly the requests of the last save of its kind, and the tracked requests that clear recent stickers, of any kind |
| `StickerSets.SendOneIs` | Telegram/SourceFiles/apiwrap.cpp:1703-1806 | each request of a save gets a new id, under which it is on its way and tracked |
| `StickerSets.RequestFate` | Telegram/SourceFiles/apiwrap.cpp:1590-1864 | in every run a request is on its way until its answer or the first save that cancels it |
| `StickerSets.SaveForgets` | Telegram/SourceFiles/apiwrap.cpp:1607-1806 | a save that cancels all requests to install a set that is not archived, or to uninstall one that is not stored, leaves none |
| `StickerSets.StaysForgotten` | Telegram/SourceFiles/apiwrap.cpp:1590-1864 | and no save or answer asks for it again, in any run |
| `StickerSets.LostUninstall` | Telegram/SourceFiles/apiwrap.cpp:1607-1611 | two concrete saves after which a removed set is never uninstalled |
| `StickerSets.Session.SaveStickerSets` | Telegram/SourceFiles/apiwrap.cpp:1590-1864 | the removal, clearing, placing and pruning loops refine the save |
| `StickerSets.Session.RemoveSets` | Telegram/SourceFiles/apiwrap.cpp:1681-1762 | the removal loop, with its requests |
| `StickerSets.Session.RemoveRecent` | Telegram/SourceFiles/apiwrap.cpp:1721-1728 | erasing in place keeps the order of the rest |
| `StickerSets.Session.ClearInstalled` | Telegram/SourceFiles/apiwrap.cpp:1764-1775 | the clearing loop over the map |
| `StickerSets.Session.PlaceSets` | Telegram/SourceFiles/apiwrap.cpp:1777-1811 | the placing loop, with its requests |
| `StickerSets.Session.PruneSets` | Telegram/SourceFiles/apiwrap.cpp:1813-1825 | the pruning loop over the map |
| `StickerSets.Session.StickerSetDisenabled` | Telegram/SourceFiles/apiwrap.cpp:1649-1660 | refines the answer to an install or uninstall request |
| `WebPages.ResolveAsks` | Telegram/SourceFiles/apiwrap.cpp:2642-2714 | an asked page gets a new request of its chat, which carries the items of exactly the pages that got it, each once; all other pages keep what they had |
| `WebPages.ResolveWaits` | Telegram/SourceFiles/apiwrap.cpp:2650-2718 | after a resolve a page is unasked if and only if it is early or was found in no item; an early one has a timer that fires in time |
| `WebPages.LeftWithoutTimer` | Telegram/SourceFiles/apiwrap.cpp:2650-2718 | a page is left unasked and without a timer if and only if it was due, no item shows it, and no page is early |
| `WebPages.TempResolves` | Telegram/SourceFiles/apiwrap.cpp:2655-2714 | every temporary id -1 or -index-2 is in range and stands for the request of its group |
| `WebPages.StepKeeps` | Telegram/SourceFiles/apiwrap.cpp:2619-3014 | every event keeps the invariant: no negative id, an asked page has its request on its way if and only if that did not fail, requests list the pages that wait for them, unasked pages have a timer |
| `WebPages.RunKeeps` | Telegram/SourceFiles/apiwrap.cpp:2619-3014 | the invariant holds in every run |
| `WebPages.AnswerEnds` | Telegram/SourceFiles/apiwrap.cpp:2996-3014 | an answer ends the waiting of exactly the pages of its request |
| `WebPages.PendingStep` | Telegram/SourceFiles/apiwrap.cpp:2619-2641 | a page waits from its accepted request until it is cleared or answered; the timer then fires when it is due or earlier |
| `WebPages.RequestedIsAsked` | Telegram/SourceFiles/apiwrap.cpp:2619-2714 | a page that is asked for is in the request of the first resolve in which it is due and shown |
| `WebPages.MarkedIs` | Telegram/SourceFiles/apiwrap.cpp:2996-3014 | an answer marks exactly the pages as failed that waited for it and are still pending, and nothing else changes a page but its own update |
| `WebPages.FlightStep` | Telegram/SourceFiles/apiwrap.cpp:2681-3014 | an answer or failure ends its request, and only a resolve sends new ones |
| `WebPages.FailedStays` | Telegram/SourceFiles/apiwrap.cpp:2681-2701 | in every run the request of an asked page is on its way if and only if it did not fail, and then its answer ends the waiting; the pages of a failed request stay marked until they are cleared |
| `WebPages.Session.RequestWebPageDelayed` | Telegram/SourceFiles/apiwrap.cpp:2619-2628 | refines the delayed request and its timer |
| `WebPages.Session.CollectIds` | Telegram/SourceFiles/apiwrap.cpp:2643-2679 | the first pass, with temporary ids and the groups by channel |
| `WebPages.Session.SendRequests` | Telegram/SourceFiles/apiwrap.cpp:2681-2701 | one request per group, filed by index |
| `WebPages.Session.AssignIds` | Telegram/SourceFiles/apiwrap.cpp:2702-2714 | the last pass replaces temporary ids |
| `WebPages.Session.ResolveWebPages` | Telegram/SourceFiles/apiwrap.cpp:2642-2718 | the three passes and the timer refine the resolve step |
| `WebPages.Session.GotWebPages` | Telegram/SourceFiles/apiwrap.cpp:2996-3014 | the erase loop refines the answer |
| `Forward.SplitIsMaximal` | Telegram/SourceFiles/apiwrap.cpp:3974-4010 | the batches are non-empty maximal runs from one chat, and together all items in their order |
| `Forward.SplitIsUnique` | Telegram/SourceFiles/apiwrap.cpp:3974-4010 | there is no other way to cut the items into maximal runs |
| `Forward.MusicIs` | Telegram/SourceFiles/apiwrap.cpp:3776-3788 | the saved music goes one way and all other items the other, each once and in order |
| `Forward.ForwardedIs` | Telegram/SourceFiles/apiwrap.cpp:3772-4012 | exactly the saved music is sent as documents and exactly the rest is in the batches, in order |
| `Forward.BatchPays` | Telegram/SourceFiles/apiwrap.cpp:3884-3889 | each batch pays for its items from what the batches before it left |
| `Forward.StarsAreKept` | Telegram/SourceFiles/apiwrap.cpp:3884-3889 | stars paid and left are the stars approved, and all batches together pay the minimum of the approved stars and the price of all items |
| `Forward.CallbackOnSuccess` | Telegram/SourceFiles/apiwrap.cpp:3800-3809 | after any answers in any order the callback was called once if every batch succeeded, and not otherwise |
| `Forward.Forwarding.ForwardMessages` | Telegram/SourceFiles/apiwrap.cpp:3772-4012 | documents, batches, stars and the shared counter after one call |
| `Forward.Forwarding.SendMusic` | Telegram/SourceFiles/apiwrap.cpp:3780-3788 | saved music is taken out in place, in order |
| `Forward.Forwarding.SendBatches` | Telegram/SourceFiles/apiwrap.cpp:3873-4010 | the loop over the items refines the split and the payment |
| `Forward.Forwarding.SendAccumulated` | Telegram/SourceFiles/apiwrap.cpp:3878-3970 | one batch: counter, payment, request |
| `Forward.Forwarding.BatchDone` | Telegram/SourceFiles/apiwrap.cpp:3937-3952 | counts down and calls the callback at zero |
| `MergedSearch.StartShown` | Telegram/SourceFiles/api/api_messages_search_merged.cpp:87-102 | a cleared search starts right, also when first pages come from the cache at once |
| `MergedSearch.StepKeeps` | Telegram/SourceFiles/api/api_messages_search_merged.cpp:14-65 | answers, failures and allowed requests for more keep what is shown right |
| `MergedSearch.RunMerged` | Telegram/SourceFiles/api/api_messages_search_merged.cpp:14-110 | after clear and search, in every order of pages and failures: the results of the chat in order, then those of the old chat in order, none lost or twice; the total is that of both once both first pages came |
| `MergedSearch.ShownIsPrefix` | Telegram/SourceFiles/api/api_messages_search_merged.cpp:14-77 | what is shown is a prefix of all results, and all of them when total and length agree, with and without an old chat |
| `MergedSearch.AnySearch` | Telegram/SourceFiles/api/api_messages_search_merged.cpp:87-110 | the same holds after any run of earlier searches, with their requests still on their way |
| `MergedSearch.MoreIsExact` | Telegram/SourceFiles/api/api_messages_search_merged.cpp:104-110 | a request for more keeps what is shown right if and only if results are missing, an answer is awaited, or the asked search is not ready or has no results |
| `MergedSearch.MoreAsks` | Telegram/SourceFiles/api/api_messages_search_merged.cpp:104-110 | while results are missing and the asked search waits for nothing, asking for more sends exactly one request, for the query and after the last result of the search that is shown next, which is the old chat if and only if the chat has no more |
| `MergedSearch.FailureIs` | Telegram/SourceFiles/api/api_messages_search.cpp:144-155 | a failure only ends its request; if it was the awaited one, more can be asked for again |
| `MergedSearch.AnswerEnds` | Telegram/SourceFiles/api/api_messages_search.cpp:139-167 | a stale answer only ends its request, and after the awaited one nothing is awaited |
| `MergedSearch.SearchIs` | Telegram/SourceFiles/api/api_messages_search_merged.cpp:80-102 | a cleared search starts with nothing shown and waits for the totals of both chats |
| `MergedSearch.RoundsComplete` | Telegram/SourceFiles/api/api_messages_search_merged.cpp:14-110 | asking and answering often enough shows all results of both chats in order, whatever the sizes of the pages |
| `MergedSearch.SearchShowsAll` | Telegram/SourceFiles/api/api_messages_search_merged.cpp:87-110 | a new search shows all results after its first pages and as many rounds as there are results |
| `MergedSearch.PastTheEnd` | Telegram/SourceFiles/api/api_messages_search_merged.cpp:104-110 | in every other state, with and without an old chat, asking for more twice shows the cached first page of the last search once more after all results |
| `MergedSearch.DisableIsExact` | Telegram/SourceFiles/api/api_messages_search_merged.cpp:67-71 | leaving out the old chat keeps what is shown right if and only if its first page did not come yet, or it has no results |
| `MergedSearch.DisableInput` | Telegram/SourceFiles/api/api_messages_search_merged.cpp:67-71 | a concrete search whose total and results still count the old chat after it was left out |
| `MergedSearch.InitialValid` | Telegram/SourceFiles/api/api_messages_search_merged.cpp:14-65 | a new search, with or without an old chat, is a start for all runs of the theorem |
| `MergedSearch.PageContinues` | Telegram/SourceFiles/api/api_messages_search.cpp:163-219 | the server's page after the offset continues what came before |
| `MergedSearch.Searcher.SearchMessages` | Telegram/SourceFiles/api/api_messages_search.cpp:89-93 | refines the start of a search |
| `MergedSearch.Searcher.SearchRequest` | Telegram/SourceFiles/api/api_messages_search.cpp:102-161 | the cached first page, or a request |
| `MergedSearch.Searcher.SearchDone` | Telegram/SourceFiles/api/api_messages_search.cpp:139-142 | only the awaited answer counts |
| `MergedSearch.Merger.OnFound` | Telegram/SourceFiles/api/api_messages_search_merged.cpp:38-49 | refines the handler of the main search |
| `MergedSearch.Merger.OnMigratedFound` | Telegram/SourceFiles/api/api_messages_search_merged.cpp:51-64 | refines the handler of the old chat |
| `MergedSearch.Merger.Search` | Telegram/SourceFiles/api/api_messages_search_merged.cpp:94-102 | refines the search of both chats |
| `MergedSearch.Merger.SearchMore` | Telegram/SourceFiles/api/api_messages_search_merged.cpp:104-110 | refines asking for more |
| `MergedSearch.Merger.AddFound` | Telegram/SourceFiles/api/api_messages_search_merged.cpp:73-77 | appends a page message by message |
| `InviteLinks.LookupIsSearch` | Telegram/SourceFiles/api/api_invite_links.cpp:124-141 | the slice has at most one active permanent link, at the front, if and only if the front-only lookup agrees with a full search and there is at most one |
| `InviteLinks.BroughtKeepsAll` | Telegram/SourceFiles/api/api_invite_links.cpp:28-36 | bringing to the front keeps all links |
| `InviteLinks.BroughtIsFronted` | Telegram/SourceFiles/api/api_invite_links.cpp:28-36 | it is enough if and only if one link at most is active and permanent |
| `InviteLinks.StepKeeps` | Telegram/SourceFiles/api/api_invite_links.cpp:143-741 | an event keeps the invariant if and only if the server keeps an explicit promise about that answer |
| `InviteLinks.MainKeeps` | Telegram/SourceFiles/api/api_invite_links.cpp:620-707 | with a faithful server the main link of a peer stays its active permanent link |
| `InviteLinks.RunKeeps` | Telegram/SourceFiles/api/api_invite_links.cpp:28-741 | both hold in every run with a faithful server |
| `InviteLinks.SetThenClear` | Telegram/SourceFiles/api/api_invite_links.cpp:620-707 | setting a permanent link and clearing it leaves the links that clearing alone leaves |
| `InviteLinks.SliceAfter` | Telegram/SourceFiles/api/api_invite_links.cpp:143-741 | which operation each event performs on the slice of its peer |
| `InviteLinks.PrependedIs` | Telegram/SourceFiles/api/api_invite_links.cpp:162-205 | where a new link goes, which one it replaces, that the others stay in order, and its count |
| `InviteLinks.PermanentIs` | Telegram/SourceFiles/api/api_invite_links.cpp:620-676 | a permanent link that is set is the first one with its usage, and all but the old one stay |
| `InviteLinks.ClearedIs` | Telegram/SourceFiles/api/api_invite_links.cpp:678-707 | clearing takes the permanent link and its count away and nothing else |
| `InviteLinks.EditedIs` | Telegram/SourceFiles/api/api_invite_links.cpp:286-300 | an edited link stays in its place, unless it gets revoked |
| `InviteLinks.MainAfter` | Telegram/SourceFiles/api/api_invite_links.cpp:196-707 | when the main link of the peer changes, and to what |
| `InviteLinks.ReloadKeepsPermanent` | Telegram/SourceFiles/api/api_invite_links.cpp:426-451 | a reload that races with a new permanent link keeps it in front, and behind it exactly the other links of the answer that are not active and permanent, in their order and as often; all are counted |
| `InviteLinks.CountIsKept` | Telegram/SourceFiles/api/api_invite_links.cpp:143-741 | an event keeps the count at least the length of the list if and only if it sets no new permanent link while the count is used up, and loads no more links than the count says unless a permanent one is known |
| `InviteLinks.RunCounts` | Telegram/SourceFiles/api/api_invite_links.cpp:143-741 | in every run of such events the counts of all peers cover their links |
| `InviteLinks.CountDrifts` | Telegram/SourceFiles/api/api_invite_links.cpp:641-663 | a concrete event that loses count: the first permanent link that is set |
| `InviteLinks.Cache.LookupMyPermanent` | Telegram/SourceFiles/api/api_invite_links.cpp:124-141 | the lookup at the front finds an active permanent link if there is one anywhere |
| `InviteLinks.Cache.BringPermanentToFront` | Telegram/SourceFiles/api/api_invite_links.cpp:28-36 | the search loop and the rotation |
| `InviteLinks.Cache.RemovePermanent` | Telegram/SourceFiles/api/api_invite_links.cpp:38-43 | the removal loop |
| `InviteLinks.Cache.ParseSlice` | Telegram/SourceFiles/api/api_invite_links.cpp:721-741 | the parsing loop drops the link that is cached as permanent |
| `InviteLinks.Cache.PrependMyToFirstSlice` | Telegram/SourceFiles/api/api_invite_links.cpp:162-205 | refines the prepend |
| `InviteLinks.Cache.GotMyLinks` | Telegram/SourceFiles/api/api_invite_links.cpp:426-451 | refines the answer with a first slice |
| `InviteLinks.Cache.SetMyPermanent` | Telegram/SourceFiles/api/api_invite_links.cpp:620-676 | refines setting the permanent link |
| `InviteLinks.Cache.ClearMyPermanent` | Telegram/SourceFiles/api/api_invite_links.cpp:678-707 | refines clearing it |
| `InviteLinks.Cache.EditDone` | Telegram/SourceFiles/api/api_invite_links.cpp:279-319 | refines the answer to an edit |
| `InviteLinks.Cache.ApplyExternalUpdate` | Telegram/SourceFiles/api/api_invite_links.cpp:522-538 | refines an update from outside |
| `FrameQueue.LastFewIs` | Telegram/Resources/bot_webview_shell_html/page.js:147-154 | the events that are kept are the latest 64, or all of fewer |
| `FrameQueue.LastFewNext` | Telegram/Resources/bot_webview_shell_html/page.js:147-154 | keeping the last 64 events one by one is keeping the last 64 of all |
| `FrameQueue.StepKeeps` | Telegram/Resources/bot_webview_shell_html/page.js:128-213 | every input keeps the queue, the frames and the timer right |
| `FrameQueue.RunKeeps` | Telegram/Resources/bot_webview_shell_html/page.js:128-985 | the invariant holds in every run |
| `FrameQueue.RunPast` | Telegram/Resources/bot_webview_shell_html/page.js:936-963 | a replaced frame receives nothing any more, in every continuation |
| `FrameQueue.RunFollows` | Telegram/Resources/bot_webview_shell_html/page.js:128-985 | in every run the frames, their histories and the timer are those that the list of inputs tells of, in which every posted event belongs to the frame of its time |
| `FrameQueue.Delivery` | Telegram/Resources/bot_webview_shell_html/page.js:128-985 | in every run, by the list of inputs: the queue holds the last 64 events since the current frame started to load; every frame received the last 64 events of each loading phase and then all events while it was loaded; at most one timer runs, for the current frame |
| `FrameQueue.DeliveryInput` | Telegram/Resources/bot_webview_shell_html/page.js:144-158 | a concrete event that waits for the first frame and is received when it has loaded |
| `FrameQueue.Shell.SendToFrame` | Telegram/Resources/bot_webview_shell_html/page.js:128-142 | refines sending, with the checks of generation and origin |
| `FrameQueue.Shell.PostToFrame` | Telegram/Resources/bot_webview_shell_html/page.js:144-158 | refines posting, with the shifting loop |
| `FrameQueue.Shell.FlushPendingEvents` | Telegram/Resources/bot_webview_shell_html/page.js:206-213 | the loop sends the queue and empties it; events that all wait for the current frame are received in full, in their order, unless the frame is mute |
| `FrameQueue.Shell.FrameLoad` | Telegram/Resources/bot_webview_shell_html/page.js:947-954 | refines the load handler of one generation |
| `FrameQueue.Shell.CreateIframe` | Telegram/Resources/bot_webview_shell_html/page.js:936-963 | refines replacing the frame |
| `FrameQueue.Shell.ReloadFrame` | Telegram/Resources/bot_webview_shell_html/page.js:969-985 | refines the reload, with its timer |
| `FrameQueue.Shell.FrameMessage` | Telegram/Resources/bot_webview_shell_html/page.js:850-873 | refines the messages of the frame |

## Left out

- Sha1.HashSha1: messages of 2^32 - 64 bytes or more, on which the source does not return (BlockLoopEnds).
- RSA, LZMA and the file formats of the packer; both updaters.
- The overloads of the content hash for other integer types, which convert to 64 bits and call it.
- Saved gifs, masks and emoji variants of the hash counters, which call the counters modelled here.
- Mesh text: a float is an opaque 32-bit token, and a line arrives split into fields; decimal printing,
  file access and a file that was partly written before an error.
- Callbacks that call back into the session while the callbacks of an answer run; each is logged.
- MessageData.AnswerRuns: states which callbacks an answer runs, not in which order.
- MTProto encoding, delays, timers' exact times, notifications, and writes to the local storage.
- FileReference.TargetOf: the kinds of request of each origin are reduced to the branches that decide whether
  to ask, fail or redirect.
- Drafts.StepKeeps: promises a request for the entries of live threads only; that of a gone thread can be
  cancelled, exactly as StaleOnlyByOrphans says.
- Drafts.RunKeeps: the same for runs; entries of gone threads are in RunSentFly.
- Albums: captions, stars, and the kinds of media; an item that is destroyed without being cancelled.
- Albums.RunKeeps: assumes one upload per item, and that a destroyed item is cancelled, as the callers ensure.
- DialogsLoad: applying the chats of a page; requests for contacts that follow a page.
- DialogsLoad.PagesJoin: assumes a server whose lists hold each chat once and with a date, and that does not change them
  while they are loaded.
- DialogsLoad.RunKeeps: the load of the main list and those of the folders are one map here.
- StickerSets: access hashes and titles of sets, and the refresh that follows a failed reorder request.
- WebPages: the item that shows a page is an input of a resolve; applying the changes of an answer.
- Forward: the local message of a single forward, request flags, and topics; a draft without items.
- MergedSearch.RunMerged: assumes exact totals and a query that is not empty, and that more is asked for and the
  old chat left out only in the states of MoreIsExact and DisableIsExact; the error of an empty query is left out.
- MergedSearch.Searcher.SearchRequest: sets the request id at once; while messages of the chat are being
  deleted the history queue (data/data_histories.cpp:1027-1070) postpones the request and can repeat it.
- InviteLinks: the callbacks of create, edit and delete, join requests, and links of other admins.
- FrameQueue: buttons, colours, metrics and menus; parsing of messages; a frame without a window.
- Privacy settings, flag builders, chunked member lists and requests that are guarded by one id only: they
  would only add easy members.
- Windows, boxes, the tray and the emoji picker: user interface.
