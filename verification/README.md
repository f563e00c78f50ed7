# The ring cache and its HTTP/1 parser, modelled and proved

Two parts of the repository are modelled here and their promises proved.

**The coalescing response cache** (`ring-cache/`). A mutex-guarded class keeps finished responses in a fixed ring of
slots, and responses that are still being streamed in a map of flights. The first stream that asks for a missing key
becomes the leader and publishes headers and chunks; streams that ask while it is under way become followers. A
follower is backfilled under the lock and gets later chunks from a snapshot that is posted after the lock is dropped.
The model has three levels:

- values: `Ring` and `Sections` say what every critical section does to the guarded state; `Eviction` says what an
  eviction comes to; `Fifo` compares the ring with a byte-bounded queue;
- objects: `CacheObject.dfy` and `Filter.dfy` are the classes with their fields and loops, each method proved
  against the functions on values;
- steps: `Protocol` is a state machine in which a critical section is one step, except that the eviction loop is one
  step per slot, and every post, every dispatcher turn, every pin release and every stream destruction is a step of
  its own. `ProtocolSteps` proves that each step keeps one invariant, `ProtocolTheorems` draws the consequences for
  every interleaving, `ProtocolProgress` shows what can still happen, and `FifoSteps` carries the queue through it.
  `Refinement` proves that the methods of the classes, as their contracts describe them, are such steps.

**The vendored HTTP/1 parser** (`bazel/external/http_parser/`), in strict mode. `HttpStep` says what the parser does
with one byte in each state; `HttpRun` gives a byte stream its meaning by feeding it one byte at a time, and compares
lists of callbacks after joining neighbouring data. `HttpExecute` is the loop over a buffer with its mark pointers,
its fast paths and its late header count; `HttpMarks`, `HttpRelate` and `HttpSync` carry the proof that it reports
what the byte-at-a-time meaning does, and `HttpFragments` concludes that splits do not matter. On the byte-at-a-time
meaning stand: `HttpInvariant` (internal assertions), `HttpLengths` (length arithmetic), `HttpBodies` (identity and
chunked framing), `HttpMethods` (the method), `HttpHeaders` (names and transfer codings), `HttpOptions` (connection options),
`HttpLines` (one header line, perhaps continued), `HttpValues` (the values that matter, with the lines that continue them),
`HttpFraming` (what all headers together say), `HttpMessages` (headers and body), `HttpVersions`, `HttpRequests` and
`HttpResponses` (first lines), `HttpStreams` (whole messages, one behind another, in any split) and `HttpEndings` (what the end
of the connection cuts short). `HttpBlocks`, `HttpLeads` and `HttpAccepted` prove the converse, that nothing but such messages is
accepted, and `HttpTables` holds the character tables and fixed words against their spelling. The URL splitter is `Url`,
`UrlHost`, `UrlFields` and `UrlParser`: a grammar of URLs that print back to their bytes, and the three loops proved against
it.

`dafny verify dfyconfig.toml` checks everything.

## What the code does that one might not expect

- The ring refuses a response without evicting anything when the bytes fit but every slot is occupied, even if all
  entries are idle (`Eviction.EvictTillOutcome`, third case; `Eviction.FullRingRefuses` at a concrete ring). And when a
  response does not fit beside the pinned entries, every unpinned entry is evicted before it is dropped.
- README.md:317-319 calls the cache a FIFO container with exceptions. A store is a push on a bounded queue exactly when it
  evicts nothing or none of the oldest entries that have to go is in use (`Fifo.FinalizeIsPush`); otherwise a younger entry
  may leave first (`Fifo.YoungerLeavesFirst`). Within a scan what counts is whether the entry is in use when its slot is
  visited (`FifoSteps.StepsFollowQueue`).
- The key of a request is its host and path with `///` between them. Hosts without a slash never share a key
  (`Filter.KeyTellsHost`); in general a key belongs to one pair exactly when it can be taken apart in one place only
  (`Filter.KeyIsOwn`, `Filter.KeysCollide`).
- The first byte of a header value is not checked, though every later one is: a control character is accepted there
  (`HttpTables.FirstByteUnchecked`).
- A header whose name only begins with `transfer-encoding` sets `uses_transfer_encoding`. A request with such a
  header alone is refused, a response with it lasts until the connection is closed (`HttpMessages.LongerNameFrames`).
- `onDestroy` detaches a follower that is not done (ring-cache/filter.cc:10-16), and the end of any encoded response makes it
  done (filter.cc:85-92). So a parked stream that something other than the cache ends, by a reply of its own, is neither
  cancelled nor detached when it is destroyed, and a closure can still run on it (`ProtocolProgress.LateCallback`). A destroyed
  stream is safe in every continuation exactly if its handle is cancelled or it has run the end of the response
  (`ProtocolProgress.UndisturbedExactly`).
- In a `Transfer-Encoding` list a comma behind `chunked` and any spaces, or directly behind a beginning of that word, is not
  taken for a separator, as in `chunked ,chunked` or `c,chunked`, so the final `chunked` is overlooked
  (`HttpHeaders.SwallowedComma`). `HttpHeaders.ChunkedRecognised` says exactly when it is seen; the converse mistake, chunks where
  the list does not end in `chunked`, does not occur.
- The same happens to connection options: in `c,close` the second is overlooked and the connection kept
  (`HttpOptions.SwallowedOption`, `HttpMessages.OptionFrames`).
- A value that is continued on the next line is handed over as one text, but as a list it is looked at further only behind a
  comma that separates: `chunked` or `close` at the end of a line that is continued does not count
  (`HttpValues.CodingsSeen`, `HttpValues.OptionsSeen`).
- The fields of a trailer count like headers: `Connection: close` there closes the connection (`HttpMessages.RestRead`).
  Their bytes also count against the header limit of the next message, which nothing else in a body does
  (`HttpStreams.MessageRead`).
- A version is taken for 1.1 or later if both its digits are positive, so 2.0 needs `keep-alive` like 1.0
  (`HttpMessages.OptionFrames`).
- Lower-casing sets a bit whatever the byte is, so a tab in front of a coding is not skipped although the code means to:
  white space behind a separating comma is passed over exactly when it is all spaces (`HttpHeaders.BlanksBehindComma`), and
  behind a tab `chunked` is never recognised (`HttpHeaders.TabHidesChunked`).
- Of several `Transfer-Encoding` headers one that ends in `chunked` is enough, wherever it stands; a second
  `Content-Length` is refused even if it says the same (`HttpFraming.FrameMeans`).
- URL offsets and lengths are 16-bit and wrap silently. Every field is reported where its part lies exactly when the place
  of each part, and of the authority as a whole, fits in 16 bits (`UrlParser.ReportIsRight`). A longer path is reported too short
  (`UrlParser.LongPathsWrap`), and behind a schema of 65533 letters the host is read from the first letters of the schema
  (`UrlParser.HostReadFromSchema`).

## Model

| member | source | states |
|---|---|---|
| `Ring.EmptyInv` | ring-cache/cache.cc:7-10 | a new ring is consistent: counter, index and slots agree |
| `Ring.VisitInv` | ring-cache/cache.cc:246-255 | one turn of the eviction loop, also one that skips a pinned entry, keeps the counter equal to the stored sizes and the index in bijection with the occupied slots; slot count and capacity stay |
| `Ring.EvictTillInv` | ring-cache/cache.cc:234-275 | making room keeps the ring consistent and, when it succeeds, leaves a free head slot and room for the bytes |
| `Ring.InsertInv` | ring-cache/cache.cc:286-298 | storing a new response into a free head slot that it fits keeps the ring consistent; the size charged is the size of the stored entry |
| `Ring.FinalizeInv` | ring-cache/cache.cc:186-200 | finalizing a response that is not cached yet keeps the ring consistent, whether it is stored or dropped |
| `Ring.EvictTillOnlyEvicts` | ring-cache/cache.cc:246-256 | making room changes slots only by emptying some whose entry has no pin; no key is added to the index |
| `Ring.FinalizeIsScanThenSettle` | ring-cache/cache.cc:186-200 | finalizing is the eviction loop followed by the free-slot search and the insertion, also when the loop is left early |
| `Eviction.ScanOutcome` | ring-cache/cache.cc:242-262 | the eviction loop, from any turn on, stops after the shortest window of slots whose unpinned entries free enough, with exactly those entries gone, or after one full round with every unpinned entry gone |
| `Eviction.FindFreeOutcome` | ring-cache/cache.cc:264-269 | the free-slot search stops at the first free slot ahead of the head, and fails exactly when every slot is occupied |
| `Eviction.RefusedAfterScan` | ring-cache/cache.cc:264-269 | once a window has freed enough, the request is refused exactly when nothing had to be evicted and every slot was full |
| `Eviction.EvictTillOutcome` | ring-cache/cache.cc:234-275 | with stable pins: a request fails iff it exceeds the capacity, or it exceeds what the pinned entries leave, or it fits without eviction and every slot is full; on success the evicted entries are exactly the unpinned ones of the shortest sufficient window and the head is the first free slot behind it; the first and third failure change nothing, the second evicts every unpinned entry; each loop takes at most one round |
| `Eviction.FullRingRefuses` | ring-cache/cache.cc:264-269 | a concrete ring with room for the bytes and an idle entry in its only slot: the new response is dropped and the entry stays |
| `Fifo.DropOldestIsShortest` | README.md:315-319 | the queue that the ring is compared with drops the shortest prefix, oldest first, that makes room |
| `Fifo.EvictTillLaid` | ring-cache/cache.cc:234-275 | when the bytes fit, or no entry that has to go is in use, making room drops exactly what the queue drops, and the head comes back to the slot behind the newest entry |
| `Fifo.FinalizeIsPush` | ring-cache/cache.cc:186-200 | finalizing a response is a push on the bounded queue exactly when the response is too large, or fits as things are, or none of the oldest entries that have to go for it is in use |
| `Fifo.EmptyRefines` | ring-cache/cache.cc:7-10 | a new ring is an empty queue |
| `Fifo.RunRefinesQueue` | README.md:317-319 | over every run of stores, pins and releases the occupied slots are, after every operation, one circular block ending just before the head, in the order of the queue that went through the same operations, exactly when no store of the run needs an entry in use to go |
| `Fifo.YoungerLeavesFirst` | README.md:317-319 | a ring with the older of two entries in use, where a third response makes the younger one leave and the queue would have dropped the older |
| `FifoSteps.VisitHalfway` | ring-cache/cache.cc:246-262 | within a scan, a turn keeps pace with the queue exactly when the slot it visits is free or its entry is not in use at that moment |
| `FifoSteps.SettleHalfway` | ring-cache/cache.cc:264-298 | once the loop has ended, the slot search and the insertion make the scan a push on the queue, dropped in the same cases |
| `FifoSteps.StepsFollowQueue` | README.md:317-319 | in every interleaving, pins taken and released within a scan included, the ring keeps pace with the queue of finished responses all along a run exactly when no visit of a scan meets an entry in use |
| `FifoSteps.ReachedIsQueue` | README.md:317-319 | from the start, whenever the mutex is free the ring is the queue of the responses finished so far, unless a visit has met an entry in use |
| `Sections.SwapPopRemovesOne` | ring-cache/cache.cc:175-181 | swap-and-pop takes exactly one copy of the waiter out of the multiset of waiters, and nothing if it is not there |
| `Sections.SwapPopKeepsOthers` | ring-cache/cache.cc:175-181 | without duplicates, the waiter is gone afterwards and all others are still there, once |
| `Sections.CloseKeeps` | ring-cache/cache.cc:186-200 | closing a flight keeps cached and in-flight keys apart and names distinct |
| `CacheObject.Dispatcher.RunNext` | ring-cache/cache.cc:106-110 | one turn of a dispatcher takes the oldest closure; it encodes on its stream unless its waiter is cancelled |
| `CacheObject.PostToAll` | ring-cache/cache.cc:104-112 | a post loop over a snapshot appends, to every waiter's dispatcher, its closures in snapshot order and nothing else |
| `CacheObject.RingBufferCache.constructor` | ring-cache/cache.cc:7-10 | a new cache is empty and consistent |
| `CacheObject.RingBufferCache.EvictHeadLocked` | ring-cache/cache.cc:277-284 | the slot, the counter and the key index after evicting the head entry |
| `CacheObject.RingBufferCache.VisitHead` | ring-cache/cache.cc:247-255 | one turn of the eviction loop on the objects is one turn on the values |
| `CacheObject.RingBufferCache.EvictForSpace` | ring-cache/cache.cc:245-262 | the eviction loop on the slot array computes the scan of which the outcome is proved, and ends |
| `CacheObject.RingBufferCache.FindFreeSlot` | ring-cache/cache.cc:264-270 | the free-slot loop computes the search of which the outcome is proved |
| `CacheObject.RingBufferCache.EvictTillCapacityLocked` | ring-cache/cache.cc:234-275 | result and new state are those of the function characterised by EvictTillOutcome |
| `CacheObject.RingBufferCache.InsertEntryLocked` | ring-cache/cache.cc:286-298 | the new entry stands in the old head slot and in the index, and its size is charged |
| `CacheObject.RingBufferCache.FinalizeLocked` | ring-cache/cache.cc:186-200 | the flight is closed, its response stored or dropped, and the whole invariant kept |
| `CacheObject.RingBufferCache.AttachBackfillWaiterLocked` | ring-cache/cache.cc:202-232 | the waiter joins the flight, and exactly the headers and bytes published so far are posted to it |
| `CacheObject.RingBufferCache.AddPin` | ring-cache/cache.cc:30 | the pin count of the cached entry rises by one; nothing else changes |
| `CacheObject.RingBufferCache.ReleasePin` | ring-cache/cache.cc:60-68 | the pin count of the entry falls by one, nothing else changes, and the whole invariant is kept |
| `CacheObject.RingBufferCache.ServeHit` | ring-cache/cache.cc:25-35 | a hit answers with the headers and body of the entry; it keeps a pin iff there is a body |
| `CacheObject.RingBufferCache.BecomeFollower` | ring-cache/cache.cc:46-51 | a follower gets a fresh handle on its own dispatcher and the backfill |
| `CacheObject.RingBufferCache.Lookup` | ring-cache/cache.cc:12-74 | hit, leader or follower by what the cache holds; the new state of each case; the invariant is kept, and the entry of a hit with a body may be released later |
| `CacheObject.RingBufferCache.PublishHeaders` | ring-cache/cache.cc:76-113 | without a flight nothing happens; otherwise the first headers stay, the flight is closed at the end of the stream, and every waiter present gets the headers posted once |
| `CacheObject.RingBufferCache.PublishData` | ring-cache/cache.cc:115-161 | the chunk is appended to the spool, the flight is closed at the end of the stream, and every waiter present gets the chunk posted once |
| `CacheObject.RingBufferCache.RemoveWaiter` | ring-cache/cache.cc:163-184 | the loop computes swap-and-pop on the waiters of the key's flight and changes nothing else |
| `Refinement.LookupRefines` | ring-cache/cache.cc:12-74 | a lookup of the class is the lookup step of the protocol: the same answer with the content of the stored entry, the same guarded state, and on the dispatcher exactly the closures of the step |
| `Refinement.BackfillSpells` | ring-cache/cache.cc:202-232 | what a new follower finds on its dispatcher is all its own, and shows its stream the headers and every byte published so far, once and in order |
| `Refinement.PostedIsBroadcast` | ring-cache/cache.cc:104-112 | what a publish call puts on a dispatcher are the protocol's posts for its thread, in snapshot order |
| `Refinement.PostedToEach` | ring-cache/cache.cc:147-160 | each waiter of the snapshot gets the closure on its own dispatcher as often as it stands there, and nobody else gets anything |
| `Refinement.PublishHeadersRefines` | ring-cache/cache.cc:76-113 | a whole call of publishHeaders is a run of the protocol: the publish step of the leader, the scan if the response ends, and every post; state and dispatchers agree afterwards |
| `Refinement.PublishDataRefines` | ring-cache/cache.cc:115-161 | the same for publishData |
| `Refinement.DestroyRefines` | ring-cache/filter.cc:10-16 | destroying a follower that is not done is the protocol's two steps, with the same flight left |
| `Refinement.TurnRefines` | ring-cache/cache.cc:106-110 | a turn of a dispatcher shows the stream what the protocol's turn shows it, or nothing if it is cancelled |
| `Refinement.WaiterIsServed` | ring-cache/cache.cc:96-112 | the objects inherit the delivery: what a follower has been shown and what waits on its dispatcher spell out the headers and bytes that its flight has published |
| `Filter.KeyTellsPath` | ring-cache/filter.cc:116-125 | a key is built iff host and path are both there, and different paths of one host have different keys |
| `Filter.KeyIsOwn` | ring-cache/filter.cc:116-125 | the key of a host and a path belongs to no other pair exactly when it can be taken apart at `///` in one place only |
| `Filter.KeyTellsHost` | ring-cache/filter.cc:116-125 | hosts without a slash never share a key, whatever the paths |
| `Filter.KeysCollide` | README.md:150-153 | two pairs of host and path with one key |
| `Filter.PathsNeverShare` | ring-cache/filter.cc:18-67 | requests for different paths of one host share neither entry nor flight |
| `Filter.EncodeCallsFlatten` | ring-cache/cache.cc:227-230 | the encode calls of a backfill closure spell out exactly its headers and prefix |
| `Filter.AnswerSpellsResponse` | ring-cache/filter.cc:36-45 | the encode calls that answer a hit spell out the complete response: headers, all bytes, one end |
| `Filter.RingCacheFilter.TakeRole` | ring-cache/filter.cc:29-64 | role, done flag, waiter, status and encode calls for each lookup result |
| `Filter.RingCacheFilter.DecodeHeaders` | ring-cache/filter.cc:18-67 | without host or path the cache is not touched; otherwise the lookup of `host///path` decides: a hit is answered completely and ends, a leader goes on, a follower is parked and finds the backfill on its dispatcher |
| `Filter.RingCacheFilter.EncodeHeaders` | ring-cache/filter.cc:85-92 | only a leader publishes, and every follower of the moment gets the headers posted once; the end of the stream sets the done flag for everybody |
| `Filter.RingCacheFilter.EncodeData` | ring-cache/filter.cc:94-100 | the same for data |
| `Filter.RingCacheFilter.OnDestroy` | ring-cache/filter.cc:10-16 | exactly a follower that is not done cancels its handle and detaches it |
| `ProtocolSteps.VisitSpares` | ring-cache/cache.cc:248-253 | an entry with a pin survives a turn of the eviction loop, whatever happened between the turns |
| `ProtocolSteps.ApplyKeeps` | ring-cache/cache.cc:12-284 | every step of the protocol keeps the invariant over ring, flights, pins and streams |
| `ProtocolTheorems.ReachableInv` | ring-cache/cache.cc:12-284 | the invariant holds in every state that any interleaving reaches |
| `ProtocolTheorems.CoalescingDelivery` | ring-cache/cache.cc:96-112 | for every follower that is not cancelled, whenever it joined: what it has executed, what is queued on its dispatcher and what its leader has still to post spell out the headers once, the bytes published so far in order, and the end iff the leader has ended |
| `ProtocolTheorems.DrainedFollowerSawAll` | ring-cache/cache.cc:202-232 | a follower with nothing left to execute has seen exactly the published response, and its end iff it has ended; it is done iff it has ended or something other than the cache has ended its stream |
| `ProtocolTheorems.NoForeignBytes` | ring-cache/cache.cc:102-112 | also a cancelled follower has only seen a prefix of the response of its own leader |
| `ProtocolTheorems.NoCallbackAfterDestroy` | ring-cache/filter.cc:10-16 | no closure executes on a destroyed stream in any continuation if its handle is cancelled or the end of the response has run on it; one of the two holds unless something other than the cache had ended the stream |
| `ProtocolProgress.CanRunMore` | ring-cache/cache.cc:102-112 | no follower is stuck: from every reachable state in which it is neither cancelled nor at the end of its response, steps of the others make a closure run on it |
| `ProtocolProgress.UndisturbedExactly` | ring-cache/filter.cc:10-16 | a destroyed stream is free of callbacks in every continuation exactly if its handle is cancelled or it has run the end of the response |
| `ProtocolProgress.ReplyThenCallback` | ring-cache/filter.cc:85-92 | a parked stream that something other than the cache ends, and that is then destroyed, is not detached: some continuation runs a closure on it |
| `ProtocolProgress.LateCallback` | ring-cache/filter.cc:10-16 | the same in a concrete run of one leader and one follower |
| `ProtocolTheorems.PinSafety` | ring-cache/cache.h:64-70 | in every reachable state the entry of every unreleased hit is stored with the answered response, and the pins of every entry are the number of unreleased hits on it |
| `ProtocolTheorems.EntryStaysPut` | ring-cache/cache.h:64-70 | until it is released, the entry of a hit stays in the very slot it is in, whatever steps are taken meanwhile |
| `ProtocolTheorems.HitIsFresh` | ring-cache/cache.cc:25-35 | a hit answers with the complete response of the leader of that key that finished last, which is the stream its followers get |
| `ProtocolTheorems.SingleFlight` | ring-cache/cache.cc:38-54 | a key has at most one unfinished leader, and none while it is cached |
| `ProtocolTheorems.LeaderAfterFinalize` | ring-cache/cache.cc:39-43 | a lookup makes a leader only when every earlier leader of the key has been finalized |
| `ProtocolTheorems.DetachIsExact` | ring-cache/cache.cc:163-184 | removing a waiter takes it out of its own generation's flight if that is still open, and leaves every other flight, also a later one of the same key, as it was |
| `ProtocolTheorems.BoundedMemory` | README.md:288-289 | in every reachable state, also inside an eviction scan, the counter is the sum of the stored sizes and at most the configured capacity, the slots are as many as configured, keys and occupied slots are in bijection, and no cached key is in flight |
| `ProtocolTheorems.StepsAreTheSection` | ring-cache/cache.cc:234-275 | without interference the steps of the scan add up to the critical section as a whole |
| `HttpMarks.DispatchSound` | bazel/external/http_parser/http_parser.c:2137-2147 | in every state the acts of a byte respect the one mark that can be set there, so at most one mark is left at the end of a buffer |
| `HttpRun.RunAppend` | bazel/external/http_parser/http_parser.c:643-644 | feeding bytes one at a time, more bytes continue from the record that the first ones left |
| `HttpRelate.PerformRelated` | bazel/external/http_parser/http_parser.c:105-143 | marks and data callbacks inside a large buffer report the same as in buffers of one byte, once neighbouring data are joined |
| `HttpSync.ByteSynced` | bazel/external/http_parser/http_parser.c:714-722 | one byte through the switch keeps the loop in step with the byte-at-a-time meaning, or leaves or fails as that does |
| `HttpExecute.ReadName` | bazel/external/http_parser/http_parser.c:1258-1383 | the name loop with its fast path is the byte-at-a-time meaning, up to the count that is brought up to date later |
| `HttpExecute.SkipValue` | bazel/external/http_parser/http_parser.c:1505-1530 | the scan over a value that is not matched is the byte-at-a-time meaning; bytes that it steps over unread are beyond the header limit |
| `HttpExecute.ReadValue` | bazel/external/http_parser/http_parser.c:1484-1706 | the value loop is the byte-at-a-time meaning |
| `HttpExecute.ReadBody` | bazel/external/http_parser/http_parser.c:1946-1987 | taking a stretch of body bytes at once is the same as taking them one by one |
| `HttpExecute.EndOfBuffer` | bazel/external/http_parser/http_parser.c:1377-1383 | the late count at the end of a buffer fails exactly when the header limit was met on the way |
| `HttpExecute.EndOfRun` | bazel/external/http_parser/http_parser.c:1383-1393 | the same at the byte that ends a name or a value |
| `HttpExecute.Turn` | bazel/external/http_parser/http_parser.c:714-722 | one turn of the loop, fast path or not |
| `HttpExecute.HttpParser.constructor` | bazel/external/http_parser/http_parser.c:2226-2235 | a new parser |
| `HttpExecute.HttpParser.Execute` | bazel/external/http_parser/http_parser.c:643-2155 | a call on any buffer leaves the record and makes the callbacks of the byte-at-a-time meaning, takes all bytes unless that stops, and fails iff that fails, with the same error unless the header limit is hit; from a well-formed record it reaches no internal assertion, the header limit included, and leaves a well-formed record; a broken parser does nothing; an empty buffer is the end of the connection |
| `HttpFragments.JoinAllMerged` | bazel/external/http_parser/http_parser.c:2143-2147 | joining data callbacks is the same before and after pieces have been joined |
| `HttpFragments.ChainIsRun` | bazel/external/http_parser/http_parser.c:643-2155 | any chain of calls over non-empty pieces ends in the record and reports what the byte-at-a-time meaning of the whole input does |
| `HttpFragments.ChainIsSafe` | bazel/external/http_parser/http_parser.c:643-2155 | from a well-formed record no chain of calls, whatever its input and its split, and whether or not it meets the header limit, reaches an internal assertion of the loop, its fast paths included |
| `HttpFragments.FragmentationIndependence` | bazel/external/http_parser/http_parser.c:643-2155 | any two splits of an input end in the same record, for the same reason, with the same callbacks once neighbouring data are joined, unless the header limit is hit |
| `HttpFragments.RefusedInEverySplit` | bazel/external/http_parser/http_parser.c:643-2155 | an input is refused in one split iff it is refused in every split, the header limit included |
| `HttpFragments.SplitOfCleanInput` | bazel/external/http_parser/http_parser.c:643-2155 | an input that parses unsplit leaves the same record and callbacks in every split |
| `HttpInvariant.DispatchSafe` | bazel/external/http_parser/http_parser.c:2085-2087 | handling a byte from a well-formed record fails no internal assertion and leaves a well-formed record |
| `HttpInvariant.RunIsSafe` | bazel/external/http_parser/http_parser.c:2137-2141 | from a well-formed record no input, fed byte by byte, reaches an internal assertion: chunk states carry the chunk flag, the count is 1 at a chunk start, a length in use is neither 0 nor the "no length" value, header states and indices fit |
| `HttpInvariant.InitWellFormed` | bazel/external/http_parser/http_parser.c:2226-2235 | a fresh record is well-formed |
| `HttpLengths.GuardIsBound` | bazel/external/http_parser/http_parser.c:1563-1567 | the guard in front of the multiplication is an exact bound on the number after it, and below it 64 bits do not wrap |
| `HttpLengths.ContentLengthIsExact` | bazel/external/http_parser/http_parser.c:1544-1572 | a digit string is accepted iff it spells at most 18446744073709551609, and is then stored as the number it spells, never wrapped and never the "no length" value |
| `HttpLengths.ChunkSizeIsExact` | bazel/external/http_parser/http_parser.c:1998-2049 | a hexadecimal chunk size is accepted iff it spells at most 0xFFFFFFFFFFFFFFEF, and is then stored as the number it spells |
| `HttpBodies.IdentityBody` | bazel/external/http_parser/http_parser.c:1946-1981 | with length N the next N bytes are delivered in order; at byte N and not before the message is complete, once, and the record waits for a new message |
| `HttpBodies.IdentityFraming` | bazel/external/http_parser/http_parser.c:1946-1996 | the same in every split, and the bytes behind the body mean what they mean to a record that waits for a new message |
| `HttpBodies.ExtensionRead` | bazel/external/http_parser/http_parser.c:2031-2060 | anything behind a chunk size that begins with a semicolon or a space and stays in its line is passed over |
| `HttpBodies.OneChunk` | bazel/external/http_parser/http_parser.c:1998-2118 | a size line with or without an extension, as many bytes and a line end report the chunk header, the data whole, and the end of the chunk, and leave the record at the next chunk |
| `HttpBodies.LastChunk` | bazel/external/http_parser/http_parser.c:1797-1806 | the final chunk without a trailer ends the message once |
| `HttpBodies.ChunkedBody` | bazel/external/http_parser/http_parser.c:1998-2118 | any list of chunks, in any spelling of their sizes and with any extensions, is delivered chunk by chunk and completes the message exactly once |
| `HttpBodies.HexValue` | slow_upstream.py:27-30 | the printed upper-case size spells the length |
| `HttpBodies.ChunkedRoundTrip` | slow_upstream.py:27-36 | printing any list of non-empty pieces as chunks and feeding it in any split gives back exactly the pieces, and one end of the message |
| `HttpTables.UsualValues` | bazel/external/http_parser/http_parser.c:1580-1694 | `chunked`, `close` and `keep-alive`, small or with capitals, are read as that |
| `HttpMethods.MethodPrefix` | bazel/external/http_parser/http_parser.c:929-1024 | the bytes read are the first ones of the current candidate across all candidate switches, and the index stays inside the table string |
| `HttpMethods.MethodFollowed` | bazel/external/http_parser/http_parser.c:973-1024 | the first letters of every method lead to its candidate |
| `HttpMethods.MethodRecognised` | bazel/external/http_parser/http_parser.c:929-1024 | bytes without a space, then a space, lead to the URL with method m iff they spell m; all others are refused as an invalid method |
| `HttpTables.MethodWords` | bazel/external/http_parser/http_parser.h:165-207 | each request word is read as its method |
| `HttpHeaders.NameRecognised` | bazel/external/http_parser/http_parser.c:1208-1376 | what is known of a header name after any of its beginnings, whatever the case of its letters; the flag for transfer codings is set iff the name begins with `transfer-encoding` |
| `HttpHeaders.HeaderRecognised` | bazel/external/http_parser/http_parser.c:1258-1389 | each of the headers that matter is recognised iff its name is spelled out in full |
| `HttpTables.LettersFold` | bazel/external/http_parser/http_parser.c:190-226 | both letter tables take a capital for the small letter 32 higher and leave small letters, digits and the hyphen alone |
| `HttpTables.TokensAre` | bazel/external/http_parser/http_parser.c:190-226 | the characters of a token, spelled out |
| `HttpTables.UrlCharsAre` | bazel/external/http_parser/http_parser.c:243-281 | the characters of path, userinfo, schema and host, spelled out: any visible one but `#` and `?` in a path |
| `HttpTables.HeaderCharsAre` | bazel/external/http_parser/http_parser.c:447-452 | the characters of a header value, spelled out |
| `HttpTables.FirstByteUnchecked` | bazel/external/http_parser/http_parser.c:1410-1482 | the first byte of a value is not looked at: any that ends no line and is no white space is accepted, though the same byte behind it is refused |
| `HttpTables.HexDigitsAre` | bazel/external/http_parser/http_parser.c:223-234 | small and capital hexadecimal digits count the same, and nothing else is a digit |
| `HttpTables.SizeInAnyCase` | bazel/external/http_parser/http_parser.c:2017-2049 | a chunk size spells the same number with small and with capital digits |
| `HttpTables.NamesInAnyCase` | bazel/external/http_parser/http_parser.c:1208-1389 | each header that matters is recognised exactly by the letters of its name, small or capital |
| `HttpTables.UsualNames` | bazel/external/http_parser/http_parser.c:1208-1389 | `Content-Length`, `Transfer-Encoding`, `Connection`, `Proxy-Connection` and `Upgrade`, so written or in capitals, reach their headers |
| `HttpTables.WordsInAnyCase` | bazel/external/http_parser/http_parser.c:1580-1694 | the codings and options are recognised exactly by the letters of `chunked`, `keep-alive`, `close` and `upgrade`, small or capital, with spaces behind them |
| `HttpTables.SingleWords` | bazel/external/http_parser/http_parser.c:1580-1694 | a value that is one word is read as that coding or option exactly if it spells it |
| `HttpHeaders.LongerNameCounts` | bazel/external/http_parser/http_parser.c:1345-1355 | a name that goes on behind `transfer-encoding` sets that flag without being that header |
| `HttpHeaders.ChunkedRecognised` | bazel/external/http_parser/http_parser.c:1580-1674 | a body is taken for chunked exactly when the last coding of the list is looked at and is `chunked`, in any case of letters and with spaces around it; a coding behind a malformed one, or behind a comma that does not separate, is not looked at |
| `HttpHeaders.SingleCoding` | bazel/external/http_parser/http_parser.c:1580-1613 | a value without a comma is one coding, which is always looked at |
| `HttpHeaders.SwallowedComma` | bazel/external/http_parser/http_parser.c:1598-1613 | of two codings a final `chunked` is overlooked exactly when the first is empty, is `chunked`, or is a beginning of that word |
| `HttpHeaders.TabHidesChunked` | bazel/external/http_parser/http_parser.c:1588-1613 | behind a comma that separates, a tab puts an end to looking: whatever follows it, chunks are not recognised |
| `HttpHeaders.BlanksBehindComma` | bazel/external/http_parser/http_parser.c:1588-1613 | white space between a comma that separates and `chunked` is passed over exactly when it is all spaces |
| `HttpLines.GapSkipped` | bazel/external/http_parser/http_parser.c:1395-1408 | white space between colon and value is passed over, also where the value begins on a further line, behind CR LF or LF |
| `HttpLines.ContentReport` | bazel/external/http_parser/http_parser.c:1721-1731 | a value that is continued on further lines is handed over as one text, without the line ends |
| `HttpLines.LineRuns` | bazel/external/http_parser/http_parser.c:1208-1795 | a header line is delivered as its name and its value, whole and once each, with the lines that continue it, or refused with its value |
| `HttpOptions.OptionsRecognised` | bazel/external/http_parser/http_parser.c:1615-1694 | exactly the flags of the options that a `Connection` value asks for are set: of those that are looked at and spell `keep-alive`, `close` or `upgrade`, in any case of letters and with spaces around them |
| `HttpOptions.SwallowedOption` | bazel/external/http_parser/http_parser.c:1632-1676 | of two options the second is overlooked exactly when the first is empty or a beginning of one of the three words |
| `HttpValues.LengthValue` | bazel/external/http_parser/http_parser.c:1438-1572 | a value of `Content-Length` is accepted exactly when it is digits that spell a number within the bound, with nothing but spaces behind them, and is stored as that number |
| `HttpValues.LengthContent` | bazel/external/http_parser/http_parser.c:1721-1731 | the same with lines that continue it, which may hold spaces only behind their first blank |
| `HttpValues.CodingsSeen` | bazel/external/http_parser/http_parser.c:1580-1752 | transfer codings with lines that continue them: chunks iff the list is looked at to its end and ends in `chunked`; a further line is looked at only behind a comma that separates |
| `HttpValues.OptionsSeen` | bazel/external/http_parser/http_parser.c:1615-1752 | connection options with lines that continue them: an option at the end of a line that is continued does not count |
| `HttpValues.OtherContent` | bazel/external/http_parser/http_parser.c:1418-1424 | no other value says anything; an `Upgrade` header sets its flag whatever it says |
| `HttpFraming.LinesRead` | bazel/external/http_parser/http_parser.c:1208-1795 | any list of header lines, also ones that are empty or continued, is refused at the first line that cannot be right, or delivered line by line, with the record knowing what the lines say together |
| `HttpFraming.FrameMeans` | bazel/external/http_parser/http_parser.c:1438-1449 | headers are refused exactly when a `Content-Length` is no length or comes twice; otherwise what they say does not depend on their order: a coding counts iff some name begins with `transfer-encoding`, chunks iff some `Transfer-Encoding` is seen to end in `chunked`, an option iff some `Connection` or `Proxy-Connection` asks for it, an upgrade iff some `Upgrade` is not empty |
| `HttpFraming.KeepsExactly` | bazel/external/http_parser/http_parser.c:2162-2206 | the connection is kept exactly when the version and the options say so and the message has an end of its own |
| `HttpFraming.HeadersDecide` | bazel/external/http_parser/http_parser.c:1797-1943 | for every list of headers: refused, complete, chunks, a length, or until the connection is closed, decided from method, length, codings, options, kind of message, status and `allow_chunked_length`; every header is delivered, then headers complete; the state behind a message without a body, and whether the protocol changes there |
| `HttpMessages.LengthFrames` | bazel/external/http_parser/http_parser.c:1926-1943 | a message whose only header is `Content-Length` has a body of exactly that length, or is complete for 0 or behind CONNECT, or is refused for a number beyond the bound |
| `HttpMessages.CodingFrames` | bazel/external/http_parser/http_parser.c:1896-1925 | a message whose only header is a list of transfer codings has chunks iff the list is seen to end in `chunked`; otherwise a request is refused and a response lasts until the connection is closed; behind CONNECT it is complete |
| `HttpMessages.OptionFrames` | bazel/external/http_parser/http_parser.c:2191-2206 | behind a message without a body whose only header is `Connection` or `Proxy-Connection` the record waits for another exactly when the value does not ask for `close`, or, if a digit of the version is 0, asks for `keep-alive` |
| `HttpMessages.LengthAndCoding` | bazel/external/http_parser/http_parser.c:1808-1827 | a `Content-Length` and a `Transfer-Encoding` together are refused, unless the codings are seen to end in `chunked` and `allow_chunked_length` is set; then chunks follow |
| `HttpMessages.UpgradeFrames` | bazel/external/http_parser/http_parser.c:1829-1839 | with an `Upgrade` header the connection is handed over exactly when the `Connection` option asks for it too, in a request or a response of status 101 |
| `HttpMessages.LongerNameFrames` | bazel/external/http_parser/http_parser.c:1898-1924 | a message whose only header has a name that goes on behind `transfer-encoding`, with any value, is framed as if it had an unknown transfer coding |
| `HttpMessages.NoHeaderFrames` | bazel/external/http_parser/http_parser.c:1926-1943 | without headers a request and a response with status 1xx, 204 or 304 are complete, any other response lasts until the connection is closed; behind CONNECT the connection is handed over |
| `HttpMessages.LastChunkAndTrailer` | bazel/external/http_parser/http_parser.c:1797-1806 | the last chunk, with or without an extension, and any trailer: every field is delivered, options in it count, and the message ends once, or the trailer is refused for its `Content-Length` |
| `HttpMessages.BodyRead` | bazel/external/http_parser/http_parser.c:1946-2118 | a body as its headers announce it, of a length, in chunks, or until the connection is closed: delivered whole, ended once, and the record left as version and options say |
| `HttpMessages.RestRead` | bazel/external/http_parser/http_parser.c:1797-2118 | any headers and a body that they announce: every header, headers complete, the body, one end; then the record waits, is dead, or stops for another protocol |
| `HttpRequests.UrlRead` | bazel/external/http_parser/http_parser.c:1026-1097 | the URL of a request line is read by the automaton of the splitter, refused iff that cuts it nowhere, and handed over whole |
| `HttpRequests.RequestLineRead` | bazel/external/http_parser/http_parser.c:929-1206 | a request line, with any spaces, with or without a version, ended by CR LF or LF, is accepted iff its URL is cut by that automaton and may end there; then method, version and URL are the printed ones and the record waits for headers |
| `HttpTables.TargetsMayEnd` | bazel/external/http_parser/http_parser.c:1052-1097 | a URL may be a request target unless it is empty or a schema with only colon and slashes behind it |
| `HttpTables.VisibleTarget` | bazel/external/http_parser/http_parser.c:570-590 | every string of visible characters without `#` and `?` is a path behind a slash, and a query behind a question mark |
| `HttpTables.GetLine` | bazel/external/http_parser/http_parser.c:929-1206 | `GET /path HTTP/1.1` is read as that, for every path of visible characters |
| `HttpTables.OkLine` | bazel/external/http_parser/http_parser.c:771-927 | `HTTP/1.0 200 OK` is read as that |
| `HttpTables.ChunkedResponse` | slow_upstream.py:20-36 | a response with `Transfer-Encoding: chunked`, in any case of letters, without a length and with its body printed in chunks gives back the pieces in any split |
| `HttpResponses.CodeRead` | bazel/external/http_parser/http_parser.c:852-895 | a status code is accepted iff it is at most 999, and stored |
| `HttpResponses.StatusLineRead` | bazel/external/http_parser/http_parser.c:771-927 | a status line, ended by CR LF or LF, is accepted iff its code is at most 999; then version and code are the printed ones, the phrase is handed over whole, though it be missing, and the record waits for headers |
| `HttpStreams.EitherFirst` | bazel/external/http_parser/http_parser.c:733-769 | a parser that does not know yet whether it reads requests or responses reads the first line as if it knew |
| `HttpStreams.FirstRead` | bazel/external/http_parser/http_parser.c:771-1206 | a request line or a status line opens a message that knows what the line says |
| `HttpStreams.HeadDecided` | bazel/external/http_parser/http_parser.c:643-2155 | the first line and the headers of a request or response, in any split: refused as the headers say together, with exactly that error, or handed over, whatever follows; otherwise accepted |
| `HttpStreams.MessageRead` | bazel/external/http_parser/http_parser.c:643-2155 | a whole request or response, line breaks in front included: message begin, URL or phrase, every header, headers complete, the body as it is framed, one end, nothing else |
| `HttpStreams.OnlyKeptGoOn` | bazel/external/http_parser/http_parser.c:462-469 | only a message that keeps the connection can have another behind it |
| `HttpStreams.StreamRead` | bazel/external/http_parser/http_parser.c:643-2155 | pipelining: any number of messages one behind another are reported whole and in order, each found by a record that waits for it |
| `HttpStreams.StreamInAnySplit` | bazel/external/http_parser/http_parser.c:643-2155 | the same however the bytes are split, with the record as the last message leaves it; the end of the connection is then no error, and completes a message that lasts until then |
| `HttpStreams.SwitchInAnySplit` | bazel/external/http_parser/http_parser.c:1886-1893 | behind CONNECT or an agreed upgrade nothing is read, whatever follows and however it is split |
| `HttpStreams.ClosedInAnySplit` | bazel/external/http_parser/http_parser.c:723-731 | behind a message that closes the connection nothing but line breaks within the header limit is accepted |
| `HttpStreams.PrintedMessage` | slow_upstream.py:20-36 | a whole message whose body is printed in chunks, in any split: the pieces put together are what was printed |
| `HttpEndings.BeginningWithin` | bazel/external/http_parser/http_parser.c:643-2155 | cut anywhere in its first line, headers, body or trailer, a message leaves the parser inside it |
| `HttpEndings.CutInAnySplit` | bazel/external/http_parser/http_parser.c:672-685 | an input that the end of the connection cuts inside a message, behind any stream and in any split: nothing is reported, the parser is broken with the error for a premature end, and 1 is returned |
| `HttpBlocks.HeadersFound` | bazel/external/http_parser/http_parser.c:1208-1806 | whatever bytes are read from a record that waits for headers, they are a beginning of a list of header lines, or begin with one and its blank line |
| `HttpLeads.RequestFound` | bazel/external/http_parser/http_parser.c:929-1206 | whatever bytes are read from a record that waits for a request begin with a request line, or are the beginning of one |
| `HttpLeads.StatusFound` | bazel/external/http_parser/http_parser.c:771-927 | the same for a status line |
| `HttpAccepted.ChunkedFound` | bazel/external/http_parser/http_parser.c:1998-2118 | whatever bytes are read as a chunked body are chunks, a last chunk and a trailer, or a beginning of them |
| `HttpAccepted.StreamFound` | bazel/external/http_parser/http_parser.c:643-2155 | whatever is not refused is a stream of messages with line breaks, the beginning of another message, or the bytes of another protocol behind it |
| `HttpAccepted.AcceptedExactly` | bazel/external/http_parser/http_parser.c:672-685 | the end of the connection is no error exactly behind a stream of whole messages and line breaks: nothing else is accepted and no such stream is refused, header limit included |
| `HttpAccepted.AcceptedInAnySplit` | bazel/external/http_parser/http_parser.c:643-2155 | the same however the bytes are split over the calls |
| `HttpAccepted.HandedOverExactly` | bazel/external/http_parser/http_parser.c:1886-1893 | the parser stops for another protocol exactly behind a stream that ends in a change of protocol |
| `Url.SplitPrints` | bazel/external/http_parser/http_parser.c:2438-2498 | what the URL automaton cuts is lawful, and its parts print back to the bytes |
| `Url.PrintSplits` | bazel/external/http_parser/http_parser.c:495-641 | every lawful URL is accepted by the automaton and cut into the same parts |
| `Url.SplitIsInverse` | bazel/external/http_parser/http_parser.c:495-641 | the cut of a byte string is the one lawful URL that prints as it; there is none iff the automaton refuses |
| `UrlHost.SplitHostPrints` | bazel/external/http_parser/http_parser.c:2255-2335 | what the host automaton cuts is a lawful authority that prints back to the bytes |
| `UrlHost.PrintHostSplits` | bazel/external/http_parser/http_parser.c:2255-2335 | every lawful authority is accepted and cut into the same parts |
| `UrlHost.SplitHostIsInverse` | bazel/external/http_parser/http_parser.c:2255-2335 | the two together |
| `UrlFields.LaidIsSound` | bazel/external/http_parser/http_parser.c:370-372 | parts laid out in order, at any length: fields are non-empty, in bounds and in order, each holds the text of its part, and every other byte is a delimiter |
| `UrlParser.ParsedUrl.Scan` | bazel/external/http_parser/http_parser.c:2428-2498 | the first loop accepts iff the automaton does; its fields are those of the parts |
| `UrlParser.ParsedUrl.ParseHost` | bazel/external/http_parser/http_parser.c:2337-2417 | the second loop accepts iff the authority is lawful and complete; its fields are those of the parts |
| `UrlParser.ParsedUrl.ConvertPort` | bazel/external/http_parser/http_parser.c:2517-2542 | the third loop accepts digits iff they spell at most 65535, and stores the number they spell |
| `UrlParser.PassesReport` | bazel/external/http_parser/http_parser.c:2424-2545 | the two passes together report every field where its part lies, offset and length modulo 65536 |
| `UrlParser.ReportIsRight` | bazel/external/http_parser/http_parser.c:2424-2545 | at every length: the fields are reported where their parts lie exactly when the URL is accepted and 16 bits hold the place of each part and of the authority; the port is then that of the URL |
| `UrlParser.ParsedUrl.Parse` | bazel/external/http_parser/http_parser.c:2424-2545 | success with every field where its part lies iff the bytes are a URL with lawful parts, a host behind every schema, a complete authority, a port up to 65535 and, for CONNECT, host and port only, and 16 bits hold the place of each part; for at most 65535 bytes success means just that |
| `UrlParser.AcceptedIsSound` | bazel/external/http_parser/http_parser.c:2424-2545 | the places of the parts of an accepted URL are non-empty, in bounds, apart and in the order schema, userinfo, host, port, path, query, fragment, and every byte outside them is one of `: / @ [ ] ? #` |
| `UrlParser.FieldsAreSound` | bazel/external/http_parser/http_parser.c:2424-2545 | a part has a place iff it is not empty, and the place holds its text |
| `UrlParser.LongPathsWrap` | bazel/external/http_parser/http_parser.c:2486-2495 | a path of n slashes is accepted and reported with n modulo 65536 bytes, right iff n is at most 65535 |
| `UrlParser.HostReadFromSchema` | bazel/external/http_parser/http_parser.c:2337-2352 | behind a schema of 65533 letters the offset of the authority wraps to 0: the host is accepted, and reported at the first letters of the schema |

## Left out

Cache:

- Envoy's dispatcher, buffers, header maps, logging, registration and configuration (ring-cache/config.cc): a dispatcher is a
  queue of closures, a header map a list of fields of which only the number counts, a buffer a byte string.
- C++ memory order: every atomic operation is one sequentially consistent step. Pins are unbounded numbers, not 32-bit;
  sizes do not overflow `size_t`.
- Leader abandonment, trailers and metadata: the cache has no code for them (ring-cache/filter.cc:15). The calling contract of
  README.md:345-348 is assumed: headers once, then data, the last call ends the stream, calls of one leader do not overlap.
- Liveness, and bounds on the memory of flights: not promised.
- Object identity is stood for by numbers: of a flight by the count of lookups, of a stream and a thread by their own.
- The headers of a hit are copied behind the lock; the model reads them with the lookup, which the pin makes the same.
- Envoy may call the filter back from inside its own encode calls; the model does not.

Parser:

- Non-strict mode, lenient headers, failing or pausing callbacks, the `on_headers_complete` results that skip a body or force
  an upgrade, and the string tables for errors, statuses and methods.
- HttpExecute.HttpParser.Execute: after a failed call it does not say which callbacks were made before the error, and with the
  header limit hit it does not say which error is reported, because a buffered fast path may find another one first. The header
  count is an unbounded number, so the model is exact where `max_header_size` plus the buffer length is below 2^32.
- HttpFragments.FragmentationIndependence: leaves out inputs that hit the header limit; HttpFragments.RefusedInEverySplit says
  what is left of it there.
- The numbers in `field_data` of fields that are not set.
