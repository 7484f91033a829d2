# Verified model of the streaming server's stateful components

This project models, in Dafny, the parts of the WebRTC streaming server that keep real state under
unbounded runs or print and parse the same messages, and proves what those parts promise.

- **Message router** (`MessageRouter`, `RouterLocation`, `RouterOrder`, `RouterAccounting`, `RouterOutcome`,
  `Balancers`): a labelled transition system with one program counter per call, the dispatcher, N workers, the task queue, one
  channel per worker, timeouts and atomic counters. A run is any interleaving. The three balancers are methods.
- **Session manager** (`SessionStore`, `SessionManager`, `SessionLifetime`): the object with its two maps, whose per-user lists
  are slices of shared backing arrays; every method is proved against functions on plain values.
- **Sequence validator** (`MessageValidator`): the sliding window and the rules that rescan it.
- **Wire protocols** (`JsonTree`, `StandardMessages`, `GStreamerAdapter`, `SelkiesAdapter`, `ProtocolManager`):
  JSON as a value tree, with integers rounded to float64 on the wire; both formatters and parsers, and the
  conversion between the protocols.
- **Static files** (`StaticPaths`, `StaticFileCache`, `StaticLookups`): the path normal form, the time- and
  size-limited cache, and concurrent lookups as a transition system.
- **Bitrate controller** (`NetworkOptimizer`), **statistics** (`PerformanceStats`), **peer-connection pool**
  (`PeerPool`) and **idle timers** (`IdleTimers`).
- `GoInts`, `Division`, `Sequences` and `Basics` hold Go's integer arithmetic and small facts used by the others.

Where the code does not do what its name or comments promise, the model keeps the code, and a lemma gives the
exact condition under which the promise holds; where that condition is not its own example, another lemma gives an
input or a run that breaks the promise.

- `RevokeUserSessions` leaves sessions behind as soon as a user has three (`SessionStore.RevokeUserCompleteIff`).
- Eviction from the window can make a proper peer improper (`MessageValidator.WindowProperIff`), for one by evicting
  the hello of a long session (`MessageValidator.LongSessionFlaggedIff`).
- The bitrate controller can stay in Recovering for ever (`NetworkOptimizer.CalmRecoveryIff`,
  `NetworkOptimizer.RecoveryNeverComes`), and a tick that starts in Recovering can lower the bitrate
  (`NetworkOptimizer.RecoveringFallsIff`, `NetworkOptimizer.RecoveringCanFall`).
- A kept minimum latency of zero is overwritten (`PerformanceStats.FastestIsLeastIff`).
- A cached empty path can stop eviction (`StaticFileCache.EvictsOldestIff`, `StaticLookups.EmptyPathOverflows`); the
  only caller of FileExists, at internal/webserver/static_file_router.go:163, refuses that path first. A lookup that
  stalls while others fill the cache evicts a newer fact than the one it stores (`StaticFileCache.KeepsNewerIff`,
  `StaticLookups.OverlapEvictsNewer`).
- Timestamps above 2^53 can change on the wire (`GStreamerAdapter.TripIsNormalIff`, `JsonTree.FirstInexact`).
- A message can be refused on its way to Selkies and back (`ProtocolManager.OfferComesBackIff`,
  `ProtocolManager.CandidateComesBackIff`), and on a second round as well (`ProtocolManager.OfferSecondRoundIff`,
  `ProtocolManager.CandidateSecondRoundIff`); and a round that draws a new id gives another standard document
  (`ProtocolManager.OfferFixedPoint`).
- ICE-Connected can cancel the only pending idle timer (`IdleTimers.IceConnectedLosesIff`,
  `IdleTimers.StopCanBeLost`), and a forgotten reconnect timer can remove a session that has reconnected
  (`IdleTimers.ConnectedCallsOffIff`, `IdleTimers.ReconnectedSessionRemoved`).
- The round-robin counter can wrap to a negative index (`Balancers.RoundRobinInRangeIff`).

`dafny verify dfyconfig.toml` checks the whole project.

## Model

| member | source | states |
|---|---|---|
| `Balancers.HashIndex` | internal/webrtc/concurrent_message_router.go:588-605 | the worker index of a client id is in range although the hash wraps around at 64 bits and the remainder may be negative |
| `Balancers.Base31Digits` | internal/webrtc/concurrent_message_router.go:594-597 | the hash reads the bytes of the client id as digits of base 31 |
| `Balancers.SelectByHash` | internal/webrtc/concurrent_message_router.go:588-605 | the byte loop with wrap-around computes the index of the unbounded base-31 number, wrapped once |
| `Balancers.SelectLeastLoaded` | internal/webrtc/concurrent_message_router.go:559-585 | the first idle worker, or else the first of those with the fewest processed tasks; no worker only for an empty pool |
| `Balancers.RoundRobinBalancer.SelectWorker` | internal/webrtc/concurrent_message_router.go:549-556 | the first pick after the counter's value, with the wrapped counter kept |
| `Balancers.SuccessivePicks` | internal/webrtc/concurrent_message_router.go:549-556 | k calls on end make the 1st to k-th pick of the counter's start value, wrap-around included |
| `Balancers.ChosenClosedForm` | internal/webrtc/concurrent_message_router.go:549-556 | how often a worker is chosen by m picks, in closed form |
| `Balancers.RoundRobinFair` | internal/webrtc/concurrent_message_router.go:549-556 | absent overflow each of n workers is chosen floor(m/n) or ceil(m/n) times by m picks, and exactly once by n consecutive ones |
| `Balancers.RoundRobinInRangeIff` | internal/webrtc/concurrent_message_router.go:549-556 | no pick indexes out of range exactly when the counter does not wrap onto a value with a negative remainder |
| `RouterLocation.LocatedStep` | internal/webrtc/concurrent_message_router.go:303-402 | every step of every actor keeps the record of where each task is in agreement with queue, dispatcher, channels and hands |
| `RouterLocation.ExactlyOneSpot` | internal/webrtc/concurrent_message_router.go:303-402 | in every reachable state a task that was enqueued is at exactly one spot, and one that was not is at none |
| `RouterLocation.AtMostOneResult` | internal/webrtc/concurrent_message_router.go:490-527 | at most one result is ever sent on a task's one-slot channel, and only for enqueued tasks |
| `RouterLocation.SendersNeverBlock` | internal/webrtc/concurrent_message_router.go:364-402 | dispatcher and worker can always send their result, even after the caller timed out; the worker's drop branch is never taken |
| `RouterOrder.FifoStep` | internal/webrtc/concurrent_message_router.go:364-402 | every step keeps the tasks decided, undecided and queued in the order of enqueueing |
| `RouterOrder.WorkerStartsInOrder` | internal/webrtc/concurrent_message_router.go:462-480 | in every run each worker starts tasks in an order that is a subsequence of the order of enqueueing |
| `RouterOrder.ClientOrderUnderHash` | internal/webrtc/concurrent_message_router.go:364-402 | with the hash balancer a client's tasks are started by one fixed worker only, in a subsequence of the order in which they were enqueued |
| `RouterOrder.PoolFixed` | internal/webrtc/concurrent_message_router.go:210-235 | the worker pool keeps its size in every run |
| `RouterAccounting.AccountedStep` | internal/webrtc/concurrent_message_router.go:303-361 | every step changes a counter exactly when it moves a call past that counter's update |
| `RouterAccounting.TotalIsConserved` | internal/webrtc/concurrent_message_router.go:303-361 | TotalTasks = QueuedTasks + CompletedTasks + FailedTasks plus the calls between two updates, in every reachable state |
| `RouterAccounting.ReturnedCountedOnce` | internal/webrtc/concurrent_message_router.go:303-361 | every accepted call that has returned was counted exactly once: the completed, failed and overflowed counters are the numbers of calls that returned with those outcomes |
| `RouterAccounting.QuiescentBooks` | internal/webrtc/concurrent_message_router.go:303-361 | when every call has returned the queue gauge is zero and the total is what completed plus what failed |
| `RouterOutcome.FatesShow` | internal/webrtc/concurrent_message_router.go:303-402 | in every reachable state a task is about to be answered, or was answered, with success or failure exactly if the actions so far processed it or gave it up that way |
| `RouterOutcome.OutcomeIff` | internal/webrtc/concurrent_message_router.go:323-361 | a returned call was rejected, overflowed or timed out exactly if those actions happened to it; otherwise it completed exactly if the worker that had its task processed it successfully, and failed exactly if that failed or the dispatcher could not deliver it |
| `RouterOutcome.BuffersAndBooks` | internal/webrtc/concurrent_message_router.go:462-527 | in every run queue and channels keep within their capacity, each worker has counted the tasks it started and is idle without one, and its failures are those it processed without success |
| `RouterOutcome.OriginOfCalls` | internal/webrtc/concurrent_message_router.go:303-321 | every call is the client's that made it, and the router runs exactly since it was started |
| `SessionStore.WithoutConsistent` | internal/webserver/auth/session.go:206-232 | removing any set of sessions keeps both maps indexing each other, lists in creation order, none empty and none longer |
| `SessionStore.CreateConsistent` | internal/webserver/auth/session.go:119-157 | creating a session keeps the two maps consistent and every list within max(1, MaxSessions) |
| `SessionStore.CreateAtCap` | internal/webserver/auth/session.go:119-157 | at the cap exactly that user's oldest session is exchanged for the new one, and nothing else changes |
| `SessionStore.CreateBelowCap` | internal/webserver/auth/session.go:119-157 | below the cap the new session is only added |
| `SessionStore.HeadIsOldest` | internal/webserver/auth/session.go:119-157 | the first listed session is the one created first |
| `SessionStore.SnapshotRevokesAll` | internal/webserver/auth/session.go:235-250 | revoking every id of a snapshot of the list would leave the user no session |
| `SessionStore.RevokeUserOutcome` | internal/webserver/auth/session.go:235-250 | the loop over the shared backing array leaves exactly the sessions at old odd positions j < n-1, with both maps consistent and other users untouched |
| `SessionStore.RevokeUserCompleteIff` | internal/webserver/auth/session.go:235-250 | the user is left without sessions exactly when at most two were listed |
| `SessionStore.ApplyConsistent` | internal/webserver/auth/session.go:119-291 | every session operation keeps the maps consistent and the lists capped |
| `SessionStore.RunConsistent` | internal/webserver/auth/session.go:119-291 | after any run of operations each list is duplicate-free, in creation order, non-empty, exactly the user's ids, and at most max(1, MaxSessions) long |
| `SessionLifetime.PresenceStep` | internal/webserver/auth/session.go:119-291 | a session is there from its creation to the first event that evicts, revokes or expires it, and each kind of event ends exactly the sessions it should or, for a whole user, those at even positions and the last |
| `SessionLifetime.SessionIsAsCreated` | internal/webserver/auth/session.go:119-195 | in every run a stored session is as it was created, and expires the time to live after it was last created or accessed |
| `SessionLifetime.FoundUntil` | internal/webserver/auth/session.go:160-178 | a session that no event has ended is found until exactly the time to live after its last use |
| `SessionManager.InMemorySessionManager.RevokeSessionLocked` | internal/webserver/auth/session.go:206-232 | the session leaves both maps, its list is compacted in the same array, and the other arrays are unchanged; an unknown id is an error and changes nothing |
| `SessionManager.InMemorySessionManager.RevokeTurn` | internal/webserver/auth/session.go:235-250 | one turn of the loop reads what earlier compactions left in the array and removes that session if it still exists |
| `SessionManager.InMemorySessionManager.RevokeUserSessions` | internal/webserver/auth/session.go:235-250 | the object ends in the state that the odd-position outcome describes |
| `SessionManager.InMemorySessionManager.CreateSession` | internal/webserver/auth/session.go:119-157 | eviction, append and index update together give the specified store |
| `SessionManager.InMemorySessionManager.UpdateLastAccess` | internal/webserver/auth/session.go:181-195 | refreshes one session's access time, and its expiry as configured; unknown ids are errors |
| `SessionManager.InMemorySessionManager.GetSession` | internal/webserver/auth/session.go:160-178 | an unknown or expired session is an error, and reading changes nothing |
| `SessionManager.InMemorySessionManager.CleanupExpiredSessions` | internal/webserver/auth/session.go:273-291 | removes exactly the expired sessions from both maps |
| `MessageValidator.SessionStateConsistency` | internal/common/protocol/validator_rules.go:691-734 | the interleaved scan reports no error if and only if each peer's own hello, offer, answer and ICE messages are none, or begin with a hello or an answer and contain no later hello; a reported peer is improper |
| `MessageValidator.HandshakeSequence` | internal/common/protocol/validator_rules.go:573-601 | reports exactly when the last two messages are an offer and an answer of one peer |
| `MessageValidator.TimestampSequence` | internal/common/protocol/validator_rules.go:603-629 | reports exactly when some message is stamped at least 61 seconds before its predecessor |
| `MessageValidator.MessageRate` | internal/common/protocol/validator_rules.go:631-654 | reports exactly when the tenth message from the end was validated less than a second ago |
| `MessageValidator.DuplicateDetection` | internal/common/protocol/validator_rules.go:656-688 | reports exactly when the last message resembles one of the nine before it |
| `MessageValidator.WindowIsLast` | internal/common/protocol/validator.go:595-610 | since a clear the window is exactly the last min(n, MaxHistorySize) messages |
| `MessageValidator.LoweredLimit` | internal/common/protocol/validator.go:595-610 | a limit lowered below the window's length is never reached, because one entry goes per message |
| `MessageValidator.ErrorPersists` | internal/common/protocol/validator_rules.go:691-734 | one more message keeps an error about a peer if it evicts none of that peer's own messages |
| `MessageValidator.ErrorPersistsRun` | internal/common/protocol/validator.go:595-610 | over any number of messages an error about a peer lasts until one of that peer's own messages is evicted |
| `MessageValidator.EvictionSparesIff` | internal/common/protocol/validator_rules.go:691-734 | after eviction a proper peer is proper exactly if it lost none of its own messages, keeps none, or first keeps an answer |
| `MessageValidator.WindowProperIff` | internal/common/protocol/validator.go:595-610 | for every proper history, however its peers interleave, the window is reported exactly if that fails for some peer |
| `MessageValidator.LongSessionFlaggedIff` | internal/common/protocol/validator_rules.go:691-734 | in particular one hello and then offers and candidates are accepted exactly as long as the hello is in the window |
| `MessageValidator.AllRulesReport` | internal/common/protocol/validator.go:222-262 | running the five rules in turn makes a sequence invalid exactly when some peer is improper; the other rules warn or inform |
| `MessageValidator.Validator.ValidateSequence` | internal/common/protocol/validator.go:222-262 | the message enters the window and the result reports on the new window; switched off it does neither |
| `MessageValidator.Validator.ValidateMessage` | internal/common/protocol/validator.go:265-280 | the three results combined: valid exactly when all are, the errors, warnings and infos of each in order, and invalid exactly when there is an error if that held of the parts |
| `JsonTree.RoundClose` | internal/common/protocol/gstreamer_adapter.go:324-338 | reading an integer as a float64 is off by at most half the spacing |
| `JsonTree.RoundTies` | internal/common/protocol/gstreamer_adapter.go:324-338 | half way between two floats the even one is taken |
| `JsonTree.StringsKept` | internal/common/protocol/gstreamer_adapter.go:441-449 | reading a list of strings keeps exactly the strings, in order |
| `JsonTree.CarryExact` | internal/common/protocol/gstreamer_adapter.go:324-338 | an int64 printed and read back through a float64 is unchanged exactly when it is a multiple of the float64 spacing at its size |
| `JsonTree.CarryTwice` | internal/common/protocol/gstreamer_adapter.go:324-338 | a second trip changes no integer any more |
| `JsonTree.FirstInexact` | internal/common/protocol/gstreamer_adapter.go:324-338 | 2^53 + 1 comes back as 2^53 |
| `GStreamerAdapter.RoundTrip` | internal/common/protocol/gstreamer_adapter.go:58-215 | parsing the printed tree of any message succeeds and gives the normal form with times rounded to float64 |
| `GStreamerAdapter.FormatThenParse` | internal/common/protocol/gstreamer_adapter.go:58-215 | what one adapter prints within its size limit the same adapter reads back |
| `GStreamerAdapter.Defaults` | internal/common/protocol/gstreamer_adapter.go:288-348 | what stands in for basic members that are missing or of the wrong type: version 1.0, a new id, the present time, no peer |
| `GStreamerAdapter.NumberIsTruncated` | internal/common/protocol/gstreamer_adapter.go:324-338 | a timestamp is cut toward zero to an int64 |
| `GStreamerAdapter.MetadataDefaults` | internal/common/protocol/gstreamer_adapter.go:351-452 | client and server info are read exactly if they are objects |
| `GStreamerAdapter.RefusedIff` | internal/common/protocol/gstreamer_adapter.go:58-103 | an object is refused exactly if its type is not a text or its metadata or error is not an object; other texts are not JSON objects, and null reads as the empty object |
| `GStreamerAdapter.OptionalMembers` | internal/common/protocol/gstreamer_adapter.go:106-215 | optional members are printed exactly if there is something to print |
| `GStreamerAdapter.TripIsNormalIff` | internal/common/protocol/gstreamer_adapter.go:106-215 | the trip loses only the unprinted client fields and empty parts exactly when the message time and a positive server time are float64 values |
| `GStreamerAdapter.TripWithin53` | internal/common/protocol/gstreamer_adapter.go:106-215 | in particular for times within 2^53 |
| `GStreamerAdapter.NormalTwice` | internal/common/protocol/gstreamer_adapter.go:106-215 | the normal form is idempotent |
| `GStreamerAdapter.NormalReadsAlike` | internal/common/protocol/gstreamer_adapter.go:106-215 | a message and its normal form are read as the same tree |
| `GStreamerAdapter.NormalPrintsAlikeIff` | internal/common/protocol/gstreamer_adapter.go:106-215 | they are printed as the same tree up to the data, and altogether exactly if the data holds no number that reading would change |
| `GStreamerAdapter.SameOnTheWireIff` | internal/common/protocol/gstreamer_adapter.go:106-215 | two messages whose printed times are float64 values are read as the same tree exactly when their normal forms are equal |
| `GStreamerAdapter.TripTwice` | internal/common/protocol/gstreamer_adapter.go:58-215 | a second trip changes nothing, except when rounding pushed the server time out of the int64 range |
| `GStreamerAdapter.Adapter.FormatMessage` | internal/common/protocol/gstreamer_adapter.go:106-215 | the maps built by assignment are the specified tree; nil messages and oversized texts are errors |
| `GStreamerAdapter.Adapter.ReadStrings` | internal/common/protocol/gstreamer_adapter.go:441-449 | the append loop keeps exactly the strings of the array, in order |
| `GStreamerAdapter.Adapter.ParseBasicFields` | internal/common/protocol/gstreamer_adapter.go:288-348 | the basic fields with their defaults, and the two type errors |
| `GStreamerAdapter.Adapter.ParseMetadata` | internal/common/protocol/gstreamer_adapter.go:351-452 | metadata that is present, null included, must be an object; members of the wrong type are skipped |
| `GStreamerAdapter.Adapter.ParseError` | internal/common/protocol/gstreamer_adapter.go:455-515 | the same for the error object |
| `GStreamerAdapter.Adapter.ParseMessage` | internal/common/protocol/gstreamer_adapter.go:58-103 | a fresh message with the specified value, or the first error in the order of the checks |
| `SelkiesAdapter.DecodeSdpIs` | internal/common/protocol/selkies_adapter.go:415-419 | how data decodes into SDPData: a wrong type anywhere is an error, a missing or null member leaves a nil pointer |
| `SelkiesAdapter.ServersRefusedIff` | internal/common/protocol/selkies_adapter.go:415-419 | a server list is refused exactly for a server that is not an object or has a member of the wrong type |
| `SelkiesAdapter.DecodeCandidateIs` | internal/common/protocol/selkies_adapter.go:437-441 | the same for ICECandidateData |
| `SelkiesAdapter.NumberDecodesIff` | internal/common/protocol/selkies_adapter.go:437-441 | a number decodes into an int exactly if it is an integer that fits one, and then into that integer |
| `SelkiesAdapter.WireForms` | internal/common/protocol/selkies_adapter.go:100-119 | what a message of each type looks like on the wire: a HELLO or ERROR line, or an object with an sdp, ice or type member |
| `SelkiesAdapter.ObjectRefusals` | internal/common/protocol/selkies_adapter.go:64-97 | which objects the parser refuses, and as what |
| `SelkiesAdapter.SdpTrip` | internal/common/protocol/selkies_adapter.go:251-296 | SDP printed as Selkies is read with the same peer, SDP type and text, as an answer only if the SDP's own type says so; empty text is refused |
| `SelkiesAdapter.CandidateTrip` | internal/common/protocol/selkies_adapter.go:299-355 | an ICE candidate printed as Selkies is read back with its two optional strings filled in and the line index truncated to 16 bits |
| `SelkiesAdapter.LineSurvivesIff` | internal/common/protocol/selkies_adapter.go:313-323 | a line index is unchanged exactly when it is absent or in 0..65535 |
| `SelkiesAdapter.Uint16Is` | internal/common/protocol/selkies_adapter.go:313-323 | a line index keeps the low 16 bits of what fits 32, and becomes 0 otherwise |
| `SelkiesAdapter.ReturnedTwice` | internal/common/protocol/selkies_adapter.go:299-355 | whatever a candidate loses is lost on the first trip |
| `SelkiesAdapter.StandardTrip` | internal/common/protocol/selkies_adapter.go:483-511 | any other message keeps type, peer and data under any mapping, whichever of its Selkies types the map iteration finds first |
| `SelkiesAdapter.HelloTrip` | internal/common/protocol/selkies_adapter.go:211-248 | a hello keeps its peer id exactly when the id has no space, and its data is replaced |
| `SelkiesAdapter.ErrorIsNotRead` | internal/common/protocol/selkies_adapter.go:472-480 | an error line is refused by the Selkies parser |
| `SelkiesAdapter.Adapter.ParseMessage` | internal/common/protocol/selkies_adapter.go:64-97 | a fresh message with the specified value, or the specified error |
| `SelkiesAdapter.Adapter.FindName` | internal/common/protocol/selkies_adapter.go:483-495 | some Selkies type mapped to the standard type, or none exactly when there is none |
| `SelkiesAdapter.Adapter.FormatHello` | internal/common/protocol/selkies_adapter.go:394-412 | the HELLO line with peer id and encoded client info |
| `SelkiesAdapter.Adapter.FormatSdp` | internal/common/protocol/selkies_adapter.go:415-434 | the SDP map built by assignment is the specified tree |
| `SelkiesAdapter.Adapter.FormatIce` | internal/common/protocol/selkies_adapter.go:437-469 | so is the ICE map, with the optional members that are present |
| `SelkiesAdapter.Adapter.FormatError` | internal/common/protocol/selkies_adapter.go:472-480 | the error line, or an error without error information |
| `SelkiesAdapter.Adapter.FormatStandard` | internal/common/protocol/selkies_adapter.go:483-511 | the map for any other type, under the name that the search found |
| `SelkiesAdapter.Adapter.FormatMessage` | internal/common/protocol/selkies_adapter.go:100-119 | the formatter of the message's type gives the specified document |
| `ProtocolManager.Manager.ParseMessage` | internal/common/protocol/manager.go:143-199 | the adapter of the named protocol, or of the default one, parses; an unknown protocol is an error |
| `ProtocolManager.Manager.FormatMessage` | internal/common/protocol/manager.go:202-241 | the named protocol, else the message's version, else the default one formats |
| `ProtocolManager.Manager.ConvertMessage` | internal/common/protocol/manager.go:244-264 | parse, stamp the new version, format, with the error of the first step that fails |
| `ProtocolManager.OfferThere` | internal/common/protocol/selkies_adapter.go:415-434 | an offer or answer converts to Selkies exactly when its data decodes with an SDP; with a nil SDP the program crashes |
| `ProtocolManager.CandidateThere` | internal/common/protocol/selkies_adapter.go:437-469 | the same for ICE messages |
| `ProtocolManager.OfferBack` | internal/common/protocol/manager.go:244-264 | the way back of an SDP document succeeds exactly if the text is not empty and both texts are within the limits |
| `ProtocolManager.CandidateBack` | internal/common/protocol/manager.go:244-264 | the same for ICE documents |
| `ProtocolManager.OfferComesBackIff` | internal/common/protocol/manager.go:244-264 | an offer or answer gets to Selkies and back exactly if it decodes with a non-empty SDP and both texts fit |
| `ProtocolManager.CandidateComesBackIff` | internal/common/protocol/manager.go:244-264 | an ICE message does exactly if it decodes with a non-empty candidate and both texts fit |
| `ProtocolManager.OfferKept` | internal/common/protocol/manager.go:244-264 | an offer or answer that went to Selkies and back keeps peer, SDP type and text, and its type exactly when the SDP type is an answer just if the message is |
| `ProtocolManager.OfferFixedPoint` | internal/common/protocol/manager.go:244-264 | a second round, which draws its own id and clock, gives the very same Selkies document, and a standard document that reads as the first one with only id and timestamp changed; so the two differ whenever the ids do |
| `ProtocolManager.OfferSecondRoundIff` | internal/common/protocol/manager.go:244-264 | the second round succeeds exactly if the standard document fits with its own id and timestamp |
| `ProtocolManager.CandidateKept` | internal/common/protocol/manager.go:244-264 | an ICE message keeps peer and candidate, and its line index exactly when absent or in 0..65535 |
| `ProtocolManager.CandidateFixedPoint` | internal/common/protocol/manager.go:244-264 | the second standard document of an ICE message reads as the first one with only id and timestamp changed, and its Selkies document has the filled-in strings |
| `ProtocolManager.CandidateSecondRoundIff` | internal/common/protocol/manager.go:244-264 | the second round of an ICE message succeeds exactly if its Selkies text with both optional strings filled in fits, and the standard document with its own id and timestamp |
| `StaticPaths.SecondCheckNeverFires` | internal/webserver/static_file_router.go:475-479 | a path that passed the first check for ".." passes the second |
| `StaticPaths.HasDotsIff` | internal/webserver/static_file_router.go:451-454 | the first check refuses exactly the texts that contain ".." |
| `StaticPaths.BareIs` | internal/webserver/static_file_router.go:441-448 | what is checked is the front of the request up to the first '?' or '#' |
| `StaticPaths.SanitizeIs` | internal/webserver/static_file_router.go:436-498 | a path is refused exactly if what precedes query and fragment contains "..", NUL or one of seven other characters, or is longer than 1024; otherwise it becomes its non-empty non-dot segments joined, or the default file if it has none |
| `StaticPaths.SameResultIff` | internal/webserver/static_file_router.go:436-498 | two accepted paths that name a file get the same result exactly when those segments are the same |
| `StaticPaths.SanitizeTwice` | internal/webserver/static_file_router.go:436-498 | sanitizing an accepted result again changes nothing, given a default file that is itself unchanged |
| `StaticPaths.ResolveKept` | internal/webserver/static_file_router.go:468-470 | without ".." path cleaning only drops empty and "." segments |
| `StaticFileCache.EvictsOldestIff` | internal/webserver/static_file_router.go:349-364 | every order of iteration evicts one oldest entry exactly when no empty path is cached as the strictly oldest; else some order evicts nothing |
| `StaticLookups.EmptyPathOverflows` | internal/webserver/static_file_router.go:334-364 | after a FileExists call for the empty path there are runs in which the cache grows without bound |
| `StaticFileCache.StoredKeepsNewer` | internal/webserver/static_file_router.go:334-346 | storing removes at most one entry, which is no newer than any entry that was cached |
| `StaticFileCache.KeepsNewerIff` | internal/webserver/static_file_router.go:334-346 | a store of a named path evicts no fact newer than one it keeps, its own included, exactly if nothing is evicted, or the stored fact is at least as new and no empty path is the oldest |
| `StaticLookups.RunIsHonest` | internal/webserver/static_file_router.go:241-258 | in any interleaving of lookups, clears and timeout changes every cached answer is that of a direct check made since its lastCheck |
| `StaticLookups.AnswerIsRecent` | internal/webserver/static_file_router.go:241-258 | the answer that a lookup returns is that of a direct check made during it, or, from the cache, at most the timeout before it began, for any history of the file systems |
| `StaticLookups.HitIsRecent` | internal/webserver/static_file_router.go:315-331 | an answer taken from the cache is that of a direct check at most the timeout before the instant at which its age is tested |
| `StaticLookups.ReadHitsIff` | internal/webserver/static_file_router.go:315-331 | a lookup is answered from the cache exactly if there is an entry that is not older than the timeout |
| `StaticLookups.CachedWasStored` | internal/webserver/static_file_router.go:334-346 | what is cached was stored by a lookup of that path, after the last clear |
| `StaticLookups.TimeoutInForce` | internal/webserver/static_file_router.go:402-408 | the timeout in force is the last one set |
| `StaticLookups.RunIsBounded` | internal/webserver/static_file_router.go:334-346 | with named paths the cache never exceeds max(1, maxCacheSize) entries |
| `StaticLookups.OneAtATimeKeepsNewer` | internal/webserver/static_file_router.go:241-258 | lookups of named paths that do not overlap never evict a fact newer than one they keep |
| `StaticLookups.OverlapEvictsNewer` | internal/webserver/static_file_router.go:241-258 | for a cache of any size from 1 on: a lookup reads its clock at 1 and stalls, as many others as the cache has room for finish at 2, and then its store evicts a fact of theirs |
| `StaticFileCache.StaticFileRouter.CheckFileExistence` | internal/webserver/static_file_router.go:261-312 | a file is present exactly if the external or the embedded file system has a file, not a directory, of that path, and external exactly if the external one has |
| `StaticFileCache.StaticFileRouter.GetCachedFileInfo` | internal/webserver/static_file_router.go:315-331 | an entry is found exactly when it is present and not older than the timeout |
| `StaticFileCache.StaticFileRouter.EvictOldestCacheEntry` | internal/webserver/static_file_router.go:349-364 | the loop over the map, in an arbitrary order, deletes what the scan of that order holds |
| `StaticFileCache.StaticFileRouter.FileExists` | internal/webserver/static_file_router.go:241-258 | the answer is what the file systems say at most the timeout before the call or during it; a hit changes nothing, and a miss stores the new answer in a bounded cache |
| `NetworkOptimizer.Optimizer.PerformCongestionControl` | internal/webrtc/network_optimizer.go:373-428 | the three-state machine, with the fields and the adjustment history in agreement |
| `NetworkOptimizer.Optimizer.CalculateNetworkQuality` | internal/webrtc/network_optimizer.go:489-542 | the loop and the conditional factors compute the quality product |
| `NetworkOptimizer.LossRateIs` | internal/webrtc/network_optimizer.go:378-390 | the loss rate is the share of the packets sent since the sample before that were lost since |
| `NetworkOptimizer.AverageRttWithin` | internal/webrtc/network_optimizer.go:496-512 | the average lies between any bounds of the positive round-trip times among the last five samples, and is 0 if there are none |
| `NetworkOptimizer.ScoresAre` | internal/webrtc/network_optimizer.go:516-541 | each score falls in proportion, to 0 at a second of delay, a tenth lost, or a tenth of a second of jitter |
| `NetworkOptimizer.WorseNeverHelps` | internal/webrtc/network_optimizer.go:489-542 | raising round-trip times, the loss rate or the last jitter never raises the quality, which lies between 0 and 1 |
| `NetworkOptimizer.ShortTimesRaise` | internal/webrtc/network_optimizer.go:431-455 | with the default settings round-trip times under 200 ms, without loss and jitter, raise the target by a step if there is room |
| `NetworkOptimizer.LongTimesLower` | internal/webrtc/network_optimizer.go:431-455 | times of a second or more make the quality 0 and lower the target by a step if there is room |
| `NetworkOptimizer.ApproachNears` | internal/webrtc/network_optimizer.go:457-472 | the bitrate comes nearer to the target by half a step and never goes past it |
| `NetworkOptimizer.HistoryIsLast` | internal/webrtc/network_optimizer.go:236-252 | the history is the last hundred samples received |
| `NetworkOptimizer.Optimizer.PerformOptimization` | internal/webrtc/network_optimizer.go:350-370 | one tick of the specified controller |
| `NetworkOptimizer.BitratesStayInRange` | internal/webrtc/network_optimizer.go:373-473 | in every run current and target bitrate stay within the configured bounds |
| `NetworkOptimizer.TickCycle` | internal/webrtc/network_optimizer.go:373-473 | the state only cycles Normal, Detected, Recovering, Normal; the cut is made exactly on entering Detected; Detected freezes the bitrate |
| `NetworkOptimizer.RecoveringFallsIff` | internal/webrtc/network_optimizer.go:350-473 | a tick from Recovering lowers the bitrate exactly if its first half reaches a target at most a step above, its second half finds the quality poor and may lower the target, and half a step below the old target is less than the bitrate was |
| `NetworkOptimizer.StayingNeverFalls` | internal/webrtc/network_optimizer.go:373-473 | a tick that stays in Recovering never lowers it |
| `NetworkOptimizer.RecoveringCanFall` | internal/webrtc/network_optimizer.go:38-58 | a run of samples received every two seconds, with the default settings, in which a tick from Recovering lowers the bitrate from 2120 to 2050 |
| `NetworkOptimizer.RecoveryIsBounded` | internal/webrtc/network_optimizer.go:406-427 | from Recovering with current < target, calm ticks reach Normal within ceil((MaxBitrate - current)/step), although the target may rise on every tick |
| `NetworkOptimizer.SteadyRecoveryIff` | internal/webrtc/network_optimizer.go:413-427 | with steady quality Normal is reached exactly when current < target on entry |
| `NetworkOptimizer.CalmRecoveryIff` | internal/webrtc/network_optimizer.go:413-427 | in every calm run, once the target has settled for as many ticks as the climb can take, the machine is back in Normal exactly if the settled target is above the bitrate on entry |
| `NetworkOptimizer.StormEndsAboveTarget` | internal/webrtc/network_optimizer.go:38-58 | with the default settings a run of samples appended to one history every two seconds, with counters that never run backwards, enters Recovering above the target |
| `NetworkOptimizer.RecoveryCanFail` | internal/webrtc/network_optimizer.go:413-427 | from there the controller stays in Recovering as long as the ticks are steady, whatever the samples |
| `NetworkOptimizer.RecoveryNeverComes` | internal/webrtc/network_optimizer.go:413-427 | for every k from 13 on the run of k such samples, of which none from the 11th on finds a loss, is still in Recovering |
| `PerformanceStats.DriftBound` | internal/webrtc/performance_monitor.go:563-565 | the truncating running mean never exceeds the true mean and trails it by at most (n-1)/2 |
| `PerformanceStats.DriftIsTight` | internal/webrtc/performance_monitor.go:563-565 | that bound is attained for every n |
| `PerformanceStats.MeanWithin` | internal/webrtc/performance_monitor.go:563-565 | the running mean lies between the least and the greatest sample |
| `PerformanceStats.ExactMean` | internal/webrtc/performance_monitor.go:399-400 | the per-type mean is the floor of sum over count |
| `PerformanceStats.TypeStatsCount` | internal/webrtc/performance_monitor.go:384-399 | count, successes and errors of a message type are the numbers of its messages, and the total is their sum |
| `PerformanceStats.TypeAverageIsMean` | internal/webrtc/performance_monitor.go:399-400 | its average is the exact mean rounded down |
| `PerformanceStats.TypeMaximumIsGreatest` | internal/webrtc/performance_monitor.go:401-403 | its maximum is the greatest of its times |
| `PerformanceStats.ProtocolStatsCount` | internal/webrtc/performance_monitor.go:551-565 | count and errors of a protocol are the numbers of its messages, and its average is the running mean |
| `PerformanceStats.FastestSinceZero` | internal/webrtc/performance_monitor.go:424-427 | the kept minimum is the minimum of the samples after the last zero |
| `PerformanceStats.FastestIsLeastIff` | internal/webrtc/performance_monitor.go:424-427 | it is the true minimum exactly when no sample was zero or the last one was |
| `PerformanceStats.SlowestIsGreatest` | internal/webrtc/performance_monitor.go:428-430 | the kept maximum is the true one |
| `PerformanceStats.BucketIsInterval` | internal/webrtc/performance_monitor.go:434-457 | the buckets partition the latencies at the named bounds |
| `PerformanceStats.HistogramTotal` | internal/webrtc/performance_monitor.go:419-431 | the bucket counts add up to the number of samples |
| `PerformanceStats.TableEntry` | internal/webrtc/performance_monitor.go:384-403 | the entry of a type or protocol is about all its samples and no others |
| `PerformanceStats.MessageProcessingStats.RecordMessageProcessing` | internal/webrtc/performance_monitor.go:373-416 | counters, per-type statistics, minimum, maximum and histogram stay those of everything recorded |
| `PerformanceStats.MessageRoutingStats.RecordRoutingStats` | internal/webrtc/performance_monitor.go:541-567 | the same for routing, by protocol |
| `PeerPool.ClosedStep` | internal/webrtc/peer_connection_manager.go:131-407 | every step keeps all references valid and a pass under way about clients of the pool |
| `PeerPool.UnsharedStep` | internal/webrtc/peer_connection_manager.go:131-407 | every step keeps each entry with at most one client |
| `PeerPool.PoolIsBounded` | internal/webrtc/peer_connection_manager.go:131-195 | the pool never exceeds maxConnections |
| `PeerPool.AttemptsStep` | internal/webrtc/peer_connection_manager.go:319-407 | nothing but a pass that finds the entry counts an attempt, and a finding at the limit removes the entry |
| `PeerPool.RetryBudget` | internal/webrtc/peer_connection_manager.go:319-407 | however goroutines and callbacks interleave, an entry nobody reports connected is gone after at most max(0, limit - attempts) + 1 findings |
| `PeerPool.FreshEntryBudget` | internal/webrtc/peer_connection_manager.go:131-195 | a new entry is deleted no later than at the (reconnectAttempts + 1)-th finding |
| `PeerPool.FindingWasScanned` | internal/webrtc/peer_connection_manager.go:319-355 | a decision is about an entry that the same pass saw unhealthy and that is still the client's |
| `PeerPool.PassScansAll` | internal/webrtc/peer_connection_manager.go:319-333 | a pass scans every client that is in the pool when it starts |
| `PeerPool.UnhealthyIsDecided` | internal/webrtc/peer_connection_manager.go:335-354 | every entry that a scan finds unhealthy is reconnected or dropped before its pass ends |
| `PeerPool.ScansAreFindings` | internal/webrtc/peer_connection_manager.go:319-355 | every scan that finds an entry unhealthy leads to exactly one decision about it |
| `PeerPool.DroppedAfterPasses` | internal/webrtc/peer_connection_manager.go:319-407 | an entry that nobody reports connected is out of the pool when the pass is over whose scan is the (limit - attempts + 1)-th to see it unhealthy |
| `PeerPool.PassChecksAll` | internal/webrtc/peer_connection_manager.go:285-316 | a pass checks every entry that is in the pool when it starts |
| `PeerPool.HealthStep` | internal/webrtc/peer_connection_manager.go:285-407 | exactly these make an entry unhealthy or healthy: a reported failure or recovery, a failed check, a failed or a new connection |
| `PeerPool.StaysUnhealthy` | internal/webrtc/peer_connection_manager.go:285-407 | what made an entry unhealthy lasts until something heals it |
| `PeerPool.KnowledgeStep` | internal/webrtc/peer_connection_manager.go:529-587 | a callback or a new connection sets states and time of an entry, and nothing else does |
| `PeerPool.PoolStep` | internal/webrtc/peer_connection_manager.go:131-260 | exactly which clients enter and leave the pool at each step, and that the others keep their entries |
| `PeerPool.JobsBalance` | internal/webrtc/peer_connection_manager.go:358-407 | reconnections under way are those that findings below the limit started and that did not finish |
| `PeerPool.CallbacksBalance` | internal/webrtc/peer_connection_manager.go:529-587 | every callback that finds its entry in the pool is applied to that entry, once |
| `PeerPool.OncePerPass` | internal/webrtc/peer_connection_manager.go:319-355 | a pass decides about a client at most once |
| `IdleTimers.AsksOnlyWhenIdle` | internal/webrtc/manager.go:899-930 | NoActiveSessions is published exactly when an idle timer calls back with no session left |
| `IdleTimers.KeepsCover` | internal/webrtc/manager.go:319-428 | no step but a connect or ICE-Connected ends the wait for the stop |
| `IdleTimers.StopIsOnItsWay` | internal/webrtc/manager.go:869-930 | after a removal that leaves no session, until a connect or ICE-Connected, an idle timer is pending or NoActiveSessions was published since |
| `IdleTimers.IceConnectedLosesIff` | internal/webrtc/manager.go:319-330 | in every run, with no session, ICE-Connected leaves nothing pending exactly when the field names the only pending idle timer and it can still be stopped |
| `IdleTimers.StopCanBeLost` | internal/webrtc/manager.go:319-330 | such a run exists |
| `IdleTimers.ConnectedCallsOffIff` | internal/webrtc/manager.go:319-324 | in every run ICE-Connected calls off every reconnect timeout exactly when none was overwritten or has run out |
| `IdleTimers.ReconnectedSessionRemoved` | internal/webrtc/manager.go:346-388 | a run in which a forgotten reconnect timer removes a session that has reconnected |
| `IdleTimers.ClientConnectStopsIff` | internal/webrtc/manager.go:834-846 | in every run a client that connects calls off every idle timeout exactly when none was overwritten or has run out |
| `IdleTimers.IceClosedStopsIff` | internal/webrtc/manager.go:391-404 | the same for ICE-Closed and both timers, except for the idle timer it starts when no session is left |
| `IdleTimers.TimeoutIsOnItsWay` | internal/webrtc/manager.go:346-388 | after ICE was lost or failed, until it connects or closes, a reconnect timer of the session is pending or the session has timed out since |
| `IdleTimers.SessionsStep` | internal/webrtc/manager.go:834-896 | a session is active from the connect that adds it to the disconnect, ICE-Closed or timeout that takes it out |
| `IdleTimers.WebRTCManager.OnClientConnected` | internal/webrtc/manager.go:834-861 | the session is added, the idle timer stopped, the start announced |
| `IdleTimers.WebRTCManager.RemoveActiveSession` | internal/webrtc/manager.go:869-896 | the session is removed, the end announced with the remaining count, and an idle timer started if none is left |
| `IdleTimers.WebRTCManager.HandleICEConnectionStateChange` | internal/webrtc/manager.go:296-404 | the five ICE callbacks, none of which acts without a bus or a current session |
| `IdleTimers.WebRTCManager.OnTimerCallBack` | internal/webrtc/manager.go:407-428 | a reconnect timeout removes its session, an idle timeout asks for the stop if no session is left |

## Left out

- Starting and stopping: `ConcurrentMessageRouter.Stop` closes channels that may still be sent on; runs are between Start and Stop. A router with no workers, which crashes the dispatcher, is not modelled.
- Router: timeouts may happen at any time; the choice of the round-robin and least-loaded balancers is any worker in the transition system; counters are unbounded; the base router's processing is a success or a failure.
- `RouterAccounting.TotalIsConserved`: counters do not wrap around, because 2^63 calls are out of reach.
- Session manager: session ids are fresh parameters and the clock does not run backwards; a `*Session` that a caller keeps is not modelled, since sessions are values in the map; an append that finds no room copies to an array of 2n + 1 cells, not of Go's growth factor; the cleanup goroutine is its one operation.
- Validator: content, format and schema rules appear by their results only; the rule lists are the five default sequence rules, all enabled; differences of timestamps do not wrap around.
- JSON: bytes, escapes and invalid UTF-8 are not modelled, a text is its value tree and a length; keys decoded into Go structs match exactly, not case-insensitively.
- `SelkiesAdapter.CandidateTrip`: a line index above 2^53 prints in shortest decimal digits, while the model takes the exact integer.
- `SelkiesAdapter.HelloTrip`: the base64 metadata of a hello is an abstract text that the parser ignores, as the source does with the value it decodes.
- `ProtocolManager.Manager.ConvertMessage`: the validator that ParseMessage runs in strict mode is not called, because its result is not used by the conversion; its window is modelled separately.
- Protocol manager: AddProtocolMapping and RemoveProtocolMapping, since every statement is for any mapping; validation rules of the adapters; protocol detection, which is commented out in the source.
- Conversions of floats outside an integer type's range follow amd64, because Go leaves them to the implementation.
- `StaticFileCache.StaticFileRouter.FileExists`: one call without others in between, from a truthful cache, which `StaticLookups.RunIsHonest` gives for every run; sizes, modification times and entity tags of cached files are not kept; embedded files do not change.
- `StaticPaths.SanitizeIs`: path.Clean is modelled from its documentation, on segments; a character stands for a byte.
- Network optimizer: in the runs from received samples each sample is followed by one tick, while the source has a ticker for each; rates and scores are exact reals, and the cut to 80% is the exact quotient rounded toward zero; packet-loss recovery counters and the bitrate callback are left out.
- Performance monitor: time windows, the list of slow messages, connection, system and alert statistics; counters and sums do not wrap around; ResetStats takes its lock twice and never returns.
- Peer pool: it is a transition system instead of a class, because callbacks and goroutines hold entries that have left the pool; metrics, ICE candidate counts, tracks and the ICE collection monitor are left out; the test of the attempt count and its increment are one step.
- `PeerPool.RetryBudget`: counts passes, not time.
- Idle timers: every callback is one step, although the source reads its timer fields without a lock; times of expiry are arbitrary.
- HTTP and WebSocket handlers, GStreamer and Pion calls, metrics export, configuration, authorization and browser code have no visible state to prove anything about.
