# WheelMaker server: state machines, caches and codecs

WheelMaker's Go server keeps a hub and a registry apart and connects them with websockets. This
project models the parts of it whose correctness is hard to see by reading one function:

- **the project file index** (`FileIndex*.dfy`, `Ranking.dfy`, `SearchResults.dfy`, `IndexFile.dfy`, `PathClean.dfy`,
  `Aging.dfy`): fuzzy searches that only rescan what the previous query matched, over snapshots that are released from
  memory and read back from disk in between;
- **the web session store** (`Sessions.dfy`, `SessionUse.dfy`, `SessionFile.dfy`, `SessionStore.dfy`,
  `SessionLimits.dfy`, `BasePath.dfy`): sessions in memory with lazy write-back, rollback of failed writes, sliding
  expiry, eviction and reload;
- **the port relay tunnel** (`Frame.dfy`, `RelayStream.dfy`, `RelayClients.dfy`, `Tunnel.dfy`, `TunnelPaths.dfy`,
  `TunnelDelivery.dfy`, `TunnelLosses.dfy`, `TunnelClosing.dfy`): any number of HTTP streams sharing one connection,
  on top of the binary frame codec;
- **the registry's routing** (`RoutingTables.dfy`, `RoutingRuns.dfy`, `RoutingUpdates.dfy`) and **request forwarding**
  (`Forwarding.dfy`, `ForwardingAnswers.dfy`);
- **speech streams** (`Speech.dfy`, `SpeechRequests.dfy`), with timers and provider events at any time;
- **the login token buckets** (`LoginLimiter.dfy`, `LoginSources.dfy`, `LoginGuard.dfy`, `GuardSources.dfy`), **the replay
  window** (`RequestWindow.dfy`) and **the upload quota** (`UploadQuota.dfy`).

`Text.dfy`, `Sorting.dfy`, `Subsequences.dfy` and `Collections.dfy` hold strings, orders, subsequences and sizes
with the facts about them; `Runs.dfy` holds runs under a step function or a step relation.

Objects that the source updates in place are classes whose methods follow the source's methods and
loops, each proved against a function or relation on values. What the source promises over whole runs is
proved about those functions and relations, as invariants of transition systems in which each step is
one lock section, one channel operation or one message. Go's map iteration is `AnyOf`: any order.

Where a promise fails, a lemma gives the run that breaks it and another says exactly when it holds:

- an index file gives its list back exactly when every path is newline-free and unchanged by cleaning
  (`IndexFile.RoundTrip`, `IndexFile.NewlineBreaksRoundTrip`). Searches of a project whose last list is such are right
  in every run (`FileIndexRuns.Replay`); for any other list that a search can show whole, a rebuild, five idle
  minutes and a search give a wrong answer (`FileIndexLimits.SearchAfterIdle`), as when a walk meets the files
  `a\nb` and `c` (`FileIndexLimits.BrokenWalk`);
- a search that continues a session misses no hit as long as the queries it takes for extensions are; the test is by
  lower case and the match by folding, so that holds of all queries exactly when characters of the same lower case
  fold alike (`FuzzyMatch.MayExtendExactly`). U+0130 breaks it: its lower case is that of "I", but it folds with
  nothing, and what it alone hits is lost (`FileIndexLimits.FalseExtensionLosesHits`);
- two projects write the same index file exactly when their names differ only in characters a path may not hold, or
  both come to `_` (`FileIndex.NamesShareFile`);
- a restart gives the sessions back exactly when each one on file was last seen no earlier than its creation
  (`Sessions.RestartGivesBack`, `SessionFile.WrittenFileLoads`); a clock set back between a login and a use can spoil
  the file (`SessionLimits.EarlyUseSpoilsFile`);
- a revoked session that was in memory stays out whatever the clock reads (`Sessions.RevokedForever`). One that had
  been found expired before, by a call whose write failed, stays out as long as restarts read later times
  (`Sessions.ForgottenStaysOut`), and may come back otherwise (`SessionLimits.ForgottenMayComeBack`);
- the routes are exact in every run exactly when no hub id continues another across a colon
  (`RoutingRuns.RunRoutesExactly` with `PlainHubsApart`, `RoutingLimits.OverlappingHubsLoseRoutes`);
- the stored epoch of a registered hub goes back in exactly those steps that store a report overtaken by a younger
  connection (`RoutingRuns.EpochGoesBackExactly`), for check and write are separate sections. It never does in a run
  in which no connection writes between the check and the write of another one of its hub
  (`RoutingRuns.UndisturbedEpochsGrow`); whenever two connections of a hub are both between check and write, it may
  (`RoutingLimits.BothStoringLowersEpoch`), and that can happen to every hub (`RoutingLimits.EpochMayGoBack`);
- a tunnel closed by anybody but its own read loop can lose response bytes in the middle: some run scrambles an answer
  exactly when two of its neighbouring bytes differ (`TunnelClosedFromOutside.ScrambledExactly`). What arrives is
  always the answer with parts left out (`TunnelLosses.ReceivedIsDrawn`), and without such a close a prefix of it
  (`TunnelSafety.RunIsSafe`);
- the relay's retry time is too early exactly when the failed attempt used up the last token of a
  bucket that is due later (`LoginGuard.RetryExact`), and a run from the start gets there
  (`LoginGuard.RetryTooEarly`).

## Assumptions

- Fuzzy matching: a text matches when the folded query is a subsequence of the folded text; the score depends on
  query and text alone. Folding and lower-casing are two maps of characters, of which nothing else is assumed.
- Whole runs of the file index are about projects with different index files and ids without NUL, and promise right
  answers for a project whose list was last rebuilt from at most 2^31 paths that all survive writing and reading, and
  whose queries extend truly.
- Writing the session file or an index file happens wholly or not at all; new credentials and device ids are not in
  use. Session clocks may read anything after Go's zero time, in any order; results that compare readings name how far
  one may be behind another. Hashes are injective. The check of base paths is a parameter of the session modules; the
  source's is `BasePath.ValidBasePath`.
- Clock readings are integer nanoseconds after Go's zero time; numbers do not overflow. The 32-bit stream
  ids of the tunnel are modelled as such, and a tunnel opens fewer than 2^32 streams.
- The connection delivers messages in order. Every action of an endpoint may fail to write.

## Model

| member | source | states |
|---|---|---|
| FileIndexRuns.Replay | server/internal/hub/file_index.go:282-369 | In every run of searches, rebuilds and status requests over projects with NUL-free ids and index files of their own, every search of a project whose last rebuilt list has at most 2^31 paths, all newline-free and unchanged by cleaning, and whose queries extend truly, answers the full ranking of that list, cut to the limit; releasing, reloading, expiry and pruning never show in an answer |
| FileIndexRuns.RunFromStart | server/internal/hub/file_index.go:149-369 | The same of a new manager over any index files whose lists have at most 2^31 paths |
| FileIndexLimits.SearchAfterIdle | server/internal/hub/file_index.go:663-691 | After any rebuild of any project and more than five idle minutes, a search shows the list as its file is read; that is the reference's answer if and only if the first 100 paths of both agree, and for fewer than 100 paths if and only if every path is newline-free and unchanged by cleaning |
| FileIndexLimits.NewlineIsListed | server/internal/hub/file_index.go:746-774 | A scanned file with a line break in its clean path is listed, and makes such a list |
| FileIndexLimits.FalseExtensionLosesHits | server/internal/hub/file_index.go:571-583 | Continuing a session with a query that is no true extension drops every path that only the new query hits, so the ranking is not the full one |
| FileIndexRuns.FreshIsCoherent | server/internal/hub/file_index.go:149-159 | A manager that remembers nothing is in step with any files of bounded length |
| FileIndexRuns.RunEvent | server/internal/hub/file_index.go:161-282 | One event of such a run keeps the snapshot and the remembered candidates of every project whose file gives its list back and whose queries extend truly in step with the file |
| FileIndexManager.Manager.constructor | server/internal/hub/file_index.go:149-159 | A new manager finds the index files on disk and remembers nothing |
| FileIndexManager.Manager.Search | server/internal/hub/file_index.go:282-369 | From coherent state and unless the query falsely passes for an extension, the answer is the full ranking of the file's list and shows its best hits: by falling score, paths of equal score ascending, every hit left out no better than any shown. The response says what is being scanned, the last error, and for a list that is not in memory the file's count; other projects keep what they had, and at most three idle snapshots stay loaded |
| SearchResults.FullResultsShowBest | server/internal/hub/file_index.go:848-895 | The full ranking, cut to the limit, shows true hits with their scores, best first, ties by path, and leaves no better hit out; an empty query shows the first paths |
| SearchResults.ScoreExactly | server/internal/hub/file_index.go:852-873 | The score of a hit is the best of 2_000_000 and the fuzzy score of its base name, and 1_000_000 and that of its path, whichever match, and never below 0; each with 100_000 more when its lower case begins with the query's, and 50_000 when it only has it inside |
| SearchResults.NamesComeFirst | server/internal/hub/file_index.go:852-873 | A path whose base name matches comes before one that only matches elsewhere, unless the fuzzy score of that one is better by 900_000 |
| FileIndexManager.Manager.SearchSnapshot | server/internal/hub/file_index.go:435-461 | A search works on the paths of the file, whether its snapshot was loaded, released, stale or never seen, and marks the snapshot as used |
| FileIndexManager.Manager.StatusSnapshot | server/internal/hub/file_index.go:423-433 | Status information is that of memory if there is any, else that of the file, and agrees with the file if memory does |
| FileIndexManager.Manager.WorkingCandidates | server/internal/hub/file_index.go:558-585 | The candidates that are reused cover every path the new query matches, given that the remembered session is right and the query truly extends its own |
| FileIndexManager.Manager.StoreQuerySession | server/internal/hub/file_index.go:587-612 | Afterwards the session holds exactly these candidates or is gone; stored candidates stay within the total bound and the lifetime |
| FileIndexManager.Manager.ClearQuerySessions | server/internal/hub/file_index.go:614-621 | Exactly the sessions of one project go |
| FileIndexManager.Manager.PruneQuerySessions | server/internal/hub/file_index.go:623-630 | Exactly the sessions past their lifetime go |
| FileIndexManager.Manager.PruneQuerySessionMemory | server/internal/hub/file_index.go:632-661 | At most 500_000 positions stay; nothing goes when they fitted before; otherwise sessions go oldest first, and giving the last one back would exceed the bound |
| FileIndexManager.Manager.PruneSnapshots | server/internal/hub/file_index.go:663-691 | Of the snapshots no rebuild is using, exactly those idle for more than five minutes are released, and of the rest the least recently used so that three are left, or all if there are fewer; all others stay as they were |
| FileIndexManager.Manager.LoadSnapshot | server/internal/hub/file_index.go:486-516 | What is loaded is the sorted list the file parses to |
| FileIndexManager.Manager.LoadSnapshotMetadata | server/internal/hub/file_index.go:463-484 | The file count comes from counting the file's lines |
| FileIndexManager.Manager.StartRebuild | server/internal/hub/file_index.go:161-209 | A project with an id is marked running once, and its last error is forgotten |
| FileIndexManager.Manager.RebuildNow | server/internal/hub/file_index.go:211-245 | A rebuild succeeds exactly for a project with id and root whose scan and write succeed; a failed one changes nothing, a successful one replaces list, snapshot and file together and drops the project's sessions |
| FileIndexManager.Manager.FinishRebuild | server/internal/hub/file_index.go:176-209 | A background rebuild ends with the project no longer running and without sessions, and its list replaced, or its error recorded and a failed snapshot put where there was none, and nothing else changed |
| FileIndexManager.Manager.WriteIndexFile | server/internal/hub/file_index.go:385-417 | The file holds the rendered paths, and for paths that survive writing it reads back as that list and that count |
| FileIndexManager.Manager.Status | server/internal/hub/file_index.go:247-280 | The entries, in the order of lower-cased names, tell of every project whether it is scanned, its last error, and status, count and path as memory had them or else as the file of the first project of that id says; where memory and file are in step the count is that of the index; everything stays coherent |
| FileIndex.KeysApart | server/internal/hub/file_index.go:558-612 | Session keys of different projects or sessions differ when ids hold no NUL |
| FileIndex.NamesShareFile | server/internal/hub/file_index.go:419-421 | Two project names have the same index file if and only if their trimmed forms ("project" for a blank one) are the same but for characters that become "_", or each is ".", ".." or one such character |
| Ranking.Rank | server/internal/hub/file_index.go:848-895 | Ranking any candidates that cover the matches gives the full ranking, best score first and by path on ties, and remembers exactly its indexes |
| Ranking.CoveringRankingIsFull | server/internal/hub/file_index.go:848-895 | The order by score and path leaves one possible ranking, so a covering one is the full one |
| Ranking.RaiseScores | server/internal/hub/file_index.go:852-873 | Each pass keeps the best score per path |
| FuzzyMatch.ExtendedQueryNarrows | server/internal/hub/file_index.go:571-582 | A query whose folding has that of a shorter one as a subsequence hits no path the shorter one does not |
| FuzzyMatch.NarrowsExactly | server/internal/hub/file_index.go:571-582 | All texts that match a query match a shorter one if and only if the folded shorter one is a subsequence of the folded query |
| FuzzyMatch.MayExtendExactly | server/internal/hub/file_index.go:571-582 | Every query that the lower-case prefix test takes for an extension is a true one if and only if characters of the same lower case fold alike |
| FileIndexRuns.AlwaysTrueExtensions | server/internal/hub/file_index.go:571-582 | Where characters of the same lower case fold alike, the queries of every run extend truly |
| FuzzyMatch.NameMatchIsPathMatch | server/internal/hub/file_index.go:818-824 | A match of the base name is a match of the path |
| IndexFile.RoundTrip | server/internal/hub/file_index.go:792-806 | Writing and reading a listing gives it back if and only if all its paths are non-empty, newline-free and unchanged by cleaning |
| IndexFile.NewlineBreaksRoundTrip | server/internal/hub/file_index.go:385-417 | No listing that holds a path with a newline comes back, and the path itself never does |
| IndexFile.CountMatchesListing | server/internal/hub/file_index.go:518-556 | The line count of a written file is the length of its list |
| IndexFile.CountStreamed | server/internal/hub/file_index.go:518-556 | Counting by chunks of any size counts the lines of the whole |
| IndexFile.NormalizePaths | server/internal/hub/file_index.go:746-762 | The listing is the sorted set of the cleaned, kept lines |
| IndexFile.ParseLines | server/internal/hub/file_index.go:792-806 | Parsing gives the listing of the file's lines |
| PathClean.CleanPathShrinks | server/internal/hub/file_index.go:764-774 | Cleaning never makes a path longer, and keeps the length of a path without backslashes only by leaving it alone |
| PathClean.CleanPathWalks | server/internal/hub/file_index.go:764-774 | Cleaning keeps where a path leads: the result names, part by part, the place below the root that walking the parts ends at; a path that is empty or absolute, ends at the root or ever leaves it is refused |
| Text.TrimExactly | server/internal/hub/file_index.go:945-950 | A string is its trimmed form with nothing but white space around it |
| Sessions.StepKeepsConsistent | server/internal/registry/web_session.go:79-260 | Crash consistency, for readings at most a skew behind the latest one: each operation, with its write succeeding or failing, keeps every live session on file under the same identity; up to the skew, every use missing from the file is younger than five minutes and everything else on file has expired |
| Sessions.RunIsConsistent | server/internal/registry/web_session.go:79-260 | Crash consistency in every reachable state, with the skew of the run's readings; every run has one |
| Sessions.RestartGivesBack | server/internal/registry/web_session_file.go:43-108 | With writes succeeding, a restart under the same token is refused if and only if a session on file was last seen before its creation. Otherwise it gives back the unexpired sessions of the file, under their identity in memory, as they were if not used since the last write; up to the skew of the readings no other session comes back |
| Sessions.RevokedForever | server/internal/registry/web_session.go:166-261 | Credentials a successful revocation took out of memory never authenticate again, whatever fails, expires or restarts later and whatever the clock reads |
| Sessions.ForgottenStaysOut | server/internal/registry/web_session.go:132-164 | A credential that is not in memory is denied as long as restarts read times past the latest reading by the skew |
| Sessions.ForgottenInOrder | server/internal/registry/web_session.go:132-164 | With readings in order that is so of every continuation |
| SessionUse.GrantedExactly | server/internal/registry/web_session.go:132-164 | In every run a use is granted if and only if the session is in memory, has not expired, has the base path asked for (any for an empty one), and its write, due after five minutes, succeeds |
| SessionUse.GrantedRightly | server/internal/registry/web_session.go:132-164 | What is granted is the credential's own session, of that base path, unchanged but for its last use now and its expiry in 180 days, and memory has it so |
| SessionUse.DeniedLeaves | server/internal/registry/web_session.go:132-164 | A denied use leaves memory alone, but for its own session if that is found expired, which goes |
| SessionUse.LoginCounts | server/internal/registry/web_session.go:79-122 | After a login that succeeded its session can be used at its base path |
| SessionUse.LoginPushesOut | server/internal/registry/web_session.go:105-122 | A login removes expired sessions and, when 1024 live ones are left, one that comes before every one that stays by last use, creation and device id; it changes no other |
| SessionUse.RevocationTakes | server/internal/registry/web_session.go:166-261 | A revocation that succeeded took exactly the session of the credential, of the device, or all; one that failed took none |
| SessionUse.ListingDrops | server/internal/registry/web_session.go:185-221 | Listing removes exactly the expired sessions, or none when it fails |
| SessionUse.CallsSucceed | server/internal/registry/web_session.go:79-261 | With writes succeeding every call succeeds, but for the revocation of a device without a session |
| SessionUse.RestartExactly | server/internal/registry/web_session_file.go:43-108 | In every run a restart succeeds if and only if there is nothing to read, or the file can be read, each session it takes over is well formed and what it has to write it can; the store then holds those that have not expired and the file holds the same, otherwise it is down and the file is as it was |
| SessionLimits.EarlyUseSpoilsFile | server/internal/registry/web_session_file.go:191-193 | A login, a use of it at an earlier reading and another login leave a file that a restart refuses |
| SessionLimits.ForgottenMayComeBack | server/internal/registry/web_session.go:143-147 | An expired session whose removal was not written comes back, even after a revocation, when a restart reads a time before its expiry |
| SessionFile.WrittenFileLoads | server/internal/registry/web_session_file.go:81-143 | A file written from sessions of distinct devices passes every check of a load if and only if each of them is well formed, and then gives back exactly the unexpired ones |
| SessionFile.LoadsExactly | server/internal/registry/web_session_file.go:81-108 | The records of any file load if and only if each makes sense by itself and any two are of different devices and, unless the earlier one has expired, of different credentials; what is loaded are exactly the records that have not expired |
| SessionFile.RecordLoads | server/internal/registry/web_session_file.go:186-206 | A session's record loads if and only if the session is well formed, and then gives it back |
| BasePath.ValidBasePathExactly | server/internal/registry/web_session.go:295-301 | The check of base paths accepts "/" and exactly the paths of non-empty segments other than "." and "..", without backslashes, between slashes |
| SessionFile.EncodesCount | server/internal/registry/web_session_file.go:110-153 | The file has one record per session |
| SessionStore.WebSessionStore.constructor | server/internal/registry/web_session.go:63-73 | A new process knows only the file |
| SessionStore.WebSessionStore.Create | server/internal/registry/web_session.go:79-122 | A login drops expired sessions, makes room by least recent use, and is written or undone; afterwards the session is in memory with what the caller gave, expiring in 180 days, and it is one that the runs of the model allow |
| SessionStore.WebSessionStore.Authenticate | server/internal/registry/web_session.go:132-164 | A use is granted if and only if the session is in memory, has not expired, is of the base path asked for, and its write succeeds when five minutes have passed since the last one; grants extend the session; an expired session is removed even when the write fails; the file stays one that was written from its sessions |
| SessionStore.WebSessionStore.Revoke | server/internal/registry/web_session.go:166-183 | The session goes from memory and file, or stays in both |
| SessionStore.WebSessionStore.RevokeDevice | server/internal/registry/web_session.go:223-241 | The device's session goes from memory and file, or stays in both |
| SessionStore.WebSessionStore.RevokeAll | server/internal/registry/web_session.go:243-261 | All sessions go or all stay, and the devices are returned in order |
| SessionStore.WebSessionStore.List | server/internal/registry/web_session.go:185-221 | Expired sessions are removed and written first; the list is the live sessions, the current one leading, then by falling time of last use, then by device id |
| SessionStore.WebSessionStore.Load | server/internal/registry/web_session_file.go:43-108 | A load restores what the file holds, refuses a damaged one and leaves it alone, replaces one of another token, and rewrites it when something expired |
| SessionStore.WebSessionStore.PersistLocked | server/internal/registry/web_session_file.go:110-153 | What is written is the sessions in memory under the token's fingerprint, in the order of their creation; a failed write changes nothing |
| SessionStore.WebSessionStore.RemoveExpired | server/internal/registry/web_session.go:271-277 | Exactly the expired sessions go |
| SessionStore.WebSessionStore.RemoveOldest | server/internal/registry/web_session.go:279-293 | A least recently seen session goes |
| Frame.EncodeFrame | server/internal/portrelay/frame.go:44-61 | The filled buffer is the frame's encoding; oversized parts are refused |
| Frame.DecodeEncode | server/internal/portrelay/frame.go:44-94 | Decoding an encoded frame gives the frame |
| Frame.EncodeDecode | server/internal/portrelay/frame.go:63-94 | Every accepted message is the encoding of what it decodes to |
| Frame.EncodesExactly | server/internal/portrelay/frame.go:44-61 | A frame has an encoding exactly when its metadata take at most 64 KiB and its payload at most 1 MiB; it begins with 'W' and 1, then type and flags, stream and both lengths as big-endian numbers, metadata, payload |
| TunnelSafety.RunIsSafe | server/internal/portrelay/tunnel.go:44-230 | In every run of any number of interleaved streams: the target is handed a prefix of its own client's body, all of it when the body ends cleanly; the client receives a prefix of its own target's answer, all of it once the hub's Close is read; only a tunnel closed from outside its read loop loses bytes; a stream whose client is done is out of the table, and no queue holds more than 32 frames |
| TunnelSafety.RunKeepsBodies | server/internal/portrelay/tunnel.go:44-65 | A stream's body and answer are its own for the whole run, whatever other streams do |
| TunnelDelivery.BodiesEndAsTheyShould | server/internal/portrelay/hub_client.go:255-313 | In every run a request body is broken off if and only if, while it was open, the target accepted less than it was given or the stream was closed at either end, and ends cleanly if and only if its marked end was accepted |
| TunnelDelivery.EverythingGetsThrough | server/internal/portrelay/tunnel.go:44-230 | For every body and every answer some run hands over the whole body, ends it cleanly, and brings the client the whole answer and its end |
| RelayClients.ClientEnds | server/internal/portrelay/tunnel.go:128-230 | A handler that is not reading, or whose stream or tunnel is closed or has a Close or Error queued, can be done with its stream without anybody's help |
| RelayClients.StuckExactly | server/internal/portrelay/tunnel.go:128-186 | A handler has nothing to do exactly when it is done, or reads from an open stream and tunnel with an empty queue |
| RelayClients.TakenExactly | server/internal/portrelay/tunnel.go:174-186 | A frame that is read adds its data as far as the connection takes them, closes the stream if it is Close or Error, and counts as the answer's end only if it is Close |
| RelayClients.ClosingFreesRouter | server/internal/portrelay/tunnel.go:105-125 | Once a handler has closed its stream, the stream is out of the table and the router can drop whatever comes for it |
| RelayClients.ClearingFreesAll | server/internal/portrelay/tunnel.go:133-154 | The same of every stream that a closed tunnel clears, whose handler can then be done |
| RelayClients.PiecesExactly | server/internal/portrelay/tunnel.go:188-210 | Bodies and answers go out in pieces of 1 to 32768 of the next bytes, each as one data frame |
| RelayClients.EndsAreTold | server/internal/portrelay/hub_client.go:169-210 | Whoever is done with a stream tells the other end if it can: the hub Close after a whole answer and Error after a failure, the registry Close |
| RelayClients.AcceptedExactly | server/internal/portrelay/hub_client.go:255-313 | The target is handed the bytes of a data frame that it accepts while the body is open, and nothing else |
| TunnelSafety.StepKeeps | server/internal/portrelay/tunnel.go:84-154 | Every step of either endpoint keeps the invariant of every stream |
| RelayStreamSafety.ClientKeepsRequest | server/internal/portrelay/tunnel.go:188-230 | Sending a body, ending it, failing and closing keep the bytes delivered and under way together equal to what was sent |
| RelayStreamSafety.ClientKeepsResponse | server/internal/portrelay/tunnel.go:156-186 | Waiting for headers, taking frames, noticing closed channels and leaving keep the received bytes in order |
| RelayStreamSafety.HubInputKeepsRequest | server/internal/portrelay/hub_client.go:255-313 | The hub's read loop delivers body bytes in order and closes the pipe cleanly only after all of them |
| RelayStreamSafety.HubKeepsResponse | server/internal/portrelay/hub_client.go:169-210 | The hub's handler sends the answer in order and Close only after all of it |
| RelayStreamSafety.EnqueueKeeps | server/internal/portrelay/tunnel.go:105-125 | The router loses a data frame of a live client only after the tunnel was closed from outside |
| RelayStreamSafety.ClearedKeeps | server/internal/portrelay/tunnel.go:133-154 | Clearing the table of a closed tunnel keeps all of this |
| TunnelLosses.ReceivedIsDrawn | server/internal/portrelay/tunnel.go:84-154 | In every run, closed from outside or not, a client receives its own target's answer with parts left out: nothing added, doubled or reordered |
| TunnelClosedFromOutside.ScrambledExactly | server/internal/portrelay/types.go:235-237 | For every answer, some run (with a Close from outside, by TunnelSafety.RunIsSafe) makes its client receive something that is no prefix of it if and only if two neighbouring bytes of it differ |
| TunnelClosedFromOutside.EqualBytesArrive | server/internal/portrelay/tunnel.go:133-154 | In every run an answer whose neighbouring bytes are all equal arrives as a prefix |
| ProjectIds.IdsCollideIff | server/internal/protocol/registry.go:226-236 | Two hubs can share a project id exactly when one hub id continues the other across a colon |
| ProjectIds.ProjectIdNotBlank | server/internal/registry/server.go:975-978 | The registry's check for blank project ids never triggers |
| ProjectIds.OverlapTakesColon | server/internal/protocol/registry.go:226-236 | Different hub ids overlap only when one of them has a colon |
| RoutingRuns.StaleReportsRefused | server/internal/registry/server.go:944-959 | In every consistent state a report that passes its first checks is refused if and only if a younger connection owns the hub |
| RoutingTables.Registry.StoreReport | server/internal/registry/server.go:966-986 | The write section of a report replaces the hub's snapshot, peer and routes and nothing else |
| RoutingTables.Registry.StoreUpdate | server/internal/registry/server.go:1047-1085 | An update is stored only for a known hub of the same epoch: first project of that name replaced or appended, sorted by name, and routed |
| RoutingTables.PutIn | server/internal/registry/server.go:1060-1074 | The first project of the same trimmed name is replaced and returned; without one the project is appended |
| RoutingTables.Registry.Unregister | server/internal/registry/server.go:1518-1535 | Only the owning connection's disconnect removes the hub |
| RoutingTables.Registry.Resolve | server/internal/registry/server.go:1337-1346 | A project request goes to the routed hub's peer, or is not found, or finds the hub offline |
| RoutingTables.Registry.ResolveHub | server/internal/registry/server.go:1211-1224 | A hub request goes to the hub's peer, or is not found, or finds the hub offline |
| RoutingTables.PutIds | server/internal/registry/server.go:1060-1084 | An update adds its project's id to the hub's ids and takes none away |
| RoutingRuns.StepKeepsConsistent | server/internal/registry/server.go:924-1092 | Every step keeps hubs and hubPeers on the same keys, every entry owned by a live connection of that epoch, and every route to a project of its hub's snapshot |
| RoutingRuns.RunIsConsistent | server/internal/registry/server.go:924-1092 | All this in every reachable state |
| RoutingRuns.RunRoutesExactly | server/internal/registry/server.go:966-986 | When no two hubs can share a project id, projectToHub is exactly the map from the ids of all snapshot projects to their hubs |
| RoutingRuns.RegistryRoutesExactly | server/internal/registry/server.go:966-1085 | In every run of hubs without a colon in their ids the registry's routes are exact |
| RoutingRuns.PlainHubsApart | server/internal/protocol/registry.go:226-236 | Hub ids that do not overlap never share a project id |
| RoutingLimits.OverlappingHubsLoseRoutes | server/internal/registry/server.go:969-979 | For any two overlapping hub ids some run leaves a listed project without its route |
| RoutingRuns.EpochGoesBackExactly | server/internal/registry/server.go:966-986 | A step makes a registered hub's stored epoch smaller if and only if it stores a report whose connection is older than the stored epoch |
| RoutingRuns.UndisturbedEpochsGrow | server/internal/registry/server.go:949-986 | In every run in which no connection writes between the check and the write of another one of its hub, no stored epoch goes back |
| RoutingLimits.BothStoringLowersEpoch | server/internal/registry/server.go:949-986 | From every reachable state with two connections of a hub between check and write, two steps make the epoch go back |
| RoutingLimits.EpochMayGoBack | server/internal/registry/server.go:949-966 | For every hub id and any projects of two reports, some run makes the epoch go back, with the older report's projects replacing the younger's |
| RoutingRuns.RequestsReachOwner | server/internal/registry/server.go:1328-1346 | "hub offline" is unreachable: a request is not found or goes to the live connection whose snapshot lists the project |
| RoutingRuns.HubRequestsReachOwner | server/internal/registry/server.go:1211-1224 | The same for requests to hubs |
| RoutingRuns.ListedProjectsReached | server/internal/registry/server.go:1328-1346 | With exact routes every listed project is reached at its owner |
| RoutingRuns.OnlyOwnerUpdates | server/internal/registry/server.go:1047-1058 | An update that passes its first checks is accepted from the connection that owns the hub, and from no other |
| RoutingUpdates.UpdatesInOrder | server/internal/registry/server.go:1015-1058 | In every run an update is accepted if and only if its connection owns the hub, the message names that hub and epoch, a project and a time, and its number is at least 1 and greater than that of the last update of this project the connection had accepted since its last report |
| RoutingUpdates.ReportsFromYoungest | server/internal/registry/server.go:924-959 | In every run a report is accepted if and only if it names its connection's own hub and epoch and no younger connection owns the hub |
| RoutingUpdates.AcceptedUpdateShows | server/internal/registry/server.go:1047-1085 | A refused update changes nothing; an accepted one stands in the hub's snapshot in place of the first project of its name or besides the others, in the order of names |
| RoutingUpdates.DisconnectedForGood | server/internal/registry/server.go:1518-1535 | In every run a connection that disconnected owns no hub from then on and does nothing more |
| RoutingUpdates.ReadyOrStoring | server/internal/registry/server.go:966-986 | A connection that is not gone is ready for its next message, or is once its report is stored |
| RoutingRuns.OwnerStaysReachable | server/internal/registry/server.go:1518-1535 | A hub's owner stays its owner until it disconnects or another connection reports for that hub; other disconnects change nothing |
| PendingMap.PeerConn.RegisterPending | server/internal/registry/server.go:206-215 | A full backlog refuses; otherwise the forward gets an open, empty channel of its own |
| PendingMap.PeerConn.ResolvePending | server/internal/registry/server.go:217-229 | Whoever takes the entry out delivers once and closes once |
| PendingMap.PeerConn.DropAllPending | server/internal/registry/server.go:231-238 | Every waiting channel is closed without an answer |
| Forwarding.StepKeeps | server/internal/registry/server.go:1348-1375 | Every registration, write, response, timeout and disconnect keeps the invariant |
| Forwarding.RunAnswers | server/internal/registry/server.go:1226-1262 | In every run each returned forward got exactly one answer and is pending nowhere, a hub's answer is one its own peer sent with that id, nobody waits for a channel nothing will happen to, no channel is sent to or closed twice, and no backlog exceeds 1024 |
| ForwardingAnswers.AnswersHaveCauses | server/internal/registry/server.go:1226-1262 | In every run each answer has its cause: a hub's message was sent by its own peer while the forward was pending, "hub disconnected" means the peer's connection dropped while it was pending, busy that 1024 others were pending at its registration, a timeout or failed write that there was one |
| ForwardingAnswers.ResponseReachesCaller | server/internal/registry/server.go:217-229 | A caller whose entry a response took gets that response when it receives, and in any case unless it timed out or failed to write |
| ForwardingAnswers.WaitingIsAnswered | server/internal/registry/server.go:1365-1375 | A waiting caller gets the hub's response when it comes, "hub disconnected" when the connection drops, and a timeout when its time is up |
| ForwardingAnswers.RegisteringOrBusy | server/internal/registry/server.go:206-215 | A forward is refused exactly at 1024 pending ones; otherwise it is pending, and a failed write is reported |
| ForwardingAnswers.EveryCallerReturns | server/internal/registry/server.go:1348-1375 | From every reachable state every caller can return with exactly one answer by its own moves |
| Forwarding.LateResponsesReachNobody | server/internal/registry/server.go:217-229 | Responses to returned forwards, or from another peer, change no forward |
| Forwarding.AnswersStay | server/internal/registry/server.go:814-849 | An answer once returned never changes |
| SpeechTables.SpeechService.EnterStream | server/internal/registry/speech_service.go:153-173 | A start takes out whatever the connection had and enters the new stream |
| SpeechTables.SpeechService.DetachStream | server/internal/registry/speech_service.go:460-474 | Only the owner's active stream is detached, together with its connActive entry and idle timer |
| SpeechTables.SpeechService.DetachClosingStreams | server/internal/registry/speech_service.go:447-458 | Exactly the connection's closing streams go |
| SpeechTables.SpeechService.DetachOwnedStream | server/internal/registry/speech_service.go:428-439 | Cancel finds the connection's stream, active or closing |
| SpeechTables.SpeechService.RegisterClosing | server/internal/registry/speech_service.go:364-375 | The stream becomes closing and its idle timer stops |
| SpeechTables.SpeechService.Attach | server/internal/registry/speech_service.go:331-341 | A provider is attached only while the stream is still the connection's active one |
| SpeechRuns.StepKeepsInv | server/internal/registry/speech_service.go:125-283 | Every step of handlers, timers and provider events keeps the invariant |
| SpeechRuns.RunOwnership | server/internal/registry/speech_service.go:398-487 | In every run: active and closing are disjoint, connActive is exactly the inverse of the active streams, a connection has at most one stream counting one being finished, every issued stream is registered, held by somebody who will cancel it, or cancelled, and a connection that is gone has none |
| SpeechRuns.TimersTouchTheirOwn | server/internal/registry/speech_service.go:377-414 | Stale timers and events touch no other stream, and do nothing to a stream that has moved on |
| SpeechRuns.GoneStays | server/internal/registry/speech_service.go:272-283 | After cancelConnection the connection has no registered stream, in that state or any later one |
| SpeechRuns.OutStays | server/internal/registry/speech_service.go:460-487 | A stream taken out of both maps never comes back |
| SpeechRequests.ActiveSince | server/internal/registry/speech_service.go:153-487 | In every run a stream is its connection's active one exactly from the start that issued it until the connection's next start or end, a cancel of it, a failed start or write, its idle timer, an event that ends it, or its finish |
| SpeechRequests.ClosingSince | server/internal/registry/speech_service.go:245-487 | And it is closing exactly from its finish until the connection's next start or end, a cancel, its closing timer, an event that ends it, or a drain that fails or has no time left |
| SpeechRequests.TakenOutIsHeld | server/internal/registry/speech_service.go:398-487 | A stream that leaves the maps is held by whoever took it out, unless it is being finished |
| SpeechRequests.HeldUntilReleased | server/internal/registry/speech_service.go:398-487 | What is held stays so until it is cancelled, and nothing is cancelled but what was held, failed to start or was discarded |
| SpeechRequests.NothingLeftBehind | server/internal/registry/speech_service.go:272-283 | In every run all streams of a connection that is gone are cancelled or held |
| SpeechRequests.RequestsGoOnExactly | server/internal/registry/speech_service.go:208-270 | Audio and a finish go on exactly when they name the connection's own active stream and its provider is attached; neither changes the tables before that |
| SpeechRequests.Opens | server/internal/registry/speech_service.go:125-206 | From every reachable state an idle connection can start a stream that is then active and attached |
| SpeechRequests.Speaks | server/internal/registry/speech_service.go:208-243 | Audio for it that the provider takes leaves everything as it was, ready for more |
| SpeechRequests.AttachedExactly | server/internal/registry/speech_service.go:331-341 | A provider is attached exactly to a stream that was just started and is still active |
| SpeechRequests.Finishes | server/internal/registry/speech_service.go:245-270 | From every reachable state in which a stream is active and attached, a finish leads to it being closing with its timer armed |
| SpeechRequests.TimersEndStreams | server/internal/registry/speech_service.go:377-414 | In every reachable state the idle timer of an attached active stream, the closing timer of one whose timer was armed, and events of either can end it, and then hold it |
| SpeechRequests.FailuresEndStream | server/internal/registry/speech_service.go:153-270 | A failed start, write or drain ends with the stream out of its map |
| LoginLimiter.LoginLimiter.Allow | server/internal/registry/login_limiter.go:38-64 | The decision and the new buckets are those of the two refilled buckets; the source is in the table afterwards, used now, the others are as they were, and one of the least recently used gives way to a new source when there are 2048 |
| LoginLimiter.LoginLimiter.Success | server/internal/registry/login_limiter.go:66-70 | A successful login forgets its source and nothing else |
| LoginLimiter.LoginLimiter.RemoveOldestSource | server/internal/registry/login_limiter.go:99-109 | A least recently used source goes |
| LoginLimiter.WindowBound | server/internal/registry/login_limiter.go:38-86 | In any window, with clock readings in any order, at most 22 plus one per 30 seconds are granted |
| LoginLimiter.WindowBoundExact | server/internal/registry/login_limiter.go:76-86 | 22 can be granted within one nanosecond |
| LoginSources.SourceBound | server/internal/registry/login_limiter.go:38-97 | In any window one source that does not log in and stays in the table is granted at most 7 attempts and one per 30 seconds; if it was not in the table at first, at most 5 and as many |
| LoginSources.SourceBoundExact | server/internal/registry/login_limiter.go:76-97 | 7 can be granted to one source within one nanosecond |
| LoginSources.SixthDenied | server/internal/registry/login_limiter.go:38-64 | A new source is granted five attempts at one reading and denied the sixth, for 30 seconds unless the shared bucket is empty too |
| LoginLimiter.DenialExact | server/internal/registry/login_limiter.go:38-97 | A denied source is denied until now plus retry and granted from then on |
| LoginLimiter.RetrySecondsExact | server/internal/registry/web_auth.go:54-60 | The Retry-After header is the least whole number of seconds after which the source is granted |
| LoginGuard.Bucket.ConsumeToken | server/internal/portrelay/login_guard.go:90-111 | Refill, charge and retry of one bucket, a bucket never set up starting full |
| LoginGuard.LoginGuard.RecordFailure | server/internal/portrelay/login_guard.go:47-73 | A failure resets on a new generation, drops the sources idle for more than an hour, makes room for a new source when there are 4096, and charges both buckets even when one refuses; the other sources are as they were |
| LoginGuard.LoginGuard.RecordSuccess | server/internal/portrelay/login_guard.go:75-79 | A successful login forgets its source and nothing else |
| LoginGuard.LoginGuard.Prune | server/internal/portrelay/login_guard.go:113-119 | Exactly the sources idle for more than an hour go |
| LoginGuard.LoginGuard.EvictOldest | server/internal/portrelay/login_guard.go:121-134 | A full table loses one source, a least recently active one unless the empty source is in it |
| LoginGuard.WindowBound | server/internal/portrelay/login_guard.go:47-111 | Between resets at most 21 failures plus one per 30 seconds are let through in any window |
| LoginGuard.WindowBoundExact | server/internal/portrelay/login_guard.go:94-104 | 21 failures can be let through within one nanosecond |
| GuardSources.SourceBound | server/internal/portrelay/login_guard.go:47-111 | Between resets and in any window at most 6 failures plus one per 30 seconds are let through of one source that does not succeed and stays in the table; at most 5 and as many if it was not in the table at first |
| GuardSources.SourceBoundExact | server/internal/portrelay/login_guard.go:94-104 | 6 of one source can be let through within one nanosecond |
| LoginGuard.RetryExact | server/internal/portrelay/login_guard.go:64-72 | A limited source is limited before the retry time, and let through at it exactly when the failed call did not use up the last token of a bucket due later |
| LoginGuard.RetryTooEarly | server/internal/portrelay/login_guard.go:64-72 | A run from the start, of 16 strangers' failures at one second and four of one source at two, after which a failure at three seconds is told 28 seconds and the one at 31 seconds is limited again |
| RequestWindow.RequestIdWindow.Add | server/internal/registry/request_id_window.go:23-37 | A duplicate is an id in the window; another id takes the oldest one's place |
| RequestWindow.AddAll | server/internal/registry/request_id_window.go:12-41 | After any calls the window is the last min(n, capacity) accepted ids in order, and duplicates were reported exactly for ids in the window |
| RequestWindow.RepeatRefused | server/internal/registry/request_id_window.go:23-37 | An accepted id is refused again as long as fewer than capacity ids were accepted after it |
| RequestWindow.WindowDistinct | server/internal/registry/request_id_window.go:23-37 | No id is in the window twice |
| RequestWindow.RequestIdWindow.Len | server/internal/registry/request_id_window.go:39-41 | The set is as large as the window |
| UploadQuota.Directory.Enforce | server/internal/registry/upload_quota.go:89-136 | Exactly the shortest oldest-first prefix is deleted that leaves room for the incoming files and bytes within 128 files and 64 MiB: what went is no younger than what stays, by time and name, and with the last of it back there would be no room; an admitted request never ends in "cannot be satisfied"; an irregular entry or a failed removal stops it |
| UploadQuota.Directory.ReadUploads | server/internal/registry/upload_quota.go:93-123 | The files are the directory's uploads, oldest first, unless one is irregular |
| UploadQuota.Directory.WriteUpload | server/internal/registry/upload_quota.go:28-87 | After a successful write the directory is what the first pass left plus the new file: the second pass deletes nothing, and the quota holds; a failed write adds nothing |
| UploadQuota.SecondPassFits | server/internal/registry/upload_quota.go:82-85 | After the rename, over an old file or not, everything is within the quota |
| UploadQuota.ListingUnique | server/internal/registry/upload_quota.go:118-123 | A directory has one order by age and name |
| UploadQuota.TemporaryIsNoUpload | server/internal/registry/upload_quota.go:45-56 | The temporary file never counts as an upload |
| UploadQuota.UploadNamesExactly | server/internal/registry/upload_quota.go:138-140 | Uploads are the names with "-diagnostics-" in them that end in ".log", in capitals or not |

## Left out

- The two endpoints of the tunnel as objects: their maps, channels and flags are fields of a state that steps of many goroutines change, so they are a transition system on values.
- Websocket streams in the tunnel: the hub registers them only after sending headers, so frames sent in between are lost.
- Pings, pongs and the contents of metadata: a stream's metadata stands for whether it has a body.
- Replacing a live tunnel in the relay controller.
- Reuse of stream ids after 2^32 streams on one tunnel.
- Tunnel.ClearNext: marks one stream at a time, where the source empties its table at once; a marked stream can do all that an unmarked one can.
- The race of a search with a rebuild between its two lock sections: search and rebuild are single steps.
- The IndexedAt times, the temporary and backup files of an index write, Windows paths and the Git and directory walks behind a scan: a scan is its lines and a test for files.
- JSON, base64 and the size limit of the session file: a file is its records, and a file that cannot be read or written is a parameter.
- Aliasing of the slices inside hub snapshots, which an update changes in place while events of an earlier report may still read them.
- SpeechTables.SpeechService.EnterStream: the streams taken out are returned as ids, for cancelling happens outside the lock.
- SpeechRuns.Next: a timer or provider event may come at any time once it is possible, which includes timers stopped too late and events that looked the stream up long before.
- Provider protocol, transcripts and the replies to clients.
- Forwarding.RunAnswers: says nothing of time; a forward that is never answered ends by its timeout step.
- UploadQuota.Directory.WriteUpload: an earlier upload of the same name is lost when securing the new one fails, as in the source.
- Redaction, header filtering, cookies, URL policy, text to speech and server data: single-branch facts or library calls.
