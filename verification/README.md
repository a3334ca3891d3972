# radio-jockey: a verified model of the radio server

radio-jockey streams music sessions: clients queue tracks over RPC, one player per session feeds them to Icecast,
a cache keeps the last used track files on disk, and the web front end searches YouTube through a small caching
endpoint. This project models the parts where the state is hard to follow and proves what they keep.

`dafny verify dfyconfig.toml` checks everything.

| file | models |
|---|---|
| `Tracks.dfy` | the `tracks` table, the recency ledger behind the cache |
| `RecencyWindow.dfy` | the cache as a plain sequence: promotion, pinned eviction and what an eviction leaves |
| `Cache.dfy` | the cache as it is: list nodes, two hash indexes, the victim search and eviction loops, file deletion |
| `CacheRuns.dfy`, `Restart.dfy` | whole runs of the cache: protection of a track just used, and agreement with the table |
| `QueueLog.dfy` | a session queue as a sequence, and a log of what became of every track enqueued |
| `SessionQueue.dfy` | the queue as a Go slice over its array, with the slices lent to callers |
| `Playback.dfy`, `PlaybackLaws.dfy` | the player, its skip watcher and ffmpeg against the clients, as a step relation |
| `Lifecycle.dfy`, `LifecycleLaws.dfy` | sessions, their events, the event loop and the streamers, as a step relation |
| `SessionManager.dfy` | the session map and the set of tracks in use |
| `ServerSafety.dfy`, `SplitTail.dfy` | the RPC handlers stepping queues, cache and files together; AddTrack's tail as one step, and as three |
| `RateLimit.dfy`, `RateLimitLaws.dfy` | the per-client limiter and its cleanup |
| `SearchCache.dfy`, `SearchCacheLaws.dfy` | the search endpoint's bounded cache and its runs |
| `HtmlEntities.dfy` | the decoder of escaped search results |

The code that changes state step by step (table, list, cache, queue, manager, limiter, search cache) is modelled by
classes whose methods are proved equal to functions on plain values; the laws are then proved about those functions
over all runs. The concurrent protocols are step relations: a locked section is one step, a channel is a bounded
sequence or a flag, `select` is a choice among the enabled steps, a context only goes from live to done, and ffmpeg
ends in any way its context allows.

## Where the code does less than it says or seems to

* `server/src/music/cache.go:48-50` says a hit cannot be evicted before it is enqueued. `CacheRuns.ProtectionIff`
  gives the exact extent: it holds for calls on at most `k` other tracks with at most `p` tracks in use exactly when
  `p + k < 50`. `SplitTail.HitProtectsFile` says the same of the track's file on disk.
* `server/src/music/cache.go:63-66` says queued tracks are never evicted. This holds when AddTrack's enqueue, its
  collection of ids and its touch are one step (`ServerSafety.ServerSafety`); they are not under one lock, and
  `SplitTail.StaleIdsLoseFile` shows a queued track losing its file to another handler's older ids.
  `SplitTail.TouchSafeIff` and `SplitTail.SplitSafeIff` say exactly which touches and which runs are safe.
* The archive log is the play history only while the context is live. A cancelled player that finds a skip token can
  play on, and tracks it starts then get no row: `PlaybackLaws.ArchiveAfterCancel` says exactly when the log is
  complete, `PlaybackLaws.LateTrackHasNoRow` gives a run in which it is not.
* The 30-minute cleanup of `server/src/connect/server.go:50-54` is invisible to clients exactly when a burst refills in
  that time: `RateLimitLaws.PurgeTransparentIff`. The same condition decides whether the limiter bounds what a client
  gets at all: `RateLimitLaws.RateBoundIff`.
* `web/src/routes/api/youtube-search/+server.ts:28-29` says that a repeated search within a day never costs quota twice.
  `SearchCacheLaws.HitIff` gives the exact condition: fewer than a thousand responses stored since. When requests for
  one key overlap, rows can stand out of their order of expiry (`SearchCacheLaws.OverlapBreaksOrder`, and exactly
  when: `SearchCacheLaws.SortedThroughoutIff`), and the condition is that of `SearchCacheLaws.InterleavedHitIff`.
* Cache keys of different searches can collide when a page token begins with a colon or has two in a row
  (`SearchCache.ColonsCollide`); `SearchCache.SharedByLongerIff` says for which queries and tokens they do.
* The session lifecycle needs three things of its environment that the code does not enforce: no event send is given
  up, but for a Deleted event that another makes up for or that has nothing left to cancel; a session is deleted only
  after its Created event; an id comes back only after its old streamer and Deleted events are gone.
  `LifecycleLaws.SessionLifecycle` shows that the runs that keep these rules are exactly the sound ones, and each rule
  has a run that breaks only it (`LifecycleLaws.AbandonedSendStrands`, `LifecycleLaws.AbandonedDeleteOrphans`,
  `LifecycleLaws.EarlyDeleteStopsLoop`, `LifecycleLaws.EarlyRecreateLosesSession`).

## Model

| member | source | states |
|---|---|---|
| Tracks.TrackTable.GetTrack | server/src/db/tracks.go:20-27 | finds a row with the source id exactly when there is one and the query runs |
| Tracks.TrackTable.CreateTrack | server/src/db/tracks.go:29-40 | inserts one row stamped with the clock under a new id, or nothing exactly when the source id is taken or the insert fails; reports an error also when only the read back fails; keys stay one-to-one |
| Tracks.TrackTable.UpdateTrackAlbumArtURL | server/src/db/tracks.go:42-45 | changes that one field of that one row, or nothing when the statement fails |
| Tracks.TrackTable.TouchTrackLastUsed | server/src/db/tracks.go:47-50 | that one row gets the new time of last use, each of its other fields and every other row stays; nothing when the statement fails |
| Tracks.TrackTable.ListTracksByLastUsed | server/src/db/tracks.go:52-59 | every row exactly once, most recently used first |
| RecencyWindow.DropOldestIsACut | server/src/music/cache.go:84-100 | dropping the oldest n unpinned tracks: one cut of the window, everything newer untouched, behind it exactly the pinned tracks in their order, and n unpinned ones gone |
| RecencyWindow.DropOneIsRemoveAt | server/src/music/cache.go:85-98 | one victim search and removal drops the unpinned track with only pinned ones behind it |
| RecencyWindow.DropMore | server/src/music/cache.go:84-100 | evicting one at a time is evicting the oldest ones together |
| RecencyWindow.EvictOutcome | server/src/music/cache.go:84-104 | eviction keeps every pinned track, none goes that is newer than an unpinned survivor, and it ends within the window size or with only pinned tracks, and no sooner or later |
| RecencyWindow.DroppedIff | server/src/music/cache.go:84-100 | a track goes exactly when it is not pinned and, from it to the back, no more than n are not pinned |
| RecencyWindow.LookupFinds | server/src/music/cache.go:55-60 | a lookup hits exactly when the window has the source id |
| RecencyWindow.PromoteKeepsDistinct | server/src/music/cache.go:75-82 | moving or inserting at the front keeps ids unique and adds only that id |
| RecencyWindow.PromoteIs | server/src/music/cache.go:75-82 | the track used comes first with its new record, all others follow in their order |
| Cache.TrackCache.constructor | server/src/music/cache.go:25-46 | the fifty most recently used rows of some answer of the table, in its order, with both indexes describing exactly those nodes |
| Cache.TrackCache.Get | server/src/music/cache.go:51-61 | a hit exactly for a source id in the window; it only moves that track to the front; index agreement is kept |
| Cache.TrackCache.Touch | server/src/music/cache.go:67-106 | the row is stamped, the window becomes the track, then the old order, minus what eviction takes; exactly the files of evicted tracks are deleted; a failed statement does nothing |
| Cache.TrackCache.EvictOver | server/src/music/cache.go:84-104 | the eviction loop stops, computes the specified eviction, and deletes exactly the evicted files |
| Cache.TrackCache.EvictOne | server/src/music/cache.go:85-103 | one round evicts the oldest track not in use with its file, or finds every track in use |
| Cache.TrackCache.OldestUnused | server/src/music/cache.go:85-95 | the inner loop finds the unpinned node nearest the back, or there is none |
| Cache.TrackCache.Unlink | server/src/music/cache.go:97-100 | taking a node out of the list and both indexes keeps them in agreement |
| Cache.Unfile | server/src/music/cache.go:98-100 | deleting a node's own two keys leaves both indexes describing exactly the other nodes |
| Cache.IndexedDistinct | server/src/music/cache.go:34-44 | agreement of the indexes leaves no id twice in the list |
| CacheRuns.ProtectionIff | server/src/music/cache.go:48-104 | once at the front, a track survives every run of calls on at most k other tracks with at most p in use, exactly when p + k is below the window size |
| Restart.ListingAfterMark | server/src/db/tracks.go:47-59 | stamping a row with a later time moves it to the front of the listing and nothing else |
| Restart.RestartEquivalence | server/src/music/cache.go:25-105 | with nothing in use and an advancing clock, after every run of touches the window shows what a restart would rebuild |
| Restart.RestartEquivalenceWithoutTies | server/src/music/cache.go:25-105 | with distinct stamps the table has one answer and the window matches it |
| Restart.UsesKeepRecords | server/src/db/tracks.go:47-50 | over every run of touches no row goes and none changes in anything but its time of last use |
| Restart.WindowShowsRecords | server/src/music/cache.go:67-82 | where tracks are used with what the table says of them, the window and a restart agree on every other field of every track |
| Restart.ListingUnique | server/src/db/tracks.go:52-59 | without equal stamps the listing is determined |
| Restart.GetKeepsMatchIff | server/src/music/cache.go:51-61 | a hit, which writes no recency, keeps that agreement exactly when it hits the front |
| QueueLog.FifoWithDeletion | server/src/session/session_queue.go:55-115 | over every run: the log holds the accepted tracks in order; dequeued then queued tracks are these without the removed ones, in order; the removed ones are what Remove took out, each marked at the place of the track then at its index |
| QueueLog.RunTracks | server/src/session/session_queue.go:55-69 | every run adds exactly the accepted tracks to the log, at its end, and no operation drops or reorders one |
| QueueLog.RemoveNthMarks | server/src/session/session_queue.go:105-115 | a removal marks exactly the queued track at its index |
| QueueLog.LogStepFollows | server/src/session/session_queue.go:55-115 | every operation does to the queue what it does to the log, and serves nothing out of turn |
| QueueLog.QueueBounded | server/src/session/session_queue.go:57-61 | no run takes a queue past sixteen tracks, and one more goes to its end exactly when it has fewer |
| SessionQueue.SessionQueue.Skip | server/src/session/session_queue.go:40-53 | fails on an empty queue, otherwise a token waits; never blocks |
| SessionQueue.SessionQueue.Append | server/src/session/session_queue.go:56-62 | appends at the end or refuses a full queue; the array may move; slices lent earlier still show what they showed |
| SessionQueue.SessionQueue.Enqueue | server/src/session/session_queue.go:55-69 | as Append, and a token waits for the player |
| SessionQueue.SessionQueue.Peek | server/src/session/session_queue.go:71-80 | the head, or the empty-queue error |
| SessionQueue.SessionQueue.Dequeue | server/src/session/session_queue.go:82-93 | takes the head, or the empty-queue error; lent slices stay intact |
| SessionQueue.SessionQueue.ListQueue | server/src/session/session_queue.go:99-103 | hands out the queue's own slice |
| SessionQueue.SessionQueue.Remove | server/src/session/session_queue.go:105-115 | removes exactly that index or refuses it; slices lent before on an older array, or ending at or before the index, still show what they showed, and one of the whole queue now shows the shifted tracks and the last one twice |
| Playback.RunKeeps | server/src/icecast/icecast.go:143-334 | the protocol's invariant holds after every interleaving of player, watcher, ffmpeg and clients |
| PlaybackLaws.HeadIsStable | server/src/icecast/icecast.go:173-210 | in every run a dequeue finds the very track that was peeked and never an empty queue |
| PlaybackLaws.QueueFollowsSteps | server/src/icecast/icecast.go:173-210 | in every run the queue is what the appends, removals and dequeues make of an empty one, and the tracks played are what the dequeues take |
| PlaybackLaws.FinishedLeave | server/src/icecast/icecast.go:191-210 | in every run the tracks dequeued, and the one being dequeued, number the watch windows that ended with the track finished or skipped, read off the steps |
| PlaybackLaws.ReturnsIff | server/src/icecast/icecast.go:126-211 | in every run a step makes the player return exactly when it is a failed connection, the timer, the context, or the end of a track that failed to decode and was not skipped |
| PlaybackLaws.SkipEndsTrack | server/src/icecast/icecast.go:190-204 | in every run what is peeked is played under a watcher, a skip on a queue with tracks waits, and one waiting there can end the track |
| PlaybackLaws.SilenceEnds | server/src/icecast/icecast.go:263-298 | no lost wakeup: in every run a live silent player over queued tracks has a token or one is being sent, and then plays the head; a stale token costs one look at the empty queue and changes nothing else |
| PlaybackLaws.SkipTokensConserved | server/src/icecast/icecast.go:304-334 | in every run, skips accepted are tracks ended as skipped, tokens drained, the one waiting and the one a watcher holds |
| PlaybackLaws.DrainLeavesIff | server/src/icecast/icecast.go:321-331 | stop leaves a token for the next track exactly when two or more came within the watch window |
| PlaybackLaws.OneSkipOneTrack | server/src/icecast/icecast.go:190-204 | a single skip within a watch window leaves nothing for a later track |
| PlaybackLaws.ArchiveIsHistory | server/src/icecast/icecast.go:184-211 | in every run whose context is live the rows are the tracks played, in order and each once, then at most the current head |
| PlaybackLaws.NoArchiveNoRows | server/src/icecast/icecast.go:184-188 | a session that is not archived leaves no row in any run |
| PlaybackLaws.ArchiveAfterCancel | server/src/icecast/icecast.go:172-211 | in every cancelled run the rows stop short by the tracks dequeued since the cancellation, less one if the player had recorded the track it held then; so the log is complete exactly when at most that one is dequeued after it |
| PlaybackLaws.CancelledAddsNoRow | server/src/icecast/icecast.go:184-211 | over every run from a cancelled state no row is added, and every dequeue but that of a recorded head plays a track without one |
| PlaybackLaws.LateTrackHasNoRow | server/src/icecast/icecast.go:184-204 | a run in which a cancelled player plays a track that never gets a row |
| PlaybackLaws.PlayerDescends | server/src/icecast/icecast.go:143-165 | every player step lowers a measure of queue, sends, token and phase |
| PlaybackLaws.PlayerReturns | server/src/icecast/icecast.go:143-211 | after cancellation and without enqueues every schedule brings the player to return, whatever its selects prefer; before that it is never stuck and never has to wait for the timer or for ffmpeg to finish |
| Lifecycle.StepKeeps | server/src/icecast/icecast.go:74-124 | every allowed step of manager, loop and streamers keeps the lifecycle invariant |
| LifecycleLaws.SessionLifecycle | server/src/icecast/icecast.go:74-124 | all through a run, exactly when each step keeps the three rules: every session has exactly one of a pending Created event and one live streamer on its queue, and no Deleted event about; the loop never stops; streamers without a session are cancelled or about to be; no cancel function is leaked; no queue has two players |
| LifecycleLaws.StepSoundIff | server/src/icecast/icecast.go:74-124 | from a state the rules have kept, a step leaves that in force exactly when it keeps the rules |
| LifecycleLaws.QueueServedOnce | server/src/icecast/icecast.go:84-95 | the lookup for a Created event succeeds and starts a streamer on a queue that never had one |
| LifecycleLaws.EventsInOrder | server/src/icecast/icecast.go:75-83 | in every run the events received, then those in the channel, are those sent, in their order |
| LifecycleLaws.AbandonedSendStrands | server/src/session/session_manager.go:50-54 | a Created event given up leaves a session without a streamer in every run that follows until the session is deleted |
| LifecycleLaws.AbandonedDeleteOrphans | server/src/session/session_manager.go:98-102 | a Deleted event given up leaves a streamer running, uncancelled, for a session that is gone |
| LifecycleLaws.EarlyDeleteStopsLoop | server/src/icecast/icecast.go:86-90 | deleting before the Created event is handled stops the event loop, and from then on no run starts a streamer |
| LifecycleLaws.EarlyRecreateLosesSession | server/src/icecast/icecast.go:117-124 | re-creating an id early lets the old streamer delete the new session |
| SessionManager.Manager.CreateSession | server/src/session/session_manager.go:35-57 | a new empty queue under the id, or the right refusal without effect; a send given up leaves the session in the map |
| SessionManager.Manager.DeleteSession | server/src/session/session_manager.go:92-104 | the id leaves the map whether it was there or not, and its event follows unless given up |
| SessionManager.Manager.InUseTrackIDs | server/src/session/session_manager.go:79-90 | exactly the ids of the tracks in some session's queue |
| SessionManager.AddTracks | server/src/session/session_manager.go:83-88 | the inner loop adds exactly the ids in one queue |
| ServerSafety.ServerSafety | server/src/connect/rpc.go:138-176 | from a fresh start, after any calls in any order (adding to a queue that has just left the map included), every track queued in a session of the map has its file, and the window is within max(50, 16 * maxSessions) |
| ServerSafety.SessionsFollowCalls | server/src/connect/rpc.go:76-176 | after any calls the sessions are those created within the limit and not deleted since, and each one's queue is what the calls since its creation make of an empty one |
| SplitTail.TailTogether | server/src/connect/rpc.go:149-155 | AddTrack as one step is its enqueue, collection and touch with nobody between |
| ServerSafety.TouchKeepsFiles | server/src/music/cache.go:84-104 | a touch given ids that cover the queued tracks it could evict deletes no queued track's file |
| ServerSafety.TouchKeepsBound | server/src/music/cache.go:84-95 | after a touch with the ids in use the window is within the global bound |
| ServerSafety.InUseCount | server/src/session/session_manager.go:79-90 | the ids in use are at most sixteen per session |
| SplitTail.TouchSafeIff | server/src/connect/rpc.go:149-155 | a touch with any ids keeps all queued tracks' files exactly when no queued track the ids leave out is among the oldest it has to evict |
| SplitTail.SplitSafeIff | server/src/connect/rpc.go:138-176 | with enqueue, collection and touch as separate steps of interleaving handlers: every queued track keeps its file all through a run exactly when every touch meets that condition |
| SplitTail.StaleIdsLoseFile | server/src/connect/rpc.go:138-160 | from every fresh server with a full window, a run in which a track is hit, pushed to the back by hits on the others, queued, and loses its file to a touch with older ids |
| SplitTail.HitProtectsFile | server/src/music/cache.go:48-61 | after a hit the track's file stays through any moves of other handlers that name at most k other tracks and collect at most p ids at a time, when p + k is below the window size |
| RateLimit.IpRateLimiter.Allow | server/src/connect/ratelimit.go:33-44 | decision and new table are those of a token bucket per key, full when new; the key's last sight is now and no other key changes |
| RateLimit.IpRateLimiter.Cleanup | server/src/connect/ratelimit.go:52-60 | the loop removes exactly the keys idle longer than the limit |
| RateLimitLaws.PurgeTransparentIff | server/src/connect/ratelimit.go:33-63 | every decision in every run equals that of a limiter that never purges, exactly when burst is at most rps times the idle limit |
| RateLimitLaws.AllowsIff | server/src/connect/ratelimit.go:33-44 | in every run with cleanups a request is let through exactly when, with it, those let through since any time are at most a burst and the refill since then |
| RateLimitLaws.RateBound | server/src/connect/ratelimit.go:33-63 | in any interval a client gets at most a burst and what refills in that time, whatever came before and whenever the cleanup ran |
| RateLimitLaws.RateBoundIff | server/src/connect/ratelimit.go:33-63 | that bound holds in every run exactly when burst is at most rps times the idle limit |
| RateLimitLaws.ForgottenTooEarly | server/src/connect/ratelimit.go:46-63 | with less refill than a burst in the idle time, a run whose decisions differ |
| SearchCache.Cache.SetCache | web/src/routes/api/youtube-search/+server.ts:41-47 | a full map loses its oldest row, then the key is set, in place or at the end |
| SearchCache.Cache.Lookup | web/src/routes/api/youtube-search/+server.ts:92-104 | answers with an unexpired entry, drops an expired one, else changes nothing |
| SearchCache.SharedByLongerIff | web/src/routes/api/youtube-search/+server.ts:37-39 | a request shares its key with one of a longer query exactly when its token starts with a colon, or has two in a row, and the query put together with what stands before the second separator is one the endpoint leaves as it is |
| SearchCache.KeysAgreeIff | web/src/routes/api/youtube-search/+server.ts:37-39 | otherwise requests share a key exactly when trimmed and lower-cased query and page token agree |
| SearchCache.ColonsCollide | web/src/routes/api/youtube-search/+server.ts:37-39 | with two colons in a row, or one at the front of a token, different requests share a key |
| SearchCacheLaws.HitIsLatestStore | web/src/routes/api/youtube-search/+server.ts:89-153 | under any interleaving at most 1000 entries, and every hit is the response last stored under the key, less than 86,400,000 milliseconds ago |
| SearchCacheLaws.HitIff | web/src/routes/api/youtube-search/+server.ts:28-47 | with one request per key at a time, the cache answers exactly when a response was stored under the key less than 86,400,000 milliseconds ago with fewer than a thousand stores since, and with that response |
| SearchCacheLaws.EvictsNearestExpiry | web/src/routes/api/youtube-search/+server.ts:41-47 | with one request per key at a time, the row a full cache drops is the one nearest its expiry |
| SearchCacheLaws.InterleavedHitIff | web/src/routes/api/youtube-search/+server.ts:41-47 | under any interleaving a stored response is the answer, until the next store of its key, exactly for 24 hours and while no store has made room by dropping its row |
| SearchCacheLaws.AssignedSortedIff | web/src/routes/api/youtube-search/+server.ts:41-47 | setting a key keeps the rows in order of expiry exactly when every row behind the one overwritten expires with the new entry |
| SearchCacheLaws.SortedThroughoutIff | web/src/routes/api/youtube-search/+server.ts:41-47 | under any interleaving the rows stay in order of expiry all along exactly when every store meets that condition |
| SearchCacheLaws.OverlapBreaksOrder | web/src/routes/api/youtube-search/+server.ts:41-47 | a run with overlapping requests for one key after which the oldest row expires after another |
| HtmlEntities.MatchIff | web/src/routes/api/youtube-search/+server.ts:60 | a match is found exactly where the text begins with a reference of one of the three forms, and is all of it |
| HtmlEntities.DecodingUndoesEncoding | web/src/routes/api/youtube-search/+server.ts:49-70 | any mix of literal characters, the five names, unknown names, decimal and lower-case-x hexadecimal references, padded or not and in either case of digits, decodes to the one text it stands for, a number standing for the units that read as it in UTF-16 |
| HtmlEntities.PredefinedNames | web/src/routes/api/youtube-search/+server.ts:49-56 | the five names, letter by letter, stand for their characters, and no other name for anything |
| HtmlEntities.NeverDecodedTwice | web/src/routes/api/youtube-search/+server.ts:59-70 | any text with its ampersands escaped decodes to itself, references in it included |
| HtmlEntities.NotUnderstoodNotTouched | web/src/routes/api/youtube-search/+server.ts:59-70 | text without a reference the decoder understands comes back unchanged |
| HtmlEntities.ThrowsIff | web/src/routes/api/youtube-search/+server.ts:61-66 | decoding throws exactly when the text holds a numeric reference past the last code point |
| HtmlEntities.NumeralIsReadBack | web/src/routes/api/youtube-search/+server.ts:62-65 | parsing a decimal or hexadecimal numeral gives its number |
| HtmlEntities.FromCodePointReads | web/src/routes/api/youtube-search/+server.ts:66 | what replaces a number reads as that code point in UTF-16 |

## Left out

- Cache.TrackCache.Touch: takes tracks that agree with those cached on id, source id and file path; this rests on UNIQUE(source, source_id), the single source and the download path template, and the code relies on it where it replaces a node's value without refiling it.
- Cache.TrackCache.Touch: the statement and the list update are one call; another touch between the two is not modelled.
- Cache.Disk.Remove: a failed deletion is a path in a fixed set, since the cache only logs it.
- Cache.List: container/list is modelled by its documented operations on a sequence of handles, not by its links.
- Tracks.TrackTable.CreateTrack: of a track's fields, source and created_at are dropped.
- Tracks.TrackTable.ListTracksByLastUsed: rows with equal stamps may come in any order, as SQL leaves it open.
- Restart.RestartEquivalence: asks for a strictly later time at each use; the real clock has one-second steps, within which the table's order is open.
- ServerSafety.ServerSafety: takes the tail of AddTrack as one step and the track's file as present when it is enqueued; SplitTail drops the first assumption.
- ServerSafety.ServerSafety: the handlers are steps on values built from the functions that Enqueue, Remove, Dequeue, InUseTrackIDs and Touch are proved against; the objects themselves are not put together in one class.
- PlaybackLaws.ArchiveIsHistory: inserts succeed exactly while the context is live; rows are in insertion order, since ListSessionArchiveTracks sorts by a one-second clock.
- PlaybackLaws.SilenceEnds: says what the player can do next, not that the scheduler runs it; the session timer may also fire in silence.
- PlaybackLaws.PlayerReturns: an ffmpeg process that ignores the end of its context is not modelled.
- Playback.RunKeeps: the watcher's receive, its flag and its cancel are one step; starting the encoder is part of connecting; the resume argument `elapsed` carries no behaviour and is dropped.
- LifecycleLaws.SessionLifecycle: shutdown of the whole server (the parent context, a closed channel) and the Ready channel are left out.
- RateLimit.IpRateLimiter.Allow: the token bucket library is specified over the reals; float rounding is not modelled.
- SearchCacheLaws.HitIff: at most one request per key waits at a time, which handling requests one after another gives; InterleavedHitIff is without that.
- SearchCache.KeysAgreeIff: trimming and lower-casing are any idempotent function, the JavaScript ones being part of the runtime.
- HtmlEntities.DecodingUndoesEncoding: the name table is one of own keys; names that JavaScript objects inherit, such as constructor, are not modelled.
- SearchCacheLaws.HitIff: the clock is read once for a lookup and once for a store, and does not go back.
- SessionManager: GetQueue and ListSessions as methods, which only read the map.
- ffmpeg, yt-dlp, tag reading, the Icecast handshake and the retry library, except for their outcomes.
- SQL, migrations, archive queries, tokens and nonces, the protobuf and Connect layer, interceptors, logging and configuration.
- The fetch from YouTube and the shape of its response, except that a request stores a response or fails.
- The Discord bot and the web pages.
