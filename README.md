# loudtogether, modelled in Dafny

loudtogether lets a group listen to one YouTube video's audio together. An
admin creates a *session* from a video link. Others join it by id or by a
shareable link. The admin's player posts its position and play state to the
backend, and the backend re-broadcasts them on a real-time channel to every
participant's page.

This project models the core of that system and proves properties of it:

- **Backend.** The Express controller `sessionController.js` and the
  Mongoose schema `Session.js` are modelled as a sequential state machine
  over three pieces of state:
  - the document store (MongoDB), a map from id to `Session`. A request's
    id is cast to an ObjectId before the lookup. The cast ignores the case
    of the hexadecimal digits, so the store is keyed by the lower-case form
    the server prints (`SessionModel.Canon`);
  - the cache (Redis), a map from the id exactly as the request spelled it
    to `Session`, because the source builds the key `session:<id>` from the
    request's text;
  - the event log of the real-time channel (Pusher).

  `SessionSpec` gives each handler as a function from a world to a world
  and an HTTP response. `SessionController` re-states the handlers as
  imperative methods over the store, cache and channel objects. Each
  method makes the same calls in the same order as the source, and is
  proved to end in exactly the world and response the function prescribes.
  `SessionProperties` proves what the handlers promise across calls:
  - the cache stays equal to the store on every run whose requests spell
    ids as the server prints them. A request that spells a stored id in
    upper case leaves the lower-case cache entry stale, and
    `SessionProperties.MixedCaseJoinLeavesStaleCache` shows it;
  - join is set-semantic;
  - sync is last-write-wins;
  - reads are cache-aside;
  - emptied sessions are deleted;
  - admin failover picks the first remaining participant.
- **Video-id extraction.** `VideoId` models `extractVideoId` as
  JavaScript's backtracking matcher evaluates the pattern.
- **Session naming.** `SessionNaming` models how sessions and admins are
  named.
- **Front end.**
  - `SessionPage`: the session page's participant-list mirror, the
    admin test, and the play/sync handlers, including the 500 ms post
    throttle and the half-second drift tolerance.
  - `SessionInfo`: the title truncation, the shareable link and the
    join target.
  - `JoinSession`: how the join form cleans a pasted id and where it
    navigates.
  - `AudioPlayer`: the audio player's play/volume/mute handlers and its
    `m:ss` clock.
  - `Media`: the browser media element.

Where the code and the design of the system disagree, the model follows the
code:

- A new session has no participants: the creator is not added
  (`loudtogether-backend/src/controllers/sessionController.js:71-75`).
- Because of that, "the admin is a participant whenever there are
  participants" does not hold. `SessionProperties.SessionLifecycle` shows
  the admin outside the list once another visitor has joined.
- `syncAudio` takes no caller identity and rejects nobody, so any client
  can sync (lines 205-237). There is no Forbidden outcome.
- Participant lists are ordered sequences, not sets. Failover takes the
  first remaining entry in list order.
- `createSession` checks the URL with `extractVideoId` as written, so a
  share link whose id starts with `v` is refused with 400 (see Findings).
  The handlers use that extraction; the corrected one is proved separately.
- On the page, `syncAudioState` updates the local time and play state only
  when a player element is attached
  (`loudtogether-frontend/src/pages/phone-v1/Session.jsx:51-67`). With no
  element it does nothing at all.

## Model

| member | source | states |
|---|---|---|
| SessionModel.NewSession | loudtogether-backend/src/models/Session.js:3-11 | A new document starts with no participants, currentTime 0, isPlaying false, and the creation time as createdAt |
| SessionModel.AddToSet | loudtogether-backend/src/controllers/sessionController.js:155-159 | `$addToSet`: the members are the old members plus the name; the list grows by one exactly when the name was absent; the old list stays a prefix; a duplicate-free list stays duplicate-free |
| SessionModel.Pull | loudtogether-backend/src/controllers/sessionController.js:358-362 | `$pull`: the name is gone; every other member stays; the list never grows; a list without the name is unchanged; a duplicate-free list stays duplicate-free |
| SessionModel.PullAppend | loudtogether-backend/src/controllers/sessionController.js:358-362 | Pulling distributes over concatenation, so the kept names keep their order |
| SessionModel.PullCounts | loudtogether-backend/src/controllers/sessionController.js:358-362 | Pulling drops every occurrence of the name and keeps the multiplicity of every other name |
| SessionModel.AddToSetIdempotent | loudtogether-backend/src/controllers/sessionController.js:157 | Adding a name twice is adding it once |
| SessionModel.PullIdempotent | loudtogether-backend/src/controllers/sessionController.js:360 | Pulling a name twice is pulling it once |
| SessionModel.Canon | loudtogether-backend/src/controllers/sessionController.js:155-159 | The cast id has the same length, lower-cases exactly the digits `A`..`F`, and is an ObjectId whenever the request's id is |
| SessionModel.CanonIsCanonical | loudtogether-backend/src/controllers/sessionController.js:155-159 | Casting a cast id changes nothing, and an id is unchanged by the cast exactly when it is already in printed form |
| VideoId.LineEnd | loudtogether-backend/src/controllers/sessionController.js:22 | `^.*` reaches exactly up to the first line terminator, or to the end |
| VideoId.AlternativeEnd | loudtogether-backend/src/controllers/sessionController.js:22 | The first of the five alternatives that matches at a position, tried in order; every alternative ends in `/` or `?` |
| VideoId.LastAlternative | loudtogether-backend/src/controllers/sessionController.js:22 | Backtracking the greedy prefix stops at the largest position where an alternative matches; no position above it matches, and None means no position matches at all |
| VideoId.SkipOptional | loudtogether-backend/src/controllers/sessionController.js:22 | A greedy `c?` takes the character exactly when it is there |
| VideoId.IdRunEnd | loudtogether-backend/src/controllers/sessionController.js:22 | `[^#&?]*` takes the longest run without `#`, `&` or `?`; it ends at the end of the text or at a stop character |
| VideoId.Candidate | loudtogether-backend/src/controllers/sessionController.js:24 | An accepted id is the 11 characters at the start position; it has no stop character, and is followed by the end or a stop character |
| VideoId.ExtractVideoIdAsWritten | loudtogether-backend/src/controllers/sessionController.js:20-25 | The extraction exactly as written returns null or an 11-character id without `#`, `&` or `?` |
| VideoId.ExtractVideoId | loudtogether-backend/src/controllers/sessionController.js:20-25 | The corrected extraction returns null or an 11-character id without `#`, `&` or `?` that occurs in the URL |
| VideoId.NoAlternativeWithoutSlash | loudtogether-backend/src/controllers/sessionController.js:22 | No alternative matches where no `/` or `?` follows |
| VideoId.SkipToLastAlternative | loudtogether-backend/src/controllers/sessionController.js:22 | Positions where no alternative matches do not change where the backtracking stops |
| VideoId.ShortLinkAlternative | loudtogether-backend/src/controllers/sessionController.js:22 | In `https://youtu.be/<id>` the matcher settles on the `youtu.be/` alternative, and the id starts right after it |
| VideoId.ExtractFromShortLink | loudtogether-backend/src/controllers/sessionController.js:20-25 | The corrected extraction recovers every well-formed id from its share link |
| VideoId.ExtractFromShortLinkAsWritten | loudtogether-backend/src/controllers/sessionController.js:20-25 | As written, a share link still yields its whole id when the id does not start with `v` |
| VideoId.AsWrittenRejectsLeadingV | loudtogether-backend/src/controllers/sessionController.js:22-24 | As written, the share link of an id that starts with `v` is rejected |
| VideoId.WatchLinkAlternative | loudtogether-backend/src/controllers/sessionController.js:22 | In `https://www.youtube.com/watch?v=<id>` the matcher settles on the `watch?` alternative |
| VideoId.ExtractFromWatchLink | loudtogether-backend/src/controllers/sessionController.js:20-25 | Both readings recover every well-formed id from its watch link, including one that starts with `v` |
| SessionNaming.StripWhitespace | loudtogether-backend/src/controllers/sessionController.js:64 | `replace(/\s+/g, "")` leaves no JavaScript whitespace; the result is no longer than the input, and a title without whitespace is unchanged |
| SessionNaming.StripWhitespaceAppend | loudtogether-backend/src/controllers/sessionController.js:64 | Stripping works piecewise, so the kept characters keep their order |
| SessionNaming.StripWhitespaceCounts | loudtogether-backend/src/controllers/sessionController.js:64 | Every whitespace character is removed, and every other character keeps its number of occurrences |
| SessionNaming.ShortSessionName | loudtogether-backend/src/controllers/sessionController.js:64 | The short name is the first min(10, length) characters of the stripped title and holds no whitespace |
| SessionNaming.SessionName | loudtogether-backend/src/controllers/sessionController.js:65-67 | The session name is the short name, then `-`, then the generated suffix |
| SessionNaming.FriendlyAdminName | loudtogether-backend/src/controllers/sessionController.js:69 | The admin is the supplied name when it is truthy, otherwise the generated one |
| SessionSpec.StatusOf | loudtogether-backend/src/controllers/sessionController.js:262-265 | The sync status is the stored time, or 0 when it is null; it is playing exactly when the stored flag is true |
| SessionSpec.CreateSession | loudtogether-backend/src/controllers/sessionController.js:52-94 | 400 exactly when the extraction as written finds no id. A failed lookup, a failed validation or a duplicate key gives 500 and changes nothing. On 201, the new record is in both store and cache, with the derived name and admin and no participants |
| SessionSpec.GetSession | loudtogether-backend/src/controllers/sessionController.js:96-127 | 400 exactly for a malformed id. A cache hit under the id as spelled is answered from the cache; on a miss, 404 when nothing is stored under the cast id, otherwise that stored record, which is then cached under the id as spelled |
| SessionSpec.JoinSession | loudtogether-backend/src/controllers/sessionController.js:150-180 | A malformed id gives 500, an id whose cast is not stored 404, and neither changes anything. Otherwise `$addToSet` is applied to the record under the cast id and the rest of the record is kept; the store gets it under the cast id, the cache under the id as spelled, and one participant-joined event is published on the channel named with the id as spelled |
| SessionSpec.SyncAudio | loudtogether-backend/src/controllers/sessionController.js:205-237 | 500 or 404 change nothing. Otherwise exactly the given time and flag overwrite the ones stored under the cast id, with no caller check; the store gets the record under the cast id, the cache under the id as spelled, and one audio-sync event carries the same values; the answer is "Audio synced successfully" |
| SessionSpec.GetSyncStatus | loudtogether-backend/src/controllers/sessionController.js:239-272 | The cache is read before the id is cast. A hit answers its status; a miss gives 500 for a malformed id, 404 when nothing is stored under the cast id, otherwise that record's status, filling the cache under the id as spelled |
| SessionSpec.LeaveSession | loudtogether-backend/src/controllers/sessionController.js:352-421 | A malformed id gives 500 and changes nothing; 404 exactly when nothing is stored under the cast id, changing nothing; otherwise the step of `SessionSpec.LeaveStored` for the cast id |
| SessionSpec.LeaveStored | loudtogether-backend/src/controllers/sessionController.js:358-421 | For a session stored under the cast id a participant-left event is always published. An emptied session is deleted from the store and its entry under the id as spelled from the cache. Otherwise the pulled list is stored and cached. An admin who leaves is replaced by the first remaining name, announced after the departure; a non-admin leave keeps the admin. Promoting an empty name fails validation with 500, after the pull and the event |
| SessionSpec.RemoveParticipant | loudtogether-backend/src/controllers/sessionController.js:274-350 | The unrouted twin of leave answers 400 for a malformed id and changes nothing. On a well-formed id it changes the world exactly as leave does, with the same status, and words the success and failure messages as "Participant removed successfully" and "Error removing participant" |
| SessionProperties.RemoveParticipantIsLeave | loudtogether-backend/src/controllers/sessionController.js:274-350 | On a well-formed id, remove changes the world exactly as leave does and answers the same status |
| SessionProperties.RemoveParticipantRejectsMalformedId | loudtogether-backend/src/controllers/sessionController.js:279-281 | On a malformed id, remove answers 400 while leave fails the cast with 500; neither changes anything |
| SessionProperties.CreatePreservesInvariant | loudtogether-backend/src/controllers/sessionController.js:71-81 | Creating with a generated (lower-case) id keeps every cache entry equal to the record its key casts to, every cache key in printed form, every record valid and keyed by its own printed id, and session names unique |
| SessionProperties.InsertPreservesInvariant | loudtogether-backend/src/controllers/sessionController.js:71-81 | Inserting a valid record under a fresh printed id with a fresh name, and caching it under that id, keeps the invariant |
| SessionProperties.WriteBackPreservesInvariant | loudtogether-backend/src/controllers/sessionController.js:155-166 | Writing a valid record back under its printed id, with its name unchanged, and caching it under that id keeps the invariant |
| SessionProperties.DeletePreservesInvariant | loudtogether-backend/src/controllers/sessionController.js:380-389 | Deleting a record and the cache entry under its printed id keeps the invariant |
| SessionProperties.JoinPreservesInvariant | loudtogether-backend/src/controllers/sessionController.js:155-166 | Joining under an id spelled as printed keeps the invariant |
| SessionProperties.SyncPreservesInvariant | loudtogether-backend/src/controllers/sessionController.js:211-222 | Syncing under an id spelled as printed keeps the invariant |
| SessionProperties.LeavePreservesInvariant | loudtogether-backend/src/controllers/sessionController.js:358-403 | Leaving under an id spelled as printed keeps the invariant, including deletion and failover |
| SessionProperties.ReadPreservesInvariant | loudtogether-backend/src/controllers/sessionController.js:96-127 | Both reads under an id spelled as printed keep the invariant |
| SessionProperties.ApplyPreservesInvariant | loudtogether-backend/src/routes/sessionRoutes.js:14-21 | Every routed handler keeps the invariant when the request spells its id as printed |
| SessionProperties.RunPreservesInvariant | loudtogether-backend/src/routes/sessionRoutes.js:14-21 | Any sequence of requests that spell ids as printed, handled one at a time, keeps the cache equal to the store |
| SessionProperties.UpperCastsToLower | loudtogether-backend/src/controllers/sessionController.js:155-159 | The upper-case spelling of an id is a well-formed id that casts to the lower-case one |
| SessionProperties.MixedCaseJoinLeavesStaleCache | loudtogether-backend/src/controllers/sessionController.js:155-166 | From a coherent deployment, a join under the upper-case spelling succeeds and adds the name to the stored record, but the entry under the printed id keeps the old record: a read of the printed id serves it without the new name, and the cache is no longer coherent |
| SessionProperties.EmptyWorldInvariant | loudtogether-backend/src/models/Session.js:3-13 | An empty deployment satisfies the invariant |
| SessionProperties.JoinTwiceIsJoinOnce | loudtogether-backend/src/controllers/sessionController.js:155-171 | A second join leaves store and cache as after one join, and only publishes a second event |
| SessionProperties.SyncLastWriteWins | loudtogether-backend/src/controllers/sessionController.js:211-222 | A sync after another leaves store and cache as if only the last sync had happened |
| SessionProperties.GetSessionSeesStore | loudtogether-backend/src/controllers/sessionController.js:106-120 | With a coherent cache, a read of a well-formed id in any spelling answers exactly the record stored under its cast (404 when there is none) and keeps the cache coherent |
| SessionProperties.GetSyncStatusSeesStore | loudtogether-backend/src/controllers/sessionController.js:244-265 | Under the invariant, the status is 200 exactly for well-formed ids, in any spelling, whose cast is stored, and it is that record's playback state |
| SessionProperties.EmptiedSessionIsGone | loudtogether-backend/src/controllers/sessionController.js:380-389 | Under the invariant, once the last participant leaves under the printed id, the session is gone from the store, only its cache entry is removed, and both reads answer 404 |
| SessionProperties.LeaveDeletesSessionWithoutParticipants | loudtogether-backend/src/controllers/sessionController.js:380-389 | Any leave from a session with no participants (as every fresh one is) deletes it, even when the leaver was never a member |
| SessionProperties.FailoverPicksFirstRemaining | loudtogether-backend/src/controllers/sessionController.js:393-407 | When the admin leaves and others remain, the first remaining participant becomes an admin who is a member. Store and cache agree, and exactly participant-left then admin-changed are published |
| SessionProperties.NonAdminLeaveKeepsAdmin | loudtogether-backend/src/controllers/sessionController.js:393-397 | A leave by anyone but the admin never changes the admin |
| SessionProperties.ByNameAnswerIsUnique | loudtogether-backend/src/models/Session.js:5 | Because session names are unique, a lookup by name has exactly one possible answer |
| SessionProperties.CreateRejectsLeadingV | loudtogether-backend/src/controllers/sessionController.js:52-59 | Creating from the share link of an id that starts with `v` answers 400 and changes nothing, in any deployment |
| SessionProperties.CreateInEmptyWorld | loudtogether-backend/src/controllers/sessionController.js:52-88 | Creating from the share link of an id that does not start with `v`, in an empty deployment, answers 201 with the generated admin and puts the same fresh record, with no participants, in the store and the cache |
| SessionProperties.JoinSolo | loudtogether-backend/src/controllers/sessionController.js:155-171 | Joining the only session adds the name to its participants in store and cache alike and publishes one join event |
| SessionProperties.SyncSolo | loudtogether-backend/src/controllers/sessionController.js:211-222 | Syncing the only session overwrites its time and playing flag in store and cache alike and publishes one sync event |
| SessionProperties.AdminLeavesSolo | loudtogether-backend/src/controllers/sessionController.js:358-403 | When the admin leaves a session whose only participant is someone else, that participant becomes admin, and the leave and admin-change events follow in that order |
| SessionProperties.LastLeavesSolo | loudtogether-backend/src/controllers/sessionController.js:358-385 | When the last participant leaves, the session is removed from store and cache and the "empty session deleted" answer is given |
| SessionProperties.SessionLifecycle | loudtogether-backend/src/controllers/sessionController.js:52-421 | A whole session as coded, from the share link of an id that does not start with `v`: the creator is not a participant; a sync is applied with no caller check; the admin's leave promotes the remaining participant; the last leave deletes the session, which then reads as 404 |
| SessionController.SessionStore.Insert | loudtogether-backend/src/controllers/sessionController.js:71-76 | `save()` of a new document succeeds exactly when the required fields are present and neither the id nor the name is taken, and only then inserts it |
| SessionController.SessionStore.FindOne | loudtogether-backend/src/controllers/sessionController.js:133 | `findOne({sessionName})` returns a stored record of that name, or null exactly when there is none |
| SessionController.SessionStore.FindByIdAndUpdate | loudtogether-backend/src/controllers/sessionController.js:155-159 | A malformed id throws a cast error. Otherwise the id is cast, so any case spelling finds the record: null when the cast is not stored, and otherwise the updated record is written under the cast id and returned |
| SessionController.SessionStore.FindById | loudtogether-backend/src/controllers/sessionController.js:251 | A malformed id throws a cast error; otherwise the record stored under the cast id, or null |
| SessionController.SessionStore.Save | loudtogether-backend/src/controllers/sessionController.js:399 | `save()` of a loaded document writes it back exactly when the required fields are present |
| SessionController.SessionStore.DeleteById | loudtogether-backend/src/controllers/sessionController.js:384 | `findByIdAndDelete` throws a cast error for a malformed id; otherwise it removes the record under the cast id and nothing else |
| SessionController.SessionCache.Get | loudtogether-backend/src/controllers/sessionController.js:106 | Returns the cached record, or null |
| SessionController.SessionCache.Set | loudtogether-backend/src/controllers/sessionController.js:118 | Sets exactly one entry |
| SessionController.SessionCache.Del | loudtogether-backend/src/controllers/sessionController.js:375 | Removes exactly one entry |
| SessionController.EventChannel.Trigger | loudtogether-backend/src/controllers/sessionController.js:169-171 | Appends exactly one event to the channel's log |
| SessionController.CreateSession | loudtogether-backend/src/controllers/sessionController.js:52-94 | The handler's calls leave store, cache and log, and give the response, exactly as `SessionSpec.CreateSession` prescribes |
| SessionController.GetSession | loudtogether-backend/src/controllers/sessionController.js:96-127 | Ends exactly as `SessionSpec.GetSession` prescribes |
| SessionController.GetSessionByName | loudtogether-backend/src/controllers/sessionController.js:129-148 | Answers a stored record with the requested name, or 404 exactly when there is none |
| SessionController.JoinSession | loudtogether-backend/src/controllers/sessionController.js:150-180 | Ends exactly as `SessionSpec.JoinSession` prescribes |
| SessionController.SyncAudio | loudtogether-backend/src/controllers/sessionController.js:205-237 | Ends exactly as `SessionSpec.SyncAudio` prescribes |
| SessionController.GetSyncStatus | loudtogether-backend/src/controllers/sessionController.js:239-272 | Ends exactly as `SessionSpec.GetSyncStatus` prescribes |
| SessionController.LeaveSession | loudtogether-backend/src/controllers/sessionController.js:352-421 | Ends exactly as `SessionSpec.LeaveSession` prescribes, including the failed save after the pull |
| SessionPage.MirrorJoined | loudtogether-frontend/src/pages/phone-v1/Session.jsx:109-114 | The participant-joined reducer keeps the list as a prefix and puts the name last, so the list grows by exactly one |
| SessionPage.MirrorLeft | loudtogether-frontend/src/pages/phone-v1/Session.jsx:116-123 | The participant-left reducer removes the name and keeps every other member; the list never grows |
| SessionPage.MirrorLeftIsPull | loudtogether-frontend/src/pages/phone-v1/Session.jsx:116-123 | The page's filter removes a name exactly as the store's `$pull` does, order included |
| SessionPage.MirrorJoinedFresh | loudtogether-frontend/src/pages/phone-v1/Session.jsx:109-114 | For a first-time join, the page's list grows exactly as the store's `$addToSet` grows its list |
| SessionPage.MirrorJoinedDuplicates | loudtogether-frontend/src/pages/phone-v1/Session.jsx:109-114 | On a rejoin, the page holds one more copy of the name while the store holds the same count, so the two lists differ |
| SessionPage.RejoinThenLeave | loudtogether-frontend/src/pages/phone-v1/Session.jsx:109-123 | After a join and then a leave of the same name, the page's list equals the store's, whether or not the join was a rejoin |
| SessionPage.IsAdmin | loudtogether-frontend/src/pages/phone-v1/Session.jsx:82-84 | The visitor is admin exactly when the page was reached with a name, and that name equals the session's adminName |
| SessionPage.CreatorIsAdmin | loudtogether-frontend/src/pages/phone-v1/Session.jsx:82-84 | A visitor arriving under the admin name that a successful create returned is recognised as admin |
| SessionPage.SpacedExtend | loudtogether-frontend/src/pages/phone-v1/Session.jsx:168-173 | A post more than 500 ms after the last throttled one keeps all throttled posts more than 500 ms apart |
| SessionPage.Page.SyncAudioState | loudtogether-frontend/src/pages/phone-v1/Session.jsx:50-68 | Without an element nothing changes. Otherwise the element seeks only when it has drifted more than 0.5 s, the page takes the given time and state, and the element is told to play only if it was paused and to pause only if it was playing, ending paused exactly when not playing; the element's volume is left as it was |
| SessionPage.Page.HandleTimeUpdate | loudtogether-frontend/src/pages/phone-v1/Session.jsx:163-178 | The time is always recorded. A sync is posted exactly when the visitor is admin and more than 500 ms have passed since the last throttled post, which moves the throttle mark. Throttled posts stay more than 500 ms apart, and a participant never posts |
| SessionPage.Page.HandlePlayPause | loudtogether-frontend/src/pages/phone-v1/Session.jsx:180-204 | The page takes the requested state and drives the element if there is one. Only an admin posts, with the element's time (0 without one); a failed post reverts the page to the opposite of the request. The element's time and volume are left as they were |
| SessionInfo.Truncate | loudtogether-frontend/src/components/SessionInfo.jsx:9-12 | Text within the limit is unchanged; longer text becomes its first `num` characters and `...` |
| SessionInfo.TruncateBounds | loudtogether-frontend/src/components/SessionInfo.jsx:9-12 | A truncated label is at most three characters over the limit and starts with the first min(length, limit) characters of the text |
| SessionInfo.TruncateIdempotent | loudtogether-frontend/src/components/SessionInfo.jsx:9-12 | Truncating a label again at the same limit changes nothing |
| SessionInfo.TitleLabel | loudtogether-frontend/src/components/SessionInfo.jsx:59 | A missing or empty title shows "Unknown Song"; any other title is truncated at 45; the label is at most 48 characters |
| SessionInfo.ShareableLink | loudtogether-frontend/src/components/SessionInfo.jsx:16-18 | The link is the domain, then `/session/`, then the session name |
| SessionInfo.JoinTargetId | loudtogether-frontend/src/components/SessionInfo.jsx:30-32 | The join request goes to the route's session id when it has one, otherwise to the loaded record's id |
| SessionInfo.JoinFromIdRoute | loudtogether-frontend/src/components/SessionInfo.jsx:15-32 | On the `/:sessionId` route, with a coherent cache, the join adds the visitor to exactly the record the card was loaded with, whatever the id's spelling |
| SessionInfo.JoinFromNameRoute | loudtogether-frontend/src/components/SessionInfo.jsx:15-32 | On the `/session/:sessionName` route, the join goes to the loaded record's id and adds the visitor to exactly that record |
| JoinSession.Split | loudtogether-frontend/src/pages/phone-v1/JoinSession.jsx:28 | `split("/")` returns at least one piece, and no piece holds a `/` |
| JoinSession.JoinSplit | loudtogether-frontend/src/pages/phone-v1/JoinSession.jsx:28 | Joining the pieces with `/` gives back the input |
| JoinSession.CleanWithoutSeparator | loudtogether-frontend/src/pages/phone-v1/JoinSession.jsx:28 | An input without `/` is one piece and is already clean |
| JoinSession.CleanIsLastSegment | loudtogether-frontend/src/pages/phone-v1/JoinSession.jsx:28 | The cleaned id holds no `/`, ends the input, and is preceded by a `/` unless it is the whole input |
| JoinSession.EndsWithSeparator | loudtogether-frontend/src/pages/phone-v1/JoinSession.jsx:28 | An input ending in `/` cleans to the empty string |
| JoinSession.CleanAppend | loudtogether-frontend/src/pages/phone-v1/JoinSession.jsx:28 | Appending text without `/` to the input appends it to the cleaned id |
| JoinSession.NavigationTarget | loudtogether-frontend/src/pages/phone-v1/JoinSession.jsx:30 | The target is `/` followed by a single path segment |
| JoinSession.CleanShareableLink | loudtogether-frontend/src/pages/phone-v1/JoinSession.jsx:28 | Pasting a shareable link yields the session's name, for a name without `/` |
| JoinSession.PastedLinkIsRejected | loudtogether-frontend/src/pages/phone-v1/JoinSession.jsx:28-32 | For a generated suffix without `/`, a pasted shareable link leads the page to fetch a "session id" that contains `-`. No ObjectId contains `-`, so the backend answers 400 |
| Media.MediaElement.Play | loudtogether-frontend/src/components/AudioPlayer.jsx:53 | `play()` unpauses the element and keeps its time and volume |
| Media.MediaElement.Pause | loudtogether-frontend/src/components/AudioPlayer.jsx:51 | `pause()` pauses the element and keeps its time and volume |
| AudioPlayer.Player.constructor | loudtogether-frontend/src/components/AudioPlayer.jsx:13-18 | The player starts stopped, at time 0, at volume 1 and unmuted, in agreement with its fresh element |
| AudioPlayer.Player.TogglePlayPause | loudtogether-frontend/src/components/AudioPlayer.jsx:49-57 | Flips the playing state, pauses or plays the element to match, and reports the new state to the parent |
| AudioPlayer.Player.HandleSliderChange | loudtogether-frontend/src/components/AudioPlayer.jsx:64-69 | Sets the element's time and the state's time to the value and reports the value |
| AudioPlayer.Player.HandleVolumeChange | loudtogether-frontend/src/components/AudioPlayer.jsx:71-76 | Sets the stored and the element volume to the value; muted exactly when the value is 0 |
| AudioPlayer.Player.ToggleMute | loudtogether-frontend/src/components/AudioPlayer.jsx:78-86 | Flips muted and never changes the stored volume. Muting silences the element; unmuting restores the stored volume, so two toggles from unmuted end at the stored volume |
| AudioPlayer.Trunc | loudtogether-frontend/src/components/AudioPlayer.jsx:90 | Rounding toward zero, as the `%` on numbers uses it: the floor for non-negative values, the negated floor of the negation otherwise |
| AudioPlayer.Digits | loudtogether-frontend/src/components/AudioPlayer.jsx:91 | The decimal rendering is all digits, one digit exactly below 10 |
| AudioPlayer.IntToString | loudtogether-frontend/src/components/AudioPlayer.jsx:91 | An integer renders as at least one character |
| AudioPlayer.PadStart | loudtogether-frontend/src/components/AudioPlayer.jsx:91 | `padStart(2, "0")` puts fill characters before the text up to the length, and leaves a text that is long enough alone |
| AudioPlayer.ParseDigits | loudtogether-frontend/src/components/AudioPlayer.jsx:91 | A rendered natural number reads back as itself |
| AudioPlayer.ClockParts | loudtogether-frontend/src/components/AudioPlayer.jsx:89-90 | For a non-negative time, the minutes are the whole seconds divided by 60 and the seconds are their remainder |
| AudioPlayer.FormatTimeRoundTrip | loudtogether-frontend/src/components/AudioPlayer.jsx:88-92 | The `m:ss` label of a non-negative time reads back as minutes and seconds, with seconds below 60, that make up the time's whole seconds |

## Left out

- The video metadata lookup (`getVideoDetails`, `loudtogether-backend/src/controllers/sessionController.js:27-43`) and `getAudioInfo` (lines 423-508) are network and transcoding I/O. The title the lookup returns is a parameter of `CreateSession`, and None stands for a failed lookup, which answers 500.
- Randomness is passed in as parameters: the generated name suffix and admin name, the new document's id, the clock. The random participant name that the join form and the info card generate is not modelled.
- Concurrency: each handler is one atomic step. Interleaved requests, the non-atomic read-modify-write in leave, Pusher delivery and the socket relay of play/pause are not modelled.
- Failures of the database, cache or channel connections are not modelled. The store failures that are modelled are validation of required fields, the unique indexes, and the cast of a malformed id.
- JSON: the cache holds records, not their JSON text. A record is taken to read back from the cache unchanged.
- SessionProperties.JoinPreservesInvariant holds only for requests that spell ids as the server prints them (lower case). The handlers write the cache under the id as the request spelled it, so an upper-case spelling of a stored id leaves the printed key stale; `SessionProperties.MixedCaseJoinLeavesStaleCache` proves that this happens.
- SessionProperties.SyncPreservesInvariant holds only for ids spelled as printed, for the same reason: a sync under another spelling breaks cache coherence for the printed key.
- SessionProperties.LeavePreservesInvariant holds only for ids spelled as printed, for the same reason: a leave under another spelling breaks cache coherence for the printed key.
- SessionProperties.ReadPreservesInvariant holds only for ids spelled as printed: a read under another spelling keeps the cache coherent but caches a second key for the session, which a later write under the printed id leaves stale.
- SessionProperties.ApplyPreservesInvariant holds only for ids spelled as printed, for the same reason: any routed request under another spelling breaks cache coherence for the printed key.
- SessionProperties.RunPreservesInvariant holds only for ids spelled as printed, for the same reason: any run under another spelling breaks cache coherence for the printed key.
- SessionProperties.EmptiedSessionIsGone holds only for a leave under the printed id, for the same reason: a leave under another spelling leaves the printed key in the cache.
- SessionSpec.JoinSession and SessionSpec.LeaveSession take the participant name as a string. A request without `participantName`, or with a value of another type, is not modelled.
- SessionSpec.CreateSession takes `youtubeUrl` as a string. In the source a request without `youtubeUrl`, or with a value of another type, makes `url.match` throw and the handler answers 500 "Error creating session"; that path is not modelled.
- SessionSpec.SyncAudio: a time or flag missing from the request body is modelled as null. Mongoose would drop an undefined key and leave the stored field as it was. Values of the wrong type, which Mongoose casts or rejects, are not modelled.
- SessionModel.IsObjectId accepts only the 24-hexadecimal-digit form. Depending on its version, Mongoose's check may also accept a 12-character string, and such ids are not modelled.
- Strings are sequences of characters. `length`, `substring` and `slice` in JavaScript count UTF-16 code units, which differs for titles outside the Basic Multilingual Plane.
- Times and volumes are real numbers. Floating-point rounding and NaN are not modelled, and the slider's `parseFloat` is replaced by passing the number.
- The first `leaveSession` export (`loudtogether-backend/src/controllers/sessionController.js:182-203`) is overwritten by the second one and calls a method the model does not have. It is not modelled.
- React scheduling is not modelled: state updates take effect at once, and callbacks see current rather than captured state. The asynchronous failure of the play/pause post is the `postFails` parameter, applied immediately.
- The session page hands its player reference to child views that never attach it, so in the repository that reference stays null. `SessionPage.Page` models both a null and an attached element.
- AudioPlayer's `handleTimeUpdate` (`loudtogether-frontend/src/components/AudioPlayer.jsx:59-62`), its imperative handle (lines 20-39) and the duration listener are not modelled. The player's agreement with its element holds as long as the element changes only through the modelled handlers: playback ending and rejected `play()` calls are not modelled.
- AudioPlayer.FormatTimeRoundTrip covers only non-negative times. `FormatTime` itself follows JavaScript for negative times too.
- Clipboard, toast, navigation state and HTTP calls of the front end are left out, except the values they carry.

## Findings

| source | as written | input that shows it | evidently intended | confidence | as-written member | corrected member |
|---|---|---|---|---|---|---|
| loudtogether-backend/src/controllers/sessionController.js:22 | `\??v?=?` takes an optional `v` on its own, so a share link loses the first character of an id that starts with `v`. That leaves 10 characters, and the URL is rejected with 400 | `https://youtu.be/` followed by any 11-character id starting with `v`, e.g. `https://youtu.be/vAbCdEfGhIj` | skip `v` only together with `=`, as in `\??(?:v=)?`, so that the share link yields the whole id | high; not executed | VideoId.ExtractVideoIdAsWritten, shown by VideoId.AsWrittenRejectsLeadingV and, at the handler, SessionProperties.CreateRejectsLeadingV | VideoId.ExtractVideoId, proved by VideoId.ExtractFromShortLink |
