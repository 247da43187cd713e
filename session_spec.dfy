/**
 * The backend's session handlers as one sequential state machine. The state
 * (`World`) is the document store (MongoDB, keyed by the cast id `Canon(id)`),
 * the cache (Redis, keyed by the id exactly as the request spelled it) and the
 * log of events published on the real-time channel (Pusher). Each handler is one atomic step from a world to a world and an
 * HTTP response. This is the specification the handler methods of
 * `SessionController` are proved against.
 */
module SessionSpec {
  import opened Wrappers
  import opened SessionModel
  import VideoId
  import SessionNaming

  const Ok: int := 200
  const CreatedStatus: int := 201
  const BadRequest: int := 400
  const NotFound: int := 404
  const ServerError: int := 500

  datatype Payload =
    | ParticipantJoined(participantName: string)
    | ParticipantLeft(participantName: string)
    | AdminChanged(newAdminName: string)
    | AudioSync(currentTime: Option<real>, isPlaying: Option<bool>)
  {
    /** The event name the payload is triggered under. */
    function EventName(): string {
      match this
      case ParticipantJoined(_) => "participant-joined"
      case ParticipantLeft(_) => "participant-left"
      case AdminChanged(_) => "admin-changed"
      case AudioSync(_, _) => "audio-sync"
    }
  }

  datatype Event = Event(channel: string, payload: Payload)

  /** The channel every event about session `id` is published on. */
  function Channel(id: Id): string {
    "session-" + id
  }

  datatype Body =
    | Created(sessionId: Id, sessionName: string, adminName: string)
    | Record(session: Session)
    | Joined(message: string, session: Session)
    | SyncStatus(currentTime: real, isPlaying: bool)
    | Left(message: string, updatedSession: Option<Session>)
    | Message(message: string)

  datatype Response = Response(status: int, body: Body)

  datatype World = World(store: map<Id, Session>, cache: map<Id, Session>, events: seq<Event>)

  datatype Step = Step(world: World, response: Response)

  const SessionNotFound: Response := Response(NotFound, Message("Session not found"))

  /** Some stored session already carries `name`: the unique index on `sessionName` rejects a second one. */
  predicate NameTaken(store: map<Id, Session>, name: string) {
    exists id :: id in store && store[id].sessionName == name
  }

  /** The payload of `GET /:sessionId/sync`: `currentTime || 0` and `isPlaying || false`. */
  function StatusOf(s: Session): (b: Body)
    ensures b.SyncStatus?
    ensures s.currentTime.Some? ==> b.currentTime == s.currentTime.value
    ensures s.currentTime.None? ==> b.currentTime == DefaultCurrentTime
    ensures b.isPlaying <==> s.isPlaying == Some(true)
  {
    SyncStatus(s.currentTime.GetOr(DefaultCurrentTime), s.isPlaying.GetOr(DefaultIsPlaying))
  }

  // ---------------------------------------------------------------- invariants

  /** Every cache entry is the stored record its key casts to; a deleted session has no entry. */
  ghost predicate CacheCoherent(w: World) {
    forall id :: id in w.cache ==> Canon(id) in w.store && w.cache[id] == w.store[Canon(id)]
  }

  /** Every cache key is spelled as the server prints ids, so each session has at most one entry. */
  ghost predicate CacheKeysCanonical(w: World) {
    forall id :: id in w.cache ==> IsCanonical(id)
  }

  ghost predicate UniqueNames(store: map<Id, Session>) {
    forall a, b :: a in store && b in store && store[a].sessionName == store[b].sessionName ==> a == b
  }

  /** What every stored record satisfies: keyed by its own id, valid for the schema, no duplicate participant. */
  ghost predicate StoreWellFormed(store: map<Id, Session>) {
    && (forall id :: id in store ==> store[id].id == id && IsCanonical(id) && RequiredPresent(store[id]) && NoDuplicates(store[id].participants))
    && UniqueNames(store)
  }

  ghost predicate Invariant(w: World) {
    CacheCoherent(w) && CacheKeysCanonical(w) && StoreWellFormed(w.store)
  }

  // ---------------------------------------------------------------- handlers

  /**
   * `POST /` (createSession). `title` is the title the video-metadata lookup
   * returned (None when the lookup failed), `generatedSuffix` and
   * `generatedAdmin` the two outputs of the name generator, `newId` the id the
   * new document receives (generated, so printed in lower case) and `now` the
   * clock. The URL is checked with `extractVideoId` as written.
   */
  function CreateSession(w: World, youtubeUrl: string, adminName: Option<string>, title: Option<string>,
                         generatedSuffix: string, generatedAdmin: string, newId: Id, now: int): (r: Step)
    requires IsCanonical(newId)
    ensures r.response.status == BadRequest <==> VideoId.ExtractVideoIdAsWritten(youtubeUrl).None?
    ensures r.response.status != CreatedStatus ==> r.world == w
    ensures r.response.status == CreatedStatus ==>
      && newId !in w.store && newId in r.world.store
      && var s := r.world.store[newId];
      && r.world == World(w.store[newId := s], w.cache[newId := s], w.events)
      && title.Some?
      && s == NewSession(newId, youtubeUrl, SessionNaming.SessionName(title.value, generatedSuffix),
                         SessionNaming.FriendlyAdminName(adminName, generatedAdmin), now)
      && r.response.body == Created(newId, s.sessionName, s.adminName)
  {
    if VideoId.ExtractVideoIdAsWritten(youtubeUrl).None? then
      Step(w, Response(BadRequest, Message("Invalid YouTube URL")))
    else if title.None? then
      Step(w, Response(ServerError, Message("Error creating session")))
    else
      var name := SessionNaming.SessionName(title.value, generatedSuffix);
      var admin := SessionNaming.FriendlyAdminName(adminName, generatedAdmin);
      var s := NewSession(newId, youtubeUrl, name, admin, now);
      if !RequiredPresent(s) || newId in w.store || NameTaken(w.store, name) then
        // the save fails validation or hits a unique index
        Step(w, Response(ServerError, Message("Error creating session")))
      else
        Step(World(w.store[newId := s], w.cache[newId := s], w.events), Response(CreatedStatus, Created(newId, name, admin)))
  }

  /**
   * `GET /:sessionId` (getSession): the cache under the id as spelled first,
   * then the store under the cast id, filling the cache on a miss.
   */
  function GetSession(w: World, id: Id): (r: Step)
    ensures r.response.status == BadRequest <==> !IsObjectId(id)
    ensures IsObjectId(id) && id in w.cache ==> r == Step(w, Response(Ok, Record(w.cache[id])))
    ensures IsObjectId(id) && id !in w.cache && Canon(id) !in w.store ==> r == Step(w, SessionNotFound)
    ensures IsObjectId(id) && id !in w.cache && Canon(id) in w.store ==>
      r == Step(w.(cache := w.cache[id := w.store[Canon(id)]]), Response(Ok, Record(w.store[Canon(id)])))
  {
    if !IsObjectId(id) then Step(w, Response(BadRequest, Message("Invalid session ID")))
    else if id in w.cache then Step(w, Response(Ok, Record(w.cache[id])))
    else if Canon(id) !in w.store then Step(w, SessionNotFound)
    else Step(w.(cache := w.cache[id := w.store[Canon(id)]]), Response(Ok, Record(w.store[Canon(id)])))
  }

  /** What `GET /session/:sessionName` (getSessionByName) may answer: a stored record of that name, or 404. */
  ghost predicate ByNameAnswer(store: map<Id, Session>, name: string, res: Response) {
    if NameTaken(store, name) then
      res.status == Ok && res.body.Record? && res.body.session.sessionName == name && res.body.session in store.Values
    else
      res == SessionNotFound
  }

  /**
   * `POST /:sessionId/join` (joinSession): `$addToSet` on the record the id
   * casts to, refresh the cache under the id as spelled, announce the join.
   */
  function JoinSession(w: World, id: Id, participantName: string): (r: Step)
    ensures r.response.status == ServerError <==> !IsObjectId(id)
    ensures r.response.status == NotFound <==> IsObjectId(id) && Canon(id) !in w.store
    ensures r.response.status != Ok ==> r.world == w
    ensures r.response.status == Ok ==>
      && Canon(id) in w.store
      && var s := w.store[Canon(id)].(participants := AddToSet(w.store[Canon(id)].participants, participantName));
      && r.world == World(w.store[Canon(id) := s], w.cache[id := s], w.events + [Event(Channel(id), ParticipantJoined(participantName))])
      && r.response.body == Joined("Joined session successfully", s)
  {
    if !IsObjectId(id) then Step(w, Response(ServerError, Message("Error joining session")))
    else if Canon(id) !in w.store then Step(w, SessionNotFound)
    else
      var s := w.store[Canon(id)].(participants := AddToSet(w.store[Canon(id)].participants, participantName));
      Step(World(w.store[Canon(id) := s], w.cache[id := s], w.events + [Event(Channel(id), ParticipantJoined(participantName))]),
           Response(Ok, Joined("Joined session successfully", s)))
  }

  /** `POST /:sessionId/sync` (syncAudio): overwrite the playback state, whoever sends it. */
  function SyncAudio(w: World, id: Id, currentTime: Option<real>, isPlaying: Option<bool>): (r: Step)
    ensures r.response.status == ServerError <==> !IsObjectId(id)
    ensures r.response.status == NotFound <==> IsObjectId(id) && Canon(id) !in w.store
    ensures r.response.status != Ok ==> r.world == w
    ensures r.response.status == Ok ==>
      && Canon(id) in w.store
      && var s := w.store[Canon(id)].(currentTime := currentTime, isPlaying := isPlaying);
      && r.world == World(w.store[Canon(id) := s], w.cache[id := s], w.events + [Event(Channel(id), AudioSync(currentTime, isPlaying))])
      && r.response.body == Message("Audio synced successfully")
  {
    if !IsObjectId(id) then Step(w, Response(ServerError, Message("Error syncing audio")))
    else if Canon(id) !in w.store then Step(w, SessionNotFound)
    else
      var s := w.store[Canon(id)].(currentTime := currentTime, isPlaying := isPlaying);
      Step(World(w.store[Canon(id) := s], w.cache[id := s], w.events + [Event(Channel(id), AudioSync(currentTime, isPlaying))]),
           Response(Ok, Message("Audio synced successfully")))
  }

  /** `GET /:sessionId/sync` (getSyncStatus): the cache is read before the id is ever cast. */
  function GetSyncStatus(w: World, id: Id): (r: Step)
    ensures id in w.cache ==> r == Step(w, Response(Ok, StatusOf(w.cache[id])))
    ensures id !in w.cache && !IsObjectId(id) ==> r.world == w && r.response.status == ServerError
    ensures id !in w.cache && IsObjectId(id) && Canon(id) !in w.store ==> r == Step(w, SessionNotFound)
    ensures id !in w.cache && IsObjectId(id) && Canon(id) in w.store ==>
      r == Step(w.(cache := w.cache[id := w.store[Canon(id)]]), Response(Ok, StatusOf(w.store[Canon(id)])))
  {
    if id in w.cache then Step(w, Response(Ok, StatusOf(w.cache[id])))
    else if !IsObjectId(id) then Step(w, Response(ServerError, Message("Error fetching sync status")))
    else if Canon(id) !in w.store then Step(w, SessionNotFound)
    else Step(w.(cache := w.cache[id := w.store[Canon(id)]]), Response(Ok, StatusOf(w.store[Canon(id)])))
  }

  /**
   * The part of `leaveSession` after `findByIdAndUpdate` found the record
   * stored under `key` (the cast of `id`): `$pull` the name, refresh or drop
   * the cache entry under `id`, announce the departure; delete an emptied
   * session; hand the admin role to the first remaining participant when the
   * admin left.
   */
  function LeaveStored(w: World, id: Id, key: Id, participantName: string): (r: Step)
    requires key in w.store
    ensures r.response.status == Ok || r.response.status == ServerError
    ensures var remaining := Pull(w.store[key].participants, participantName);
      && |r.world.events| > |w.events| && r.world.events[..|w.events| + 1] == w.events + [Event(Channel(id), ParticipantLeft(participantName))]
      && (remaining == [] ==>
            r.world == World(w.store - {key}, w.cache - {id}, w.events + [Event(Channel(id), ParticipantLeft(participantName))])
            && r.response == Response(Ok, Left("Participant removed and empty session deleted", None)))
      && (remaining != [] ==>
            (key in r.world.store && r.world.store[key].participants == remaining
             && r.world.store == w.store[key := r.world.store[key]] && r.world.cache == w.cache[id := r.world.store[key]]))
      && (remaining != [] && participantName != w.store[key].adminName ==>
            r.world.store[key] == w.store[key].(participants := remaining)
            && |r.world.events| == |w.events| + 1 && r.response == Response(Ok, Left("Left session successfully", Some(r.world.store[key]))))
      && (remaining != [] && participantName == w.store[key].adminName && RequiredPresent(w.store[key]) && remaining[0] == "" ==>
            r.world.store[key] == w.store[key].(participants := remaining)
            && r.world.events == w.events + [Event(Channel(id), ParticipantLeft(participantName))]
            && r.response.status == ServerError)
      && (remaining != [] && participantName == w.store[key].adminName && RequiredPresent(w.store[key]) && remaining[0] != "" ==>
            r.world.store[key] == w.store[key].(participants := remaining, adminName := remaining[0])
            && r.world.events == w.events + [Event(Channel(id), ParticipantLeft(participantName)), Event(Channel(id), AdminChanged(remaining[0]))]
            && r.response == Response(Ok, Left("Left session successfully", Some(r.world.store[key]))))
  {
    var pulled := w.store[key].(participants := Pull(w.store[key].participants, participantName));
    var store1 := w.store[key := pulled];
    var cache1 := if |pulled.participants| > 0 then w.cache[id := pulled] else w.cache - {id};
    var events1 := w.events + [Event(Channel(id), ParticipantLeft(participantName))];
    if |pulled.participants| == 0 then
      Step(World(store1 - {key}, cache1 - {id}, events1), Response(Ok, Left("Participant removed and empty session deleted", None)))
    else if participantName == pulled.adminName then
      var promoted := pulled.(adminName := pulled.participants[0]);
      if !RequiredPresent(promoted) then
        // `session.save()` fails validation after the pull, the cache write and the event
        Step(World(store1, cache1, events1), Response(ServerError, Message("Error leaving session")))
      else
        Step(World(store1[key := promoted], cache1[id := promoted], events1 + [Event(Channel(id), AdminChanged(promoted.adminName))]),
             Response(Ok, Left("Left session successfully", Some(promoted))))
    else
      Step(World(store1, cache1, events1), Response(Ok, Left("Left session successfully", Some(pulled))))
  }

  /**
   * `POST /:sessionId/leave` (the second `leaveSession` export): a malformed
   * id fails the cast, an id whose cast is not stored is not found, and
   * otherwise the stored record is updated as `LeaveStored` describes.
   */
  function LeaveSession(w: World, id: Id, participantName: string): (r: Step)
    ensures !IsObjectId(id) ==> r == Step(w, Response(ServerError, Message("Error leaving session")))
    ensures r.response.status == NotFound <==> IsObjectId(id) && Canon(id) !in w.store
    ensures r.response.status == NotFound ==> r.world == w
    ensures IsObjectId(id) && Canon(id) in w.store ==> r == LeaveStored(w, id, Canon(id), participantName)
  {
    if !IsObjectId(id) then Step(w, Response(ServerError, Message("Error leaving session")))
    else if Canon(id) !in w.store then Step(w, SessionNotFound)
    else LeaveStored(w, id, Canon(id), participantName)
  }

  /**
   * `removeParticipant`, the unrouted twin of `leaveSession`: it rejects a
   * malformed id with 400 up front and words its messages differently, and
   * otherwise takes the same steps.
   */
  function RemoveParticipant(w: World, id: Id, participantName: string): (r: Step)
    ensures !IsObjectId(id) ==> r == Step(w, Response(BadRequest, Message("Invalid session ID")))
    ensures IsObjectId(id) ==>
      var left := LeaveSession(w, id, participantName);
      && r.world == left.world
      && r.response.status == left.response.status
      && (left.response.body.Left? && left.response.body.message == "Left session successfully" ==>
            r.response.body == Left("Participant removed successfully", left.response.body.updatedSession))
      && (left.response.body == Left("Participant removed and empty session deleted", None) ==> r.response.body == left.response.body)
      && (left.response.body == Message("Error leaving session") ==> r.response.body == Message("Error removing participant"))
  {
    if !IsObjectId(id) then Step(w, Response(BadRequest, Message("Invalid session ID")))
    else
      var left := LeaveSession(w, id, participantName);
      var body := match left.response.body
        case Left("Left session successfully", updated) => Left("Participant removed successfully", updated)
        case Message("Error leaving session") => Message("Error removing participant")
        case other => other;
      Step(left.world, Response(left.response.status, body))
  }
}
