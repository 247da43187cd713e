/**
 * The backend's request handlers as imperative code over three stateful
 * clients: the document store, the cache and the real-time channel. Each
 * handler performs the source's calls in the source's order, and its contract
 * says that the three clients end up exactly as the corresponding step of
 * `SessionSpec` prescribes.
 */
module SessionController {
  import opened Wrappers
  import opened SessionModel
  import SessionSpec
  import VideoId
  import SessionNaming

  datatype DbError = CastError | ValidationError | DuplicateKey

  datatype DbResult<+T> = Done(value: T) | Failed(error: DbError)

  /** The changes `findByIdAndUpdate` is asked to make. */
  datatype Update =
    | AddParticipant(name: string)                         // {$addToSet: {participants: name}}
    | PullParticipant(name: string)                        // {$pull: {participants: name}}
    | SetPlayback(currentTime: Option<real>, isPlaying: Option<bool>)

  function Apply(s: Session, u: Update): Session {
    match u
    case AddParticipant(name) => s.(participants := AddToSet(s.participants, name))
    case PullParticipant(name) => s.(participants := Pull(s.participants, name))
    case SetPlayback(t, p) => s.(currentTime := t, isPlaying := p)
  }

  /** The `Session` collection, keyed by each document's `_id` in its printed (lower-case) form. */
  class SessionStore {
    var records: map<Id, Session>

    constructor ()
      ensures records == map[]
    {
      records := map[];
    }

    /** `new Session({...}).save()`: validate, honour the unique indexes on `_id` and `sessionName`, insert. */
    method Insert(s: Session) returns (err: Option<DbError>)
      modifies this
      ensures err.None? <==> RequiredPresent(s) && s.id !in old(records) && !SessionSpec.NameTaken(old(records), s.sessionName)
      ensures records == if err.None? then old(records)[s.id := s] else old(records)
    {
      if !RequiredPresent(s) {
        return Some(ValidationError);
      }
      if s.id in records || exists k :: k in records && records[k].sessionName == s.sessionName {
        return Some(DuplicateKey);
      }
      records := records[s.id := s];
      err := None;
    }

    /** `Session.findOne({sessionName})`: some stored record with that name. */
    method FindOne(sessionName: string) returns (found: Option<Session>)
      ensures found.None? <==> !SessionSpec.NameTaken(records, sessionName)
      ensures found.Some? ==> found.value in records.Values && found.value.sessionName == sessionName
    {
      if k :| k in records && records[k].sessionName == sessionName {
        found := Some(records[k]);
      } else {
        found := None;
      }
    }

    /**
     * `Session.findByIdAndUpdate(id, update, {new: true})`: `id` is cast to an
     * ObjectId first, so any case spelling of a stored id finds the record.
     * The updated record, or null when absent.
     */
    method FindByIdAndUpdate(id: Id, u: Update) returns (r: DbResult<Option<Session>>)
      modifies this
      ensures !IsObjectId(id) ==> r == Failed(CastError) && records == old(records)
      ensures IsObjectId(id) && Canon(id) !in old(records) ==> r == Done(None) && records == old(records)
      ensures IsObjectId(id) && Canon(id) in old(records) ==>
        records == old(records)[Canon(id) := Apply(old(records)[Canon(id)], u)] && r == Done(Some(records[Canon(id)]))
    {
      if !IsObjectId(id) {
        return Failed(CastError);
      }
      var key := Canon(id);
      if key !in records {
        return Done(None);
      }
      var s := Apply(records[key], u);
      records := records[key := s];
      r := Done(Some(s));
    }

    /** `Session.findById(id)`, with the same cast. */
    method FindById(id: Id) returns (r: DbResult<Option<Session>>)
      ensures !IsObjectId(id) ==> r == Failed(CastError)
      ensures IsObjectId(id) ==> r == Done(if Canon(id) in records then Some(records[Canon(id)]) else None)
    {
      if !IsObjectId(id) {
        return Failed(CastError);
      }
      var key := Canon(id);
      r := Done(if key in records then Some(records[key]) else None);
    }

    /** `session.save()` on a document loaded under its `_id` `id`: validate, then write it back there. */
    method Save(id: Id, s: Session) returns (err: Option<DbError>)
      modifies this
      ensures err.None? <==> RequiredPresent(s)
      ensures records == if err.None? then old(records)[id := s] else old(records)
    {
      if !RequiredPresent(s) {
        return Some(ValidationError);
      }
      records := records[id := s];
      err := None;
    }

    /** `Session.findByIdAndDelete(id)`, with the same cast. */
    method DeleteById(id: Id) returns (err: Option<DbError>)
      modifies this
      ensures !IsObjectId(id) ==> err == Some(CastError) && records == old(records)
      ensures IsObjectId(id) ==> err.None? && records == old(records) - {Canon(id)}
    {
      if !IsObjectId(id) {
        return Some(CastError);
      }
      records := records - {Canon(id)};
      err := None;
    }
  }

  /** The Redis client, reduced to the `session:<id>` keys; `<id>` is the text the request carried. */
  class SessionCache {
    var entries: map<Id, Session>

    constructor ()
      ensures entries == map[]
    {
      entries := map[];
    }

    method Get(id: Id) returns (s: Option<Session>)
      ensures s == if id in entries then Some(entries[id]) else None
    {
      s := if id in entries then Some(entries[id]) else None;
    }

    method Set(id: Id, s: Session)
      modifies this
      ensures entries == old(entries)[id := s]
    {
      entries := entries[id := s];
    }

    method Del(id: Id)
      modifies this
      ensures entries == old(entries) - {id}
    {
      entries := entries - {id};
    }
  }

  /** The Pusher client: every trigger is appended to the published log. */
  class EventChannel {
    var log: seq<SessionSpec.Event>

    constructor ()
      ensures log == []
    {
      log := [];
    }

    method Trigger(channel: string, payload: SessionSpec.Payload)
      modifies this
      ensures log == old(log) + [SessionSpec.Event(channel, payload)]
    {
      log := log + [SessionSpec.Event(channel, payload)];
    }
  }

  ghost function Snapshot(db: SessionStore, redis: SessionCache, pusher: EventChannel): SessionSpec.World
    reads db, redis, pusher
  {
    SessionSpec.World(db.records, redis.entries, pusher.log)
  }

  method CreateSession(db: SessionStore, redis: SessionCache, pusher: EventChannel,
                       youtubeUrl: string, adminName: Option<string>, title: Option<string>,
                       generatedSuffix: string, generatedAdmin: string, newId: Id, now: int)
    returns (res: SessionSpec.Response)
    requires IsCanonical(newId)
    modifies db, redis
    ensures var r := SessionSpec.CreateSession(old(Snapshot(db, redis, pusher)), youtubeUrl, adminName, title,
                                               generatedSuffix, generatedAdmin, newId, now);
            Snapshot(db, redis, pusher) == r.world && res == r.response
  {
    var videoId := VideoId.ExtractVideoIdAsWritten(youtubeUrl);
    if videoId.None? {
      return SessionSpec.Response(SessionSpec.BadRequest, SessionSpec.Message("Invalid YouTube URL"));
    }
    if title.None? {
      return SessionSpec.Response(SessionSpec.ServerError, SessionSpec.Message("Error creating session"));
    }
    var sessionName := SessionNaming.SessionName(title.value, generatedSuffix);
    var friendlyAdminName := SessionNaming.FriendlyAdminName(adminName, generatedAdmin);
    var session := NewSession(newId, youtubeUrl, sessionName, friendlyAdminName, now);
    var err := db.Insert(session);
    if err.Some? {
      return SessionSpec.Response(SessionSpec.ServerError, SessionSpec.Message("Error creating session"));
    }
    redis.Set(newId, session);
    res := SessionSpec.Response(SessionSpec.CreatedStatus, SessionSpec.Created(newId, sessionName, friendlyAdminName));
  }

  method GetSession(db: SessionStore, redis: SessionCache, pusher: EventChannel, sessionId: Id)
    returns (res: SessionSpec.Response)
    modifies redis
    ensures var r := SessionSpec.GetSession(old(Snapshot(db, redis, pusher)), sessionId);
            Snapshot(db, redis, pusher) == r.world && res == r.response
  {
    if !IsObjectId(sessionId) {
      return SessionSpec.Response(SessionSpec.BadRequest, SessionSpec.Message("Invalid session ID"));
    }
    var cached := redis.Get(sessionId);
    if cached.Some? {
      return SessionSpec.Response(SessionSpec.Ok, SessionSpec.Record(cached.value));
    }
    var found := db.FindById(sessionId);
    if found.value.None? {
      return SessionSpec.SessionNotFound;
    }
    redis.Set(sessionId, found.value.value);
    res := SessionSpec.Response(SessionSpec.Ok, SessionSpec.Record(found.value.value));
  }

  method GetSessionByName(db: SessionStore, sessionName: string) returns (res: SessionSpec.Response)
    ensures SessionSpec.ByNameAnswer(db.records, sessionName, res)
  {
    var found := db.FindOne(sessionName);
    if found.None? {
      return SessionSpec.SessionNotFound;
    }
    res := SessionSpec.Response(SessionSpec.Ok, SessionSpec.Record(found.value));
  }

  method JoinSession(db: SessionStore, redis: SessionCache, pusher: EventChannel, sessionId: Id, participantName: string)
    returns (res: SessionSpec.Response)
    modifies db, redis, pusher
    ensures var r := SessionSpec.JoinSession(old(Snapshot(db, redis, pusher)), sessionId, participantName);
            Snapshot(db, redis, pusher) == r.world && res == r.response
  {
    var updated := db.FindByIdAndUpdate(sessionId, AddParticipant(participantName));
    if updated.Failed? {
      return SessionSpec.Response(SessionSpec.ServerError, SessionSpec.Message("Error joining session"));
    }
    if updated.value.None? {
      return SessionSpec.SessionNotFound;
    }
    var session := updated.value.value;
    redis.Set(sessionId, session);
    pusher.Trigger(SessionSpec.Channel(sessionId), SessionSpec.ParticipantJoined(participantName));
    res := SessionSpec.Response(SessionSpec.Ok, SessionSpec.Joined("Joined session successfully", session));
  }

  method SyncAudio(db: SessionStore, redis: SessionCache, pusher: EventChannel,
                   sessionId: Id, currentTime: Option<real>, isPlaying: Option<bool>)
    returns (res: SessionSpec.Response)
    modifies db, redis, pusher
    ensures var r := SessionSpec.SyncAudio(old(Snapshot(db, redis, pusher)), sessionId, currentTime, isPlaying);
            Snapshot(db, redis, pusher) == r.world && res == r.response
  {
    var updated := db.FindByIdAndUpdate(sessionId, SetPlayback(currentTime, isPlaying));
    if updated.Failed? {
      return SessionSpec.Response(SessionSpec.ServerError, SessionSpec.Message("Error syncing audio"));
    }
    if updated.value.None? {
      return SessionSpec.SessionNotFound;
    }
    redis.Set(sessionId, updated.value.value);
    pusher.Trigger(SessionSpec.Channel(sessionId), SessionSpec.AudioSync(currentTime, isPlaying));
    res := SessionSpec.Response(SessionSpec.Ok, SessionSpec.Message("Audio synced successfully"));
  }

  method GetSyncStatus(db: SessionStore, redis: SessionCache, pusher: EventChannel, sessionId: Id)
    returns (res: SessionSpec.Response)
    modifies redis
    ensures var r := SessionSpec.GetSyncStatus(old(Snapshot(db, redis, pusher)), sessionId);
            Snapshot(db, redis, pusher) == r.world && res == r.response
  {
    var cached := redis.Get(sessionId);
    var session: Session;
    if cached.Some? {
      session := cached.value;
    } else {
      var found := db.FindById(sessionId);
      if found.Failed? {
        return SessionSpec.Response(SessionSpec.ServerError, SessionSpec.Message("Error fetching sync status"));
      }
      if found.value.None? {
        return SessionSpec.SessionNotFound;
      }
      session := found.value.value;
      redis.Set(sessionId, session);
    }
    res := SessionSpec.Response(SessionSpec.Ok, SessionSpec.StatusOf(session));
  }

  method LeaveSession(db: SessionStore, redis: SessionCache, pusher: EventChannel, sessionId: Id, participantName: string)
    returns (res: SessionSpec.Response)
    modifies db, redis, pusher
    ensures var r := SessionSpec.LeaveSession(old(Snapshot(db, redis, pusher)), sessionId, participantName);
            Snapshot(db, redis, pusher) == r.world && res == r.response
  {
    var updated := db.FindByIdAndUpdate(sessionId, PullParticipant(participantName));
    if updated.Failed? {
      return SessionSpec.Response(SessionSpec.ServerError, SessionSpec.Message("Error leaving session"));
    }
    if updated.value.None? {
      return SessionSpec.SessionNotFound;
    }
    var session := updated.value.value;
    if |session.participants| > 0 {
      redis.Set(sessionId, session);
    } else {
      redis.Del(sessionId);
    }
    pusher.Trigger(SessionSpec.Channel(sessionId), SessionSpec.ParticipantLeft(participantName));
    if |session.participants| == 0 {
      var _ := db.DeleteById(sessionId);
      redis.Del(sessionId);
      return SessionSpec.Response(SessionSpec.Ok, SessionSpec.Left("Participant removed and empty session deleted", None));
    }
    if participantName == session.adminName && |session.participants| > 0 {
      var newAdmin := session.participants[0];
      session := session.(adminName := newAdmin);
      // the document was found under the cast id, which is its `_id`
      var err := db.Save(Canon(sessionId), session);
      if err.Some? {
        return SessionSpec.Response(SessionSpec.ServerError, SessionSpec.Message("Error leaving session"));
      }
      redis.Set(sessionId, session);
      pusher.Trigger(SessionSpec.Channel(sessionId), SessionSpec.AdminChanged(newAdmin));
    }
    res := SessionSpec.Response(SessionSpec.Ok, SessionSpec.Left("Left session successfully", Some(session)));
  }
}
