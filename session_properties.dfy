/**
 * Properties of the backend state machine across handlers and across runs:
 * the invariant every handler keeps, set semantics of join, last-write-wins
 * sync, cache-aside reads, deletion of emptied sessions and admin failover.
 */
module SessionProperties {
  import opened Wrappers
  import opened SessionModel
  import opened SessionSpec
  import VideoId

  /** One request to the backend, with the values its handler takes from outside (clock, generators, metadata lookup). */
  datatype Request =
    | CreateRequest(youtubeUrl: string, adminName: Option<string>, title: Option<string>,
                    generatedSuffix: string, generatedAdmin: string, newId: Id, now: int)
    | GetRequest(id: Id)
    | JoinRequest(id: Id, participantName: string)
    | SyncRequest(id: Id, currentTime: Option<real>, isPlaying: Option<bool>)
    | SyncStatusRequest(id: Id)
    | LeaveRequest(id: Id, participantName: string)

  /** An id as the server prints it; a malformed id never reaches the store or the cache. */
  predicate SpelledAsPrinted(id: Id) {
    !IsObjectId(id) || Canon(id) == id
  }

  /** Generated document ids are printed ObjectIds, and every request spells its session id as the server printed it. */
  predicate Admissible(req: Request) {
    if req.CreateRequest? then IsCanonical(req.newId) else SpelledAsPrinted(req.id)
  }

  function Apply(w: World, req: Request): Step
    requires Admissible(req)
  {
    match req
    case CreateRequest(url, admin, title, suffix, genAdmin, newId, now) => CreateSession(w, url, admin, title, suffix, genAdmin, newId, now)
    case GetRequest(id) => GetSession(w, id)
    case JoinRequest(id, name) => JoinSession(w, id, name)
    case SyncRequest(id, t, p) => SyncAudio(w, id, t, p)
    case SyncStatusRequest(id) => GetSyncStatus(w, id)
    case LeaveRequest(id, name) => LeaveSession(w, id, name)
  }

  /** The world after handling `reqs` one after the other. */
  function Run(w: World, reqs: seq<Request>): World
    requires forall i :: 0 <= i < |reqs| ==> Admissible(reqs[i])
    decreases |reqs|
  {
    if reqs == [] then w else Run(Apply(w, reqs[0]).world, reqs[1..])
  }

  // ------------------------------------------------------------ the invariant

  /** Inserting a valid record under a fresh printed id and a fresh name, and caching it there, keeps the invariant. */
  lemma InsertPreservesInvariant(w: World, s: Session)
    requires Invariant(w) && IsCanonical(s.id) && s.id !in w.store
    requires RequiredPresent(s) && NoDuplicates(s.participants) && !NameTaken(w.store, s.sessionName)
    ensures Invariant(World(w.store[s.id := s], w.cache[s.id := s], w.events))
  {
    var after := World(w.store[s.id := s], w.cache[s.id := s], w.events);
    assert forall o :: o in w.store ==> w.store[o].sessionName != s.sessionName;
    forall k | k in after.cache ensures Canon(k) in after.store && after.cache[k] == after.store[Canon(k)] {
      if k != s.id {
        assert k in w.cache && Canon(k) == k;
      }
    }
  }

  lemma CreatePreservesInvariant(w: World, url: string, admin: Option<string>, title: Option<string>,
                                 suffix: string, genAdmin: string, newId: Id, now: int)
    requires Invariant(w) && IsCanonical(newId)
    ensures Invariant(CreateSession(w, url, admin, title, suffix, genAdmin, newId, now).world)
  {
    var r := CreateSession(w, url, admin, title, suffix, genAdmin, newId, now);
    if r.response.status == CreatedStatus {
      InsertPreservesInvariant(w, r.world.store[newId]);
    }
  }

  /** Writing a valid record back under its key, and caching it under the printed id, keeps the invariant. */
  lemma WriteBackPreservesInvariant(w: World, id: Id, s: Session, events: seq<Event>)
    requires Invariant(w) && IsCanonical(id) && id in w.store
    requires s.id == id && RequiredPresent(s) && NoDuplicates(s.participants)
    requires s.sessionName == w.store[id].sessionName
    ensures Invariant(World(w.store[id := s], w.cache[id := s], events))
  {
    var after := World(w.store[id := s], w.cache[id := s], events);
    forall k | k in after.cache ensures Canon(k) in after.store && after.cache[k] == after.store[Canon(k)] {
      if k != id {
        assert k in w.cache && Canon(k) == k;
      }
    }
  }

  /** Removing a record from the store and its printed id from the cache keeps the invariant. */
  lemma DeletePreservesInvariant(w: World, id: Id, events: seq<Event>)
    requires Invariant(w) && IsCanonical(id)
    ensures Invariant(World(w.store - {id}, w.cache - {id}, events))
  {
    var after := World(w.store - {id}, w.cache - {id}, events);
    forall k | k in after.cache ensures Canon(k) in after.store && after.cache[k] == after.store[Canon(k)] {
      assert k in w.cache && Canon(k) == k && k != id;
    }
  }

  lemma JoinPreservesInvariant(w: World, id: Id, name: string)
    requires Invariant(w) && SpelledAsPrinted(id)
    ensures Invariant(JoinSession(w, id, name).world)
  {
    var r := JoinSession(w, id, name);
    if r.response.status == Ok {
      var s := w.store[id].(participants := AddToSet(w.store[id].participants, name));
      WriteBackPreservesInvariant(w, id, s, r.world.events);
    }
  }

  lemma SyncPreservesInvariant(w: World, id: Id, t: Option<real>, p: Option<bool>)
    requires Invariant(w) && SpelledAsPrinted(id)
    ensures Invariant(SyncAudio(w, id, t, p).world)
  {
    var r := SyncAudio(w, id, t, p);
    if r.response.status == Ok {
      WriteBackPreservesInvariant(w, id, w.store[id].(currentTime := t, isPlaying := p), r.world.events);
    }
  }

  lemma LeavePreservesInvariant(w: World, id: Id, name: string)
    requires Invariant(w) && SpelledAsPrinted(id)
    ensures Invariant(LeaveSession(w, id, name).world)
  {
    if IsObjectId(id) && id in w.store {
      var r := LeaveSession(w, id, name);
      var old_ := w.store[id];
      var remaining := Pull(old_.participants, name);
      if remaining == [] {
        DeletePreservesInvariant(w, id, r.world.events);
      } else {
        var s := r.world.store[id];
        assert s.participants == remaining && s.sessionName == old_.sessionName && s.id == id;
        assert RequiredPresent(s) by {
          if name == old_.adminName && remaining[0] != "" {
            assert s.adminName == remaining[0];
          }
        }
        WriteBackPreservesInvariant(w, id, s, r.world.events);
      }
    }
  }

  lemma ReadPreservesInvariant(w: World, id: Id)
    requires Invariant(w) && SpelledAsPrinted(id)
    ensures Invariant(GetSession(w, id).world) && Invariant(GetSyncStatus(w, id).world)
  {
  }

  /** Every handler keeps the cache equal to the store and the store well formed, when ids are spelled as printed. */
  lemma ApplyPreservesInvariant(w: World, req: Request)
    requires Invariant(w) && Admissible(req)
    ensures Invariant(Apply(w, req).world)
  {
    match req
    case CreateRequest(url, admin, title, suffix, genAdmin, newId, now) =>
      CreatePreservesInvariant(w, url, admin, title, suffix, genAdmin, newId, now);
    case GetRequest(id) => ReadPreservesInvariant(w, id);
    case JoinRequest(id, name) => JoinPreservesInvariant(w, id, name);
    case SyncRequest(id, t, p) => SyncPreservesInvariant(w, id, t, p);
    case SyncStatusRequest(id) => ReadPreservesInvariant(w, id);
    case LeaveRequest(id, name) => LeavePreservesInvariant(w, id, name);
  }

  /** Any sequence of handlers run one at a time keeps the invariant, when ids are spelled as printed. */
  lemma {:induction false} RunPreservesInvariant(w: World, reqs: seq<Request>)
    requires Invariant(w)
    requires forall i :: 0 <= i < |reqs| ==> Admissible(reqs[i])
    ensures Invariant(Run(w, reqs))
    decreases |reqs|
  {
    if reqs != [] {
      ApplyPreservesInvariant(w, reqs[0]);
      RunPreservesInvariant(Apply(w, reqs[0]).world, reqs[1..]);
    }
  }

  /** The empty deployment satisfies the invariant. */
  lemma EmptyWorldInvariant()
    ensures Invariant(World(map[], map[], []))
  {
  }

  // ------------------------------------------------------------ other spellings of an id

  /** One id in the form the server prints it, and the same id in upper case. */
  const Lower: Id := "aaaaaaaaaaaaaaaaaaaaaaaa"
  const Upper: Id := "AAAAAAAAAAAAAAAAAAAAAAAA"

  /** The cast reads both spellings as the same document. */
  lemma UpperCastsToLower()
    ensures IsObjectId(Upper) && IsCanonical(Lower) && Canon(Upper) == Lower
  {
    assert forall i :: 0 <= i < 24 ==> Upper[i] == 'A' && Lower[i] == 'a';
    assert Canon(Lower) == Lower;
  }

  /**
   * A join that spells a stored id in upper case updates the record the id
   * casts to but refreshes only the upper-case cache key: the entry under the
   * printed id keeps the old participants, and a read of the printed id serves
   * that stale entry.
   */
  lemma MixedCaseJoinLeavesStaleCache(s: Session, name: string)
    requires s.id == Lower && RequiredPresent(s) && NoDuplicates(s.participants) && name !in s.participants
    ensures var w := World(map[Lower := s], map[Lower := s], []);
            var after := JoinSession(w, Upper, name).world;
            && Invariant(w)
            && JoinSession(w, Upper, name).response.status == Ok
            && name in after.store[Lower].participants
            && GetSession(after, Lower).response == Response(Ok, Record(s))
            && name !in GetSession(after, Lower).response.body.session.participants
            && !CacheCoherent(after)
  {
    UpperCastsToLower();
    var w := World(map[Lower := s], map[Lower := s], []);
    assert Invariant(w);
    var joined := s.(participants := AddToSet(s.participants, name));
    assert Lower != Upper by { assert Lower[0] != Upper[0]; }
    var after := World(map[Lower := joined], map[Lower := s, Upper := joined], [Event(Channel(Upper), ParticipantJoined(name))]);
    assert JoinSession(w, Upper, name).world == after;
    assert GetSession(after, Lower).response == Response(Ok, Record(s));
    assert joined != s by { assert name in joined.participants; }
  }

  // ------------------------------------------------------------ join and sync

  /** Joining twice leaves store and cache as joining once; only a second event is published. */
  lemma JoinTwiceIsJoinOnce(w: World, id: Id, name: string)
    ensures var once := JoinSession(w, id, name).world;
            var twice := JoinSession(once, id, name).world;
            twice.store == once.store && twice.cache == once.cache
            && (JoinSession(w, id, name).response.status == Ok ==> twice.events == once.events + [Event(Channel(id), ParticipantJoined(name))])
  {
    var once := JoinSession(w, id, name).world;
    if IsObjectId(id) && Canon(id) in w.store {
      var key := Canon(id);
      AddToSetIdempotent(w.store[key].participants, name);
      assert once.store[key] == once.store[key].(participants := AddToSet(once.store[key].participants, name));
    }
  }

  /** A sync overwrites the previous one entirely: the last write wins. */
  lemma SyncLastWriteWins(w: World, id: Id, t1: Option<real>, p1: Option<bool>, t2: Option<real>, p2: Option<bool>)
    ensures var first := SyncAudio(w, id, t1, p1).world;
            SyncAudio(first, id, t2, p2).world.store == SyncAudio(w, id, t2, p2).world.store
            && SyncAudio(first, id, t2, p2).world.cache == SyncAudio(w, id, t2, p2).world.cache
  {
  }

  // ------------------------------------------------------------ cache-aside reads

  /** With a coherent cache a read of a well-formed id, in any spelling, answers exactly what the store holds under its cast. */
  lemma GetSessionSeesStore(w: World, id: Id)
    requires CacheCoherent(w) && IsObjectId(id)
    ensures GetSession(w, id).response == if Canon(id) in w.store then Response(Ok, Record(w.store[Canon(id)])) else SessionNotFound
    ensures CacheCoherent(GetSession(w, id).world) && GetSession(w, id).world.store == w.store
  {
  }

  /** With a coherent cache the sync status is the stored playback state, null fields read as 0 and false. */
  lemma GetSyncStatusSeesStore(w: World, id: Id)
    requires Invariant(w)
    ensures GetSyncStatus(w, id).response.status == Ok <==> IsObjectId(id) && Canon(id) in w.store
    ensures IsObjectId(id) && Canon(id) in w.store ==> GetSyncStatus(w, id).response.body == StatusOf(w.store[Canon(id)])
    ensures CacheCoherent(GetSyncStatus(w, id).world) && GetSyncStatus(w, id).world.store == w.store
  {
  }

  // ------------------------------------------------------------ leave

  /** A session whose last participant leaves is gone from store and cache: reads answer 404. */
  lemma EmptiedSessionIsGone(w: World, id: Id, name: string)
    requires Invariant(w) && IsCanonical(id) && id in w.store
    requires Pull(w.store[id].participants, name) == []
    ensures var after := LeaveSession(w, id, name).world;
            id !in after.store && after.cache == w.cache - {id}
            && GetSession(after, id).response == SessionNotFound
            && GetSyncStatus(after, id).response == SessionNotFound
  {
  }

  /** A fresh session has no participants, so any leave deletes it, whoever leaves. */
  lemma LeaveDeletesSessionWithoutParticipants(w: World, id: Id, name: string)
    requires IsObjectId(id) && Canon(id) in w.store && w.store[Canon(id)].participants == []
    ensures Canon(id) !in LeaveSession(w, id, name).world.store
  {
  }

  /** When the admin leaves and others remain, the first remaining participant becomes admin and is a member. */
  lemma FailoverPicksFirstRemaining(w: World, id: Id)
    requires Invariant(w) && IsObjectId(id) && Canon(id) in w.store
    requires var s := w.store[Canon(id)]; var rest := Pull(s.participants, s.adminName); rest != [] && rest[0] != ""
    ensures var key := Canon(id);
            var s := w.store[key];
            var rest := Pull(s.participants, s.adminName);
            var after := LeaveSession(w, id, s.adminName).world;
            && key in after.store && id in after.cache && after.cache[id] == after.store[key]
            && after.store[key].adminName == rest[0]
            && after.store[key].adminName in after.store[key].participants
            && after.store[key].adminName != s.adminName
            && after.events[|w.events|..] == [Event(Channel(id), ParticipantLeft(s.adminName)), Event(Channel(id), AdminChanged(rest[0]))]
  {
    var s := w.store[Canon(id)];
    var after := LeaveSession(w, id, s.adminName).world;
    assert after.events == w.events + [Event(Channel(id), ParticipantLeft(s.adminName)), Event(Channel(id), AdminChanged(Pull(s.participants, s.adminName)[0]))];
  }

  /** Leaving by someone other than the admin never changes the admin. */
  lemma NonAdminLeaveKeepsAdmin(w: World, id: Id, name: string)
    requires IsObjectId(id) && Canon(id) in w.store && name != w.store[Canon(id)].adminName
    ensures var after := LeaveSession(w, id, name).world;
            Canon(id) in after.store ==> after.store[Canon(id)].adminName == w.store[Canon(id)].adminName
  {
  }

  // ------------------------------------------------------------ lookup by name

  /** Because session names are unique, the lookup by name has only one possible answer. */
  lemma ByNameAnswerIsUnique(store: map<Id, Session>, name: string, r1: Response, r2: Response)
    requires StoreWellFormed(store)
    requires ByNameAnswer(store, name, r1) && ByNameAnswer(store, name, r2)
    ensures r1 == r2
  {
    if NameTaken(store, name) {
      var a :| a in store && store[a] == r1.body.session;
      var b :| b in store && store[b] == r2.body.session;
      assert store[a].sessionName == store[b].sessionName;
    }
  }

  // ------------------------------------------------------------ a whole session

  /** A share link whose id starts with `v` is refused with 400 in any deployment, which stays unchanged. */
  lemma CreateRejectsLeadingV(w: World, videoId: string, adminName: Option<string>, title: Option<string>,
                              suffix: string, generatedAdmin: string, newId: Id, now: int)
    requires VideoId.IsIdShaped(videoId) && videoId[0] == 'v' && IsCanonical(newId)
    ensures CreateSession(w, VideoId.ShortLinkPrefix + videoId, adminName, title, suffix, generatedAdmin, newId, now)
            == Step(w, Response(BadRequest, Message("Invalid YouTube URL")))
  {
    VideoId.AsWrittenRejectsLeadingV(videoId);
  }

  /** Creating a session from a share link (id not starting with `v`) in an empty deployment stores and caches its fresh record. */
  lemma CreateInEmptyWorld(videoId: string, title: string, suffix: string, generatedAdmin: string, newId: Id, now: int)
    requires VideoId.IsIdShaped(videoId) && videoId[0] != 'v' && IsCanonical(newId) && generatedAdmin != ""
    ensures var url := VideoId.ShortLinkPrefix + videoId;
      var s := NewSession(newId, url, SessionNaming.SessionName(title, suffix), generatedAdmin, now);
      CreateSession(World(map[], map[], []), url, None, Some(title), suffix, generatedAdmin, newId, now)
        == Step(World(map[newId := s], map[newId := s], []), Response(CreatedStatus, Created(newId, s.sessionName, generatedAdmin)))
  {
    var url := VideoId.ShortLinkPrefix + videoId;
    VideoId.ExtractFromShortLinkAsWritten(videoId);
    var name := SessionNaming.SessionName(title, suffix);
    assert name[|SessionNaming.ShortSessionName(title)|] == '-';
    assert url != "" && name != "";
    assert !NameTaken(map[], name);
  }

  /** A deployment holding exactly one session, stored and cached alike. */
  function Solo(id: Id, s: Session, events: seq<Event>): World {
    World(map[id := s], map[id := s], events)
  }

  /** Joining the only session adds the name to it in both places and announces the join. */
  lemma JoinSolo(id: Id, s: Session, events: seq<Event>, name: string)
    requires IsCanonical(id)
    ensures var r := JoinSession(Solo(id, s, events), id, name);
      && r.response.status == Ok
      && r.world == Solo(id, s.(participants := AddToSet(s.participants, name)), events + [Event(Channel(id), ParticipantJoined(name))])
  {
    var s' := s.(participants := AddToSet(s.participants, name));
    assert Solo(id, s, events).store[id := s'] == map[id := s'];
    assert Solo(id, s, events).cache[id := s'] == map[id := s'];
  }

  /** Syncing the only session overwrites its playback state in both places and announces it. */
  lemma SyncSolo(id: Id, s: Session, events: seq<Event>, t: Option<real>, p: Option<bool>)
    requires IsCanonical(id)
    ensures var r := SyncAudio(Solo(id, s, events), id, t, p);
      && r.response.status == Ok
      && r.world == Solo(id, s.(currentTime := t, isPlaying := p), events + [Event(Channel(id), AudioSync(t, p))])
  {
    var s' := s.(currentTime := t, isPlaying := p);
    assert Solo(id, s, events).store[id := s'] == map[id := s'];
    assert Solo(id, s, events).cache[id := s'] == map[id := s'];
  }

  /** When the admin of a session whose only participant is someone else leaves, that participant becomes admin. */
  lemma AdminLeavesSolo(id: Id, s: Session, events: seq<Event>, other: string)
    requires IsCanonical(id) && RequiredPresent(s)
    requires s.participants == [other] && other != "" && other != s.adminName
    ensures var r := LeaveSession(Solo(id, s, events), id, s.adminName);
      && r.response.status == Ok
      && r.world == Solo(id, s.(adminName := other),
                         events + [Event(Channel(id), ParticipantLeft(s.adminName)), Event(Channel(id), AdminChanged(other))])
  {
    assert Pull([other], s.adminName) == [other];
    var promoted := s.(adminName := other);
    assert Solo(id, s, events).store[id := s][id := promoted] == map[id := promoted];
    assert Solo(id, s, events).cache[id := s][id := promoted] == map[id := promoted];
  }

  /** When the last participant leaves, the session is deleted from the store and the cache. */
  lemma LastLeavesSolo(id: Id, s: Session, events: seq<Event>, name: string)
    requires IsCanonical(id) && s.participants == [name]
    ensures LeaveSession(Solo(id, s, events), id, name)
      == Step(World(map[], map[], events + [Event(Channel(id), ParticipantLeft(name))]),
              Response(Ok, Left("Participant removed and empty session deleted", None)))
  {
    assert Pull([name], name) == [];
    var pulled := s.(participants := []);
    assert Solo(id, s, events).store[id := pulled] - {id} == map[];
    assert Solo(id, s, events).cache - {id} - {id} == map[];
  }

  /**
   * A session's life from creation to deletion, as the handlers behave: the
   * creator gets the generated admin name but is not made a participant, so
   * once "Bob" joins the admin is not among the participants; a sync carries
   * no caller identity and is applied; the admin's leave promotes "Bob"; and
   * Bob's leave deletes the session, after which it reads as not found.
   */
  lemma SessionLifecycle(videoId: string, title: string, suffix: string, generatedAdmin: string, newId: Id, now: int)
    requires VideoId.IsIdShaped(videoId) && videoId[0] != 'v' && IsCanonical(newId)
    requires generatedAdmin != "" && generatedAdmin != "Bob"
    ensures var url := VideoId.ShortLinkPrefix + videoId;
      var created := CreateSession(World(map[], map[], []), url, None, Some(title), suffix, generatedAdmin, newId, now);
      var joined := JoinSession(created.world, newId, "Bob");
      var synced := SyncAudio(joined.world, newId, Some(42.0), Some(true));
      var adminLeft := LeaveSession(synced.world, newId, generatedAdmin);
      var bobLeft := LeaveSession(adminLeft.world, newId, "Bob");
      && created.response.status == CreatedStatus && created.response.body.adminName == generatedAdmin
      && created.world.store[newId].participants == []
      && joined.response.status == Ok && joined.world.store[newId].participants == ["Bob"]
      && generatedAdmin !in joined.world.store[newId].participants
      && synced.response.status == Ok
      && synced.world.store[newId].currentTime == Some(42.0) && synced.world.store[newId].isPlaying == Some(true)
      && adminLeft.response.status == Ok && adminLeft.world.store[newId].adminName == "Bob"
      && adminLeft.world.events[|synced.world.events|..] ==
           [Event(Channel(newId), ParticipantLeft(generatedAdmin)), Event(Channel(newId), AdminChanged("Bob"))]
      && bobLeft.response == Response(Ok, Left("Participant removed and empty session deleted", None))
      && GetSession(bobLeft.world, newId).response == SessionNotFound
  {
    var url := VideoId.ShortLinkPrefix + videoId;
    CreateInEmptyWorld(videoId, title, suffix, generatedAdmin, newId, now);
    var s0 := NewSession(newId, url, SessionNaming.SessionName(title, suffix), generatedAdmin, now);
    assert RequiredPresent(s0);
    var w1 := Solo(newId, s0, []);

    JoinSolo(newId, s0, [], "Bob");
    assert AddToSet([], "Bob") == ["Bob"];
    var s1 := s0.(participants := ["Bob"]);
    var ev1 := [Event(Channel(newId), ParticipantJoined("Bob"))];

    SyncSolo(newId, s1, ev1, Some(42.0), Some(true));
    var s2 := s1.(currentTime := Some(42.0), isPlaying := Some(true));
    var ev2 := ev1 + [Event(Channel(newId), AudioSync(Some(42.0), Some(true)))];

    AdminLeavesSolo(newId, s2, ev2, "Bob");
    var ev3 := ev2 + [Event(Channel(newId), ParticipantLeft(generatedAdmin)), Event(Channel(newId), AdminChanged("Bob"))];
    assert ev3[|ev2|..] == [Event(Channel(newId), ParticipantLeft(generatedAdmin)), Event(Channel(newId), AdminChanged("Bob"))];

    LastLeavesSolo(newId, s2.(adminName := "Bob"), ev3, "Bob");
  }

  /** On a well-formed id the unrouted `removeParticipant` changes the world exactly as `leaveSession` does and answers the same status. */
  lemma RemoveParticipantIsLeave(w: World, id: Id, name: string)
    requires IsObjectId(id)
    ensures RemoveParticipant(w, id, name).world == LeaveSession(w, id, name).world
    ensures RemoveParticipant(w, id, name).response.status == LeaveSession(w, id, name).response.status
  {
  }

  /** On a malformed id `removeParticipant` answers 400 where `leaveSession` fails the cast with 500; neither changes anything. */
  lemma RemoveParticipantRejectsMalformedId(w: World, id: Id, name: string)
    requires !IsObjectId(id)
    ensures RemoveParticipant(w, id, name).response.status == BadRequest
    ensures LeaveSession(w, id, name) == Step(w, Response(ServerError, Message("Error leaving session")))
  {
  }
}
