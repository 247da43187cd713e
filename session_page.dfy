/**
 * The session page of the front end: the local mirror of the participant
 * list that real-time events keep up to date, the admin test, and the
 * playback handlers that drive the audio element and post sync requests
 * (throttled to one per 500 ms while the time advances).
 */
module SessionPage {
  import opened Wrappers
  import opened SessionModel
  import opened Media
  import SessionSpec

  // ---------------------------------------------------------------------------
  // The participant-list mirror
  // ---------------------------------------------------------------------------

  /** The `participant-joined` reducer: the name goes to the end of the local list, unchecked. */
  function MirrorJoined(ps: seq<string>, name: string): (r: seq<string>)
    ensures |r| == |ps| + 1 && r[..|ps|] == ps && r[|ps|] == name
  {
    ps + [name]
  }

  /** The `participant-left` reducer: `filter(n => n !== name)`, scanning left to right. */
  function MirrorLeft(ps: seq<string>, name: string): (r: seq<string>)
    ensures name !in r
    ensures forall x :: x in r <==> x in ps && x != name
    ensures |r| <= |ps|
  {
    if ps == [] then []
    else
      var kept := MirrorLeft(ps[..|ps| - 1], name);
      assert ps == ps[..|ps| - 1] + [ps[|ps| - 1]];
      if ps[|ps| - 1] == name then kept else kept + [ps[|ps| - 1]]
  }

  /** The local list loses a leaving participant exactly as the stored list does under `$pull`. */
  lemma {:induction false} MirrorLeftIsPull(ps: seq<string>, name: string)
    ensures MirrorLeft(ps, name) == Pull(ps, name)
  {
    if ps != [] {
      var init, last := ps[..|ps| - 1], ps[|ps| - 1];
      assert ps == init + [last];
      MirrorLeftIsPull(init, name);
      PullAppend(init, [last], name);
    }
  }

  /** A first-time join grows the local list exactly as `$addToSet` grows the stored one. */
  lemma MirrorJoinedFresh(ps: seq<string>, name: string)
    requires name !in ps
    ensures MirrorJoined(ps, name) == AddToSet(ps, name)
  {
  }

  /**
   * A rejoin does not: the store keeps one copy of the name while the local
   * list gains a second, so the two lists part ways.
   */
  lemma MirrorJoinedDuplicates(ps: seq<string>, name: string)
    requires name in ps
    ensures multiset(MirrorJoined(ps, name))[name] == multiset(ps)[name] + 1
    ensures multiset(AddToSet(ps, name))[name] == multiset(ps)[name]
    ensures MirrorJoined(ps, name) != AddToSet(ps, name)
  {
    assert |MirrorJoined(ps, name)| != |AddToSet(ps, name)|;
  }

  /**
   * A rejoin followed by a leave empties the name from both lists: the
   * leave reducer removes every copy, so the stray duplicate does not survive.
   */
  lemma RejoinThenLeave(ps: seq<string>, name: string)
    ensures MirrorLeft(MirrorJoined(ps, name), name) == Pull(AddToSet(ps, name), name)
  {
    MirrorLeftIsPull(MirrorJoined(ps, name), name);
    PullAppend(ps, [name], name);
    assert Pull([name], name) == [];
    if name in ps {
      PullAppend(ps, [], name);
    } else {
      assert AddToSet(ps, name) == ps + [name];
    }
  }

  // ---------------------------------------------------------------------------
  // Who is the admin
  // ---------------------------------------------------------------------------

  /** `adminName === location.state?.participantName`: false when the page was reached without a name. */
  function IsAdmin(adminName: string, participantName: Option<string>): (r: bool)
    ensures r <==> participantName.Some? && participantName.value == adminName
  {
    match participantName
    case None => false
    case Some(p) => p == adminName
  }

  /** The visitor who created a session, arriving under the admin name the backend chose, is its admin. */
  lemma CreatorIsAdmin(w: SessionSpec.World, youtubeUrl: string, adminName: Option<string>, title: Option<string>,
                       generatedSuffix: string, generatedAdmin: string, newId: Id, now: int)
    requires IsCanonical(newId)
    ensures var r := SessionSpec.CreateSession(w, youtubeUrl, adminName, title, generatedSuffix, generatedAdmin, newId, now);
            r.response.status == SessionSpec.CreatedStatus ==>
              IsAdmin(r.world.store[newId].adminName, Some(r.response.body.adminName))
  {
  }

  // ---------------------------------------------------------------------------
  // Playback and sync
  // ---------------------------------------------------------------------------

  /** The body of a `POST /:sessionId/sync` request. */
  datatype SyncPost = SyncPost(currentTime: real, isPlaying: bool)

  function Abs(x: real): (r: real)
    ensures r >= 0.0 && (r == x || r == -x)
  {
    if x < 0.0 then -x else x
  }

  const ThrottleMs: int := 500
  const SeekTolerance: real := 0.5

  /**
   * The times of the throttled posts, each more than 500 ms after the one
   * before it; the first is measured against the initial mark 0.
   */
  ghost predicate Spaced(times: seq<int>) {
    forall i :: 0 <= i < |times| ==> times[i] - (if i == 0 then 0 else times[i - 1]) > ThrottleMs
  }

  /** A post more than 500 ms after the last throttled one keeps the throttled posts spaced. */
  lemma SpacedExtend(times: seq<int>, now: int)
    requires Spaced(times)
    requires now - (if times == [] then 0 else times[|times| - 1]) > ThrottleMs
    ensures Spaced(times + [now])
  {
    var ext := times + [now];
    forall i | 0 <= i < |ext|
      ensures ext[i] - (if i == 0 then 0 else ext[i - 1]) > ThrottleMs
    {
      if i < |times| {
        assert ext[i] == times[i];
        assert times[i] - (if i == 0 then 0 else times[i - 1]) > ThrottleMs;
        if i > 0 { assert ext[i - 1] == times[i - 1]; }
      } else {
        assert ext[i] == now;
        if i > 0 { assert ext[i - 1] == times[|times| - 1]; }
      }
    }
    assert Spaced(ext);
  }

  class Page {
    var isAdmin: bool
    var isPlaying: bool
    var currentTime: real
    var lastSyncTime: int
    const player: MediaElement?
    var posts: seq<SyncPost>
    ghost var throttled: seq<int>

    /** The throttle mark is the time of the last throttled post (0 before any), and those posts are spaced. */
    ghost predicate Valid()
      reads this
    {
      && lastSyncTime == (if throttled == [] then 0 else throttled[|throttled| - 1])
      && Spaced(throttled)
    }

    constructor (isAdmin: bool, player: MediaElement?)
      ensures Valid()
      ensures this.isAdmin == isAdmin && this.player == player
      ensures !isPlaying && currentTime == 0.0 && lastSyncTime == 0 && posts == [] && throttled == []
    {
      this.isAdmin := isAdmin;
      this.player := player;
      isPlaying := false;
      currentTime := 0.0;
      lastSyncTime := 0;
      posts := [];
      throttled := [];
    }

    /**
     * Apply a remote `audio-sync` (or the state fetched on joining). With no
     * element attached nothing happens. Otherwise the element seeks only when
     * it has drifted more than half a second, the page takes the given time
     * and state, and the element is sent `play()` only if it was paused and
     * `pause()` only if it was playing, so it ends paused exactly when the
     * state says not playing.
     */
    method SyncAudioState(time: real, playing: bool)
      requires Valid()
      modifies this, player
      ensures Valid()
      ensures player == null ==> currentTime == old(currentTime) && isPlaying == old(isPlaying)
      ensures player != null ==> currentTime == time && isPlaying == playing
      ensures player != null ==>
        && player.currentTime == (if Abs(old(player.currentTime) - time) > SeekTolerance then time else old(player.currentTime))
        && player.paused == !playing
        && player.calls == old(player.calls) + (if playing && old(player.paused) then [PlayCall]
                                                else if !playing && !old(player.paused) then [PauseCall]
                                                else [])
      ensures player != null ==> player.volume == old(player.volume)
      ensures isAdmin == old(isAdmin) && lastSyncTime == old(lastSyncTime) && posts == old(posts) && throttled == old(throttled)
    {
      if player != null {
        var diff := Abs(player.currentTime - time);
        if diff > SeekTolerance {
          player.currentTime := time;
        }
        currentTime := time;
        isPlaying := playing;
        if playing && player.paused {
          player.Play();
        } else if !playing && !player.paused {
          player.Pause();
        }
      }
    }

    /**
     * The element reports its time at `now`: the page records it, and an
     * admin posts a sync when more than 500 ms have passed since the last
     * throttled post. A participant never posts.
     */
    method HandleTimeUpdate(time: real, now: int)
      requires Valid()
      modifies this
      ensures Valid()
      ensures currentTime == time
      ensures var fires := isAdmin && now - old(lastSyncTime) > ThrottleMs;
        && posts == old(posts) + (if fires then [SyncPost(time, isPlaying)] else [])
        && throttled == old(throttled) + (if fires then [now] else [])
        && lastSyncTime == (if fires then now else old(lastSyncTime))
      ensures isAdmin == old(isAdmin) && isPlaying == old(isPlaying)
    {
      currentTime := time;
      if isAdmin {
        if now - lastSyncTime > ThrottleMs {
          posts := posts + [SyncPost(time, isPlaying)];
          SpacedExtend(throttled, now);
          throttled := throttled + [now];
          lastSyncTime := now;
        }
      }
    }

    /**
     * The play/pause control. The page takes the requested state and drives
     * the element if one is attached. An admin posts the element's time (0
     * without an element) with the requested state; `postFails` says whether
     * that request is rejected, in which case the page reverts to the
     * opposite of the requested state. A participant never posts.
     */
    method HandlePlayPause(playing: bool, postFails: bool)
      requires Valid()
      modifies this, player
      ensures Valid()
      ensures isPlaying == (if isAdmin && postFails then !playing else playing)
      ensures player != null ==>
        player.paused == !playing && player.calls == old(player.calls) + [if playing then PlayCall else PauseCall]
        && player.currentTime == old(player.currentTime)
      ensures player != null ==> player.volume == old(player.volume)
      ensures posts == old(posts) + (if isAdmin then [SyncPost(if player != null then player.currentTime else 0.0, playing)] else [])
      ensures isAdmin == old(isAdmin) && currentTime == old(currentTime) && lastSyncTime == old(lastSyncTime) && throttled == old(throttled)
    {
      isPlaying := playing;
      if player != null {
        if playing {
          player.Play();
        } else {
          player.Pause();
        }
      }
      if isAdmin {
        var at := if player != null then player.currentTime else 0.0;
        posts := posts + [SyncPost(at, playing)];
        if postFails {
          isPlaying := !playing;
        }
      }
    }
  }
}
