/**
 * The Session document of the backend's Mongoose schema: its fields, the
 * defaults a new document receives, the `required` validation run on save,
 * and the two array operators the controller applies to `participants`
 * (`$addToSet` and `$pull`).
 */
module SessionModel {
  import opened Wrappers

  /** A document identifier (`_id`), in its 24-character hexadecimal string form. */
  type Id = string

  datatype Session = Session(
    id: Id,
    youtubeUrl: string,
    sessionName: string,
    adminName: string,
    participants: seq<string>,  // ordered, no uniqueness constraint in the schema
    currentTime: Option<real>,  // None stands for a JSON null written by a sync request
    isPlaying: Option<bool>,
    createdAt: int)             // milliseconds since the epoch

  const DefaultCurrentTime: real := 0.0
  const DefaultIsPlaying: bool := false

  predicate IsHexDigit(c: char) {
    '0' <= c <= '9' || 'a' <= c <= 'f' || 'A' <= c <= 'F'
  }

  /** The canonical ObjectId syntax accepted by `mongoose.Types.ObjectId.isValid`: 24 hexadecimal digits. */
  predicate IsObjectId(s: string) {
    |s| == 24 && forall i :: 0 <= i < |s| ==> IsHexDigit(s[i])
  }

  /** A hexadecimal digit as an ObjectId prints it: `A`..`F` become `a`..`f`, everything else is kept. */
  function LowerHex(c: char): char {
    if 'A' <= c <= 'F' then (c as int - 'A' as int + 'a' as int) as char else c
  }

  /**
   * The id a request's `sessionId` is cast to: Mongoose reads the 24 digits
   * without regard to case, and the resulting ObjectId prints in lower case.
   * Every document is stored under this form.
   */
  function Canon(id: Id): (r: Id)
    ensures |r| == |id|
    ensures forall i :: 0 <= i < |id| ==> r[i] == LowerHex(id[i])
    ensures IsObjectId(id) ==> IsObjectId(r)
  {
    seq(|id|, i requires 0 <= i < |id| => LowerHex(id[i]))
  }

  /** An id spelled as the server prints it. */
  predicate IsCanonical(id: Id) {
    IsObjectId(id) && Canon(id) == id
  }

  /** Casting a second time changes nothing: the cast id is canonical, and so is every spelling's. */
  lemma CanonIsCanonical(id: Id)
    requires IsObjectId(id)
    ensures IsCanonical(Canon(id))
    ensures Canon(id) == id <==> IsCanonical(id)
  {
    var r := Canon(id);
    assert Canon(r) == r by {
      forall i | 0 <= i < |r| ensures Canon(r)[i] == r[i] {
        assert r[i] == LowerHex(id[i]);
      }
    }
  }

  /** A new document as `new Session({youtubeUrl, sessionName, adminName})` builds it: every other field takes its schema default. */
  function NewSession(id: Id, youtubeUrl: string, sessionName: string, adminName: string, now: int): (s: Session)
    ensures s.participants == []
    ensures s.currentTime == Some(DefaultCurrentTime) && s.isPlaying == Some(DefaultIsPlaying)
    ensures s.createdAt == now
  {
    Session(id, youtubeUrl, sessionName, adminName, [], Some(DefaultCurrentTime), Some(DefaultIsPlaying), now)
  }

  /** Mongoose's `required` validator on a String path: the empty string is rejected. */
  predicate RequiredPresent(s: Session) {
    s.youtubeUrl != "" && s.sessionName != "" && s.adminName != ""
  }

  predicate NoDuplicates(ps: seq<string>) {
    forall i, j :: 0 <= i < j < |ps| ==> ps[i] != ps[j]
  }

  /** `$addToSet: {participants: name}`: append `name` unless it is already present. */
  function AddToSet(ps: seq<string>, name: string): (r: seq<string>)
    ensures forall x :: x in r <==> x in ps || x == name
    ensures |r| == if name in ps then |ps| else |ps| + 1
    ensures r[..|ps|] == ps
    ensures NoDuplicates(ps) ==> NoDuplicates(r)
  {
    if name in ps then ps else ps + [name]
  }

  /** `$pull: {participants: name}`: remove every element equal to `name`, keeping the others in order. */
  function Pull(ps: seq<string>, name: string): (r: seq<string>)
    ensures name !in r
    ensures forall x :: x in r <==> x in ps && x != name
    ensures |r| <= |ps|
    ensures name !in ps ==> r == ps
    ensures NoDuplicates(ps) ==> NoDuplicates(r)
  {
    if ps == [] then []
    else if ps[0] == name then Pull(ps[1..], name)
    else
      var rest := Pull(ps[1..], name);
      assert NoDuplicates(ps) ==> ps[0] !in ps[1..] && NoDuplicates(ps[1..]) by {
        if NoDuplicates(ps) {
          forall k | 0 <= k < |ps| - 1 ensures ps[1..][k] != ps[0] {
            assert ps[1..][k] == ps[k + 1];
          }
        }
      }
      [ps[0]] + rest
  }

  /** Pulling distributes over concatenation: the kept elements stay in their original order. */
  lemma {:induction false} PullAppend(a: seq<string>, b: seq<string>, name: string)
    ensures Pull(a + b, name) == Pull(a, name) + Pull(b, name)
  {
    if a == [] {
      assert a + b == b;
    } else {
      assert (a + b)[1..] == a[1..] + b;
      PullAppend(a[1..], b, name);
    }
  }

  /** Pulling counts: `name` disappears, every other element keeps its multiplicity. */
  lemma {:induction false} PullCounts(ps: seq<string>, name: string, x: string)
    ensures multiset(Pull(ps, name))[x] == if x == name then 0 else multiset(ps)[x]
  {
    if ps != [] {
      PullCounts(ps[1..], name, x);
      assert ps == [ps[0]] + ps[1..];
    }
  }

  /** Adding twice is adding once (set semantics). */
  lemma AddToSetIdempotent(ps: seq<string>, name: string)
    ensures AddToSet(AddToSet(ps, name), name) == AddToSet(ps, name)
  {
  }

  /** Pulling twice is pulling once. */
  lemma PullIdempotent(ps: seq<string>, name: string)
    ensures Pull(Pull(ps, name), name) == Pull(ps, name)
  {
  }
}
