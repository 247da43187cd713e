/**
 * The session information card: the title label, the link a visitor copies
 * to invite others, and the id the card's join request is addressed to.
 */
module SessionInfo {
  import opened Wrappers
  import opened SessionModel
  import SessionNaming
  import SessionSpec

  /** `truncate(str, num = 30)`: at most `num` characters, with "..." appended when anything was cut. */
  function Truncate(str: string, num: nat := 30): (r: string)
    ensures |str| <= num ==> r == str
    ensures |str| > num ==> |r| == num + 3 && r[..num] == str[..num] && r[num..] == "..."
  {
    if |str| <= num then str else str[..num] + "..."
  }

  function Min(a: nat, b: nat): nat {
    if a <= b then a else b
  }

  /** The label is never more than three characters over the limit and starts with the text it shortens. */
  lemma TruncateBounds(str: string, num: nat)
    ensures |Truncate(str, num)| <= num + 3
    ensures Truncate(str, num)[..Min(|str|, num)] == str[..Min(|str|, num)]
  {
  }

  /** Truncating a label again at the same limit changes nothing. */
  lemma TruncateIdempotent(str: string, num: nat)
    ensures Truncate(Truncate(str, num), num) == Truncate(str, num)
  {
  }

  const TitleLimit: nat := 45
  const UnknownTitle: string := "Unknown Song"

  /** `truncate(audioInfo.title || "Unknown Song", 45)`: a missing or empty title shows the fallback. */
  function TitleLabel(title: Option<string>): (r: string)
    ensures |r| <= TitleLimit + 3
    ensures !SessionNaming.Truthy(title) ==> r == UnknownTitle
    ensures SessionNaming.Truthy(title) ==> r == Truncate(title.value, TitleLimit)
  {
    Truncate(if SessionNaming.Truthy(title) then title.value else UnknownTitle, TitleLimit)
  }

  /** The invitation link: the site's domain, `/session/`, the session's name. */
  function ShareableLink(domain: string, sessionName: string): (r: string)
    ensures |r| == |domain| + |"/session/"| + |sessionName|
    ensures r[..|domain|] == domain && r[|domain|..|domain| + |"/session/"|] == "/session/"
    ensures r[|r| - |sessionName|..] == sessionName
  {
    domain + "/session/" + sessionName
  }

  /** `sessionId || session._id`: the id in the page's route when it has one, otherwise the loaded record's. */
  function JoinTargetId(routeSessionId: Option<string>, recordId: string): (r: string)
    ensures SessionNaming.Truthy(routeSessionId) ==> r == routeSessionId.value
    ensures !SessionNaming.Truthy(routeSessionId) ==> r == recordId
  {
    if SessionNaming.Truthy(routeSessionId) then routeSessionId.value else recordId
  }

  /**
   * On the `/:sessionId` route the card shows the record that id was read as,
   * and the join adds the visitor to that same record, however the id was
   * spelled, as long as the cache agrees with the store.
   */
  lemma JoinFromIdRoute(w: SessionSpec.World, id: Id, s: Session, name: string)
    requires SessionSpec.CacheCoherent(w)
    requires SessionSpec.GetSession(w, id).response == SessionSpec.Response(SessionSpec.Ok, SessionSpec.Record(s))
    ensures SessionSpec.JoinSession(w, JoinTargetId(Some(id), s.id), name).response
            == SessionSpec.Response(SessionSpec.Ok,
                                    SessionSpec.Joined("Joined session successfully", s.(participants := AddToSet(s.participants, name))))
  {
    assert IsObjectId(id) && JoinTargetId(Some(id), s.id) == id;
    assert s == w.store[Canon(id)];
  }

  /**
   * On the `/session/:sessionName` route there is no id in the route: the
   * join goes to the loaded record's `_id` and adds the visitor to that record.
   */
  lemma JoinFromNameRoute(w: SessionSpec.World, sessionName: string, res: SessionSpec.Response, name: string)
    requires SessionSpec.StoreWellFormed(w.store)
    requires SessionSpec.ByNameAnswer(w.store, sessionName, res) && res.status == SessionSpec.Ok
    ensures var s := res.body.session;
            SessionSpec.JoinSession(w, JoinTargetId(None, s.id), name).response
            == SessionSpec.Response(SessionSpec.Ok,
                                    SessionSpec.Joined("Joined session successfully", s.(participants := AddToSet(s.participants, name))))
  {
    var s := res.body.session;
    var k :| k in w.store && w.store[k] == s;
    assert s.id == k && IsCanonical(k);
  }
}
