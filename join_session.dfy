/**
 * The join form: whatever the visitor pastes (an id, or a whole link) is cut
 * down to its last path segment, and the page navigates to `/` + that segment.
 */
module JoinSession {
  import opened SessionModel
  import SessionNaming
  import SessionInfo
  import SessionSpec

  const Separator: char := '/'

  /**
   * `s.split("/")`: the pieces between separators, in order, keeping empty
   * pieces; a string without separator is one piece (the empty string gives `[""]`).
   */
  function Split(s: string): (r: seq<string>)
    ensures |r| >= 1
    ensures forall k :: 0 <= k < |r| ==> Separator !in r[k]
  {
    if s == [] then [[]]
    else
      var init, c := s[..|s| - 1], s[|s| - 1];
      var parts := Split(init);
      if c == Separator then parts + [[]]
      else parts[..|parts| - 1] + [parts[|parts| - 1] + [c]]
  }

  /** `parts.join("/")`, the inverse of Split. */
  function Join(parts: seq<string>): string
    requires |parts| >= 1
  {
    if |parts| == 1 then parts[0] else Join(parts[..|parts| - 1]) + [Separator] + parts[|parts| - 1]
  }

  lemma {:induction false} JoinSplit(s: string)
    ensures Join(Split(s)) == s
  {
    if s != [] {
      var init, c := s[..|s| - 1], s[|s| - 1];
      var parts := Split(init);
      JoinSplit(init);
      assert s == init + [c];
      if c != Separator {
        var r := Split(s);
        assert r[..|r| - 1] == parts[..|parts| - 1];
        if |parts| == 1 {
          assert Join(parts) == parts[0];
        } else {
          assert Join(parts) == Join(parts[..|parts| - 1]) + [Separator] + parts[|parts| - 1];
        }
      }
    }
  }

  /** `sessionId.split("/").pop()`. */
  function CleanSessionId(input: string): string {
    var parts := Split(input);
    parts[|parts| - 1]
  }

  /** Without a separator in it, the input is already clean. */
  lemma {:induction false} CleanWithoutSeparator(input: string)
    requires Separator !in input
    ensures Split(input) == [input]
    ensures CleanSessionId(input) == input
  {
    if input != [] {
      var init := input[..|input| - 1];
      assert Separator !in init by {
        forall k | 0 <= k < |init| ensures init[k] != Separator {
          assert init[k] == input[k];
        }
      }
      CleanWithoutSeparator(init);
      assert input == init + [input[|input| - 1]];
    }
  }

  /**
   * The cleaned id is the text after the last separator: it holds no
   * separator, ends the input, and whatever precedes it is empty or ends in a separator.
   */
  lemma {:induction false} CleanIsLastSegment(input: string)
    ensures var r := CleanSessionId(input);
      && Separator !in r
      && |r| <= |input| && input[|input| - |r|..] == r
      && (|r| < |input| ==> input[|input| - |r| - 1] == Separator)
  {
    if input != [] {
      var init, c := input[..|input| - 1], input[|input| - 1];
      CleanIsLastSegment(init);
      assert input == init + [c];
      if c != Separator {
        var head := CleanSessionId(init);
        var parts := Split(init);
        assert Split(input) == parts[..|parts| - 1] + [head + [c]];
        assert CleanSessionId(input) == head + [c];
        assert input[|input| - |head| - 1..] == init[|init| - |head|..] + [c];
        if |head| + 1 < |input| {
          assert input[|input| - |head| - 2] == init[|init| - |head| - 1];
        }
      }
    }
  }

  lemma EndsWithSeparator(input: string)
    requires |input| > 0 && input[|input| - 1] == Separator
    ensures CleanSessionId(input) == ""
  {
  }

  /** Where the form navigates: `/` followed by the cleaned id. */
  function NavigationTarget(input: string): (r: string)
    ensures |r| >= 1 && r[0] == '/' && Separator !in r[1..]
  {
    CleanIsLastSegment(input);
    "/" + CleanSessionId(input)
  }

  /** Appending text without separators extends the last piece. */
  lemma {:induction false} CleanAppend(a: string, b: string)
    requires Separator !in b
    ensures CleanSessionId(a + b) == CleanSessionId(a) + b
  {
    if b == [] {
      assert a + b == a;
    } else {
      var init := b[..|b| - 1];
      assert Separator !in init by {
        forall k | 0 <= k < |init| ensures init[k] != Separator {
          assert init[k] == b[k];
        }
      }
      CleanAppend(a, init);
      assert (a + b)[..|a + b| - 1] == a + init;
    }
  }

  /** Pasting an invitation link recovers the session's name (a name without separators). */
  lemma CleanShareableLink(domain: string, sessionName: string)
    requires Separator !in sessionName
    ensures CleanSessionId(SessionInfo.ShareableLink(domain, sessionName)) == sessionName
  {
    var prefix := domain + "/session/";
    assert SessionInfo.ShareableLink(domain, sessionName) == prefix + sessionName;
    CleanAppend(prefix, sessionName);
  }

  /**
   * The navigation target of a pasted invitation link is `/` + the text
   * after its last separator, which the router serves as `/:sessionId`: the
   * page then asks the backend for a session whose id is (the tail of) the
   * name. A generated name ends in `-` and the generated suffix, so that id
   * holds a `-`, is never an ObjectId, and the backend answers 400.
   */
  lemma PastedLinkIsRejected(w: SessionSpec.World, domain: string, title: string, generatedSuffix: string)
    requires Separator !in generatedSuffix
    ensures var link := SessionInfo.ShareableLink(domain, SessionNaming.SessionName(title, generatedSuffix));
      && '-' in CleanSessionId(link)
      && SessionSpec.GetSession(w, CleanSessionId(link)).response.status == SessionSpec.BadRequest
  {
    var name := SessionNaming.SessionName(title, generatedSuffix);
    var link := SessionInfo.ShareableLink(domain, name);
    var head := domain + "/session/" + SessionNaming.ShortSessionName(title);
    assert link == head + ("-" + generatedSuffix);
    CleanAppend(head, "-" + generatedSuffix);
    var id := CleanSessionId(link);
    assert id[|id| - |generatedSuffix| - 1] == '-';
    assert !IsHexDigit(id[|id| - |generatedSuffix| - 1]);
  }
}
