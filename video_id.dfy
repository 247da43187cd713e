/**
 * `extractVideoId` of the backend controller: the video id is the 7th
 * capture group of the pattern
 *   ^.*((youtu.be\/)|(v\/)|(\/u\/\w\/)|(embed\/)|(watch\?))\??v?=?([^#&?]*).*
 * and is accepted only when it is exactly 11 characters long.
 *
 * The pattern is evaluated as JavaScript's backtracking matcher evaluates it.
 * The greedy `^.*` (which cannot cross a line terminator) first takes the
 * longest prefix and gives characters back one at a time; at each position the
 * five alternatives are tried in order, and the first that matches wins. Every
 * element after the alternatives is optional or a star, so the first attempt
 * past them always succeeds and nothing backtracks into them: each greedy
 * optional takes its character when it is there, and the id is the longest
 * following run free of `#`, `&` and `?`.
 */
module VideoId {
  import opened Wrappers

  const IdLength: nat := 11

  /** The characters JavaScript's `.` does not match. */
  predicate IsLineTerminator(c: char) {
    c == '\n' || c == '\r' || c == '\U{2028}' || c == '\U{2029}'
  }

  /** `\w` */
  predicate IsWordChar(c: char) {
    'a' <= c <= 'z' || 'A' <= c <= 'Z' || '0' <= c <= '9' || c == '_'
  }

  /** The characters `[^#&?]` excludes: they end the id. */
  predicate IsIdStop(c: char) {
    c == '#' || c == '&' || c == '?'
  }

  /** The alphabet of YouTube video ids. */
  predicate IsIdChar(c: char) {
    'a' <= c <= 'z' || 'A' <= c <= 'Z' || '0' <= c <= '9' || c == '_' || c == '-'
  }

  predicate IsIdShaped(id: string) {
    |id| == IdLength && forall i :: 0 <= i < |id| ==> IsIdChar(id[i])
  }

  /** The first line terminator at or after `k`, or the end: how far `^.*` can reach. */
  function LineEnd(s: string, k: nat): (e: nat)
    requires k <= |s|
    ensures k <= e <= |s|
    ensures forall i :: k <= i < e ==> !IsLineTerminator(s[i])
    ensures e < |s| ==> IsLineTerminator(s[e])
    decreases |s| - k
  {
    if k == |s| || IsLineTerminator(s[k]) then k else LineEnd(s, k + 1)
  }

  /** Where the first of the five alternatives that matches at `k` ends, tried in the pattern's order. */
  function AlternativeEnd(s: string, k: nat): (r: Option<nat>)
    requires k <= |s|
    ensures r.Some? ==> k < r.value <= |s| && (s[r.value - 1] == '/' || s[r.value - 1] == '?')
  {
    if k + 9 <= |s| && s[k..k + 5] == "youtu" && !IsLineTerminator(s[k + 5]) && s[k + 6..k + 9] == "be/" then Some(k + 9)
    else if k + 2 <= |s| && s[k..k + 2] == "v/" then Some(k + 2)
    else if k + 5 <= |s| && s[k..k + 3] == "/u/" && IsWordChar(s[k + 3]) && s[k + 4] == '/' then Some(k + 5)
    else if k + 6 <= |s| && s[k..k + 6] == "embed/" then Some(k + 6)
    else if k + 6 <= |s| && s[k..k + 6] == "watch?" then Some(k + 6)
    else None
  }

  /** The backtracking of `^.*` from position `k` down: the largest position at most `k` where an alternative matches. */
  function LastAlternative(s: string, k: nat): (r: Option<nat>)
    requires k <= |s|
    ensures r.Some? ==> r.value <= k && AlternativeEnd(s, r.value).Some?
    ensures r.Some? ==> forall i :: r.value < i <= k ==> AlternativeEnd(s, i).None?
    ensures r.None? ==> forall i :: 0 <= i <= k ==> AlternativeEnd(s, i).None?
    decreases k
  {
    if AlternativeEnd(s, k).Some? then Some(k)
    else if k == 0 then None
    else LastAlternative(s, k - 1)
  }

  /** A greedy optional single character `c?` at `q`. */
  function SkipOptional(s: string, q: nat, c: char): (r: nat)
    requires q <= |s|
    ensures r <= |s|
    ensures r == q || (r == q + 1 && s[q] == c)
  {
    if q < |s| && s[q] == c then q + 1 else q
  }

  /** The greedy `[^#&?]*` from `q`: the end of the longest run without a stop character. */
  function IdRunEnd(s: string, q: nat): (e: nat)
    requires q <= |s|
    ensures q <= e <= |s|
    ensures forall i :: q <= i < e ==> !IsIdStop(s[i])
    ensures e < |s| ==> IsIdStop(s[e])
    decreases |s| - q
  {
    if q == |s| || IsIdStop(s[q]) then q else IdRunEnd(s, q + 1)
  }

  /** Where the id starts as the pattern is written: `\??v?=?` after the alternative. */
  function IdStartAsWritten(s: string, q: nat): (r: nat)
    requires q <= |s|
    ensures q <= r <= |s|
  {
    SkipOptional(s, SkipOptional(s, SkipOptional(s, q, '?'), 'v'), '=')
  }

  /** Where the id starts with the `v` and `=` of a `v=` query key skipped only together: `\??(?:v=)?`. */
  function IdStart(s: string, q: nat): (r: nat)
    requires q <= |s|
    ensures q <= r <= |s|
  {
    var p := SkipOptional(s, q, '?');
    if p + 2 <= |s| && s[p..p + 2] == "v=" then p + 2 else p
  }

  /** The id candidate found once an alternative has matched, accepted only at length 11. */
  function Candidate(s: string, start: nat): (r: Option<string>)
    requires start <= |s|
    ensures r.Some? ==> |r.value| == IdLength && start + IdLength <= |s| && r.value == s[start..start + IdLength]
    ensures r.Some? ==> forall i :: 0 <= i < |r.value| ==> !IsIdStop(r.value[i])
    ensures r.Some? ==> start + IdLength == |s| || IsIdStop(s[start + IdLength])
  {
    var id := s[start..IdRunEnd(s, start)];
    if |id| == IdLength then Some(id) else None
  }

  /** `extractVideoId(url)` exactly as written; null is None. */
  function ExtractVideoIdAsWritten(url: string): (r: Option<string>)
    ensures r.Some? ==> |r.value| == IdLength && forall i :: 0 <= i < |r.value| ==> !IsIdStop(r.value[i])
  {
    match LastAlternative(url, LineEnd(url, 0))
    case None => None
    case Some(k) => Candidate(url, IdStartAsWritten(url, AlternativeEnd(url, k).value))
  }

  /**
   * `extractVideoId(url)` with the evidently intended reading of `v?=?`: the
   * `v=` of a query key is skipped, but an id that starts with `v` keeps it.
   * This is the corrected half of the finding about `v?`; the handlers keep
   * the extraction as written.
   */
  function ExtractVideoId(url: string): (r: Option<string>)
    ensures r.Some? ==> |r.value| == IdLength && forall i :: 0 <= i < |r.value| ==> !IsIdStop(r.value[i])
    ensures r.Some? ==> exists before, after :: url == before + r.value + after
  {
    match LastAlternative(url, LineEnd(url, 0))
    case None => None
    case Some(k) =>
      var start := IdStart(url, AlternativeEnd(url, k).value);
      var r := Candidate(url, start);
      assert r.Some? ==> url == url[..start] + r.value + url[start + IdLength..];
      r
  }

  /** No alternative can match where no `/` or `?` follows: every alternative ends with one of them. */
  lemma NoAlternativeWithoutSlash(s: string, m: nat, k: nat)
    requires m <= k <= |s|
    requires forall i :: m <= i < |s| ==> s[i] != '/' && s[i] != '?'
    ensures AlternativeEnd(s, k).None?
  {
  }

  /** Positions with no alternative do not change where the backtracking stops. */
  lemma {:induction false} SkipToLastAlternative(s: string, lo: nat, hi: nat)
    requires lo <= hi <= |s|
    requires forall i :: lo < i <= hi ==> AlternativeEnd(s, i).None?
    ensures LastAlternative(s, hi) == LastAlternative(s, lo)
    decreases hi
  {
    if hi > lo {
      SkipToLastAlternative(s, lo, hi - 1);
    }
  }

  /** The share-link form of a video URL. */
  const ShortLinkPrefix: string := "https://youtu.be/"

  lemma NoLineTerminator(s: string)
    requires forall i :: 0 <= i < |s| ==> !IsLineTerminator(s[i])
    ensures LineEnd(s, 0) == |s|
  {
  }

  lemma NoStopCharacter(s: string, q: nat)
    requires q <= |s|
    requires forall i :: q <= i < |s| ==> !IsIdStop(s[i])
    ensures IdRunEnd(s, q) == |s|
  {
  }

  /** Between the `youtu.be/` of a share link and its id no alternative matches. */
  lemma ShortLinkWindow(s: string, k: nat)
    requires |s| >= 17 && s[..17] == ShortLinkPrefix
    requires forall i :: 17 <= i < |s| ==> s[i] != '/' && s[i] != '?'
    requires 8 < k < 17
    ensures AlternativeEnd(s, k).None?
  {
    assert s[k] == s[..17][k] == ShortLinkPrefix[k];
    if k == 15 {
      assert s[16] == s[..17][16] == '/';
      if k + 6 <= |s| {
        assert s[k..k + 6][0] == 'e' && s[k..k + 6][1] == '/';
      }
      if k + 5 <= |s| {
        assert s[k..k + 5][0] == 'e';
      }
      if k + 2 <= |s| {
        assert s[k..k + 2][0] == 'e';
      }
    } else if k == 16 {
      if k + 5 <= |s| {
        assert s[k..k + 3][2] == s[18] != '/';
      }
      if k + 6 <= |s| {
        assert s[k..k + 6][0] == '/';
      }
      if k + 2 <= |s| {
        assert s[k..k + 2][0] == '/';
      }
    } else {
      NoAlternativeAt(s, k);
    }
  }

  /** A share-link prefix followed by text without `/`, `?` or a line terminator. */
  predicate ShortLinkShaped(s: string) {
    && |s| >= 17 && s[..17] == ShortLinkPrefix
    && (forall i :: 17 <= i < |s| ==> s[i] != '/' && s[i] != '?' && !IsLineTerminator(s[i]))
  }

  lemma ShortLinkOfId(id: string)
    requires IsIdShaped(id)
    ensures ShortLinkShaped(ShortLinkPrefix + id)
    ensures (ShortLinkPrefix + id)[17..] == id
  {
    var s := ShortLinkPrefix + id;
    assert s[..17] == ShortLinkPrefix;
    forall i | 17 <= i < |s| ensures s[i] != '/' && s[i] != '?' && !IsLineTerminator(s[i]) {
      assert s[i] == id[i - 17];
    }
  }

  /** In a share link the `youtu.be/` alternative at index 8 is the one the greedy prefix backtracks to. */
  lemma ShortLinkAlternative(s: string)
    requires ShortLinkShaped(s)
    ensures LastAlternative(s, LineEnd(s, 0)) == Some(8)
    ensures AlternativeEnd(s, 8) == Some(17)
  {
    forall i | 0 <= i < 17 ensures !IsLineTerminator(s[i]) {
      assert s[i] == s[..17][i];
    }
    NoLineTerminator(s);
    forall k | 8 < k <= |s| ensures AlternativeEnd(s, k).None? {
      if k >= 17 {
        NoAlternativeWithoutSlash(s, 17, k);
      } else {
        ShortLinkWindow(s, k);
      }
    }
    SkipToLastAlternative(s, 8, |s|);
    assert s[8..13] == s[..17][8..13] == "youtu";
    assert s[14..17] == s[..17][14..17] == "be/";
  }

  /** The intended extraction takes the id back out of any share link. */
  lemma ExtractFromShortLink(id: string)
    requires IsIdShaped(id)
    ensures ExtractVideoId(ShortLinkPrefix + id) == Some(id)
  {
    var s := ShortLinkPrefix + id;
    ShortLinkOfId(id);
    ShortLinkAlternative(s);
    assert s[17] == id[0] && s[18] == id[1];
    assert IdStart(s, 17) == 17;
    forall i | 17 <= i < |s| ensures !IsIdStop(s[i]) {
      assert s[i] == id[i - 17];
    }
    NoStopCharacter(s, 17);
    assert s[17..|s|] == id;
  }

  /** As written, a share link still yields its id when the id does not start with `v`. */
  lemma ExtractFromShortLinkAsWritten(id: string)
    requires IsIdShaped(id) && id[0] != 'v'
    ensures ExtractVideoIdAsWritten(ShortLinkPrefix + id) == Some(id)
  {
    var s := ShortLinkPrefix + id;
    ShortLinkOfId(id);
    ShortLinkAlternative(s);
    assert s[17] == id[0] && s[18] == id[1];
    assert IdStartAsWritten(s, 17) == 17;
    forall i | 17 <= i < |s| ensures !IsIdStop(s[i]) {
      assert s[i] == id[i - 17];
    }
    NoStopCharacter(s, 17);
    assert s[17..|s|] == id;
  }

  /** As written, a share link whose id starts with `v` loses that `v` to `v?` and is rejected. */
  lemma AsWrittenRejectsLeadingV(id: string)
    requires IsIdShaped(id) && id[0] == 'v'
    ensures ExtractVideoIdAsWritten(ShortLinkPrefix + id) == None
  {
    var s := ShortLinkPrefix + id;
    ShortLinkOfId(id);
    ShortLinkAlternative(s);
    assert s[17] == 'v' && s[18] == id[1];
    assert IdStartAsWritten(s, 17) == 18;
    forall i | 18 <= i < |s| ensures !IsIdStop(s[i]) {
      assert s[i] == id[i - 17];
    }
    NoStopCharacter(s, 18);
  }

  /** The watch-page form of a video URL. */
  const WatchLinkPrefix: string := "https://www.youtube.com/watch?v="

  /** No alternative starts at a character that begins none of them. */
  lemma NoAlternativeAt(s: string, k: nat)
    requires k < |s|
    requires s[k] != 'y' && s[k] != '/' && s[k] != 'e' && s[k] != 'w'
    requires s[k] == 'v' ==> k + 1 < |s| && s[k + 1] != '/'
    ensures AlternativeEnd(s, k).None?
  {
    if k + 2 <= |s| {
      assert s[k..k + 2][0] == s[k] && s[k..k + 2][1] == s[k + 1];
    }
    if k + 3 <= |s| {
      assert s[k..k + 3][0] == s[k];
    }
    if k + 5 <= |s| {
      assert s[k..k + 5][0] == s[k];
    }
    if k + 6 <= |s| {
      assert s[k..k + 6][0] == s[k];
    }
  }

  /** Between the `watch?` of a watch link and its id no alternative matches. */
  lemma WatchLinkWindow(s: string, k: nat)
    requires |s| >= 32 && s[..32] == WatchLinkPrefix
    requires 24 < k < 32
    ensures AlternativeEnd(s, k).None?
  {
    assert s[k] == s[..32][k] == WatchLinkPrefix[k];
    if k == 30 {
      assert s[31] == s[..32][31] == '=';
    }
    NoAlternativeAt(s, k);
  }

  /** A watch-link prefix followed by text without `/`, `?` or a line terminator. */
  predicate WatchLinkShaped(s: string) {
    && |s| >= 32 && s[..32] == WatchLinkPrefix
    && (forall i :: 32 <= i < |s| ==> s[i] != '/' && s[i] != '?' && !IsLineTerminator(s[i]))
  }

  lemma WatchLinkOfId(id: string)
    requires IsIdShaped(id)
    ensures WatchLinkShaped(WatchLinkPrefix + id)
  {
    var s := WatchLinkPrefix + id;
    assert s[..32] == WatchLinkPrefix;
    forall i | 32 <= i < |s| ensures s[i] != '/' && s[i] != '?' && !IsLineTerminator(s[i]) {
      assert s[i] == id[i - 32];
    }
  }

  lemma WatchLinkNoLaterAlternative(s: string, k: nat)
    requires WatchLinkShaped(s)
    requires 24 < k <= |s|
    ensures AlternativeEnd(s, k).None?
  {
    if k >= 32 {
      NoAlternativeWithoutSlash(s, 32, k);
    } else {
      WatchLinkWindow(s, k);
    }
  }

  lemma WatchLinkAt24(s: string)
    requires |s| >= 32 && s[..32] == WatchLinkPrefix
    ensures AlternativeEnd(s, 24) == Some(30)
  {
    assert s[24..30] == s[..32][24..30] == "watch?";
    assert s[24] == 'w' && s[25] == 'a';
  }

  /** In a watch link the `watch?` alternative at index 24 is the one the greedy prefix backtracks to. */
  lemma WatchLinkAlternative(s: string)
    requires WatchLinkShaped(s)
    ensures LastAlternative(s, LineEnd(s, 0)) == Some(24)
    ensures AlternativeEnd(s, 24) == Some(30)
  {
    forall i | 0 <= i < 32 ensures !IsLineTerminator(s[i]) {
      assert s[i] == s[..32][i];
    }
    NoLineTerminator(s);
    forall k | 24 < k <= |s| ensures AlternativeEnd(s, k).None? {
      WatchLinkNoLaterAlternative(s, k);
    }
    SkipToLastAlternative(s, 24, |s|);
    WatchLinkAt24(s);
  }

  /** Both readings of the pattern take the id back out of any watch link, a leading `v` included. */
  lemma ExtractFromWatchLink(id: string)
    requires IsIdShaped(id)
    ensures ExtractVideoId(WatchLinkPrefix + id) == Some(id)
    ensures ExtractVideoIdAsWritten(WatchLinkPrefix + id) == Some(id)
  {
    var s := WatchLinkPrefix + id;
    WatchLinkOfId(id);
    WatchLinkAlternative(s);
    assert s[30] == 'v' && s[31] == '=';
    assert s[30..32] == "v=";
    assert IdStart(s, 30) == 32;
    assert IdStartAsWritten(s, 30) == 32;
    forall i | 32 <= i < |s| ensures !IsIdStop(s[i]) {
      assert s[i] == id[i - 32];
    }
    NoStopCharacter(s, 32);
    assert s[32..|s|] == id;
  }
}
