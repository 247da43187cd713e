/**
 * How `createSession` names a session and its admin: the video title with
 * every whitespace character removed, cut to 10 characters, then `-` and a
 * generated suffix; the admin is the requested name when it is truthy and a
 * generated one otherwise. The generated names are parameters.
 */
module SessionNaming {
  import opened Wrappers

  const ShortNameLength: nat := 10

  /** JavaScript's `\s`: the ECMAScript white space and line terminator characters. */
  predicate IsJsWhitespace(c: char) {
    || c == '\t' || c == '\n' || c == '\U{000B}' || c == '\U{000C}' || c == '\r' || c == ' '
    || c == '\U{00A0}' || c == '\U{1680}' || ('\U{2000}' <= c <= '\U{200A}')
    || c == '\U{2028}' || c == '\U{2029}' || c == '\U{202F}' || c == '\U{205F}'
    || c == '\U{3000}' || c == '\U{FEFF}'
  }

  predicate NoWhitespace(s: string) {
    forall i :: 0 <= i < |s| ==> !IsJsWhitespace(s[i])
  }

  /** `title.replace(/\s+/g, "")` */
  function StripWhitespace(s: string): (r: string)
    ensures NoWhitespace(r)
    ensures |r| <= |s|
    ensures NoWhitespace(s) ==> r == s
  {
    if s == [] then []
    else if IsJsWhitespace(s[0]) then StripWhitespace(s[1..])
    else [s[0]] + StripWhitespace(s[1..])
  }

  /** Stripping works piecewise: what is kept keeps its order. */
  lemma {:induction false} StripWhitespaceAppend(a: string, b: string)
    ensures StripWhitespace(a + b) == StripWhitespace(a) + StripWhitespace(b)
  {
    if a == [] {
      assert a + b == b;
    } else {
      assert (a + b)[0] == a[0] && (a + b)[1..] == a[1..] + b;
      StripWhitespaceAppend(a[1..], b);
    }
  }

  /** Every whitespace character goes, every other character keeps its number of occurrences. */
  lemma {:induction false} StripWhitespaceCounts(s: string, c: char)
    ensures multiset(StripWhitespace(s))[c] == if IsJsWhitespace(c) then 0 else multiset(s)[c]
  {
    if s != [] {
      StripWhitespaceCounts(s[1..], c);
      assert s == [s[0]] + s[1..];
    }
  }

  /** `title.replace(/\s+/g, "").substring(0, 10)` */
  function ShortSessionName(title: string): (r: string)
    ensures NoWhitespace(r)
    ensures |r| == if |StripWhitespace(title)| < ShortNameLength then |StripWhitespace(title)| else ShortNameLength
    ensures r <= StripWhitespace(title)
  {
    var t := StripWhitespace(title);
    if |t| < ShortNameLength then t else t[..ShortNameLength]
  }

  /** `${shortSessionName}-${generated}` */
  function SessionName(title: string, generatedSuffix: string): (r: string)
    ensures |r| == |ShortSessionName(title)| + 1 + |generatedSuffix|
    ensures r[..|ShortSessionName(title)|] == ShortSessionName(title)
    ensures r[|ShortSessionName(title)|] == '-'
    ensures r[|ShortSessionName(title)| + 1..] == generatedSuffix
  {
    ShortSessionName(title) + "-" + generatedSuffix
  }

  /** JavaScript truthiness of an optional string: present and non-empty. */
  predicate Truthy(s: Option<string>) {
    s.Some? && s.value != ""
  }

  /** `adminName || generated` */
  function FriendlyAdminName(adminName: Option<string>, generated: string): (r: string)
    ensures Truthy(adminName) ==> r == adminName.value
    ensures !Truthy(adminName) ==> r == generated
  {
    if Truthy(adminName) then adminName.value else generated
  }
}
