/** Values shared by the broker and its two clients: optional JSON fields,
    conversation turns, the `/api/ask` request body, the outcomes of the
    client-side `fetch` calls, and the JavaScript string operations the
    code relies on (`includes`, `startsWith`, `toLowerCase`, `trim`,
    `Array.prototype.join`, `Array.prototype.pop`). */
module Common {

  /** A JSON field that may be absent (`undefined` or `null`). */
  datatype Option<T> = None | Some(value: T)

  /** JavaScript truthiness of an optional string: absent and "" are falsy. */
  predicate Truthy(o: Option<string>) {
    o.Some? && o.value != ""
  }

  /** `o || fallback` for an optional string. */
  function OrElse(o: Option<string>, fallback: string): (r: string)
    ensures Truthy(o) ==> r == o.value
    ensures !Truthy(o) ==> r == fallback
  {
    if Truthy(o) then o.value else fallback
  }

  /** The `role` of an entry of `conversationHistory`. */
  datatype Role = User | Model

  /** One entry `{ role, parts: [{ text }] }` of a conversation history. */
  datatype Turn = Turn(role: Role, text: string)

  /** The JSON body a client posts to `/api/ask`. A missing `mode`
      (the popup never sends one) is `None`. */
  datatype AskRequest = AskRequest(prompt: string, token: Option<string>, history: seq<Turn>, mode: Option<string>)

  /** What a client's `fetch` to `/api/ask` yields: either the call (or the
      parsing of its body) throws, or the server answers with a status and
      the `reply` / `error` fields of its JSON body. */
  datatype HttpOutcome =
    | FetchFailed(message: string)
    | Responded(status: nat, reply: Option<string>, error: Option<string>)

  /** What a client's `fetch` to `/get-token` yields. */
  datatype TokenFetch =
    | TokenUnreachable
    | TokenResponse(status: nat, token: Option<string>)

  /** What a client's `fetch` to `/check-user` yields. */
  datatype CheckFetch =
    | CheckUnreachable
    | CheckResponse(found: bool, hasApiKey: bool)

  /** `checkUserApiKey`: `data.exists && data.hasApiKey`, and `false` when
      the request throws. */
  function HasApiKey(c: CheckFetch): (r: bool)
    ensures r <==> c.CheckResponse? && c.found && c.hasApiKey
  {
    match c
    case CheckUnreachable => false
    case CheckResponse(found, hasKey) => found && hasKey
  }

  /** `res.ok` */
  predicate IsOk(status: nat) {
    200 <= status < 300
  }

  // ---------------------------------------------------------------------
  // Strings

  /** `s.includes(sub)` */
  predicate Contains(s: string, sub: string) {
    exists i :: 0 <= i <= |s| - |sub| && OccursAt(s, sub, i)
  }

  /** `sub` occurs in `s` starting at index `i`. */
  predicate OccursAt(s: string, sub: string, i: int) {
    0 <= i <= |s| - |sub| && s[i..i + |sub|] == sub
  }

  /** `s.startsWith(prefix)` */
  predicate StartsWith(s: string, prefix: string) {
    |prefix| <= |s| && s[..|prefix|] == prefix
  }

  /** `s.endsWith(suffix)` */
  predicate EndsWith(s: string, suffix: string) {
    |suffix| <= |s| && s[|s| - |suffix|..] == suffix
  }

  /** A suffix stays a suffix when the same text is appended to both. */
  lemma EndsWithAppend(s: string, suffix: string, tail: string)
    requires EndsWith(s, suffix)
    ensures EndsWith(s + tail, suffix + tail)
  {
    assert (s + tail)[|s + tail| - |suffix + tail|..] == s[|s| - |suffix|..] + tail;
  }

  /** A suffix of a suffix is a suffix. */
  lemma EndsWithTail(s: string, a: string, b: string)
    requires EndsWith(s, a + b)
    ensures EndsWith(s, b)
  {
    assert s[|s| - |b|..] == s[|s| - |a + b|..][|a|..];
  }

  /** An occurrence inside `b` is an occurrence inside `a + b`, shifted. */
  lemma OccursAfter(a: string, b: string, sub: string, i: int)
    requires OccursAt(b, sub, i)
    ensures OccursAt(a + b, sub, |a| + i)
  {
    assert (a + b)[|a| + i..|a| + i + |sub|] == b[i..i + |sub|];
  }

  /** A string that lacks some character of `sub` cannot contain `sub`. */
  lemma MissingCharNotContained(s: string, sub: string, k: nat)
    requires k < |sub| && sub[k] !in s
    ensures !Contains(s, sub)
  {
    forall i | 0 <= i <= |s| - |sub| ensures !OccursAt(s, sub, i) {
      assert s[i..i + |sub|][k] == s[i + k];
    }
  }

  /** The character `toLowerCase` maps `c` to, for ASCII letters. */
  function LowerChar(c: char): char {
    if 'A' <= c <= 'Z' then (c as int + 32) as char else c
  }

  /** `s.toLowerCase()`, restricted to ASCII upper-case letters. */
  function LowerAscii(s: string): (r: string)
    ensures |r| == |s|
    ensures forall i :: 0 <= i < |s| ==> r[i] == LowerChar(s[i])
    ensures forall i :: 0 <= i < |r| ==> !('A' <= r[i] <= 'Z')
  {
    if s == [] then [] else [LowerChar(s[0])] + LowerAscii(s[1..])
  }

  /** The characters JavaScript's `String.prototype.trim` removes: the
      WhiteSpace and LineTerminator productions of ECMAScript. */
  predicate IsWhitespace(c: char) {
    c == '\t' || c == '\n' || c == '\U{000B}' || c == '\U{000C}' || c == '\r' || c == ' '
    || c == '\U{00A0}' || c == '\U{1680}' || ('\U{2000}' <= c <= '\U{200A}')
    || c == '\U{2028}' || c == '\U{2029}' || c == '\U{202F}' || c == '\U{205F}'
    || c == '\U{3000}' || c == '\U{FEFF}'
  }

  /** Drops leading whitespace. */
  function TrimStart(s: string): (r: string)
    ensures |r| <= |s| && r == s[|s| - |r|..]
    ensures r == [] || !IsWhitespace(r[0])
    ensures forall i :: 0 <= i < |s| - |r| ==> IsWhitespace(s[i])
  {
    if s != [] && IsWhitespace(s[0]) then TrimStart(s[1..]) else s
  }

  /** Drops trailing whitespace. */
  function TrimEnd(s: string): (r: string)
    ensures |r| <= |s| && r == s[..|r|]
    ensures r == [] || !IsWhitespace(r[|r| - 1])
    ensures forall i :: |r| <= i < |s| ==> IsWhitespace(s[i])
  {
    if s != [] && IsWhitespace(s[|s| - 1]) then TrimEnd(s[..|s| - 1]) else s
  }

  /** `s.trim()` */
  function Trim(s: string): string {
    TrimEnd(TrimStart(s))
  }

  /** A string trims to "" exactly when it is all whitespace, which is
      the condition under which the chat forms ignore a submission. */
  lemma TrimEmptyIff(s: string)
    ensures Trim(s) == "" <==> forall i :: 0 <= i < |s| ==> IsWhitespace(s[i])
  {
    var t := TrimStart(s);
    if Trim(s) != "" {
      var k := |s| - |t|;
      assert t[0] == s[k];
    }
  }

  /** `parts.join(sep)` */
  function Join(parts: seq<string>, sep: string): string {
    if parts == [] then ""
    else if |parts| == 1 then parts[0]
    else parts[0] + sep + Join(parts[1..], sep)
  }

  /** Appending one more part adds the separator and that part at the end. */
  lemma {:induction false} JoinSnoc(parts: seq<string>, sep: string, last: string)
    requires parts != []
    ensures Join(parts + [last], sep) == Join(parts, sep) + sep + last
  {
    if |parts| == 1 {
      assert parts + [last] == [parts[0], last];
      assert [parts[0], last][1..] == [last];
    } else {
      assert (parts + [last])[1..] == parts[1..] + [last];
      JoinSnoc(parts[1..], sep, last);
    }
  }

  /** The joined string begins with the first part. */
  lemma {:induction false} JoinStartsWithFirst(parts: seq<string>, sep: string)
    requires parts != []
    ensures StartsWith(Join(parts, sep), parts[0])
  {
    if |parts| > 1 {
      assert Join(parts, sep) == parts[0] + (sep + Join(parts[1..], sep));
    }
  }

  /** The joined string ends with the last part. */
  lemma {:induction false} JoinEndsWithLast(parts: seq<string>, sep: string)
    requires parts != []
    ensures EndsWith(Join(parts, sep), parts[|parts| - 1])
  {
    if |parts| > 1 {
      JoinEndsWithLast(parts[1..], sep);
      var tail := Join(parts[1..], sep);
      var last := parts[|parts| - 1];
      assert Join(parts, sep) == (parts[0] + sep) + tail;
      assert (parts[0] + sep + tail)[|parts[0] + sep + tail| - |last|..] == tail[|tail| - |last|..];
    }
  }

  /** Appending one part: the join ends with the old last part, the
      separator and the new part. */
  lemma JoinSnocEndsWith(parts: seq<string>, sep: string, last: string)
    requires parts != []
    ensures EndsWith(Join(parts + [last], sep), parts[|parts| - 1] + sep + last)
  {
    var j := Join(parts, sep);
    var tail := sep + last;
    JoinSnoc(parts, sep, last);
    JoinEndsWithLast(parts, sep);
    EndsWithAppend(j, parts[|parts| - 1], tail);
    assert j + tail == j + sep + last;
    assert parts[|parts| - 1] + tail == parts[|parts| - 1] + sep + last;
  }

  /** Every part occurs in the joined string. */
  lemma {:induction false} JoinContainsEach(parts: seq<string>, sep: string, k: nat)
    requires k < |parts|
    ensures Contains(Join(parts, sep), parts[k])
  {
    var j := Join(parts, sep);
    if k == 0 {
      JoinStartsWithFirst(parts, sep);
      assert OccursAt(j, parts[0], 0);
    } else {
      JoinContainsEach(parts[1..], sep, k - 1);
      var tail := Join(parts[1..], sep);
      var i :| 0 <= i <= |tail| - |parts[k]| && OccursAt(tail, parts[k], i);
      OccursAfter(parts[0] + sep, tail, parts[k], i);
      assert j == (parts[0] + sep) + tail;
    }
  }

  /** A history whose turns alternate user, model, user, model, ... and
      that ends with a model turn: what a run of completed exchanges
      leaves behind. */
  predicate Alternating(h: seq<Turn>) {
    |h| % 2 == 0 && forall i :: 0 <= i < |h| ==> h[i].role == (if i % 2 == 0 then User else Model)
  }

  /** A completed exchange keeps the history alternating. */
  lemma AlternatingExchange(h: seq<Turn>, question: string, answer: string)
    requires Alternating(h)
    ensures Alternating(h + [Turn(User, question), Turn(Model, answer)])
  {
    var h' := h + [Turn(User, question), Turn(Model, answer)];
    forall i | 0 <= i < |h'| ensures h'[i].role == (if i % 2 == 0 then User else Model) {
      if i == |h| {
        assert h'[i] == Turn(User, question);
      } else if i == |h| + 1 {
        assert h'[i] == Turn(Model, answer);
      } else {
        assert h'[i] == h[i];
      }
    }
  }

  /** `history.pop()`, whose result is discarded: an empty array stays empty. */
  function Pop(h: seq<Turn>): (r: seq<Turn>)
    ensures h == [] ==> r == []
    ensures h != [] ==> |r| == |h| - 1 && r == h[..|h| - 1]
  {
    if h == [] then h else h[..|h| - 1]
  }

  /** Decimal rendering of a status code inside a template literal. */
  function NatToString(n: nat): (r: string)
    ensures r != []
    ensures forall i :: 0 <= i < |r| ==> '0' <= r[i] <= '9'
    ensures r[0] == '0' ==> n == 0
  {
    if n < 10 then [DigitChar(n)]
    else NatToString(n / 10) + [DigitChar(n % 10)]
  }

  function DigitChar(d: nat): (c: char)
    requires d < 10
    ensures '0' <= c <= '9' && c as int - '0' as int == d
  {
    ('0' as int + d) as char
  }
}
