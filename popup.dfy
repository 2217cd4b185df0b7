/** The toolbar popup: its start-up sequence (server health, key on file,
    token), the submit handler, and the push / pop protocol `sendToAPI`
    runs over `conversationHistory`, which rolls back differently from the
    content script's. */
module Popup {
  import opened Common

  const NoReplyText: string := "Không có phản hồi."
  const NoTokenText: string := "Chưa có token. Vui lòng đợi kết nối server."
  const ErrorPrefix: string := "Lỗi: "
  const BadFormatText: string := "API key không hợp lệ hoặc sai định dạng."
  const ForbiddenText: string := "API key không có quyền truy cập hoặc đã bị vô hiệu hóa."
  const RateLimitText: string := "API key đã vượt quá giới hạn yêu cầu. Vui lòng đợi hoặc tạo API key mới."

  /** The statuses `sendToAPI` treats as a problem with the user's key. */
  predicate KeyErrorStatus(status: nat) {
    status == 400 || status == 403 || status == 429
  }

  /** `getApiErrorMessage`: fixed texts for the key errors, otherwise the
      server's `error` field, otherwise `Lỗi API (<status>)`. The text is
      never empty. */
  function ApiErrorMessage(status: nat, error: Option<string>): (r: string)
    ensures r != ""
    ensures status == 400 ==> r == BadFormatText
    ensures status == 403 ==> r == ForbiddenText
    ensures status == 429 ==> r == RateLimitText
    ensures !KeyErrorStatus(status) && Truthy(error) ==> r == error.value
    ensures !KeyErrorStatus(status) && !Truthy(error) ==> r == "Lỗi API (" + NatToString(status) + ")"
  {
    if status == 400 then BadFormatText
    else if status == 403 then ForbiddenText
    else if status == 429 then RateLimitText
    else OrElse(error, "Lỗi API (" + NatToString(status) + ")")
  }

  /** The history after a turn of `sendToAPI`: pushed, then popped once
      when the call throws or the status is a key error, popped once more
      by the `catch` for any other error status, and completed by the
      model's reply on success. */
  function HistoryAfterTurn(h: seq<Turn>, question: string, outcome: HttpOutcome): (r: seq<Turn>)
    ensures outcome.FetchFailed? ==> r == h
    ensures outcome.Responded? && IsOk(outcome.status) ==>
              |r| == |h| + 2 && r[..|h|] == h && r[|h|] == Turn(User, question)
              && r[|h| + 1] == Turn(Model, OrElse(outcome.reply, NoReplyText))
    ensures outcome.Responded? && KeyErrorStatus(outcome.status) ==> r == h
    ensures outcome.Responded? && !IsOk(outcome.status) && !KeyErrorStatus(outcome.status) ==>
              |r| == (if h == [] then 0 else |h| - 1) && r == h[..|r|]
  {
    match outcome
    case FetchFailed(_) => h
    case Responded(status, reply, _) =>
      if IsOk(status) then h + [Turn(User, question), Turn(Model, OrElse(reply, NoReplyText))]
      else if KeyErrorStatus(status) then h
      else Pop(h)
  }

  /** The bot message `sendToAPI` adds: the reply (or a fixed text) on
      success, the key error's own text for 400, 403 and 429, and the
      error prefix before the thrown message otherwise. */
  function ShownAfterTurn(outcome: HttpOutcome): (r: string)
    ensures outcome.Responded? && IsOk(outcome.status) && Truthy(outcome.reply) ==> r == outcome.reply.value
    ensures outcome.Responded? && IsOk(outcome.status) && !Truthy(outcome.reply) ==> r == NoReplyText
    ensures outcome.Responded? && KeyErrorStatus(outcome.status) ==> r == ApiErrorMessage(outcome.status, outcome.error)
    ensures outcome.Responded? && !IsOk(outcome.status) && !KeyErrorStatus(outcome.status) ==>
              && StartsWith(r, ErrorPrefix)
              && (Truthy(outcome.error) ==> r == ErrorPrefix + outcome.error.value)
              && (!Truthy(outcome.error) ==> r == ErrorPrefix + "Server error: " + NatToString(outcome.status))
    ensures outcome.FetchFailed? ==> r == ErrorPrefix + outcome.message
  {
    match outcome
    case FetchFailed(m) => ErrorPrefix + m
    case Responded(status, reply, error) =>
      if IsOk(status) then OrElse(reply, NoReplyText)
      else if KeyErrorStatus(status) then ApiErrorMessage(status, error)
      else ErrorPrefix + OrElse(error, "Server error: " + NatToString(status))
  }

  /** Only an error status outside the key errors breaks the alternation of
      user and model turns; every other outcome keeps it. */
  lemma HistoryAfterTurnAlternation(h: seq<Turn>, question: string, outcome: HttpOutcome)
    requires Alternating(h)
    ensures !(outcome.Responded? && !IsOk(outcome.status) && !KeyErrorStatus(outcome.status)) ==>
              Alternating(HistoryAfterTurn(h, question, outcome))
    ensures outcome.Responded? && !IsOk(outcome.status) && !KeyErrorStatus(outcome.status) && h != [] ==>
              var r := HistoryAfterTurn(h, question, outcome);
              !Alternating(r) && r[|r| - 1].role == User
  {
    if outcome.Responded? && IsOk(outcome.status) {
      AlternatingExchange(h, question, OrElse(outcome.reply, NoReplyText));
    }
    if outcome.Responded? && !IsOk(outcome.status) && !KeyErrorStatus(outcome.status) && h != [] {
      var r := HistoryAfterTurn(h, question, outcome);
      assert r[|r| - 1] == h[|h| - 2];
    }
  }

  /** The token after the popup's `getToken`, which throws on an error
      status and so keeps the old token then. */
  function TokenAfterFetch(token: Option<string>, fetch: TokenFetch): (r: Option<string>)
    ensures fetch.TokenResponse? && IsOk(fetch.status) ==> r == fetch.token
    ensures !(fetch.TokenResponse? && IsOk(fetch.status)) ==> r == token
  {
    match fetch
    case TokenUnreachable => token
    case TokenResponse(status, t) => if IsOk(status) then t else token
  }

  /** Where `initializeSession` stopped. */
  datatype SessionStage = ServerDown | KeyMissing | TokenRequested

  /** The module-level state of the popup script. */
  class PopupSession {
    /** `token` */
    var token: Option<string>
    /** `conversationHistory` */
    var conversationHistory: seq<Turn>

    /** The page's load handler up to `initializeSession`: `loadChat` with
        the history saved in local storage, if any. */
    constructor (saved: Option<seq<Turn>>)
      ensures token == None
      ensures conversationHistory == (if saved.Some? then saved.value else [])
    {
      token := None;
      conversationHistory := if saved.Some? then saved.value else [];
    }

    /** `getToken` */
    method GetToken(fetch: TokenFetch)
      modifies this`token
      ensures token == TokenAfterFetch(old(token), fetch)
    {
      match fetch {
        case TokenUnreachable =>
        case TokenResponse(status, t) =>
          if IsOk(status) {
            token := t;
          }
      }
    }

    /** `initializeSession`, given what `checkServerHealth` and
        `checkUserApiKey` found: each step runs only when the one before it
        passed, and only the last one can change the token. */
    method InitializeSession(healthy: bool, check: CheckFetch, fetch: TokenFetch) returns (stage: SessionStage)
      modifies this`token
      ensures stage == ServerDown <==> !healthy
      ensures stage == KeyMissing <==> healthy && !HasApiKey(check)
      ensures stage == TokenRequested <==> healthy && HasApiKey(check)
      ensures token == (if stage == TokenRequested then TokenAfterFetch(old(token), fetch) else old(token))
      ensures conversationHistory == old(conversationHistory)
    {
      if !healthy {
        return ServerDown;
      }
      if !HasApiKey(check) {
        return KeyMissing;
      }
      GetToken(fetch);
      stage := TokenRequested;
    }

    /** `sendToAPI`: returns the body posted to `/api/ask`, whether the key
        form is shown, and the bot message added. */
    method SendToAPI(question: string, outcome: HttpOutcome) returns (request: AskRequest, keyPopup: bool, shown: string)
      modifies this`conversationHistory
      ensures request == AskRequest(question, token, old(conversationHistory), None)
      ensures conversationHistory == HistoryAfterTurn(old(conversationHistory), question, outcome)
      ensures keyPopup <==> outcome.Responded? && KeyErrorStatus(outcome.status)
      ensures shown == ShownAfterTurn(outcome)
    {
      keyPopup := false;
      conversationHistory := conversationHistory + [Turn(User, question)];
      request := AskRequest(question, token, conversationHistory[..|conversationHistory| - 1], None);
      match outcome {
        case FetchFailed(message) =>
          conversationHistory := Pop(conversationHistory);
          shown := ErrorPrefix + message;
        case Responded(status, reply, error) =>
          if !IsOk(status) {
            conversationHistory := Pop(conversationHistory);
            if status == 400 || status == 403 || status == 429 {
              shown := ApiErrorMessage(status, error);
              keyPopup := true;
              return;
            }
            conversationHistory := Pop(conversationHistory);
            shown := ErrorPrefix + OrElse(error, "Server error: " + NatToString(status));
          } else {
            var answer := OrElse(reply, NoReplyText);
            conversationHistory := conversationHistory + [Turn(Model, answer)];
            shown := answer;
          }
      }
    }

    /** `handleSubmit`: a text that trims to nothing is ignored, and without
        a token only a notice is shown; otherwise the trimmed text is sent. */
    method HandleSubmit(input: string, outcome: HttpOutcome) returns (request: Option<AskRequest>, notice: Option<string>)
      modifies this`conversationHistory
      ensures Trim(input) == "" ==> request == None && notice == None
      ensures Trim(input) != "" && !Truthy(token) ==> request == None && notice == Some(NoTokenText)
      ensures request == None ==> conversationHistory == old(conversationHistory)
      ensures Trim(input) != "" && Truthy(token) ==>
                && request == Some(AskRequest(Trim(input), token, old(conversationHistory), None))
                && conversationHistory == HistoryAfterTurn(old(conversationHistory), Trim(input), outcome)
                && notice == None
    {
      var text := Trim(input);
      if text == "" {
        return None, None;
      }
      if !Truthy(token) {
        return None, Some(NoTokenText);
      }
      var sent, keyPopup, shown := SendToAPI(text, outcome);
      request, notice := Some(sent), None;
    }

    /** The `beforeunload` handler: a truthy token is sent to
        `/release-token` (returned here); nothing else changes. */
    method Unload() returns (released: Option<string>)
      ensures Truthy(token) <==> released.Some?
      ensures released.Some? ==> released == token
    {
      released := if Truthy(token) then token else None;
    }

    /** `clearHistory`, given the answer to its `confirm` dialog. */
    method ClearHistory(confirmed: bool)
      modifies this`conversationHistory
      ensures conversationHistory == (if confirmed then [] else old(conversationHistory))
    {
      if confirmed {
        conversationHistory := [];
      }
    }
  }
}
