/** How the two clients and the broker meet on `/api/ask`: the JSON the
    server answers with, which route each client's request takes, and what
    a client's history looks like after the server's answer. */
module Wire {
  import opened Common
  import Server
  import Content
  import Popup
  import ServerFacts

  /** `sendJson` for `/api/ask`: a reply is sent with status 200 in the
      `reply` field, a failure with its status in the `error` field. */
  function ToHttp(r: Server.AskReply): (o: HttpOutcome)
    ensures o.Responded?
    ensures r.Answered? ==> o.status == 200
    ensures r.Answered? ==> o.reply == Some(r.reply)
    ensures r.Failed? ==> o.status == r.status && o.error == Some(r.error)
  {
    match r
    case Answered(reply, _) => Responded(200, Some(reply), None)
    case Failed(status, error) => Responded(status, None, Some(error))
  }

  /** The content script's exam and teacher modes are exactly the modes
      the server serves from the shared pool, and each mode gets its own
      instruction. */
  lemma ContentModeRouting(m: Content.Mode)
    ensures Server.SharedMode(Some(Content.ModeName(m))) <==> m != Content.Practice
    ensures Server.InstructionFor(Some(Content.ModeName(m))) ==
              match m
              case Practice => Server.PracticeInstruction
              case Exam => Server.ExamInstruction
              case TeacherMode => Server.TeacherInstruction
  {
    assert "practice"[0] != "exam"[0] && "practice"[0] != "teacher"[0];
  }

  /** The popup never sends a `mode`, so every popup question takes the
      token-required path: without an active token it is refused with 401
      before any backend call and the shared cursor does not move. */
  lemma PopupRequestNeedsToken(pool: seq<string>, cursor: nat, tokens: map<string, Server.TokenBinding>,
                               question: string, token: Option<string>, h: seq<Turn>,
                               gen: Server.Call -> Server.GenOutcome)
    requires cursor < |pool|
    ensures var r := Server.AskSpec(pool, cursor, tokens, AskRequest(question, token, h, None), gen);
      && r.cursor == cursor
      && (r.reply == Server.Failed(401, Server.PracticeKeyRequired) <==> !(Truthy(token) && token.value in tokens))
      && (!(Truthy(token) && token.value in tokens) ==> r.calls == [])
  {
    ServerFacts.AskPersonalModes(pool, cursor, tokens, AskRequest(question, token, h, None), gen);
  }

  /** On a key error (400, 403 or 429) the popup keeps its history as it
      was, while the content script also drops the previous turn. */
  lemma ClientsDisagreeOnKeyErrors(h: seq<Turn>, prompt: string, status: nat, error: Option<string>)
    requires Popup.KeyErrorStatus(status) && h != []
    ensures Popup.HistoryAfterTurn(h, prompt, Responded(status, None, error)) == h
    ensures Content.HistoryAfterSend(h, prompt, Responded(status, None, error)) == h[..|h| - 1]
  {
  }

  /** A content-script turn in exam or teacher mode carries no token (none
      is needed there). When the backend does generate a reply, the server
      still answers 500 with the TypeError of `token.substring`, and the
      content script then rolls its history back past the previous
      exchange. */
  lemma TokenlessSharedTurnRollsBack(pool: seq<string>, cursor: nat, tokens: map<string, Server.TokenBinding>,
                                     h: seq<Turn>, prompt: string, m: Content.Mode,
                                     gen: Server.Call -> Server.GenOutcome)
    requires cursor < |pool| && m != Content.Practice
    requires !(m == Content.Exam && Server.ExamFilterRefuses(prompt))
    requires gen(Server.Call(pool[cursor], Server.Models[0], Server.InstructionFor(Some(Content.ModeName(m))),
                             h + [Turn(User, prompt)])).Generated?
    ensures var req := AskRequest(prompt, None, h, Some(Content.ModeName(m)));
      var answer := ToHttp(Server.AskSpec(pool, cursor, tokens, req, gen).reply);
      && answer == Responded(500, None, Some(Server.NullTokenMessage))
      && Content.HistoryAfterSend(h, prompt, answer) == Pop(h)
      && Content.FailureText(answer) == Content.ErrorPrefix + Server.NullTokenMessage
  {
    ContentModeRouting(m);
    var req := AskRequest(prompt, None, h, Some(Content.ModeName(m)));
    assert req.mode == Some("exam") ==> m == Content.Exam;
    ServerFacts.AskTokenlessSuccessFails(pool, cursor, tokens, req, gen);
  }
}
