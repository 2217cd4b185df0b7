/** The broker of `src/server/index.js`: the `users` and `activeTokens`
    maps, the round-robin cursor over the shared key pool, and the handlers
    of `/check-user`, `/test-api-key`, `/save-api-key`, `/get-token`,
    `/release-token` and `/api/ask`. HTTP parsing and routing are left
    out: each handler takes the fields of its parsed JSON body, with an
    absent string field written as "" (both are falsy in the source). */
module Server {
  import opened Common

  /** The number of entries of `SHARED_API_KEYS`. */
  const PoolSize: nat := 12

  /** `MODELS` of the `/api/ask` handler, tried in order. */
  const Models: seq<string> := ["gemini-2.5-flash"]

  /** The `model` field of a reply the exam filter produced. */
  const FilteredModel: string := "filtered"

  const MissingKeyMessage: string := "Missing API key"
  const FormatValidMessage: string := "API key format is valid"
  const FormatInvalidMessage: string := "API key format không hợp lệ. Key phải bắt đầu bằng AIza..."
  const MissingDataMessage: string := "Missing data"
  const NoUserMessage: string := "User not found or no API key"
  const PracticeKeyRequired: string := "Chế độ luyện tập cần API key. Vui lòng nhập API key của bạn."
  const RefusalText: string := "Xin lỗi, trong giờ thực hành mình không thể hướng dẫn về cú pháp, cách viết code hay cách giải bài. Bạn cần tự nhớ và áp dụng kiến thức đã học.\n\nNếu bạn cần giải thích đề bài, hãy hỏi cụ thể như: \"Giải thích đề bài này\", \"Output này tính như thế nào?\", \"Không hiểu yêu cầu bài\"..."
  const QuotaText: string := "Tất cả model đều hết quota. Vui lòng đợi vài phút hoặc tạo API key mới."
  const InvalidKeyText: string := "API key không hợp lệ"
  const UnknownErrorText: string := "Unknown error"

  /** The message of the TypeError thrown by `token.substring(0, 8)` when
      the request carried no token. */
  const NullTokenMessage: string := "Cannot read properties of null (reading 'substring')"

  /** The phrases that mark an exam question as being about the statement. */
  const AllowedPatterns: seq<string> := [
    "giải thích đề", "giai thich de",
    "giải thích bài", "giai thich bai",
    "giải thích output", "giai thich output",
    "giải thích input", "giai thich input",
    "giải thích ví dụ", "giai thich vi du",
    "giải thích test", "giai thich test",
    "không hiểu đề", "khong hieu de",
    "không hiểu output", "khong hieu output",
    "không hiểu input", "khong hieu input",
    "không hiểu bài", "khong hieu bai",
    "output là gì", "output la gi",
    "input là gì", "input la gi",
    "đề bài", "de bai",
    "yêu cầu bài", "yeu cau bai",
    "ý nghĩa", "y nghia",
    "nghĩa là gì", "nghia la gi",
    "có nghĩa là", "co nghia la"
  ]

  /** The phrases that mark an exam question as asking for syntax or a solution. */
  const SyntaxPatterns: seq<string> := [
    "cú pháp", "cu phap", "syntax",
    "cách viết", "cach viet", "viết như thế nào", "viết thế nào",
    "cách khai báo", "cach khai bao",
    "cách dùng", "cach dung", "cách sử dụng", "cach su dung",
    "printf như thế nào", "cout như thế nào",
    "scanf như thế nào", "cin như thế nào",
    "viết hàm", "viet ham",
    "viết vòng lặp", "viet vong lap",
    "viết mảng", "viet mang",
    "viết if", "viết for", "viết while",
    "khai báo biến", "khai bao bien",
    "khai báo mảng", "khai bao mang",
    "khai báo hàm", "khai bao ham",
    "code mẫu", "code mau",
    "cho tôi code", "cho toi code", "cho mình code", "cho minh code",
    "viết code", "viet code",
    "giải bài này", "giai bai nay",
    "làm bài này", "lam bai nay",
    "hướng dẫn giải", "huong dan giai",
    "cách giải", "cach giai"
  ]

  /** An entry of `users`. */
  datatype UserRecord = UserRecord(name: string, apiKey: string)

  /** An entry of `activeTokens`. */
  datatype TokenBinding = TokenBinding(apiKey: string, studentCode: string)

  /** The body of a `/check-user` answer (always status 200). */
  datatype UserCheck = UserCheck(found: bool, hasApiKey: bool)

  /** A `{ success, message }` answer with its status. */
  datatype Reply = Reply(status: nat, success: bool, message: string)

  /** A `/get-token` answer: 200 with a token, or 400 with an error. */
  datatype TokenReply = Issued(token: string) | NotIssued(status: nat, error: string)

  /** An `/api/ask` answer: 200 with `{ reply, model }`, or an error status. */
  datatype AskReply = Answered(reply: string, model: string) | Failed(status: nat, error: string)

  /** The three system instructions; their texts are static data. */
  datatype Instruction = ExamInstruction | TeacherInstruction | PracticeInstruction

  /** One `generateContent` call: the credential, the model, the system
      instruction and the contents (prior history, then the prompt). */
  datatype Call = Call(apiKey: string, model: string, instruction: Instruction, contents: seq<Turn>)

  /** What the backend does with a call: a reply text, or an error message. */
  datatype GenOutcome = Generated(text: string) | GenError(message: string)

  /** What one pass through the `try` block of the model loop ends with. */
  datatype Attempt = Succeeded(reply: string) | Threw(message: string)

  /** The answer of `/api/ask`, the backend calls made, and the new cursor. */
  datatype AskResult = AskResult(reply: AskReply, calls: seq<Call>, cursor: nat)

  // ---------------------------------------------------------------------
  // Pure parts of the handlers

  /** `/test-api-key`: a format check only, the backend is never called. */
  function TestApiKey(apiKey: string): (r: Reply)
    ensures r.status == 400 <==> apiKey == ""
    ensures r.status == 200 || r.status == 400
    ensures r.success <==> StartsWith(apiKey, "AIza") && |apiKey| >= 30
  {
    if apiKey == "" then Reply(400, false, MissingKeyMessage)
    else if StartsWith(apiKey, "AIza") && |apiKey| >= 30 then Reply(200, true, FormatValidMessage)
    else Reply(200, false, FormatInvalidMessage)
  }

  /** Modes served from the shared pool, with no personal token. */
  predicate SharedMode(mode: Option<string>) {
    mode == Some("exam") || mode == Some("teacher")
  }

  /** `patterns.some(pattern => text.includes(pattern))` */
  predicate MatchesAny(text: string, patterns: seq<string>) {
    exists k :: 0 <= k < |patterns| && Contains(text, patterns[k])
  }

  /** The exam filter's decision on the lower-cased prompt. */
  predicate RefusesLowered(promptLower: string) {
    MatchesAny(promptLower, SyntaxPatterns) && !MatchesAny(promptLower, AllowedPatterns)
  }

  /** `isSyntaxQuestion && !isAboutProblem` on `prompt.toLowerCase()`:
      an exam prompt is refused exactly when, once lower-cased, it contains
      a syntax phrase and no phrase about the problem; one allowed phrase
      is enough to let it through. */
  function ExamFilterRefuses(prompt: string): (r: bool)
    ensures r <==> (exists k :: 0 <= k < |SyntaxPatterns| && Contains(LowerAscii(prompt), SyntaxPatterns[k]))
                   && (forall k :: 0 <= k < |AllowedPatterns| ==> !Contains(LowerAscii(prompt), AllowedPatterns[k]))
  {
    RefusesLowered(LowerAscii(prompt))
  }

  /** The system instruction of a mode: exam and teacher have their own,
      every other value (absent included) gets the practice one. */
  function InstructionFor(mode: Option<string>): (i: Instruction)
    ensures i == ExamInstruction <==> mode == Some("exam")
    ensures i == TeacherInstruction <==> mode == Some("teacher")
    ensures i == PracticeInstruction <==> !SharedMode(mode)
  {
    if mode == Some("exam") then ExamInstruction
    else if mode == Some("teacher") then TeacherInstruction
    else PracticeInstruction
  }

  /** The loop goes on to the next model only after such an error. */
  predicate Retryable(message: string) {
    Contains(message, "429") || Contains(message, "quota")
  }

  /** One pass through the `try` block: a generated reply still throws when
      the request carried no token, at `token.substring(0, 8)`. */
  function AttemptOf(outcome: GenOutcome, token: Option<string>): (a: Attempt)
    ensures a.Succeeded? <==> outcome.Generated? && token.Some?
    ensures a.Succeeded? ==> a.reply == outcome.text
    ensures outcome.GenError? ==> a == Threw(outcome.message)
    ensures outcome.Generated? && token.None? ==> a == Threw(NullTokenMessage)
  {
    match outcome
    case GenError(m) => Threw(m)
    case Generated(text) => if token.Some? then Succeeded(text) else Threw(NullTokenMessage)
  }

  /** The status chosen after the loop from the last error. */
  function FinalError(lastError: Option<string>): (r: AskReply)
    ensures r.Failed? && (r.status == 429 || r.status == 403 || r.status == 500)
  {
    if lastError.Some? && (Contains(lastError.value, "quota") || Contains(lastError.value, "429")) then
      Failed(429, QuotaText)
    else if lastError.Some? && (Contains(lastError.value, "API key") || Contains(lastError.value, "403")) then
      Failed(403, InvalidKeyText)
    else
      Failed(500, OrElse(lastError, UnknownErrorText))
  }

  /** The model loop, from model `models[0]` on, with `lastError` so far. */
  function ModelLoop(models: seq<string>, apiKey: string, instruction: Instruction, contents: seq<Turn>,
                     gen: Call -> GenOutcome, token: Option<string>, lastError: Option<string>): (r: (AskReply, seq<Call>))
    ensures |r.1| <= |models|
    ensures models != [] ==> r.1 != []
    ensures forall j :: 0 <= j < |r.1| ==> r.1[j] == Call(apiKey, models[j], instruction, contents)
    decreases |models|
  {
    if models == [] then (FinalError(lastError), [])
    else
      var call := Call(apiKey, models[0], instruction, contents);
      match AttemptOf(gen(call), token)
      case Succeeded(text) => (Answered(text, models[0]), [call])
      case Threw(m) =>
        if Retryable(m) then
          var rest := ModelLoop(models[1..], apiKey, instruction, contents, gen, token, Some(m));
          (rest.0, [call] + rest.1)
        else
          (FinalError(Some(m)), [call])
  }

  /** The decision of `/api/ask`, as a function of the broker state. */
  function AskSpec(pool: seq<string>, cursor: nat, tokens: map<string, TokenBinding>,
                   req: AskRequest, gen: Call -> GenOutcome): AskResult
    requires cursor < |pool|
  {
    if SharedMode(req.mode) then
      Route(pool[cursor], req, gen, (cursor + 1) % |pool|)
    else if !Truthy(req.token) || req.token.value !in tokens then
      AskResult(Failed(401, PracticeKeyRequired), [], cursor)
    else
      Route(tokens[req.token.value].apiKey, req, gen, cursor)
  }

  /** Everything after the credential has been chosen. */
  function Route(apiKey: string, req: AskRequest, gen: Call -> GenOutcome, cursor: nat): AskResult {
    if req.mode == Some("exam") && ExamFilterRefuses(req.prompt) then
      AskResult(Answered(RefusalText, FilteredModel), [], cursor)
    else
      var r := ModelLoop(Models, apiKey, InstructionFor(req.mode), req.history + [Turn(User, req.prompt)],
                         gen, req.token, None);
      AskResult(r.0, r.1, cursor)
  }

  /** The `for (const modelName of MODELS)` loop and the status mapping after it. */
  method RunModels(apiKey: string, instruction: Instruction, contents: seq<Turn>,
                   gen: Call -> GenOutcome, token: Option<string>) returns (reply: AskReply, calls: seq<Call>)
    ensures (reply, calls) == ModelLoop(Models, apiKey, instruction, contents, gen, token, None)
  {
    var lastError: Option<string> := None;
    calls := [];
    ghost var whole := ModelLoop(Models, apiKey, instruction, contents, gen, token, None);
    var i := 0;
    assert Models[0..] == Models;
    while i < |Models|
      invariant 0 <= i <= |Models|
      invariant whole.0 == ModelLoop(Models[i..], apiKey, instruction, contents, gen, token, lastError).0
      invariant whole.1 == calls + ModelLoop(Models[i..], apiKey, instruction, contents, gen, token, lastError).1
    {
      var call := Call(apiKey, Models[i], instruction, contents);
      assert Models[i..][0] == Models[i];
      calls := calls + [call];
      match AttemptOf(gen(call), token)
      case Succeeded(text) =>
        reply := Answered(text, Models[i]);
        assert whole == (reply, calls);
        return;
      case Threw(m) =>
        lastError := Some(m);
        if !Retryable(m) {
          reply := FinalError(lastError);
          assert whole == (reply, calls);
          return;
        }
      assert Models[i..][1..] == Models[i + 1..];
      i := i + 1;
    }
    assert Models[i..] == [];
    reply := FinalError(lastError);
    assert calls + [] == calls;
  }

  // ---------------------------------------------------------------------
  // The broker's state and handlers

  class Broker {
    /** `SHARED_API_KEYS` */
    const pool: seq<string>
    /** `currentKeyIndex` */
    var cursor: nat
    /** `users`: student code to name and API key */
    var users: map<string, UserRecord>
    /** `activeTokens`: token to API key and student code */
    var activeTokens: map<string, TokenBinding>
    /** Every shared key handed out so far, in order. */
    ghost var drawn: seq<string>

    ghost predicate Valid()
      reads this
    {
      && |pool| == PoolSize
      && cursor == |drawn| % PoolSize
      && (forall i :: 0 <= i < |drawn| ==> drawn[i] == pool[i % PoolSize])
      && (forall t :: t in activeTokens ==>
            activeTokens[t].studentCode in users && activeTokens[t].apiKey != "")
    }

    constructor (sharedKeys: seq<string>)
      requires |sharedKeys| == PoolSize
      ensures Valid()
      ensures pool == sharedKeys && cursor == 0 && drawn == []
      ensures users == map[] && activeTokens == map[]
    {
      pool := sharedKeys;
      cursor := 0;
      users := map[];
      activeTokens := map[];
      drawn := [];
    }

    /** `getNextSharedApiKey` */
    method NextSharedKey() returns (key: string)
      requires Valid()
      modifies this`cursor, this`drawn
      ensures Valid()
      ensures key == pool[old(cursor)] && cursor == (old(cursor) + 1) % |pool|
      ensures drawn == old(drawn) + [key]
    {
      key := pool[cursor];
      cursor := (cursor + 1) % |pool|;
      drawn := drawn + [key];
    }

    /** `/check-user` */
    method CheckUser(studentCode: string) returns (r: UserCheck)
      ensures r.found <==> studentCode in users
      ensures r.hasApiKey <==> studentCode in users && users[studentCode].apiKey != ""
    {
      if studentCode in users {
        r := UserCheck(true, users[studentCode].apiKey != "");
      } else {
        r := UserCheck(false, false);
      }
    }

    /** `/save-api-key`: an upsert that touches only the given code. */
    method SaveApiKey(studentCode: string, name: string, apiKey: string) returns (r: Reply)
      requires Valid()
      modifies this`users
      ensures Valid()
      ensures studentCode == "" || apiKey == "" ==>
                r == Reply(400, false, MissingDataMessage) && users == old(users)
      ensures studentCode != "" && apiKey != "" ==>
                r.status == 200 && r.success &&
                users == old(users)[studentCode := UserRecord(if name == "" then "User" else name, apiKey)]
    {
      if studentCode == "" || apiKey == "" {
        return Reply(400, false, MissingDataMessage);
      }
      users := users[studentCode := UserRecord(if name == "" then "User" else name, apiKey)];
      r := Reply(200, true, "");
    }

    /** `/get-token`; `uuid` is the fresh value `uuidv4()` produced. */
    method GetToken(studentCode: string, uuid: string) returns (r: TokenReply)
      requires Valid()
      requires uuid != "" && uuid !in activeTokens
      modifies this`activeTokens
      ensures Valid()
      ensures r.NotIssued? <==> studentCode !in users || users[studentCode].apiKey == ""
      ensures r.NotIssued? ==> r == NotIssued(400, NoUserMessage) && activeTokens == old(activeTokens)
      ensures r.Issued? ==>
                r.token == uuid &&
                activeTokens == old(activeTokens)[uuid := TokenBinding(users[studentCode].apiKey, studentCode)]
    {
      if studentCode !in users || users[studentCode].apiKey == "" {
        return NotIssued(400, NoUserMessage);
      }
      activeTokens := activeTokens[uuid := TokenBinding(users[studentCode].apiKey, studentCode)];
      r := Issued(uuid);
    }

    /** `/release-token`: always 200 `success: true`. */
    method ReleaseToken(token: Option<string>) returns (r: Reply)
      requires Valid()
      modifies this`activeTokens
      ensures Valid()
      ensures r.status == 200 && r.success
      ensures Truthy(token) ==> activeTokens == old(activeTokens) - {token.value}
      ensures !Truthy(token) ==> activeTokens == old(activeTokens)
      ensures Truthy(token) ==> token.value !in activeTokens
    {
      if Truthy(token) && token.value in activeTokens {
        activeTokens := activeTokens - {token.value};
      }
      r := Reply(200, true, "");
    }

    /** `/api/ask` */
    method Ask(req: AskRequest, gen: Call -> GenOutcome) returns (reply: AskReply, calls: seq<Call>)
      requires Valid()
      modifies this`cursor, this`drawn
      ensures Valid()
      ensures AskResult(reply, calls, cursor) == AskSpec(pool, old(cursor), activeTokens, req, gen)
      ensures SharedMode(req.mode) ==> drawn == old(drawn) + [pool[old(cursor)]]
      ensures !SharedMode(req.mode) ==> drawn == old(drawn)
    {
      var apiKey: string;
      if SharedMode(req.mode) {
        apiKey := NextSharedKey();
      } else {
        if !Truthy(req.token) || req.token.value !in activeTokens {
          return Failed(401, PracticeKeyRequired), [];
        }
        apiKey := activeTokens[req.token.value].apiKey;
      }
      if req.mode == Some("exam") && ExamFilterRefuses(req.prompt) {
        return Answered(RefusalText, FilteredModel), [];
      }
      var instruction := InstructionFor(req.mode);
      var contents := req.history + [Turn(User, req.prompt)];
      reply, calls := RunModels(apiKey, instruction, contents, gen, req.token);
    }
  }
}
