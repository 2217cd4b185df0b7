/** The content script injected into the exercise pages: who the user is,
    which of the three modes the chat runs in, how a mode change wipes the
    conversation, how the chat panel takes and gives back a token, how the
    exam prompt is wrapped with the problem text, and the optimistic
    append / rollback protocol `sendMessage` runs over
    `conversationHistory`. */
module Content {
  import opened Common

  /** `userType` */
  datatype UserType = Student | Teacher

  /** `currentMode`: "practice", "exam" or "teacher". */
  datatype Mode = Practice | Exam | TeacherMode

  /** The mode badge `getModeInfo` returns. */
  datatype Badge = Badge(name: string, color: string, icon: string)

  /** The problem fields `extractProblem` scraped; "" when a field was not found. */
  datatype Problem = Problem(nav: string, description: string, requirements: string,
                             constraints: string, examples: string)

  const UnknownCode: string := "unknown"
  const NoReplyText: string := "Không có phản hồi."
  const PracticeNeedsKeyText: string := "Chế độ Luyện tập cần API key. Vui lòng nhập API key của bạn."
  const ErrorPrefix: string := "Lỗi: "
  const ContextHeader: string := "[THÔNG TIN BÀI TẬP]"
  const ContextEnd: string := "[KẾT THÚC THÔNG TIN BÀI TẬP]\n"

  /** The `mode` string sent to the server. */
  function ModeName(m: Mode): string {
    match m
    case Practice => "practice"
    case Exam => "exam"
    case TeacherMode => "teacher"
  }

  // ---------------------------------------------------------------------
  // Role and mode

  /** `/\d/` */
  predicate IsAsciiDigit(c: char) {
    '0' <= c <= '9'
  }

  /** `[A-Za-z]` */
  predicate IsAsciiLetter(c: char) {
    'A' <= c <= 'Z' || 'a' <= c <= 'z'
  }

  predicate HasDigit(code: string) {
    exists i :: 0 <= i < |code| && IsAsciiDigit(code[i])
  }

  predicate AllLetters(code: string) {
    forall i :: 0 <= i < |code| ==> IsAsciiLetter(code[i])
  }

  /** `detectUserType`: a lecturer's code is letters only, a student's code
      carries digits; the placeholder "unknown" counts as a student. */
  function DetectUserType(code: string): (t: UserType)
    ensures t == Teacher <==> code != "" && code != UnknownCode && AllLetters(code)
    ensures HasDigit(code) ==> t == Student
  {
    if code == "" || code == UnknownCode then Student
    else if HasDigit(code) then Student
    else if AllLetters(code) then Teacher
    else Student
  }

  /** `detectMode`, given whether the page has a `#timeleft` element. */
  function DetectMode(userType: UserType, timeleft: bool): (m: Mode)
    ensures m == TeacherMode <==> userType == Teacher
    ensures m == Exam <==> userType.Student? && timeleft
  {
    if userType == Teacher then TeacherMode
    else if timeleft then Exam
    else Practice
  }

  /** The badge each mode is shown with. */
  function BadgeOf(m: Mode): Badge {
    match m
    case TeacherMode => Badge("Hướng dẫn nghiệp vụ", "#2e7d32", "📚")
    case Exam => Badge("Thực hành", "#ff9800", "📝")
    case Practice => Badge("Luyện tập", "#c62828", "💡")
  }

  /** `getModeInfo`: the user type takes precedence over `currentMode`. */
  function ModeInfo(userType: UserType, currentMode: Mode): (b: Badge)
    ensures userType == Teacher ==> b == BadgeOf(TeacherMode)
    ensures userType == Student ==> b == BadgeOf(if currentMode == Exam then Exam else Practice)
  {
    if userType == Teacher then BadgeOf(TeacherMode)
    else if currentMode == Exam then BadgeOf(Exam)
    else BadgeOf(Practice)
  }

  /** The badge shown always names the mode `detectMode` chose, and
      different modes get different colours. */
  lemma ModeInfoAgreesWithDetectMode(userType: UserType, timeleft: bool)
    ensures ModeInfo(userType, DetectMode(userType, timeleft)) == BadgeOf(DetectMode(userType, timeleft))
    ensures forall m1, m2 :: BadgeOf(m1).color == BadgeOf(m2).color ==> m1 == m2
  {
    assert "#2e7d32"[1] != "#ff9800"[1] && "#2e7d32"[1] != "#c62828"[1] && "#ff9800"[1] != "#c62828"[1];
  }

  // ---------------------------------------------------------------------
  // The exam prompt

  /** The label `buildContextPrompt` puts before field `k`, the fields
      being numbered in the order they are pushed. */
  function FieldLabel(k: nat): string
    requires k < 5
  {
    if k == 0 then "Tiêu đề: "
    else if k == 1 then "Đề bài: "
    else if k == 2 then "Yêu cầu: "
    else if k == 3 then "Ràng buộc: "
    else "Ví dụ: "
  }

  /** Field `k` of the problem: nav, description, requirements,
      constraints, examples. */
  function FieldValue(p: Problem, k: nat): string
    requires k < 5
  {
    if k == 0 then p.nav
    else if k == 1 then p.description
    else if k == 2 then p.requirements
    else if k == 3 then p.constraints
    else p.examples
  }

  /** How many of the first `n` fields are non-empty. */
  function NonEmptyBefore(p: Problem, n: nat): (c: nat)
    requires n <= 5
    ensures c <= n
  {
    if n == 0 then 0
    else NonEmptyBefore(p, n - 1) + (if FieldValue(p, n - 1) != "" then 1 else 0)
  }

  /** `prefix + value` when the field is truthy, nothing otherwise. */
  function Labelled(prefix: string, value: string): seq<string> {
    if value == "" then [] else [prefix + value]
  }

  /** The labelled parts of the first `n` fields, pushed one `if` at a
      time. */
  function FieldParts(p: Problem, n: nat): seq<string>
    requires n <= 5
  {
    if n == 0 then [] else FieldParts(p, n - 1) + Labelled(FieldLabel(n - 1), FieldValue(p, n - 1))
  }

  /** The parts `buildContextPrompt` collects before the user's text. */
  function ContextParts(p: Problem): (r: seq<string>)
    ensures |r| >= 2 && r[0] == ContextHeader && r[|r| - 1] == ContextEnd
  {
    [ContextHeader] + FieldParts(p, 5) + [ContextEnd]
  }

  /** Among the first `n` fields, exactly the non-empty ones take a place,
      each with its label, in field order: field `k` comes right after the
      non-empty fields before it. */
  lemma {:induction false} FieldPartsLayout(p: Problem, n: nat)
    requires n <= 5
    ensures |FieldParts(p, n)| == NonEmptyBefore(p, n)
    ensures forall k :: 0 <= k < n && FieldValue(p, k) != "" ==> NonEmptyBefore(p, k) < NonEmptyBefore(p, n)
    ensures forall k :: 0 <= k < n && FieldValue(p, k) != "" ==>
              FieldParts(p, n)[NonEmptyBefore(p, k)] == FieldLabel(k) + FieldValue(p, k)
  {
    if n > 0 {
      FieldPartsLayout(p, n - 1);
      var before := FieldParts(p, n - 1);
      var here := Labelled(FieldLabel(n - 1), FieldValue(p, n - 1));
      assert FieldParts(p, n) == before + here;
      forall k | 0 <= k < n && FieldValue(p, k) != ""
        ensures NonEmptyBefore(p, k) < NonEmptyBefore(p, n)
        ensures FieldParts(p, n)[NonEmptyBefore(p, k)] == FieldLabel(k) + FieldValue(p, k)
      {
        if k == n - 1 {
          assert (before + here)[|before|] == here[0];
        } else {
          assert (before + here)[NonEmptyBefore(p, k)] == before[NonEmptyBefore(p, k)];
        }
      }
    }
  }

  /** Between the header and the end marker come exactly the non-empty
      fields, each with its label, in the order nav, description,
      requirements, constraints, examples; an empty field takes no place. */
  lemma ContextPartsLayout(p: Problem)
    ensures |ContextParts(p)| == 2 + NonEmptyBefore(p, 5)
    ensures forall k :: 0 <= k < 5 && FieldValue(p, k) != "" ==> 1 + NonEmptyBefore(p, k) < |ContextParts(p)| - 1
    ensures forall k :: 0 <= k < 5 && FieldValue(p, k) != "" ==>
              ContextParts(p)[1 + NonEmptyBefore(p, k)] == FieldLabel(k) + FieldValue(p, k)
    ensures forall j, k :: 0 <= j < k < 5 && FieldValue(p, j) != "" ==> NonEmptyBefore(p, j) < NonEmptyBefore(p, k)
  {
    FieldPartsLayout(p, 5);
    var fields := FieldParts(p, 5);
    forall k | 0 <= k < 5 && FieldValue(p, k) != ""
      ensures ContextParts(p)[1 + NonEmptyBefore(p, k)] == FieldLabel(k) + FieldValue(p, k)
    {
      assert ([ContextHeader] + fields + [ContextEnd])[1 + NonEmptyBefore(p, k)] == fields[NonEmptyBefore(p, k)];
    }
    forall j, k | 0 <= j < k < 5 && FieldValue(p, j) != ""
      ensures NonEmptyBefore(p, j) < NonEmptyBefore(p, k)
    {
      FieldPartsLayout(p, k);
    }
  }

  /** Joining parts and one more text with "\n": the result opens with the
      first part and ends with the last part, a newline and the text. */
  lemma JoinedWithTextEnds(parts: seq<string>, text: string)
    requires parts != []
    ensures StartsWith(Join(parts + [text], "\n"), parts[0])
    ensures EndsWith(Join(parts + [text], "\n"), parts[|parts| - 1] + "\n" + text)
  {
    JoinStartsWithFirst(parts + [text], "\n");
    assert (parts + [text])[0] == parts[0];
    JoinSnocEndsWith(parts, "\n", text);
  }

  /** The same join contains every part. */
  lemma JoinedWithTextContains(parts: seq<string>, text: string)
    ensures forall i :: 0 <= i < |parts| ==> Contains(Join(parts + [text], "\n"), parts[i])
  {
    forall i | 0 <= i < |parts| ensures Contains(Join(parts + [text], "\n"), parts[i]) {
      JoinContainsEach(parts + [text], "\n", i);
      assert (parts + [text])[i] == parts[i];
    }
  }

  /** `buildContextPrompt`: the wrapped prompt opens with the header,
      carries every non-empty field with its label, and ends with the end
      marker, a blank line and the user's own text. */
  function BuildContextPrompt(p: Problem, userText: string): (r: string)
    ensures StartsWith(r, ContextHeader)
    ensures EndsWith(r, ContextEnd + "\n" + userText)
    ensures forall k :: 0 <= k < 5 && FieldValue(p, k) != "" ==> Contains(r, FieldLabel(k) + FieldValue(p, k))
  {
    var parts := ContextParts(p);
    JoinedWithTextEnds(parts, userText);
    JoinedWithTextContains(parts, userText);
    ContextPartsLayout(p);
    Join(parts + [userText], "\n")
  }

  /** The prompt `sendMessage` sends: wrapped with the problem exactly for
      a student in exam mode on a question page whose statement was found,
      and the user's text as it is otherwise. */
  function FinalPrompt(userType: UserType, mode: Mode, onQuestionPage: bool, p: Problem, text: string): (r: string)
    ensures EndsWith(r, text)
    ensures r != text ==> userType == Student && mode == Exam && onQuestionPage && p.description != ""
    ensures userType == Student && mode == Exam && onQuestionPage && p.description != "" ==>
              StartsWith(r, ContextHeader) && EndsWith(r, ContextEnd + "\n" + text)
              && Contains(r, "Đề bài: " + p.description)
  {
    if userType == Student && mode == Exam && onQuestionPage && p.description != "" then
      WrappedPromptEndsWithText(p, text);
      BuildContextPrompt(p, text)
    else
      text
  }

  /** The wrapped prompt ends with the user's text and carries the
      labelled statement. */
  lemma WrappedPromptEndsWithText(p: Problem, text: string)
    requires p.description != ""
    ensures EndsWith(BuildContextPrompt(p, text), text)
    ensures Contains(BuildContextPrompt(p, text), "Đề bài: " + p.description)
  {
    var r := BuildContextPrompt(p, text);
    assert FieldValue(p, 1) != "";
    assert FieldLabel(1) + FieldValue(p, 1) == "Đề bài: " + p.description;
    EndsWithTail(r, ContextEnd + "\n", text);
  }

  // ---------------------------------------------------------------------
  // The turn protocol

  /** The history after a turn that reached the `fetch`: pushed, then
      popped once by the `catch` when the call throws, popped at line 427
      and again in the `catch` when the status is not OK, and completed by
      the model's reply on success. */
  function HistoryAfterSend(h: seq<Turn>, prompt: string, outcome: HttpOutcome): (r: seq<Turn>)
    ensures outcome.FetchFailed? ==> r == h
    ensures outcome.Responded? && IsOk(outcome.status) ==>
              |r| == |h| + 2 && r[..|h|] == h && r[|h|] == Turn(User, prompt)
              && r[|h| + 1] == Turn(Model, OrElse(outcome.reply, NoReplyText))
    ensures outcome.Responded? && !IsOk(outcome.status) ==>
              |r| == (if h == [] then 0 else |h| - 1) && r == h[..|r|]
  {
    match outcome
    case FetchFailed(_) => h
    case Responded(status, reply, _) =>
      if IsOk(status) then h + [Turn(User, prompt), Turn(Model, OrElse(reply, NoReplyText))]
      else Pop(h)
  }

  /** What the chat shows for a failed turn: the thrown error's message. */
  function FailureText(outcome: HttpOutcome): (r: string)
    requires outcome.FetchFailed? || !IsOk(outcome.status)
    ensures StartsWith(r, ErrorPrefix)
    ensures outcome.FetchFailed? ==> r == ErrorPrefix + outcome.message
    ensures outcome.Responded? && Truthy(outcome.error) ==> r == ErrorPrefix + outcome.error.value
    ensures outcome.Responded? && !Truthy(outcome.error) ==>
              r == ErrorPrefix + "Error " + NatToString(outcome.status)
  {
    match outcome
    case FetchFailed(m) => ErrorPrefix + m
    case Responded(status, _, error) => ErrorPrefix + OrElse(error, "Error " + NatToString(status))
  }

  /** A completed or failed-to-send turn keeps the history alternating,
      but an error status drops the model turn before it and leaves the
      history ending with a user turn, so the next request carries two user
      turns in a row. */
  lemma HistoryAfterSendAlternation(h: seq<Turn>, prompt: string, outcome: HttpOutcome)
    requires Alternating(h)
    ensures outcome.FetchFailed? ==> Alternating(HistoryAfterSend(h, prompt, outcome))
    ensures outcome.Responded? && IsOk(outcome.status) ==> Alternating(HistoryAfterSend(h, prompt, outcome))
    ensures outcome.Responded? && !IsOk(outcome.status) && h != [] ==>
              var r := HistoryAfterSend(h, prompt, outcome);
              !Alternating(r) && r[|r| - 1].role == User
  {
    if outcome.Responded? && IsOk(outcome.status) {
      AlternatingExchange(h, prompt, OrElse(outcome.reply, NoReplyText));
    }
    if outcome.Responded? && !IsOk(outcome.status) && h != [] {
      var r := HistoryAfterSend(h, prompt, outcome);
      assert r[|r| - 1] == h[|h| - 2];
    }
  }

  /** The token after `getToken`: whatever the response's `token` field
      held (absent on an error response), or unchanged when the call
      throws. */
  function TokenAfterFetch(token: Option<string>, fetch: TokenFetch): (r: Option<string>)
    ensures fetch.TokenUnreachable? ==> r == token
    ensures fetch.TokenResponse? ==> r == fetch.token
  {
    match fetch
    case TokenUnreachable => token
    case TokenResponse(_, t) => t
  }

  /** The module-level state of the content script. */
  class ContentScript {
    /** `studentCode`, "unknown" when the page shows none */
    const studentCode: string
    /** `userType` */
    const userType: UserType
    /** `token` */
    var token: Option<string>
    /** `conversationHistory` */
    var conversationHistory: seq<Turn>
    /** `currentMode` */
    var currentMode: Mode
    /** `isChatExpanded` */
    var isChatExpanded: bool

    /** The user type follows the code, and the teacher mode belongs to
        lecturers alone. */
    ghost predicate Valid()
      reads this
    {
      && userType == DetectUserType(studentCode)
      && (currentMode == TeacherMode <==> userType == Teacher)
    }

    /** `init`: `getUserInfo` with the code shown on the page, then
        `loadChat` with the history saved in local storage, if any. */
    constructor (codeText: string, timeleft: bool, saved: Option<seq<Turn>>)
      ensures Valid()
      ensures studentCode == (if codeText == "" then UnknownCode else codeText)
      ensures currentMode == DetectMode(userType, timeleft)
      ensures token == None && !isChatExpanded
      ensures conversationHistory == (if saved.Some? then saved.value else [])
    {
      studentCode := if codeText == "" then UnknownCode else codeText;
      userType := DetectUserType(if codeText == "" then UnknownCode else codeText);
      currentMode := DetectMode(DetectUserType(if codeText == "" then UnknownCode else codeText), timeleft);
      token := None;
      isChatExpanded := false;
      conversationHistory := if saved.Some? then saved.value else [];
    }

    /** `getToken` */
    method GetToken(fetch: TokenFetch)
      modifies this`token
      ensures token == TokenAfterFetch(old(token), fetch)
    {
      match fetch
      case TokenUnreachable =>
      case TokenResponse(_, t) =>
        token := t;
    }

    /** `clearChatOnModeChange` */
    method ClearChatOnModeChange()
      modifies this`conversationHistory
      ensures conversationHistory == []
    {
      conversationHistory := [];
    }

    /** `handleModeChange`: the history is wiped; the token is left alone
        unless the new mode is practice and the user has a key on file, in
        which case a new one is requested. */
    method HandleModeChange(newMode: Mode, check: CheckFetch, fetch: TokenFetch)
      requires Valid() && (newMode == TeacherMode <==> userType == Teacher)
      modifies this`currentMode, this`conversationHistory, this`token
      ensures Valid()
      ensures currentMode == newMode && conversationHistory == []
      ensures token == (if newMode == Practice && HasApiKey(check) then TokenAfterFetch(old(token), fetch) else old(token))
    {
      currentMode := newMode;
      ClearChatOnModeChange();
      if newMode == Practice {
        if HasApiKey(check) {
          GetToken(fetch);
        }
      }
    }

    /** `handleUrlChange` and the `#timeleft` poll: the mode is recomputed
        and a change is acted on only when it differs from `currentMode`. */
    method Reevaluate(timeleft: bool, check: CheckFetch, fetch: TokenFetch) returns (changed: bool)
      requires Valid()
      modifies this`currentMode, this`conversationHistory, this`token
      ensures Valid()
      ensures changed <==> DetectMode(userType, timeleft) != old(currentMode)
      ensures currentMode == DetectMode(userType, timeleft)
      ensures changed ==> conversationHistory == []
      ensures !changed ==> conversationHistory == old(conversationHistory) && token == old(token)
      ensures changed ==> token == (if currentMode == Practice && HasApiKey(check)
                                    then TokenAfterFetch(old(token), fetch) else old(token))
    {
      var newMode := DetectMode(userType, timeleft);
      changed := newMode != currentMode;
      if changed {
        HandleModeChange(newMode, check, fetch);
      }
    }

    /** `expandChat`: in practice mode a token is requested when the user
        has a key on file, and the key form is shown otherwise. */
    method Expand(check: CheckFetch, fetch: TokenFetch) returns (keyPopup: bool)
      modifies this`isChatExpanded, this`token
      ensures isChatExpanded
      ensures old(isChatExpanded) ==> token == old(token) && !keyPopup
      ensures !old(isChatExpanded) ==>
                && (keyPopup <==> currentMode == Practice && !HasApiKey(check))
                && token == (if currentMode == Practice && HasApiKey(check)
                             then TokenAfterFetch(old(token), fetch) else old(token))
    {
      keyPopup := false;
      if isChatExpanded {
        return;
      }
      isChatExpanded := true;
      if currentMode == Exam || currentMode == TeacherMode {
      } else if HasApiKey(check) {
        GetToken(fetch);
      } else {
        keyPopup := true;
      }
    }

    /** `collapseChat`: the token, when truthy, is sent to `/release-token`
        (returned here) and is then forgotten. */
    method Collapse() returns (released: Option<string>)
      modifies this`isChatExpanded, this`token
      ensures !isChatExpanded && token == None
      ensures Truthy(old(token)) <==> released.Some?
      ensures released.Some? ==> released == old(token)
    {
      isChatExpanded := false;
      released := if Truthy(token) then token else None;
      token := None;
    }

    /** `sendMessage` for a text that reached it, with the page facts it
        reads (`isQuestionPage`, `extractProblem`) and the outcome of its
        `fetch`. Returns the body posted to `/api/ask` (none when practice
        mode has no token), whether the key form is shown, and the bot
        message added. */
    method SendMessage(text: string, onQuestionPage: bool, problem: Problem, outcome: HttpOutcome)
      returns (request: Option<AskRequest>, keyPopup: bool, shown: string)
      modifies this`conversationHistory
      ensures currentMode == Practice && !Truthy(token) ==>
                request == None && keyPopup && shown == PracticeNeedsKeyText
                && conversationHistory == old(conversationHistory)
      ensures !(currentMode == Practice && !Truthy(token)) ==>
                var prompt := FinalPrompt(userType, currentMode, onQuestionPage, problem, text);
                && request == Some(AskRequest(prompt, token, old(conversationHistory), Some(ModeName(currentMode))))
                && conversationHistory == HistoryAfterSend(old(conversationHistory), prompt, outcome)
                && (keyPopup <==> outcome.Responded? && outcome.status in {400, 403, 429})
                && shown == (if outcome.Responded? && IsOk(outcome.status)
                             then OrElse(outcome.reply, NoReplyText) else FailureText(outcome))
    {
      if currentMode == Practice && !Truthy(token) {
        return None, true, PracticeNeedsKeyText;
      }
      var finalPrompt := text;
      if userType == Student && currentMode == Exam && onQuestionPage {
        if problem.description != "" {
          finalPrompt := BuildContextPrompt(problem, text);
        }
      }
      var mode := currentMode;
      keyPopup := false;
      conversationHistory := conversationHistory + [Turn(User, finalPrompt)];
      request := Some(AskRequest(finalPrompt, token, conversationHistory[..|conversationHistory| - 1], Some(ModeName(mode))));
      match outcome {
        case FetchFailed(message) =>
          conversationHistory := Pop(conversationHistory);
          shown := ErrorPrefix + message;
        case Responded(status, reply, error) =>
          if !IsOk(status) {
            conversationHistory := Pop(conversationHistory);
            if status == 429 || status == 403 || status == 400 {
              keyPopup := true;
            }
            conversationHistory := Pop(conversationHistory);
            shown := ErrorPrefix + OrElse(error, "Error " + NatToString(status));
          } else {
            var answer := OrElse(reply, NoReplyText);
            conversationHistory := conversationHistory + [Turn(Model, answer)];
            shown := answer;
          }
      }
    }

    /** The chat form's submit handler: a text that trims to nothing is
        ignored, anything else is sent trimmed. */
    method Submit(input: string, onQuestionPage: bool, problem: Problem, outcome: HttpOutcome)
      returns (request: Option<AskRequest>)
      modifies this`conversationHistory
      ensures Trim(input) == "" ==> request == None && conversationHistory == old(conversationHistory)
      ensures Trim(input) != "" && currentMode == Practice && !Truthy(token) ==> request == None
      ensures request == None ==> conversationHistory == old(conversationHistory)
      ensures Trim(input) != "" && !(currentMode == Practice && !Truthy(token)) ==>
                var prompt := FinalPrompt(userType, currentMode, onQuestionPage, problem, Trim(input));
                && request == Some(AskRequest(prompt, token, old(conversationHistory), Some(ModeName(currentMode))))
                && conversationHistory == HistoryAfterSend(old(conversationHistory), prompt, outcome)
    {
      var text := Trim(input);
      request := None;
      if text != "" {
        var keyPopup, shown;
        request, keyPopup, shown := SendMessage(text, onQuestionPage, problem, outcome);
      }
    }

    /** `clearHistory`, given the answer to its `confirm` dialog. */
    method ClearHistory(confirmed: bool)
      modifies this`conversationHistory
      ensures conversationHistory == (if confirmed then [] else old(conversationHistory))
    {
      if confirmed {
        conversationHistory := [];
      }
    }
  }
}
