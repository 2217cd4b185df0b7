/** Properties of the broker of `src/server/index.js`: the round-robin
    over the shared pool, the `/api/ask` decision table (credential
    selection, exam filter, instruction, model loop, status mapping), and
    the token lifecycle seen by a caller. */
module ServerFacts {
  import opened Common
  import opened Server

  // ---------------------------------------------------------------------
  // Shared pool

  /** Any twelve consecutive keys handed out by `getNextSharedApiKey` are
      the pool in rotated order: each entry exactly as often as it occurs
      in the pool, the cursor is back where it was, and the next key
      repeats the first of the window. */
  lemma RoundRobinWindow(pool: seq<string>, drawn: seq<string>, k: nat)
    requires |pool| == PoolSize
    requires forall i :: 0 <= i < |drawn| ==> drawn[i] == pool[i % PoolSize]
    requires k + PoolSize <= |drawn|
    ensures multiset(drawn[k..k + PoolSize]) == multiset(pool)
    ensures (k + PoolSize) % PoolSize == k % PoolSize
    ensures k + PoolSize < |drawn| ==> drawn[k + PoolSize] == drawn[k]
  {
    var r := k % PoolSize;
    var window := drawn[k..k + PoolSize];
    var rotated := pool[r..] + pool[..r];
    forall j | 0 <= j < PoolSize ensures window[j] == rotated[j] {
      RotatedIndex(k, j);
      assert window[j] == drawn[k + j];
    }
    assert window == rotated;
    RotationMultiset(pool, r);
  }

  /** Where draw `k + j` lands relative to the start of its window. */
  lemma RotatedIndex(k: nat, j: nat)
    requires j < PoolSize
    ensures k % PoolSize + j < PoolSize ==> (k + j) % PoolSize == k % PoolSize + j
    ensures k % PoolSize + j >= PoolSize ==> (k + j) % PoolSize == k % PoolSize + j - PoolSize
  {
  }

  /** A rotation of a sequence has the same elements. */
  lemma RotationMultiset(pool: seq<string>, r: nat)
    requires r <= |pool|
    ensures multiset(pool[r..] + pool[..r]) == multiset(pool)
  {
    assert pool == pool[..r] + pool[r..];
    calc {
      multiset(pool[r..] + pool[..r]);
      multiset(pool[r..]) + multiset(pool[..r]);
      multiset(pool[..r] + pool[r..]);
    }
  }

  /** The shape of `Broker.Valid` makes every window of a live broker a
      full rotation of its pool. */
  lemma BrokerRoundRobin(b: Broker, k: nat)
    requires b.Valid() && k + PoolSize <= |b.drawn|
    ensures multiset(b.drawn[k..k + PoolSize]) == multiset(b.pool)
  {
    RoundRobinWindow(b.pool, b.drawn, k);
  }

  // ---------------------------------------------------------------------
  // The model loop

  /** The loop tries the models in order and moves on to the next one only
      after an error that mentions 429 or quota. */
  lemma {:induction false} ModelLoopRetriesOnlyQuota(models: seq<string>, apiKey: string, instruction: Instruction,
                                                     contents: seq<Turn>, gen: Call -> GenOutcome,
                                                     token: Option<string>, lastError: Option<string>)
    ensures RetriedBeforeLast(ModelLoop(models, apiKey, instruction, contents, gen, token, lastError).1, gen, token)
    decreases |models|
  {
    if models != [] {
      var call := Call(apiKey, models[0], instruction, contents);
      var a := AttemptOf(gen(call), token);
      if a.Threw? && Retryable(a.message) {
        ModelLoopRetriesOnlyQuota(models[1..], apiKey, instruction, contents, gen, token, Some(a.message));
        var rest := ModelLoop(models[1..], apiKey, instruction, contents, gen, token, Some(a.message)).1;
        var calls := ModelLoop(models, apiKey, instruction, contents, gen, token, lastError).1;
        assert calls == [call] + rest;
        forall j | 0 <= j < |calls| - 1 ensures Retried(AttemptOf(gen(calls[j]), token)) {
          if j == 0 {
            assert calls[0] == call;
            assert AttemptOf(gen(calls[0]), token) == a;
          } else {
            assert calls[j] == rest[j - 1];
          }
        }
      }
    }
  }

  /** Every call but the last one ended in an error the loop retries. */
  ghost predicate RetriedBeforeLast(calls: seq<Call>, gen: Call -> GenOutcome, token: Option<string>) {
    forall j :: 0 <= j < |calls| - 1 ==> Retried(AttemptOf(gen(calls[j]), token))
  }

  /** An attempt after which the loop goes on to the next model. */
  predicate Retried(a: Attempt) {
    a.Threw? && Retryable(a.message)
  }

  /** The loop's answer is decided by its last attempt: a success is the
      reply of the model that produced it; otherwise the last error is mapped
      to the final status, and the loop stopped before the end of the list
      only on an error it does not retry. */
  lemma {:induction false} ModelLoopLastAttempt(models: seq<string>, apiKey: string, instruction: Instruction,
                                                contents: seq<Turn>, gen: Call -> GenOutcome,
                                                token: Option<string>, lastError: Option<string>)
    requires models != []
    ensures var r := ModelLoop(models, apiKey, instruction, contents, gen, token, lastError);
      LastAttemptDecides(models, r.0, r.1, AttemptOf(gen(r.1[|r.1| - 1]), token))
    decreases |models|
  {
    var call := Call(apiKey, models[0], instruction, contents);
    var a := AttemptOf(gen(call), token);
    var r := ModelLoop(models, apiKey, instruction, contents, gen, token, lastError);
    if a.Succeeded? {
      assert r == (Answered(a.reply, models[0]), [call]);
    } else if !Retryable(a.message) {
      assert a == Threw(a.message);
      assert r == (FinalError(Some(a.message)), [call]);
    } else {
      var rest := ModelLoop(models[1..], apiKey, instruction, contents, gen, token, Some(a.message));
      assert a == Threw(a.message);
      assert r == (rest.0, [call] + rest.1);
      if |models| == 1 {
        assert models[1..] == [];
        assert rest == (FinalError(Some(a.message)), []);
      } else {
        ModelLoopLastAttempt(models[1..], apiKey, instruction, contents, gen, token, Some(a.message));
        assert r.1[|r.1| - 1] == rest.1[|rest.1| - 1];
        assert models[1..][|rest.1| - 1] == models[|r.1| - 1];
      }
    }
  }

  /** How the last attempt of the loop decides its answer. */
  ghost predicate LastAttemptDecides(models: seq<string>, reply: AskReply, calls: seq<Call>, last: Attempt)
    requires 0 < |calls| <= |models|
  {
    && (reply.Answered? <==> last.Succeeded?)
    && (last.Succeeded? ==> reply == Answered(last.reply, models[|calls| - 1]))
    && (last.Threw? ==> reply == FinalError(Some(last.message)))
    && (|calls| < |models| ==> !Retried(last))
  }

  /** The loop's retry test and the final mapping agree: an error is
      retried exactly when it would be reported as 429. */
  lemma RetryIffQuotaStatus(message: string)
    ensures Retryable(message) <==> FinalError(Some(message)).status == 429
    ensures !Retryable(message) && (Contains(message, "API key") || Contains(message, "403"))
            <==> FinalError(Some(message)).status == 403
  {
  }

  // ---------------------------------------------------------------------
  // The /api/ask decision

  /** Exam and teacher requests always take the next shared key and
      advance the cursor by one, whatever the token says. */
  lemma AskSharedModes(pool: seq<string>, cursor: nat, tokens: map<string, TokenBinding>,
                       req: AskRequest, gen: Call -> GenOutcome)
    requires cursor < |pool| && SharedMode(req.mode)
    ensures var r := AskSpec(pool, cursor, tokens, req, gen);
      && r.cursor == (cursor + 1) % |pool|
      && (forall c :: c in r.calls ==> c.apiKey == pool[cursor])
      && r.reply != Failed(401, PracticeKeyRequired)
  {
    var r := AskSpec(pool, cursor, tokens, req, gen);
    forall c | c in r.calls ensures c.apiKey == pool[cursor] {
      var j :| 0 <= j < |r.calls| && r.calls[j] == c;
    }
  }

  /** Any other mode, absent included, needs an active token: without one
      the answer is 401, nothing is called and the cursor stays; with one,
      the backend is called with that token's key. */
  lemma AskPersonalModes(pool: seq<string>, cursor: nat, tokens: map<string, TokenBinding>,
                         req: AskRequest, gen: Call -> GenOutcome)
    requires cursor < |pool| && !SharedMode(req.mode)
    ensures var r := AskSpec(pool, cursor, tokens, req, gen);
      && r.cursor == cursor
      && (r.reply == Failed(401, PracticeKeyRequired) <==> !(Truthy(req.token) && req.token.value in tokens))
      && (!(Truthy(req.token) && req.token.value in tokens) ==> r.calls == [])
      && (Truthy(req.token) && req.token.value in tokens ==>
            r.calls != [] && forall c :: c in r.calls ==> c.apiKey == tokens[req.token.value].apiKey)
  {
    var r := AskSpec(pool, cursor, tokens, req, gen);
    if Truthy(req.token) && req.token.value in tokens {
      forall c | c in r.calls ensures c.apiKey == tokens[req.token.value].apiKey {
        var j :| 0 <= j < |r.calls| && r.calls[j] == c;
      }
      var lr := ModelLoop(Models, tokens[req.token.value].apiKey, InstructionFor(req.mode),
                          req.history + [Turn(User, req.prompt)], gen, req.token, None);
      ModelLoopLastAttempt(Models, tokens[req.token.value].apiKey, InstructionFor(req.mode),
                           req.history + [Turn(User, req.prompt)], gen, req.token, None);
    }
  }

  /** In exam mode the backend is skipped exactly when the filter refuses
      the prompt, and then the fixed refusal comes back as model
      `filtered`; the shared cursor has moved all the same. */
  lemma AskExamFilter(pool: seq<string>, cursor: nat, tokens: map<string, TokenBinding>,
                      req: AskRequest, gen: Call -> GenOutcome)
    requires cursor < |pool| && req.mode == Some("exam")
    ensures var r := AskSpec(pool, cursor, tokens, req, gen);
      && (r.calls == [] <==> ExamFilterRefuses(req.prompt))
      && (ExamFilterRefuses(req.prompt) ==> r.reply == Answered(RefusalText, FilteredModel))
      && (!ExamFilterRefuses(req.prompt) && r.reply.Answered? ==> r.reply.model != FilteredModel)
      && r.cursor == (cursor + 1) % |pool|
  {
    var r := AskSpec(pool, cursor, tokens, req, gen);
    if !ExamFilterRefuses(req.prompt) && r.reply.Answered? {
      ModelLoopLastAttempt(Models, pool[cursor], ExamInstruction,
                           req.history + [Turn(User, req.prompt)], gen, req.token, None);
    }
  }

  /** Every backend call carries the mode's instruction and the contents
      `history` followed by the prompt as a user turn; at most one call per
      model is made. */
  lemma AskBackendCall(pool: seq<string>, cursor: nat, tokens: map<string, TokenBinding>,
                       req: AskRequest, gen: Call -> GenOutcome)
    requires cursor < |pool|
    ensures var r := AskSpec(pool, cursor, tokens, req, gen);
      && |r.calls| <= |Models|
      && forall c :: c in r.calls ==>
           c.instruction == InstructionFor(req.mode) && c.contents == req.history + [Turn(User, req.prompt)]
  {
    var r := AskSpec(pool, cursor, tokens, req, gen);
    forall c | c in r.calls
      ensures c.instruction == InstructionFor(req.mode) && c.contents == req.history + [Turn(User, req.prompt)]
    {
      var j :| 0 <= j < |r.calls| && r.calls[j] == c;
    }
  }

  /** A request without a token (normal in exam and teacher modes) whose
      generation succeeds still fails: `token.substring` throws after the
      reply has been produced, the error is not retried, and the answer is
      500 with the TypeError's message. */
  lemma AskTokenlessSuccessFails(pool: seq<string>, cursor: nat, tokens: map<string, TokenBinding>,
                                 req: AskRequest, gen: Call -> GenOutcome)
    requires cursor < |pool| && SharedMode(req.mode) && req.token.None?
    requires !(req.mode == Some("exam") && ExamFilterRefuses(req.prompt))
    requires gen(Call(pool[cursor], Models[0], InstructionFor(req.mode),
                      req.history + [Turn(User, req.prompt)])).Generated?
    ensures AskSpec(pool, cursor, tokens, req, gen).reply == Failed(500, NullTokenMessage)
  {
    NullTokenMessageIsHardError();
  }

  /** The TypeError's message mentions neither 429, quota, 403 nor "API
      key": it is not retried and maps to 500. */
  lemma NullTokenMessageIsHardError()
    ensures !Retryable(NullTokenMessage)
    ensures FinalError(Some(NullTokenMessage)) == Failed(500, NullTokenMessage)
  {
    NullTokenMessageLacks('4');
    NullTokenMessageLacks('q');
    NullTokenMessageLacks('A');
    MissingCharNotContained(NullTokenMessage, "429", 0);
    MissingCharNotContained(NullTokenMessage, "quota", 0);
    MissingCharNotContained(NullTokenMessage, "API key", 0);
    MissingCharNotContained(NullTokenMessage, "403", 0);
  }

  lemma NullTokenMessageSplit()
    ensures NullTokenMessage == "Cannot read properties of null" + " (reading 'substring')"
  {
  }

  /** The characters that the error-status tests look for first are absent
      from the TypeError's message. */
  lemma NullTokenMessageLacks(c: char)
    requires c == '4' || c == 'q' || c == 'A'
    ensures c !in NullTokenMessage
  {
    NullTokenMessageSplit();
  }

  // ---------------------------------------------------------------------
  // The exam filter on concrete prompts

  /** An all-lower-case prompt is filtered as it is written. */
  lemma {:induction false} LowerAsciiIdentity(s: string)
    requires forall i :: 0 <= i < |s| ==> !('A' <= s[i] <= 'Z')
    ensures LowerAscii(s) == s
  {
    if s != [] {
      LowerAsciiIdentity(s[1..]);
    }
  }

  /** Filtering is case-insensitive: lowering the prompt first changes nothing. */
  lemma FilterIgnoresCase(prompt: string)
    ensures ExamFilterRefuses(LowerAscii(prompt)) == ExamFilterRefuses(prompt)
  {
    LowerAsciiIdentity(LowerAscii(prompt));
  }

  /** "giải thích đề bài này" asks about the statement and passes. */
  lemma ExplainStatementPasses()
    ensures !RefusesLowered("giải thích đề bài này")
  {
    assert OccursAt("giải thích đề bài này", AllowedPatterns[0], 0);
  }

  /** "giải thích output được tính như thế nào" asks about the output and
      passes. */
  lemma ExplainOutputPasses()
    ensures !RefusesLowered("giải thích output được tính như thế nào")
  {
    assert OccursAt("giải thích output được tính như thế nào", AllowedPatterns[4], 0);
  }

  /** A prompt in both families passes: explaining the statement wins. */
  lemma BothFamiliesPass()
    ensures MatchesAny("không hiểu đề, cho tôi code", SyntaxPatterns)
    ensures !RefusesLowered("không hiểu đề, cho tôi code")
  {
    assert OccursAt("không hiểu đề, cho tôi code", AllowedPatterns[12], 0);
    assert OccursAt("không hiểu đề, cho tôi code", SyntaxPatterns[34], 15);
  }

  /** A prompt without the letters g, u, đ and a matches no allowed phrase. */
  lemma NoAllowedPhrase(s: string)
    requires 'g' !in s && 'u' !in s && 'đ' !in s && 'a' !in s
    ensures !MatchesAny(s, AllowedPatterns)
  {
    forall k | 0 <= k < |AllowedPatterns| ensures !Contains(s, AllowedPatterns[k]) {
      var p := AllowedPatterns[k];
      if 'g' in p {
        var j :| 0 <= j < |p| && p[j] == 'g';
        MissingCharNotContained(s, p, j);
      } else if 'u' in p {
        var j :| 0 <= j < |p| && p[j] == 'u';
        MissingCharNotContained(s, p, j);
      } else if 'đ' in p {
        var j :| 0 <= j < |p| && p[j] == 'đ';
        MissingCharNotContained(s, p, j);
      } else {
        assert 'a' in p;
        var j :| 0 <= j < |p| && p[j] == 'a';
        MissingCharNotContained(s, p, j);
      }
    }
  }

  /** "viết code cho bài này" asks for code only and is refused. */
  lemma WriteCodeRefused()
    ensures RefusesLowered("viết code cho bài này")
  {
    assert OccursAt("viết code cho bài này", SyntaxPatterns[38], 0);
    NoAllowedPhrase("viết code cho bài này");
  }

  // ---------------------------------------------------------------------
  // The token lifecycle, as a caller sees it

  /** After `/release-token`, the same token is refused by `/api/ask` in
      every mode other than exam and teacher. */
  method ReleasedTokenIsRefused(b: Broker, req: AskRequest, gen: Call -> GenOutcome)
      returns (reply: AskReply, calls: seq<Call>)
    requires b.Valid() && Truthy(req.token) && !SharedMode(req.mode)
    modifies b
    ensures reply == Failed(401, PracticeKeyRequired) && calls == []
  {
    var _ := b.ReleaseToken(req.token);
    reply, calls := b.Ask(req, gen);
  }

  /** Releasing twice answers success both times and leaves the same state
      as releasing once. */
  method ReleaseTwice(b: Broker, token: Option<string>) returns (first: Reply, second: Reply)
    requires b.Valid()
    modifies b
    ensures first.success && second.success
    ensures Truthy(token) ==> b.activeTokens == old(b.activeTokens) - {token.value}
    ensures !Truthy(token) ==> b.activeTokens == old(b.activeTokens)
  {
    first := b.ReleaseToken(token);
    second := b.ReleaseToken(token);
  }

  /** A token just issued for a user authorises `/api/ask` with that user's
      key. */
  method IssueThenAsk(b: Broker, studentCode: string, uuid: string, req: AskRequest, gen: Call -> GenOutcome)
      returns (issued: TokenReply, reply: AskReply, calls: seq<Call>)
    requires b.Valid() && uuid != "" && uuid !in b.activeTokens
    requires studentCode in b.users && b.users[studentCode].apiKey != ""
    requires req.token == Some(uuid) && !SharedMode(req.mode)
    modifies b
    ensures issued == Issued(uuid)
    ensures calls != [] && forall c :: c in calls ==> c.apiKey == old(b.users[studentCode].apiKey)
  {
    issued := b.GetToken(studentCode, uuid);
    ghost var cursor := b.cursor;
    reply, calls := b.Ask(req, gen);
    AskPersonalModes(b.pool, cursor, b.activeTokens, req, gen);
  }
}
