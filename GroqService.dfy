/** The browser-side copy of the pipeline, `sendMessageToGroq` in
    services/groqService.ts: one API key and no rotation, a window of ten
    history entries, a smaller allow-list, and a `catch` that turns every
    error into the missing-information answer except those mentioning
    "api key", which are thrown again as the invalid-key error. The Groq
    client is an oracle: what it answers to each of the three calls. */
module GroqService {
  import opened Wrappers
  import opened JsText
  import opened Profile
  import opened Upstream
  import opened ToolPolicy
  import opened Pipeline
  import opened Credentials
  import opened ChatEndpoint

  /** `PROFILE_KEY_PATH_SET` of the browser-side copy. */
  const GroqAllowList: set<string> := {
    "name", "email", "age", "date_of_birth", "personality", "address", "family", "hometown",
    "languages", "sexual_orientation", "dating", "religion", "zodiac_sign", "education.k-12",
    "education.undergraduate", "education.graduate", "professional_experience",
    "favorite.food", "favorite.movie", "favorite.tv_series", "favorite.song",
    "favorite.artist", "favorite.color", "favorite.number", "favorite.sport",
    "favorite.sport_team", "favorite.person", "favorite.fictional_character",
    "favorite.quote", "technical_skills", "projects", "hobbies", "places_visited",
    "study_method", "define_success", "politics", "links.resume",
    "links.transcript.undergraduate", "links.transcript.graduate",
    "links.internship_completion_certificate", "links.github", "links.linkedin",
    "links.google_scholar"
  }

  /** `MAX_HISTORY_LENGTH`. */
  const MaxHistoryLength: nat := 10

  /** What the client answers to the classifier, main and follow-up calls. */
  datatype GroqOracle = GroqOracle(classifier: CallOutcome, main: CallOutcome, followUp: CallOutcome)

  /** How the returned promise settles. */
  datatype Settled = Returned(text: string) | Rejected(error: ErrorValue)

  /** The settled promise and the requests sent, in order. */
  datatype Exchange = Exchange(settled: Settled, sent: seq<CompletionRequest>)

  /** The `try` block's outcome and the requests it sent. */
  datatype Attempted = Attempted(outcome: Result<string, ErrorValue>, sent: seq<CompletionRequest>)

  /** The main call, the tool-call policy and, when it lets the calls
      through, the follow-up call. */
  function MainAttempt(main: CompletionRequest, allowed: set<string>, up: GroqOracle, doc: Json, parse: string -> Option<Json>): Attempted {
    match up.main
    case Err(e) => Attempted(Err(e), [main])
    case Ok(answer) =>
      match AfterMain(main, answer, allowed, doc, parse)
      case Answer(text) => Attempted(Ok(text), [main])
      case Fail(e) => Attempted(Err(e), [main])
      case FollowUp(request) =>
        match up.followUp
        case Err(e) => Attempted(Err(e), [main, request])
        case Ok(last) => Attempted(Outcome(ReplyText(last)), [main, request])
  }

  /** The `try` block: the classifier call, its verdict, then the main call. */
  function Attempt(recent: seq<HistoryMessage>, newMessage: string, allowed: set<string>, up: GroqOracle, doc: Json, parse: string -> Option<Json>): Attempted {
    var classifier := ClassifierRequest(recent, newMessage);
    match up.classifier
    case Err(e) => Attempted(Err(e), [classifier])
    case Ok(reply) =>
      match ClassifierVerdict(reply, parse)
      case Err(e) => Attempted(Err(e), [classifier])
      case Ok(personal) =>
        var m := MainAttempt(MainRequest(personal, recent, newMessage), allowed, up, doc, parse);
        Attempted(m.outcome, [classifier] + m.sent)
  }

  /** The `catch` block: an error whose message mentions "api key" is
      thrown again as the invalid-key error; any other is answered with the
      missing-information text. */
  function Settle(outcome: Result<string, ErrorValue>): Settled {
    match outcome
    case Ok(text) => Returned(text)
    case Err(e) =>
      if Contains(Lower(ErrorMessageText(e)), "api key") then Rejected(Error(InvalidKeyReply))
      else Returned(MissingInfoResponse)
  }

  /** A missing `GROQ_API_KEY`: absent or the empty string. */
  predicate KeyMissing(apiKey: Option<string>) {
    apiKey.None? || apiKey.value == []
  }

  /** `sendMessageToGroq`. */
  function GroqExchange(apiKey: Option<string>, history: seq<HistoryMessage>, newMessage: string, up: GroqOracle, doc: Json, parse: string -> Option<Json>): Exchange {
    if KeyMissing(apiKey) then Exchange(Rejected(Error(InvalidKeyReply)), [])
    else
      var a := Attempt(RecentHistory(history, MaxHistoryLength), newMessage, GroqAllowList, up, doc, parse);
      Exchange(Settle(a.outcome), a.sent)
  }

  /** The main call and what follows it, step by step. */
  method TryMain(messages: CompletionRequest, allowed: set<string>, up: GroqOracle, doc: Json, parse: string -> Option<Json>)
    returns (outcome: Result<string, ErrorValue>, sent: seq<CompletionRequest>)
    ensures Attempted(outcome, sent) == MainAttempt(messages, allowed, up, doc, parse)
  {
    sent := [messages];
    if up.main.Err? {
      return Err(up.main.error), sent;
    }
    var next := HandleMainReply(messages, up.main.value, allowed, doc, parse);
    match next {
      case Answer(text) =>
        return Ok(text), sent;
      case Fail(e) =>
        return Err(e), sent;
      case FollowUp(followUp) =>
        sent := sent + [followUp];
        if up.followUp.Err? {
          return Err(up.followUp.error), sent;
        }
        return Outcome(ReplyText(up.followUp.value)), sent;
    }
  }

  /** The `try` block, step by step. */
  method TryAnswer(recent: seq<HistoryMessage>, newMessage: string, allowed: set<string>, up: GroqOracle, doc: Json, parse: string -> Option<Json>)
    returns (outcome: Result<string, ErrorValue>, sent: seq<CompletionRequest>)
    ensures Attempted(outcome, sent) == Attempt(recent, newMessage, allowed, up, doc, parse)
  {
    var classifierRequest := ClassifierRequest(recent, newMessage);
    if up.classifier.Err? {
      return Err(up.classifier.error), [classifierRequest];
    }
    var verdict := ClassifierVerdict(up.classifier.value, parse);
    if verdict.Err? {
      return Err(verdict.error), [classifierRequest];
    }
    var more;
    outcome, more := TryMain(MainRequest(verdict.value, recent, newMessage), allowed, up, doc, parse);
    sent := [classifierRequest] + more;
  }

  /** `sendMessageToGroq`, step by step. */
  method SendMessageToGroq(apiKey: Option<string>, history: seq<HistoryMessage>, newMessage: string, up: GroqOracle, doc: Json, parse: string -> Option<Json>)
    returns (settled: Settled, sent: seq<CompletionRequest>)
    ensures Exchange(settled, sent) == GroqExchange(apiKey, history, newMessage, up, doc, parse)
  {
    if apiKey.None? || apiKey.value == [] {
      return Rejected(Error(InvalidKeyReply)), [];
    }
    var recentHistory := RecentHistory(history, MaxHistoryLength);
    var outcome;
    outcome, sent := TryAnswer(recentHistory, newMessage, GroqAllowList, up, doc, parse);
    settled := Settle(outcome);
  }

  // ---------------------------------------------------------------------
  // Properties
  // ---------------------------------------------------------------------

  /** The key check comes before any call: exactly a missing key (absent or
      empty; a blank key is sent as it is) means no request is made, and
      the promise is then rejected with the invalid-key error. */
  lemma KeyCheckedFirst(apiKey: Option<string>, history: seq<HistoryMessage>, newMessage: string, up: GroqOracle, doc: Json, parse: string -> Option<Json>)
    ensures var ex := GroqExchange(apiKey, history, newMessage, up, doc, parse);
      (ex.sent == [] <==> KeyMissing(apiKey)) &&
      (KeyMissing(apiKey) ==> ex.settled == Rejected(Error(InvalidKeyReply)))
  {
  }

  /** The `catch` block never shows an error's own message: an answer
      passes through, an error mentioning "api key" becomes the invalid-key
      rejection and every other error becomes the missing-information
      answer. */
  lemma SettleCases(outcome: Result<string, ErrorValue>)
    ensures Settle(outcome).Rejected? <==> outcome.Err? && MentionsApiKey(outcome.error)
    ensures Settle(outcome).Rejected? ==> Settle(outcome).error == Error(InvalidKeyReply)
    ensures outcome.Ok? ==> Settle(outcome) == Returned(outcome.value)
    ensures outcome.Err? && !MentionsApiKey(outcome.error) ==> Settle(outcome) == Returned(MissingInfoResponse)
  {
    if outcome.Err? {
      ContainsIff(Lower(ErrorMessageText(outcome.error)), "api key");
    }
  }

  /** Unlike the endpoint, the browser-side copy has no rate-limit answer:
      a rate-limit error that does not mention "api key" is answered with
      the missing-information text, where the endpoint gives the rate-limit
      text. */
  lemma NoRateLimitAnswer(e: ErrorValue)
    requires IsRateLimitError(e) && !MentionsApiKey(e)
    ensures Settle(Err(e)) == Returned(MissingInfoResponse)
    ensures ChatErrorText(e) == RateLimitReply
  {
    SettleCases(Err(e));
  }

  /** Only the last ten history entries matter. */
  lemma GroqHistoryWindow(apiKey: Option<string>, older: seq<HistoryMessage>, history: seq<HistoryMessage>, newMessage: string, up: GroqOracle, doc: Json, parse: string -> Option<Json>)
    requires |history| >= MaxHistoryLength
    ensures GroqExchange(apiKey, older + history, newMessage, up, doc, parse) == GroqExchange(apiKey, history, newMessage, up, doc, parse)
  {
    HistoryWindowIgnoresOlder(older, history, MaxHistoryLength);
  }

  /** The classifier call comes first. A failed or blank classifier answer
      ends the attempt with no other call; otherwise the main request comes
      next, with the profile tool forced exactly when the verdict is
      "personal" (output that does not parse counts as not personal). */
  lemma GroqClassifierDecides(recent: seq<HistoryMessage>, newMessage: string, allowed: set<string>, up: GroqOracle, doc: Json, parse: string -> Option<Json>)
    ensures var a := Attempt(recent, newMessage, allowed, up, doc, parse);
      |a.sent| >= 1 && a.sent[0] == ClassifierRequest(recent, newMessage) &&
      (up.classifier.Err? ==> a == Attempted(Err(up.classifier.error), [a.sent[0]])) &&
      (up.classifier.Ok? && (up.classifier.value.content.None? || AllWhitespace(up.classifier.value.content.value)) ==>
        a == Attempted(Err(Error(EmptyClassifierMessage)), [a.sent[0]])) &&
      (up.classifier.Ok? && ClassifierVerdict(up.classifier.value, parse).Ok? ==>
        |a.sent| >= 2 && a.sent[1] == MainRequest(ClassifierVerdict(up.classifier.value, parse).value, recent, newMessage) &&
        (a.sent[1].toolChoice == ForcedTool <==> ClassifierVerdict(up.classifier.value, parse) == Ok(true)))
  {
    if up.classifier.Ok? {
      ClassifierVerdictCases(up.classifier.value, parse);
      var verdict := ClassifierVerdict(up.classifier.value, parse);
      if verdict.Ok? {
        var main := MainRequest(verdict.value, recent, newMessage);
        MainRequestShape(verdict.value, recent, newMessage);
        var m := MainAttempt(main, allowed, up, doc, parse);
        MainSentFirst(main, allowed, up, doc, parse);
        assert ([ClassifierRequest(recent, newMessage)] + m.sent)[1] == m.sent[0];
      }
    }
  }

  lemma MainSentFirst(main: CompletionRequest, allowed: set<string>, up: GroqOracle, doc: Json, parse: string -> Option<Json>)
    ensures |MainAttempt(main, allowed, up, doc, parse).sent| >= 1 && MainAttempt(main, allowed, up, doc, parse).sent[0] == main
  {
  }

  /** After the main call: the follow-up request is sent exactly when the
      reply has tool calls and every one of them passes the policy. */
  lemma GroqFollowUpIff(main: CompletionRequest, allowed: set<string>, up: GroqOracle, doc: Json, parse: string -> Option<Json>)
    requires up.main.Ok?
    ensures |MainAttempt(main, allowed, up, doc, parse).sent| == 2 <==>
      |up.main.value.toolCalls| > 0 &&
      forall k :: 0 <= k < |up.main.value.toolCalls| ==> CallPasses(up.main.value.toolCalls[k], allowed, doc, parse)
  {
    MainAttemptSent(main, allowed, up, doc, parse);
    AfterMainFollowUpIff(main, up.main.value, allowed, doc, parse);
  }

  /** The follow-up request carries the main messages, the reply and one
      tool message per call. */
  lemma GroqFollowUpMessages(main: CompletionRequest, allowed: set<string>, up: GroqOracle, doc: Json, parse: string -> Option<Json>)
    requires up.main.Ok? && |MainAttempt(main, allowed, up, doc, parse).sent| == 2
    ensures MainAttempt(main, allowed, up, doc, parse).sent[1] == CompletionRequest(
      main.messages + [AssistantReply(up.main.value)] +
      seq(|up.main.value.toolCalls|, k requires 0 <= k < |up.main.value.toolCalls| => PassedMessage(up.main.value.toolCalls[k], doc, parse)),
      NoTools, false)
  {
    MainAttemptSent(main, allowed, up, doc, parse);
    AfterMainFollowUpRequest(main, up.main.value, allowed, doc, parse);
  }

  /** The requests of the main stage: the main request, then the follow-up
      request exactly when the reply leads to one. */
  lemma MainAttemptSent(main: CompletionRequest, allowed: set<string>, up: GroqOracle, doc: Json, parse: string -> Option<Json>)
    ensures var m := MainAttempt(main, allowed, up, doc, parse);
      if up.main.Ok? && AfterMain(main, up.main.value, allowed, doc, parse).FollowUp?
      then m.sent == [main, AfterMain(main, up.main.value, allowed, doc, parse).request]
      else m.sent == [main]
  {
  }

  /** A tool call that fails the policy ends the exchange with the
      missing-information text after the main call alone: either the policy
      rejects the calls, or an earlier call's arguments are `null` and the
      TypeError they throw is settled with that same text. */
  lemma GroqMainRejects(main: CompletionRequest, allowed: set<string>, up: GroqOracle, doc: Json, parse: string -> Option<Json>, k: nat)
    requires up.main.Ok?
    requires var calls := up.main.value.toolCalls;
      k < |calls| && !CallPasses(calls[k], allowed, doc, parse)
    ensures var m := MainAttempt(main, allowed, up, doc, parse);
      Settle(m.outcome) == Returned(MissingInfoResponse) && m.sent == [main] &&
      (m.outcome == Ok(MissingInfoResponse) || (m.outcome.Err? && IsArgumentsError(m.outcome.error)))
  {
    AfterMainRejectsOrThrows(main, up.main.value, allowed, doc, parse, k);
    var m := MainAttempt(main, allowed, up, doc, parse);
    if m.outcome.Err? {
      GroqArgumentsErrorAnswersMissingInfo(m.outcome.error);
    }
  }

  /** The TypeError of unreadable tool arguments is settled with the
      missing-information text. */
  lemma GroqArgumentsErrorAnswersMissingInfo(e: ErrorValue)
    requires IsArgumentsError(e)
    ensures Settle(Err(e)) == Returned(MissingInfoResponse)
  {
    ArgumentsMessagesQuiet();
    if e == Error(NullArgumentsMessage) {
      QuietMentionsNothing(NullArgumentsMessage);
    } else {
      QuietMentionsNothing(UndefinedArgumentsMessage);
    }
  }

  /** The pipeline's own errors become the missing-information answer. */
  lemma GroqInternalErrorsAnswerMissingInfo()
    ensures Settle(Err(Error(EmptyClassifierMessage))) == Returned(MissingInfoResponse)
    ensures Settle(Err(Error(EmptyResponseMessage))) == Returned(MissingInfoResponse)
  {
    ClassifierMessageNoK();
    ClassifierMessageNoSpaceBeforeL();
    ResponseMessageNoK();
    ResponseMessageNoSpaceBeforeL();
    QuietMentionsNothing(EmptyClassifierMessage);
    QuietMentionsNothing(EmptyResponseMessage);
  }

  /** Every path the browser-side copy allows, the endpoint allows too. */
  lemma AllowListsNested()
    ensures GroqAllowList <= ChatAllowList
  {
  }

  /** Some paths the endpoint allows are outside the browser-side list. */
  lemma AllowListsDiffer()
    ensures "phone_number" in ChatAllowList && "phone_number" !in GroqAllowList
    ensures "current_date" in ChatAllowList && "current_date" !in GroqAllowList
  {
  }

  /** The browser-side policy is the stricter one: tool calls it lets
      through, the endpoint lets through with the same tool messages. */
  lemma GroqPolicyStricter(calls: seq<ToolCall>, doc: Json, parse: string -> Option<Json>)
    requires ToolDecision(calls, GroqAllowList, doc, parse).Resolved?
    ensures ToolDecision(calls, ChatAllowList, doc, parse) == ToolDecision(calls, GroqAllowList, doc, parse)
  {
    AllowListsNested();
    AllowListMonotone(calls, GroqAllowList, ChatAllowList, doc, parse);
  }

  /** A call asking for `phone_number`, which the endpoint allows, makes
      the browser-side copy answer without a follow-up. */
  lemma GroqRejectsPhoneNumber(calls: seq<ToolCall>, doc: Json, parse: string -> Option<Json>, k: nat, j: nat)
    requires k < |calls| && CallPaths(calls[k], parse).Some?
    requires j < |CallPaths(calls[k], parse).value| && CallPaths(calls[k], parse).value[j] == "phone_number"
    ensures !ToolDecision(calls, GroqAllowList, doc, parse).Resolved?
  {
    AllowListsDiffer();
    OneBadCallRejects(calls, GroqAllowList, doc, parse, k);
  }
}
