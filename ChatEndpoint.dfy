/** The deployed endpoint `onRequest` of functions/api/chat.ts: the checks
    made before any upstream call, the three rotated upstream calls
    (classifier, main, follow-up), the tool-call policy with the endpoint's
    allow-list and the mapping of errors to the user-facing answers. The
    upstream service is an oracle: for each stage, what each key answers. */
module ChatEndpoint {
  import opened Wrappers
  import opened JsText
  import opened Profile
  import opened Upstream
  import opened ToolPolicy
  import opened Pipeline
  import opened Credentials
  import opened Rotation

  /** `PROFILE_KEY_PATH_SET` of the endpoint. */
  const ChatAllowList: set<string> := {
    "name", "current_date", "email", "age", "date_of_birth", "phone_number", "pronouns",
    "personality", "address", "family", "hometown", "languages", "sexual_orientation",
    "dating", "religion", "zodiac_sign", "education.k-12", "education.undergraduate",
    "education.graduate", "professional_experience", "work_authorization", "career_goals",
    "favorite.food", "favorite.movie", "favorite.tv_series", "favorite.song",
    "favorite.artist", "favorite.color", "favorite.number", "favorite.sport",
    "favorite.sport_team", "favorite.person", "favorite.fictional_character",
    "favorite.quote", "favorite.creator", "technical_skills", "projects", "hobbies",
    "places_visited", "study_method", "preferred_work_style", "define_success", "politics",
    "links.resume", "links.transcript.undergraduate", "links.transcript.graduate",
    "links.internship_completion_certificate", "links.github", "links.linkedin",
    "links.google_scholar", "diet", "travel_bucket_list", "summary_about_me"
  }

  const ChatHistoryLength: nat := 8
  const KeyCount: nat := 5

  const MissingKeysMessage: string := "Missing Groq API keys. Set GROQ_API_KEY_1 through GROQ_API_KEY_5."
  const MethodNotAllowedMessage: string := "Method not allowed."
  const InvalidPayloadMessage: string := "Invalid request payload."
  const MessageRequiredMessage: string := "Message is required."
  const RateLimitReply: string := "API Rate limit reached. Please try again later :("
  const InvalidKeyReply: string := "Invalid or missing Groq API key."

  /** The parsed request body: not an object (a body that is not JSON,
      `null` or a primitive), or an object (arrays included), of which only
      `history` (empty unless it is an array) and `newMessage` (absent
      unless it is a string) matter. */
  datatype Payload = NotAnObject | PayloadObject(history: seq<HistoryMessage>, newMessage: Option<string>)

  datatype HttpRequest = HttpRequest(httpMethod: string, cookie: Option<string>, payload: Payload)

  datatype Body = ErrorBody(error: string) | AnswerBody(responseText: string)

  /** A JSON response: status, body and the `Set-Cookie` header, if any. */
  datatype HttpResponse = HttpResponse(status: nat, body: Body, setCookie: Option<string>)

  /** What the upstream service answers at each stage, key by key:
      `classifier[i - 1]` is the answer to the classifier request sent with
      key #i, and so on. */
  datatype UpstreamOracle = UpstreamOracle(classifier: seq<CallOutcome>, main: seq<CallOutcome>, followUp: seq<CallOutcome>)

  predicate OracleFits(up: UpstreamOracle) {
    |up.classifier| == KeyCount && |up.main| == KeyCount && |up.followUp| == KeyCount
  }

  /** One upstream call: the key index it used and the request body. */
  datatype Sent = Sent(keyIndex: nat, request: CompletionRequest)

  function SentWith(tried: seq<nat>, request: CompletionRequest): (r: seq<Sent>)
    ensures |r| == |tried| && forall k :: 0 <= k < |r| ==> r[k] == Sent(tried[k], request)
  {
    seq(|tried|, k requires 0 <= k < |tried| => Sent(tried[k], request))
  }

  /** The key index after a rotated call: the key that answered, or the
      index as it was when the call failed. */
  function NextIndex(r: Rotated, index: nat): nat {
    if r.result.Ok? && r.tried != [] then LastTried(r) else index
  }

  /** The outcome of the `try` block so far, the key index and the calls made. */
  datatype Progress = Progress(outcome: Result<string, ErrorValue>, index: nat, sent: seq<Sent>)

  /** The follow-up call and the text of its reply. */
  function FollowUpStage(index: nat, request: CompletionRequest, up: UpstreamOracle): (p: Progress)
    requires 1 <= index <= KeyCount && OracleFits(up)
    ensures index <= p.index <= KeyCount
  {
    RotateNeverBackwards(up.followUp, index, KeyCount);
    var r := RotateFrom(up.followUp, index, KeyCount);
    var sent := SentWith(r.tried, request);
    match r.result
    case Err(e) => Progress(Err(e), index, sent)
    case Ok(reply) => Progress(Outcome(ReplyText(reply)), LastTried(r), sent)
  }

  /** What a stage's reply leads to, on the key that answered: the answer,
      the error, or the follow-up call after the calls made so far. */
  function ReplyStage(index: nat, sent: seq<Sent>, next: Next, up: UpstreamOracle): (p: Progress)
    requires 1 <= index <= KeyCount && OracleFits(up)
    ensures index <= p.index <= KeyCount
  {
    match next
    case Answer(text) => Progress(Ok(text), index, sent)
    case Fail(e) => Progress(Err(e), index, sent)
    case FollowUp(request) =>
      var p := FollowUpStage(index, request, up);
      Progress(p.outcome, p.index, sent + p.sent)
  }

  /** The calls made before the reply come first; one more call is made
      exactly for a follow-up, on the key that answered and carrying the
      follow-up request; otherwise the reply's answer or error ends the
      stage where it is. */
  lemma ReplyStageShape(index: nat, sent: seq<Sent>, next: Next, up: UpstreamOracle)
    requires 1 <= index <= KeyCount && OracleFits(up)
    ensures var p := ReplyStage(index, sent, next, up);
      |p.sent| >= |sent| && p.sent[..|sent|] == sent &&
      (|p.sent| > |sent| <==> next.FollowUp?) &&
      (next.FollowUp? ==> p.sent[|sent|] == Sent(index, next.request)) &&
      (!next.FollowUp? ==> p == Progress(Outcome(next), index, sent))
  {
    if next.FollowUp? {
      var f := FollowUpStage(index, next.request, up);
      RotateFromSpec(up.followUp, index, KeyCount);
      assert f.sent[0] == Sent(index, next.request);
      assert (sent + f.sent)[..|sent|] == sent;
      assert (sent + f.sent)[|sent|] == f.sent[0];
    }
  }

  /** The main call and what its reply leads to. */
  function MainStage(index: nat, main: CompletionRequest, allowed: set<string>, up: UpstreamOracle, doc: Json, parse: string -> Option<Json>): (p: Progress)
    requires 1 <= index <= KeyCount && OracleFits(up)
    ensures index <= p.index <= KeyCount
  {
    RotateNeverBackwards(up.main, index, KeyCount);
    var r := RotateFrom(up.main, index, KeyCount);
    var sent := SentWith(r.tried, main);
    match r.result
    case Err(e) => Progress(Err(e), index, sent)
    case Ok(reply) => ReplyStage(LastTried(r), sent, AfterMain(main, reply, allowed, doc, parse), up)
  }

  /** The `try` block: the classifier call, its verdict, then the main stage. */
  function Answering(start: nat, recent: seq<HistoryMessage>, newMessage: string, allowed: set<string>, up: UpstreamOracle, doc: Json, parse: string -> Option<Json>): (p: Progress)
    requires 1 <= start <= KeyCount && OracleFits(up)
    ensures start <= p.index <= KeyCount
  {
    RotateNeverBackwards(up.classifier, start, KeyCount);
    var r := RotateFrom(up.classifier, start, KeyCount);
    var sent := SentWith(r.tried, ClassifierRequest(recent, newMessage));
    match r.result
    case Err(e) => Progress(Err(e), start, sent)
    case Ok(reply) =>
      match ClassifierVerdict(reply, parse)
      case Err(e) => Progress(Err(e), LastTried(r), sent)
      case Ok(personal) =>
        var p := MainStage(LastTried(r), MainRequest(personal, recent, newMessage), allowed, up, doc, parse);
        Progress(p.outcome, p.index, sent + p.sent)
  }

  /** `String(error?.message ?? "")`. */
  function ErrorMessageText(error: ErrorValue): string {
    if error.ErrorObject? && error.message.Some? then error.message.value else ""
  }

  /** The `catch` block's answer: the rate-limit text first, then the
      invalid-key text for a message mentioning "api key", otherwise the
      missing-information text. */
  function ChatErrorText(error: ErrorValue): string {
    if IsRateLimitError(error) then RateLimitReply
    else if Contains(Lower(ErrorMessageText(error)), "api key") then InvalidKeyReply
    else MissingInfoResponse
  }

  /** The error carries a message that mentions "api key" in any letter case. */
  ghost predicate MentionsApiKey(error: ErrorValue) {
    error.ErrorObject? && error.message.Some? && exists i :: OccursAt(Lower(error.message.value), "api key", i)
  }

  /** The error mapping: a rate-limit error gets the rate-limit text, even
      when its message also mentions "api key"; any other error whose
      message mentions "api key" in any letter case gets the invalid-key
      text; everything else, errors without a message included, gets the
      missing-information text. The error's own message is never shown. */
  lemma ChatErrorTextCases(error: ErrorValue)
    ensures IsRateLimitError(error) ==> ChatErrorText(error) == RateLimitReply
    ensures !IsRateLimitError(error) && MentionsApiKey(error) ==> ChatErrorText(error) == InvalidKeyReply
    ensures !IsRateLimitError(error) && !MentionsApiKey(error) ==> ChatErrorText(error) == MissingInfoResponse
  {
    ContainsIff(Lower(ErrorMessageText(error)), "api key");
  }

  /** The `Set-Cookie` value of the response: only when the key index moved. */
  function SessionCookie(start: nat, index: nat): Option<string> {
    if index == start then None else Some(BuildApiKeyCookie(index))
  }

  function ResponseText(outcome: Result<string, ErrorValue>): string {
    match outcome
    case Ok(text) => text
    case Err(e) => ChatErrorText(e)
  }

  /** The response to a request and the upstream calls made for it. */
  datatype Handled = Handled(response: HttpResponse, sent: seq<Sent>)

  /** The answer to a well-formed request, the session's key index being
      `start`: status 200, the answer or the mapped error, and the cookie
      when the index moved. */
  function Respond(start: nat, history: seq<HistoryMessage>, newMessage: string, allowed: set<string>, up: UpstreamOracle, doc: Json, parse: string -> Option<Json>): Handled
    requires 1 <= start <= KeyCount && OracleFits(up)
  {
    var p := Answering(start, RecentHistory(history, ChatHistoryLength), newMessage, allowed, up, doc, parse);
    Handled(HttpResponse(200, AnswerBody(ResponseText(p.outcome)), SessionCookie(start, p.index)), p.sent)
  }

  /** `onRequest`. */
  function HandleRequest(env: Env, request: HttpRequest, allowed: set<string>, up: UpstreamOracle, doc: Json, parse: string -> Option<Json>): Handled
    requires OracleFits(up)
  {
    var keys := ResolveApiKeys(env);
    if SomeKeyMissing(keys) then Handled(HttpResponse(500, ErrorBody(MissingKeysMessage), None), [])
    else
      var start := SessionKeyIndex(request.cookie, |keys|);
      if request.httpMethod != "POST" then Handled(HttpResponse(405, ErrorBody(MethodNotAllowedMessage), None), [])
      else if request.payload.NotAnObject? then Handled(HttpResponse(400, ErrorBody(InvalidPayloadMessage), None), [])
      else
        var newMessage := Trim(request.payload.newMessage.GetOr(""));
        if newMessage == [] then Handled(HttpResponse(400, ErrorBody(MessageRequiredMessage), None), [])
        else
          Respond(start, request.payload.history, newMessage, allowed, up, doc, parse)
  }

  /** The follow-up call on the session's rotation state. */
  method RunFollowUp(session: KeyRotation, request: CompletionRequest, up: UpstreamOracle)
    returns (outcome: Result<string, ErrorValue>, sent: seq<Sent>)
    requires session.Valid() && |session.apiKeys| == KeyCount && OracleFits(up)
    modifies session
    ensures session.Valid()
    ensures Progress(outcome, session.apiKeyIndex, sent) == FollowUpStage(old(session.apiKeyIndex), request, up)
  {
    var result, tried := session.CreateChatCompletionWithRotation(up.followUp);
    sent := SentWith(tried, request);
    if result.Err? {
      return Err(result.error), sent;
    }
    outcome := Outcome(ReplyText(result.value));
  }

  /** The main call, the tool-call policy and, when it lets the calls
      through, the follow-up call. */
  method RunMain(session: KeyRotation, main: CompletionRequest, allowed: set<string>, up: UpstreamOracle, doc: Json, parse: string -> Option<Json>)
    returns (outcome: Result<string, ErrorValue>, sent: seq<Sent>)
    requires session.Valid() && |session.apiKeys| == KeyCount && OracleFits(up)
    modifies session
    ensures session.Valid()
    ensures Progress(outcome, session.apiKeyIndex, sent) == MainStage(old(session.apiKeyIndex), main, allowed, up, doc, parse)
  {
    var result, tried := session.CreateChatCompletionWithRotation(up.main);
    sent := SentWith(tried, main);
    if result.Err? {
      return Err(result.error), sent;
    }
    var next := HandleMainReply(main, result.value, allowed, doc, parse);
    match next {
      case Answer(text) =>
        outcome := Ok(text);
      case Fail(e) =>
        outcome := Err(e);
      case FollowUp(request) =>
        var more: seq<Sent>;
        outcome, more := RunFollowUp(session, request, up);
        sent := sent + more;
    }
  }

  /** `onRequest`, step by step, with the rotation state of the request. */
  method OnRequest(env: Env, request: HttpRequest, up: UpstreamOracle, doc: Json, parse: string -> Option<Json>)
    returns (response: HttpResponse, sent: seq<Sent>)
    requires OracleFits(up)
    ensures Handled(response, sent) == HandleRequest(env, request, ChatAllowList, up, doc, parse)
  {
    var apiKeys := ResolveApiKeys(env);
    if exists k :: 0 <= k < |apiKeys| && apiKeys[k] == [] {
      return HttpResponse(500, ErrorBody(MissingKeysMessage), None), [];
    }
    var apiKeyIndex := GetApiKeyIndexFromRequest(request.cookie, |apiKeys|);
    var session := new KeyRotation(apiKeys, apiKeyIndex);
    if request.httpMethod != "POST" {
      return HttpResponse(405, ErrorBody(MethodNotAllowedMessage), session.setApiKeyCookie), [];
    }
    if request.payload.NotAnObject? {
      return HttpResponse(400, ErrorBody(InvalidPayloadMessage), session.setApiKeyCookie), [];
    }
    var newMessage := Trim(request.payload.newMessage.GetOr(""));
    if newMessage == [] {
      return HttpResponse(400, ErrorBody(MessageRequiredMessage), session.setApiKeyCookie), [];
    }
    response, sent := AnswerRequest(session, request.payload.history, newMessage, ChatAllowList, up, doc, parse);
  }

  /** The `try`/`catch` of `onRequest` on a fresh rotation state: the
      classifier call, the main stage and the mapped answer. */
  method AnswerRequest(session: KeyRotation, history: seq<HistoryMessage>, newMessage: string, allowed: set<string>, up: UpstreamOracle, doc: Json, parse: string -> Option<Json>)
    returns (response: HttpResponse, sent: seq<Sent>)
    requires session.Valid() && |session.apiKeys| == KeyCount && OracleFits(up)
    requires session.apiKeyIndex == session.initialIndex
    modifies session
    ensures Handled(response, sent) == Respond(old(session.apiKeyIndex), history, newMessage, allowed, up, doc, parse)
  {
    var recentHistory := RecentHistory(history, ChatHistoryLength);
    var classifierRequest := ClassifierRequest(recentHistory, newMessage);
    var result, tried := session.CreateChatCompletionWithRotation(up.classifier);
    sent := SentWith(tried, classifierRequest);
    var outcome: Result<string, ErrorValue>;
    if result.Err? {
      outcome := Err(result.error);
    } else {
      var verdict := ClassifierVerdict(result.value, parse);
      if verdict.Err? {
        outcome := Err(verdict.error);
      } else {
        var main := MainRequest(verdict.value, recentHistory, newMessage);
        var more: seq<Sent>;
        outcome, more := RunMain(session, main, allowed, up, doc, parse);
        sent := sent + more;
      }
    }
    var responseText := match outcome case Ok(text) => text case Err(e) => ChatErrorText(e);
    response := HttpResponse(200, AnswerBody(responseText), session.setApiKeyCookie);
  }

  // ---------------------------------------------------------------------
  // Properties of a request
  // ---------------------------------------------------------------------

  /** The calls use keys between `lo` and `hi`, in non-decreasing order. */
  ghost predicate KeysInOrder(sent: seq<Sent>, lo: nat, hi: nat) {
    (forall k :: 0 <= k < |sent| ==> lo <= sent[k].keyIndex <= hi) &&
    (forall j, k :: 0 <= j < k < |sent| ==> sent[j].keyIndex <= sent[k].keyIndex)
  }

  ghost predicate KeyUsed(sent: seq<Sent>, index: nat) {
    exists k :: 0 <= k < |sent| && sent[k].keyIndex == index
  }

  lemma KeysInOrderAppend(a: seq<Sent>, b: seq<Sent>, lo: nat, mid: nat, hi: nat)
    requires KeysInOrder(a, lo, mid) && KeysInOrder(b, mid, hi) && lo <= mid <= hi
    ensures KeysInOrder(a + b, lo, hi)
  {
    var s := a + b;
    forall k | 0 <= k < |s| ensures lo <= s[k].keyIndex <= hi {
      if k < |a| {
        assert s[k] == a[k];
      } else {
        assert s[k] == b[k - |a|];
      }
    }
    forall j, k | 0 <= j < k < |s| ensures s[j].keyIndex <= s[k].keyIndex {
      if k < |a| {
        assert s[j] == a[j] && s[k] == a[k];
      } else if j < |a| {
        assert s[j] == a[j] && s[k] == b[k - |a|];
      } else {
        assert s[j] == b[j - |a|] && s[k] == b[k - |a|];
      }
    }
  }

  /** One rotated call: its keys run from the start to the last one tried,
      which is a key that was used. */
  lemma RotationKeys(outcomes: seq<CallOutcome>, index: nat, request: CompletionRequest)
    requires 1 <= index <= KeyCount && |outcomes| == KeyCount
    ensures var r := RotateFrom(outcomes, index, KeyCount);
      KeysInOrder(SentWith(r.tried, request), index, LastTried(r)) &&
      KeyUsed(SentWith(r.tried, request), LastTried(r)) && LastTried(r) <= KeyCount
  {
    var r := RotateFrom(outcomes, index, KeyCount);
    RotateFromSpec(outcomes, index, KeyCount);
    var sent := SentWith(r.tried, request);
    assert sent[|sent| - 1].keyIndex == LastTried(r);
  }

  /** A stage's calls use keys from its start index on, in order, and the
      index it hands on is its start or a key it used. */
  ghost predicate StageKeys(p: Progress, index: nat) {
    KeysInOrder(p.sent, index, KeyCount) && (p.index == index || KeyUsed(p.sent, p.index))
  }

  lemma KeyUsedAppend(a: seq<Sent>, b: seq<Sent>, index: nat)
    ensures KeyUsed(a, index) ==> KeyUsed(a + b, index)
    ensures KeyUsed(b, index) ==> KeyUsed(a + b, index)
  {
    if KeyUsed(a, index) {
      var k :| 0 <= k < |a| && a[k].keyIndex == index;
      assert (a + b)[k] == a[k];
    }
    if KeyUsed(b, index) {
      var k :| 0 <= k < |b| && b[k].keyIndex == index;
      assert (a + b)[|a| + k] == b[k];
    }
  }

  lemma FollowUpKeys(index: nat, request: CompletionRequest, up: UpstreamOracle)
    requires 1 <= index <= KeyCount && OracleFits(up)
    ensures StageKeys(FollowUpStage(index, request, up), index)
  {
    RotationKeys(up.followUp, index, request);
    var r := RotateFrom(up.followUp, index, KeyCount);
    var sent := SentWith(r.tried, request);
    assert KeysInOrder(sent, index, KeyCount);
  }

  /** The calls after the reply keep the order, and the index handed on
      is the one that answered or a key the follow-up used. */
  lemma ReplyStageKeys(lo: nat, index: nat, sent: seq<Sent>, next: Next, up: UpstreamOracle)
    requires 1 <= lo <= index <= KeyCount && OracleFits(up)
    requires KeysInOrder(sent, lo, index) && KeyUsed(sent, index)
    ensures StageKeys(ReplyStage(index, sent, next, up), lo)
  {
    if next.FollowUp? {
      var p := FollowUpStage(index, next.request, up);
      FollowUpKeys(index, next.request, up);
      KeysInOrderAppend(sent, p.sent, lo, index, KeyCount);
      KeyUsedAppend(sent, p.sent, p.index);
      KeyUsedAppend(sent, p.sent, index);
    } else {
      assert KeysInOrder(sent, lo, KeyCount);
    }
  }

  lemma MainKeys(index: nat, main: CompletionRequest, allowed: set<string>, up: UpstreamOracle, doc: Json, parse: string -> Option<Json>)
    requires 1 <= index <= KeyCount && OracleFits(up)
    ensures StageKeys(MainStage(index, main, allowed, up, doc, parse), index)
  {
    RotationKeys(up.main, index, main);
    var r := RotateFrom(up.main, index, KeyCount);
    var sent := SentWith(r.tried, main);
    if r.result.Ok? {
      RotateNeverBackwards(up.main, index, KeyCount);
      ReplyStageKeys(index, LastTried(r), sent, AfterMain(main, r.result.value, allowed, doc, parse), up);
    } else {
      assert KeysInOrder(sent, index, KeyCount);
    }
  }

  lemma AnsweringKeys(start: nat, recent: seq<HistoryMessage>, newMessage: string, allowed: set<string>, up: UpstreamOracle, doc: Json, parse: string -> Option<Json>)
    requires 1 <= start <= KeyCount && OracleFits(up)
    ensures StageKeys(Answering(start, recent, newMessage, allowed, up, doc, parse), start)
  {
    var classifier := ClassifierRequest(recent, newMessage);
    RotationKeys(up.classifier, start, classifier);
    var r := RotateFrom(up.classifier, start, KeyCount);
    var sent := SentWith(r.tried, classifier);
    assert KeysInOrder(sent, start, KeyCount);
    if r.result.Ok? && ClassifierVerdict(r.result.value, parse).Ok? {
      var main := MainRequest(ClassifierVerdict(r.result.value, parse).value, recent, newMessage);
      RotateNeverBackwards(up.classifier, start, KeyCount);
      var p := MainStage(LastTried(r), main, allowed, up, doc, parse);
      MainKeys(LastTried(r), main, allowed, up, doc, parse);
      KeysInOrderAppend(sent, p.sent, start, LastTried(r), KeyCount);
      KeyUsedAppend(sent, p.sent, p.index);
      KeyUsedAppend(sent, p.sent, LastTried(r));
    }
  }

  /** Within one request the key index only moves forward: every upstream
      call uses a key from the session's index on, in non-decreasing order;
      a cookie is set exactly when the index moved, and then names a key
      that was used. */
  lemma RespondKeys(start: nat, history: seq<HistoryMessage>, newMessage: string, allowed: set<string>, up: UpstreamOracle, doc: Json, parse: string -> Option<Json>)
    requires 1 <= start <= KeyCount && OracleFits(up)
    ensures var h := Respond(start, history, newMessage, allowed, up, doc, parse);
      KeysInOrder(h.sent, start, KeyCount) &&
      (h.response.setCookie.Some? ==>
        exists index :: start < index <= KeyCount && KeyUsed(h.sent, index) &&
          h.response.setCookie == Some(BuildApiKeyCookie(index)))
  {
    var recent := RecentHistory(history, ChatHistoryLength);
    var p := Answering(start, recent, newMessage, allowed, up, doc, parse);
    AnsweringKeys(start, recent, newMessage, allowed, up, doc, parse);
    if p.index != start {
      assert start < p.index <= KeyCount && KeyUsed(p.sent, p.index);
    }
  }

  /** Within one request the key index only moves forward: every upstream
      call uses a key from the session's index on, in non-decreasing order;
      a cookie is set only when the index moved, and then names a later key
      that was used. */
  lemma RequestKeys(env: Env, request: HttpRequest, allowed: set<string>, up: UpstreamOracle, doc: Json, parse: string -> Option<Json>)
    requires OracleFits(up)
    ensures var h := HandleRequest(env, request, allowed, up, doc, parse);
      var start := SessionKeyIndex(request.cookie, KeyCount);
      KeysInOrder(h.sent, start, KeyCount) &&
      (h.response.setCookie.Some? ==>
        exists index :: start < index <= KeyCount && KeyUsed(h.sent, index) &&
          h.response.setCookie == Some(BuildApiKeyCookie(index)))
  {
    var keys := ResolveApiKeys(env);
    if !SomeKeyMissing(keys) && request.httpMethod == "POST" && request.payload.PayloadObject? {
      var newMessage := Trim(request.payload.newMessage.GetOr(""));
      if newMessage != [] {
        var start := SessionKeyIndex(request.cookie, KeyCount);
        RespondKeys(start, request.payload.history, newMessage, allowed, up, doc, parse);
      }
    }
  }

  /** Missing keys are reported before anything else, with status 500, no
      cookie and no upstream call; no other response has status 500. */
  lemma MissingKeysFirst(env: Env, request: HttpRequest, allowed: set<string>, up: UpstreamOracle, doc: Json, parse: string -> Option<Json>)
    requires OracleFits(up)
    ensures var h := HandleRequest(env, request, allowed, up, doc, parse);
      (h.response.status == 500 <==> SomeKeyMissing(ResolveApiKeys(env))) &&
      (SomeKeyMissing(ResolveApiKeys(env)) ==> h == Handled(HttpResponse(500, ErrorBody(MissingKeysMessage), None), []))
  {
  }

  /** The request checks, in the source's order: a method other than POST
      gets 405, then a body that is not an object gets 400, then a message
      that is absent, not a string or blank gets 400; each without a cookie
      and without an upstream call. A request that passes them is answered
      with status 200 and its first call is the classifier request, on the
      session's key, for the window of history and the trimmed message. */
  lemma RequestChecks(env: Env, request: HttpRequest, allowed: set<string>, up: UpstreamOracle, doc: Json, parse: string -> Option<Json>)
    requires OracleFits(up) && !SomeKeyMissing(ResolveApiKeys(env))
    ensures var h := HandleRequest(env, request, allowed, up, doc, parse);
      var wellFormed := request.httpMethod == "POST" && request.payload.PayloadObject? &&
        request.payload.newMessage.Some? && !AllWhitespace(request.payload.newMessage.value);
      (h.response.status == 405 <==> request.httpMethod != "POST") &&
      (h.response.status == 400 <==> request.httpMethod == "POST" && !wellFormed) &&
      (!wellFormed ==> h.sent == [] && h.response.setCookie == None && h.response.body.ErrorBody?) &&
      (wellFormed ==>
        h.response.status == 200 && h.response.body.AnswerBody? && |h.sent| > 0 &&
        h.sent[0] == Sent(SessionKeyIndex(request.cookie, KeyCount),
          ClassifierRequest(RecentHistory(request.payload.history, ChatHistoryLength), Trim(request.payload.newMessage.value))))
  {
    if request.payload.PayloadObject? {
      var m := request.payload.newMessage.GetOr("");
      TrimEmptyIff(m);
      if request.httpMethod == "POST" && Trim(m) != [] {
        var start := SessionKeyIndex(request.cookie, KeyCount);
        var recent := RecentHistory(request.payload.history, ChatHistoryLength);
        ClassifierCallsFirst(start, recent, Trim(m), allowed, up, doc, parse);
      }
    }
  }

  /** Only the last eight history entries matter: entries before them
      change nothing in the response or in the calls made. */
  lemma HistoryWindow(env: Env, httpMethod: string, cookie: Option<string>, older: seq<HistoryMessage>, history: seq<HistoryMessage>, newMessage: Option<string>, allowed: set<string>, up: UpstreamOracle, doc: Json, parse: string -> Option<Json>)
    requires OracleFits(up) && |history| >= ChatHistoryLength
    ensures HandleRequest(env, HttpRequest(httpMethod, cookie, PayloadObject(older + history, newMessage)), allowed, up, doc, parse) ==
      HandleRequest(env, HttpRequest(httpMethod, cookie, PayloadObject(history, newMessage)), allowed, up, doc, parse)
  {
    HistoryWindowIgnoresOlder(older, history, ChatHistoryLength);
  }

  /** Whitespace around the message changes nothing: it is trimmed first. */
  lemma MessageTrimmed(env: Env, httpMethod: string, cookie: Option<string>, history: seq<HistoryMessage>, m: string, allowed: set<string>, up: UpstreamOracle, doc: Json, parse: string -> Option<Json>)
    requires OracleFits(up)
    ensures HandleRequest(env, HttpRequest(httpMethod, cookie, PayloadObject(history, Some(m))), allowed, up, doc, parse) ==
      HandleRequest(env, HttpRequest(httpMethod, cookie, PayloadObject(history, Some(Trim(m)))), allowed, up, doc, parse)
  {
    TrimIdempotent(m);
  }

  /** The classifier calls come first: one per key tried, from the
      session's key on. */
  lemma ClassifierCallsFirst(start: nat, recent: seq<HistoryMessage>, newMessage: string, allowed: set<string>, up: UpstreamOracle, doc: Json, parse: string -> Option<Json>)
    requires 1 <= start <= KeyCount && OracleFits(up)
    ensures var r := RotateFrom(up.classifier, start, KeyCount);
      var p := Answering(start, recent, newMessage, allowed, up, doc, parse);
      |r.tried| > 0 && |p.sent| >= |r.tried| && p.sent[..|r.tried|] == SentWith(r.tried, ClassifierRequest(recent, newMessage)) &&
      p.sent[0] == Sent(start, ClassifierRequest(recent, newMessage))
  {
    var r := RotateFrom(up.classifier, start, KeyCount);
    var sent := SentWith(r.tried, ClassifierRequest(recent, newMessage));
    RotateFromSpec(up.classifier, start, KeyCount);
    var p := Answering(start, recent, newMessage, allowed, up, doc, parse);
    RotateNeverBackwards(up.classifier, start, KeyCount);
    var rest: seq<Sent> := [];
    if r.result.Ok? && ClassifierVerdict(r.result.value, parse).Ok? {
      rest := MainStage(LastTried(r), MainRequest(ClassifierVerdict(r.result.value, parse).value, recent, newMessage), allowed, up, doc, parse).sent;
    }
    assert p.sent == sent + rest;
    assert (sent + rest)[..|sent|] == sent;
    assert p.sent[0] == sent[0];
  }

  /** When the classifier call fails, or answers with blank content, the
      request ends there: no other call is made, and the error is the
      call's own or the empty-classifier error. */
  lemma ClassifierFailureEnds(start: nat, recent: seq<HistoryMessage>, newMessage: string, allowed: set<string>, up: UpstreamOracle, doc: Json, parse: string -> Option<Json>)
    requires 1 <= start <= KeyCount && OracleFits(up)
    ensures var r := RotateFrom(up.classifier, start, KeyCount);
      var p := Answering(start, recent, newMessage, allowed, up, doc, parse);
      (r.result.Err? ==> p.outcome == Err(r.result.error) && p.index == start && p.sent == SentWith(r.tried, ClassifierRequest(recent, newMessage))) &&
      (r.result.Ok? && (r.result.value.content.None? || AllWhitespace(r.result.value.content.value)) ==>
        p.outcome == Err(Error(EmptyClassifierMessage)) && p.sent == SentWith(r.tried, ClassifierRequest(recent, newMessage)))
  {
    var r := RotateFrom(up.classifier, start, KeyCount);
    if r.result.Ok? {
      ClassifierVerdictCases(r.result.value, parse);
    }
  }

  /** A classifier answer with content leads to the main request, sent next
      on the key that answered, with the profile tool forced exactly when
      the verdict is "personal". */
  lemma ClassifierDecidesTool(start: nat, recent: seq<HistoryMessage>, newMessage: string, allowed: set<string>, up: UpstreamOracle, doc: Json, parse: string -> Option<Json>)
    requires 1 <= start <= KeyCount && OracleFits(up)
    ensures var r := RotateFrom(up.classifier, start, KeyCount);
      var p := Answering(start, recent, newMessage, allowed, up, doc, parse);
      r.result.Ok? && ClassifierVerdict(r.result.value, parse).Ok? ==>
        |r.tried| > 0 && |p.sent| > |r.tried| &&
        p.sent[|r.tried|] == Sent(LastTried(r), MainRequest(ClassifierVerdict(r.result.value, parse).value, recent, newMessage)) &&
        (p.sent[|r.tried|].request.toolChoice == ForcedTool <==> ClassifierVerdict(r.result.value, parse) == Ok(true))
  {
    var r := RotateFrom(up.classifier, start, KeyCount);
    var sent := SentWith(r.tried, ClassifierRequest(recent, newMessage));
    RotateFromSpec(up.classifier, start, KeyCount);
    if r.result.Ok? && ClassifierVerdict(r.result.value, parse).Ok? {
      var verdict := ClassifierVerdict(r.result.value, parse);
      var main := MainRequest(verdict.value, recent, newMessage);
      RotateNeverBackwards(up.classifier, start, KeyCount);
      var q := MainStage(LastTried(r), main, allowed, up, doc, parse);
      MainCallFirst(LastTried(r), main, allowed, up, doc, parse);
      assert (sent + q.sent)[|sent|] == q.sent[0];
      MainRequestShape(verdict.value, recent, newMessage);
    }
  }

  /** The main stage starts with the main request on the key it is given. */
  lemma MainCallFirst(index: nat, main: CompletionRequest, allowed: set<string>, up: UpstreamOracle, doc: Json, parse: string -> Option<Json>)
    requires 1 <= index <= KeyCount && OracleFits(up)
    ensures var r := RotateFrom(up.main, index, KeyCount);
      var q := MainStage(index, main, allowed, up, doc, parse);
      |r.tried| > 0 && |q.sent| >= |r.tried| && q.sent[..|r.tried|] == SentWith(r.tried, main) &&
      q.sent[0] == Sent(index, main)
  {
    var r := RotateFrom(up.main, index, KeyCount);
    var sent := SentWith(r.tried, main);
    RotateFromSpec(up.main, index, KeyCount);
    if r.result.Ok? {
      ReplyStageShape(LastTried(r), sent, AfterMain(main, r.result.value, allowed, doc, parse), up);
    }
    assert sent[0] == Sent(index, main);
  }

  /** The pipeline's own errors, an empty classifier reply and an empty
      answer, are neither rate limits nor key problems: the user sees the
      missing-information text. */
  lemma InternalErrorsAnswerMissingInfo()
    ensures ChatErrorText(Error(EmptyClassifierMessage)) == MissingInfoResponse
    ensures ChatErrorText(Error(EmptyResponseMessage)) == MissingInfoResponse
  {
    ClassifierMessageNoK();
    ClassifierMessageNoSpaceBeforeL();
    QuietAnswersMissingInfo(EmptyClassifierMessage);
    ResponseMessageNoK();
    ResponseMessageNoSpaceBeforeL();
    QuietAnswersMissingInfo(EmptyResponseMessage);
  }

  /** An error whose message mentions neither "rate limit" nor "api key"
      is answered with the missing-information text. */
  lemma QuietAnswersMissingInfo(m: string)
    requires (NoLetterK(m) || NoIBeforeSpace(m)) && NoSpaceBeforeL(m)
    ensures ChatErrorText(Error(m)) == MissingInfoResponse
  {
    QuietMentionsNothing(m);
  }

  /** Such a message mentions neither "rate limit" nor "api key": lower-casing
      makes no space followed by `l`, and no `k` or no `i` followed by a space. */
  lemma QuietMentionsNothing(m: string)
    requires (NoLetterK(m) || NoIBeforeSpace(m)) && NoSpaceBeforeL(m)
    ensures !IsRateLimitError(Error(m)) && !Contains(Lower(m), "api key")
  {
    var lower := Lower(m);
    assert "rate limit"[4] == ' ' && "rate limit"[5] == 'l';
    NoPairNoMatch(lower, "rate limit", 4);
    if NoLetterK(m) {
      assert "api key"[4] == 'k';
      NoCharNoMatch(lower, "api key", 4);
    } else {
      assert "api key"[2] == 'i' && "api key"[3] == ' ';
      NoPairNoMatch(lower, "api key", 2);
    }
  }

  /** The TypeError thrown when a tool call's arguments are `null` or
      `undefined` is neither a rate limit nor a key problem: the user sees
      the missing-information text. */
  lemma ArgumentsErrorAnswersMissingInfo(e: ErrorValue)
    requires IsArgumentsError(e)
    ensures ChatErrorText(e) == MissingInfoResponse
  {
    ArgumentsMessagesQuiet();
    if e == Error(NullArgumentsMessage) {
      QuietAnswersMissingInfo(NullArgumentsMessage);
    } else {
      QuietAnswersMissingInfo(UndefinedArgumentsMessage);
    }
  }

  /** What the main reply leads to, call by call. A reply without tool calls
      ends the request with its own text. A reply with tool calls leads to
      the follow-up call, on the key that answered, exactly when every call
      passes the policy, and that call carries the main messages, the reply
      and one tool message per call; otherwise no further call is made. */
  lemma MainStageTools(index: nat, main: CompletionRequest, allowed: set<string>, up: UpstreamOracle, doc: Json, parse: string -> Option<Json>)
    requires 1 <= index <= KeyCount && OracleFits(up)
    ensures var r := RotateFrom(up.main, index, KeyCount);
      var q := MainStage(index, main, allowed, up, doc, parse);
      |r.tried| > 0 &&
      (r.result.Ok? ==>
        var reply := r.result.value;
        (|reply.toolCalls| == 0 ==> q.sent == SentWith(r.tried, main) && q.outcome == Outcome(ReplyText(reply))) &&
        (|q.sent| > |r.tried| <==>
          |reply.toolCalls| > 0 && forall k :: 0 <= k < |reply.toolCalls| ==> CallPasses(reply.toolCalls[k], allowed, doc, parse)) &&
        (|q.sent| > |r.tried| ==>
          q.sent[|r.tried|] == Sent(LastTried(r), CompletionRequest(
            main.messages + [AssistantReply(reply)] +
            seq(|reply.toolCalls|, k requires 0 <= k < |reply.toolCalls| => PassedMessage(reply.toolCalls[k], doc, parse)),
            NoTools, false))))
  {
    var r := RotateFrom(up.main, index, KeyCount);
    RotateFromSpec(up.main, index, KeyCount);
    if r.result.Ok? {
      var reply := r.result.value;
      RotateNeverBackwards(up.main, index, KeyCount);
      AfterMainFollowUpIff(main, reply, allowed, doc, parse);
      AfterMainFollowUpRequest(main, reply, allowed, doc, parse);
      ReplyStageShape(LastTried(r), SentWith(r.tried, main), AfterMain(main, reply, allowed, doc, parse), up);
    }
  }

  /** A tool call that fails the policy (a wrong tool name, a key path
      outside the allow-list or one without a value) ends the request with
      the missing-information text and no follow-up call: either the
      policy rejects the calls, or an earlier call's arguments are `null`
      and the TypeError they throw is answered with that same text. */
  lemma MainStageRejects(index: nat, main: CompletionRequest, allowed: set<string>, up: UpstreamOracle, doc: Json, parse: string -> Option<Json>, k: nat)
    requires 1 <= index <= KeyCount && OracleFits(up)
    requires RotateFrom(up.main, index, KeyCount).result.Ok?
    requires var calls := RotateFrom(up.main, index, KeyCount).result.value.toolCalls;
      k < |calls| && !CallPasses(calls[k], allowed, doc, parse)
    ensures var r := RotateFrom(up.main, index, KeyCount);
      var q := MainStage(index, main, allowed, up, doc, parse);
      ResponseText(q.outcome) == MissingInfoResponse && q.sent == SentWith(r.tried, main) &&
      (q.outcome == Ok(MissingInfoResponse) || (q.outcome.Err? && IsArgumentsError(q.outcome.error)))
  {
    var r := RotateFrom(up.main, index, KeyCount);
    AfterMainRejectsOrThrows(main, r.result.value, allowed, doc, parse, k);
    var q := MainStage(index, main, allowed, up, doc, parse);
    if q.outcome.Err? {
      ArgumentsErrorAnswersMissingInfo(q.outcome.error);
    }
  }

  /** When every key from the session's on is rate-limited for the
      classifier, each of them is tried once, in order, and the user gets
      the rate-limit text with no cookie. */
  lemma AllKeysRateLimited(start: nat, history: seq<HistoryMessage>, newMessage: string, allowed: set<string>, up: UpstreamOracle, doc: Json, parse: string -> Option<Json>)
    requires 1 <= start <= KeyCount && OracleFits(up)
    requires forall i :: start - 1 <= i < KeyCount ==> up.classifier[i].Err? && IsRateLimitError(up.classifier[i].error)
    ensures var h := Respond(start, history, newMessage, allowed, up, doc, parse);
      h.response == HttpResponse(200, AnswerBody(RateLimitReply), None) &&
      |h.sent| == KeyCount - start + 1 &&
      forall k :: 0 <= k < |h.sent| ==>
        h.sent[k] == Sent(start + k, ClassifierRequest(RecentHistory(history, ChatHistoryLength), newMessage))
  {
    var recent := RecentHistory(history, ChatHistoryLength);
    var r := RotateFrom(up.classifier, start, KeyCount);
    RotateFromSpec(up.classifier, start, KeyCount);
    var last := LastTried(r);
    assert up.classifier[last - 1].Err? && IsRateLimitError(up.classifier[last - 1].error);
    assert r.result == Err(Error(RateLimitExhaustedMessage));
    ExhaustedIsRateLimit();
    ClassifierFailureEnds(start, recent, newMessage, allowed, up, doc, parse);
  }

  /** The cookie makes the rotation stick: the `name=value` pair the
      browser keeps from the `Set-Cookie` value, sent back alone or after
      other cookies, selects for the next request the later key that this
      request moved to. */
  lemma CookieSticks(env: Env, request: HttpRequest, allowed: set<string>, up: UpstreamOracle, doc: Json, parse: string -> Option<Json>, others: string)
    requires OracleFits(up)
    ensures var h := HandleRequest(env, request, allowed, up, doc, parse);
      h.response.setCookie.Some? ==>
        var pair := Split(h.response.setCookie.value, ';')[0];
        var next := SessionKeyIndex(Some(pair), KeyCount);
        next > SessionKeyIndex(request.cookie, KeyCount) && KeyUsed(h.sent, next) &&
        SessionKeyIndex(Some(others + [';'] + pair), KeyCount) == next
  {
    RequestKeys(env, request, allowed, up, doc, parse);
    var h := HandleRequest(env, request, allowed, up, doc, parse);
    if h.response.setCookie.Some? {
      var index :| SessionKeyIndex(request.cookie, KeyCount) < index <= KeyCount && KeyUsed(h.sent, index) &&
        h.response.setCookie == Some(BuildApiKeyCookie(index));
      BuildApiKeyCookiePair(index);
      SessionKeyIndexRoundTrip(others, index, KeyCount);
    }
  }
}
