/** The stages of the answer pipeline that functions/api/chat.ts and
    services/groqService.ts share: the history window, the classifier request
    and its fail-open verdict, the main request with its tool choice, what the
    main reply leads to (a direct answer, the missing-information answer or a
    follow-up request carrying the tool results) and the text of a reply. */
module Pipeline {
  import opened Wrappers
  import opened JsText
  import opened Profile
  import opened Upstream
  import opened ToolPolicy

  /** A history entry as the client sends it: `role` is `"user"` for the
      user's turns and anything else for the assistant's. */
  datatype HistoryMessage = HistoryMessage(role: string, content: string)

  const EmptyClassifierMessage: string := "Empty classifier response from Groq."
  const EmptyResponseMessage: string := "Empty response from Groq."

  /** `history.slice(-n)`: the last `n` entries, or all of them when there
      are fewer (`slice(-0)` is `slice(0)`, the whole array). */
  function RecentHistory(history: seq<HistoryMessage>, n: nat): (r: seq<HistoryMessage>)
    ensures n > 0 ==> |r| == if |history| <= n then |history| else n
    ensures n == 0 ==> r == history
    ensures r == history[|history| - |r|..]
  {
    if n == 0 || |history| <= n then history else history[|history| - n..]
  }

  /** Entries older than the window never matter: with at least `n` entries,
      putting more in front of them leaves the window as it is. */
  lemma HistoryWindowIgnoresOlder(older: seq<HistoryMessage>, history: seq<HistoryMessage>, n: nat)
    requires n > 0 && |history| >= n
    ensures RecentHistory(older + history, n) == RecentHistory(history, n)
  {
    assert (older + history)[|older + history| - n..] == history[|history| - n..];
  }

  function SpeakerLabel(role: string): string {
    if role == "user" then "User" else "Assistant"
  }

  function HistoryLine(m: HistoryMessage): string {
    SpeakerLabel(m.role) + ": " + m.content
  }

  /** `formatHistoryForClassifier`: one `User: …` or `Assistant: …` line per
      entry, joined by newlines. */
  function FormatHistory(history: seq<HistoryMessage>): string {
    Join(seq(|history|, k requires 0 <= k < |history| => HistoryLine(history[k])), '\n')
  }

  /** The formatted history is empty exactly when there is no history, so
      the `(none)` placeholder stands for an empty history only. */
  lemma FormatHistoryEmptyIff(history: seq<HistoryMessage>)
    ensures FormatHistory(history) == [] <==> history == []
  {
    if history != [] {
      var lines := seq(|history|, k requires 0 <= k < |history| => HistoryLine(history[k]));
      assert lines[0] == HistoryLine(history[0]);
      assert |HistoryLine(history[0])| >= 2;
      assert Join(lines, '\n')[..|lines[0]|] == lines[0];
    }
  }

  /** When no content holds a newline, the classifier text has exactly one
      line per entry, in order. */
  lemma FormatHistoryLines(history: seq<HistoryMessage>)
    requires history != []
    requires forall k :: 0 <= k < |history| ==> '\n' !in history[k].content
    ensures Split(FormatHistory(history), '\n') == seq(|history|, k requires 0 <= k < |history| => HistoryLine(history[k]))
  {
    var lines := seq(|history|, k requires 0 <= k < |history| => HistoryLine(history[k]));
    forall k | 0 <= k < |lines| ensures '\n' !in lines[k] {
      assert lines[k] == SpeakerLabel(history[k].role) + ": " + history[k].content;
    }
    SplitJoin(lines, '\n');
  }

  /** The classifier's user message: the history text (or `(none)`) and the
      current query. */
  function ClassifierQuery(historyText: string, newMessage: string): string {
    "Chat history:\n" + (if historyText == [] then "(none)" else historyText) +
    "\n\nCurrent user query:\n" + newMessage
  }

  /** The classifier request: its system prompt and one user message, with
      the `is_personal` JSON schema demanded and no tools. */
  function ClassifierRequest(recent: seq<HistoryMessage>, newMessage: string): (r: CompletionRequest)
    ensures |r.messages| == 2 && r.toolChoice == NoTools && r.classifierSchema
  {
    CompletionRequest(
      [SystemMessage(ClassifierPrompt), Turn(User, ClassifierQuery(FormatHistory(recent), newMessage))],
      NoTools, true)
  }

  /** The classifier sees its prompt, then one user message that opens with
      the history header, shows `(none)` right after it exactly when there
      is no history, and ends with the current query header and the new
      message. */
  lemma ClassifierRequestContent(recent: seq<HistoryMessage>, newMessage: string)
    ensures var r := ClassifierRequest(recent, newMessage);
      r.messages[0] == SystemMessage(ClassifierPrompt) &&
      r.messages[1].Turn? && r.messages[1].role == User
    ensures var q := ClassifierRequest(recent, newMessage).messages[1].content;
      var tail := "\n\nCurrent user query:\n" + newMessage;
      |q| >= 20 + |tail| && q[..14] == "Chat history:\n" && q[|q| - |tail|..] == tail &&
      (q[14..20] == "(none)" <==> recent == [])
  {
    var h := FormatHistory(recent);
    var tail := "\n\nCurrent user query:\n" + newMessage;
    var q := ClassifierQuery(h, newMessage);
    var shown := if h == [] then "(none)" else h;
    assert q == "Chat history:\n" + shown + tail;
    FormatHistoryEmptyIff(recent);
    if recent != [] {
      var lines := seq(|recent|, k requires 0 <= k < |recent| => HistoryLine(recent[k]));
      var first := HistoryLine(recent[0]);
      assert lines[0] == first && |first| >= 6 && first[0] != '(';
      assert Join(lines, '\n')[..|first|] == first;
      assert |h| >= 6 && h[0] != '(';
      assert q[14] == h[0];
    }
  }

  /** `classifierOutput?.is_personal === true`, for the parsed output
      (`None` when `JSON.parse` threw). */
  predicate IsPersonal(parsed: Option<Json>) {
    parsed.Some? && parsed.value.JObject? && "is_personal" in parsed.value.fields &&
    parsed.value.fields["is_personal"] == JBool(true)
  }

  /** What the classifier's reply decides: an error when its trimmed content
      is empty or absent, otherwise whether the question is personal. */
  function ClassifierVerdict(reply: Completion, parse: string -> Option<Json>): Result<bool, ErrorValue> {
    match reply.content
    case None => Err(Error(EmptyClassifierMessage))
    case Some(c) =>
      var text := Trim(c);
      if text == [] then Err(Error(EmptyClassifierMessage)) else Ok(IsPersonal(parse(text)))
  }

  /** The classification fails exactly on absent or blank content, and is
      otherwise fail-open: output that does not parse, is not an object or
      lacks `is_personal: true` counts as not personal. */
  lemma ClassifierVerdictCases(reply: Completion, parse: string -> Option<Json>)
    ensures ClassifierVerdict(reply, parse).Err? <==> reply.content.None? || AllWhitespace(reply.content.value)
    ensures ClassifierVerdict(reply, parse).Err? ==> ClassifierVerdict(reply, parse).error == Error(EmptyClassifierMessage)
    ensures ClassifierVerdict(reply, parse) == Ok(true) <==>
      reply.content.Some? && !AllWhitespace(reply.content.value) &&
      var parsed := parse(Trim(reply.content.value));
      parsed.Some? && parsed.value.JObject? && "is_personal" in parsed.value.fields &&
      parsed.value.fields["is_personal"] == JBool(true)
  {
    if reply.content.Some? {
      TrimEmptyIff(reply.content.value);
    }
  }

  /** `msg.role === "user" ? "user" : "assistant"`. */
  function HistoryTurn(m: HistoryMessage): ChatMessage {
    Turn(if m.role == "user" then User else Assistant, m.content)
  }

  /** The main request: the personal or the general system prompt, the
      window of history, the user's message; the profile tool forced when
      the question is personal and left to the model otherwise. */
  function MainRequest(personal: bool, recent: seq<HistoryMessage>, newMessage: string): CompletionRequest {
    CompletionRequest(
      [SystemMessage(if personal then PersonalPrompt else GeneralPrompt)] +
      seq(|recent|, k requires 0 <= k < |recent| => HistoryTurn(recent[k])) +
      [Turn(User, newMessage)],
      if personal then ForcedTool else AutoTool, false)
  }

  /** The tool is forced exactly for a personal question, which is also
      exactly when the personal prompt is used; the messages are the prompt,
      one turn per history entry in order, and the user's message last. */
  lemma MainRequestShape(personal: bool, recent: seq<HistoryMessage>, newMessage: string)
    ensures var r := MainRequest(personal, recent, newMessage);
      (r.toolChoice == ForcedTool <==> personal) &&
      (r.toolChoice == AutoTool <==> !personal) &&
      (r.messages[0] == SystemMessage(PersonalPrompt) <==> personal) &&
      |r.messages| == |recent| + 2 &&
      (forall k :: 0 <= k < |recent| ==> r.messages[k + 1] == HistoryTurn(recent[k])) &&
      r.messages[|recent| + 1] == Turn(User, newMessage) && !r.classifierSchema
  {
  }

  /** Where a stage leads: a final answer text, a thrown error, or one more
      upstream request. */
  datatype Next = Answer(text: string) | Fail(error: ErrorValue) | FollowUp(request: CompletionRequest)

  /** `message?.content?.trim()`, failing with "Empty response from Groq."
      when that is empty or absent. */
  function ReplyText(reply: Completion): (r: Next)
    ensures !r.FollowUp?
  {
    match reply.content
    case None => Fail(Error(EmptyResponseMessage))
    case Some(c) => if Trim(c) == [] then Fail(Error(EmptyResponseMessage)) else Answer(Trim(c))
  }

  /** A reply gives an answer exactly when its content is not blank; the
      answer is that content without surrounding whitespace and never empty. */
  lemma ReplyTextCases(reply: Completion)
    ensures ReplyText(reply).Answer? <==> reply.content.Some? && !AllWhitespace(reply.content.value)
    ensures ReplyText(reply).Answer? ==>
      ReplyText(reply).text != [] && Trim(ReplyText(reply).text) == ReplyText(reply).text
    ensures !ReplyText(reply).Answer? ==> ReplyText(reply) == Fail(Error(EmptyResponseMessage))
  {
    if reply.content.Some? {
      TrimEmptyIff(reply.content.value);
      TrimIdempotent(reply.content.value);
    }
  }

  /** What the main reply leads to. With tool calls: the policy decides
      between the thrown error, the fixed missing-information answer and
      the follow-up request (the main messages, the assistant's reply, the
      tool messages, no tools). Without: the reply's own text. */
  function AfterMain(main: CompletionRequest, reply: Completion, allowed: set<string>, doc: Json, parse: string -> Option<Json>): Next {
    if |reply.toolCalls| > 0 then
      match ToolDecision(reply.toolCalls, allowed, doc, parse)
      case ToolError(e) => Fail(e)
      case MissingInfo => Answer(MissingInfoResponse)
      case Resolved(toolMessages) =>
        FollowUp(CompletionRequest(main.messages + [AssistantReply(reply)] + toolMessages, NoTools, false))
    else ReplyText(reply)
  }

  /** The follow-up request is made exactly when the reply has tool calls
      and every one of them passes the policy. Any call that fails the
      policy ends the pipeline without a follow-up. */
  lemma AfterMainFollowUpIff(main: CompletionRequest, reply: Completion, allowed: set<string>, doc: Json, parse: string -> Option<Json>)
    ensures AfterMain(main, reply, allowed, doc, parse).FollowUp? <==>
      |reply.toolCalls| > 0 && forall k :: 0 <= k < |reply.toolCalls| ==> CallPasses(reply.toolCalls[k], allowed, doc, parse)
  {
    if |reply.toolCalls| > 0 {
      ToolDecisionResolvedIff(reply.toolCalls, allowed, doc, parse);
      assert AfterMain(main, reply, allowed, doc, parse).FollowUp? <==> ToolDecision(reply.toolCalls, allowed, doc, parse).Resolved?;
    }
  }

  /** The follow-up request carries the main messages, the assistant's
      reply and one tool message per call with that call's id and results. */
  lemma AfterMainFollowUpRequest(main: CompletionRequest, reply: Completion, allowed: set<string>, doc: Json, parse: string -> Option<Json>)
    ensures AfterMain(main, reply, allowed, doc, parse).FollowUp? ==>
      AfterMain(main, reply, allowed, doc, parse).request ==
        CompletionRequest(
          main.messages + [AssistantReply(reply)] +
          seq(|reply.toolCalls|, k requires 0 <= k < |reply.toolCalls| => PassedMessage(reply.toolCalls[k], doc, parse)),
          NoTools, false)
  {
    ToolDecisionMessages(reply.toolCalls, allowed, doc, parse);
  }

  /** When tool calls are present but the policy turns them down and no
      arguments throw, the answer is exactly the missing-information text. */
  lemma AfterMainRejects(main: CompletionRequest, reply: Completion, allowed: set<string>, doc: Json, parse: string -> Option<Json>, k: nat)
    requires k < |reply.toolCalls| && !CallPasses(reply.toolCalls[k], allowed, doc, parse)
    requires forall j :: 0 <= j < |reply.toolCalls| ==> !CheckCall(reply.toolCalls[j], allowed, doc, parse).ArgumentsThrow?
    ensures AfterMain(main, reply, allowed, doc, parse) == Answer(MissingInfoResponse)
  {
    ToolDecisionResolvedIff(reply.toolCalls, allowed, doc, parse);
    var checks := Checks(reply.toolCalls, allowed, doc, parse);
    ScanSummary(checks);
  }

  /** Whatever the other calls do, a call that fails the policy ends the
      pipeline without a follow-up: with the missing-information answer, or
      with the TypeError of some call's unreadable arguments. */
  lemma AfterMainRejectsOrThrows(main: CompletionRequest, reply: Completion, allowed: set<string>, doc: Json, parse: string -> Option<Json>, k: nat)
    requires k < |reply.toolCalls| && !CallPasses(reply.toolCalls[k], allowed, doc, parse)
    ensures var next := AfterMain(main, reply, allowed, doc, parse);
      next == Answer(MissingInfoResponse) || (next.Fail? && IsArgumentsError(next.error))
  {
    ToolDecisionResolvedIff(reply.toolCalls, allowed, doc, parse);
    ToolDecisionError(reply.toolCalls, allowed, doc, parse);
  }

  /** What the main reply leads to, step by step: the tool-call processing
      when the reply has tool calls, the reply's own text otherwise. */
  method HandleMainReply(main: CompletionRequest, reply: Completion, allowed: set<string>, doc: Json, parse: string -> Option<Json>)
    returns (next: Next)
    ensures next == AfterMain(main, reply, allowed, doc, parse)
  {
    if |reply.toolCalls| > 0 {
      var decision := ProcessToolCalls(reply.toolCalls, allowed, doc, parse);
      match decision {
        case ToolError(e) =>
          next := Fail(e);
        case MissingInfo =>
          next := Answer(MissingInfoResponse);
        case Resolved(toolMessages) =>
          next := FollowUp(CompletionRequest(main.messages + [AssistantReply(reply)] + toolMessages, NoTools, false));
      }
    } else {
      next := ReplyText(reply);
    }
  }

  /** The pipeline's own error messages have no `k` or `K`. */
  ghost predicate NoLetterK(m: string) {
    'k' !in m && 'K' !in m
  }

  /** No space in the message is followed by `l` or `L`. */
  ghost predicate NoSpaceBeforeL(m: string) {
    forall i :: 0 <= i < |m| - 1 && m[i] == ' ' ==> m[i + 1] != 'l' && m[i + 1] != 'L'
  }

  // Facts about the literal messages, one per obligation: each is cheap on
  // its own and out of reach inside a larger proof.

  lemma ClassifierMessageNoK()
    ensures NoLetterK(EmptyClassifierMessage)
  {
  }

  lemma ClassifierMessageNoSpaceBeforeL()
    ensures NoSpaceBeforeL(EmptyClassifierMessage)
  {
  }

  lemma ResponseMessageNoK()
    ensures NoLetterK(EmptyResponseMessage)
  {
  }

  lemma ResponseMessageNoSpaceBeforeL()
    ensures NoSpaceBeforeL(EmptyResponseMessage)
  {
  }

  /** No `i` or `I` in the message is followed by a space. */
  ghost predicate NoIBeforeSpace(m: string) {
    forall i :: 0 <= i < |m| - 1 && m[i + 1] == ' ' ==> m[i] != 'i' && m[i] != 'I'
  }

  lemma NoSpaceBeforeLAppend(a: string, b: string)
    requires NoSpaceBeforeL(a) && NoSpaceBeforeL(b)
    requires a != [] && b != [] ==> a[|a| - 1] != ' ' || (b[0] != 'l' && b[0] != 'L')
    ensures NoSpaceBeforeL(a + b)
  {
    var m := a + b;
    forall i | 0 <= i < |m| - 1 && m[i] == ' ' ensures m[i + 1] != 'l' && m[i + 1] != 'L' {
      if i + 1 < |a| {
        assert m[i] == a[i] && m[i + 1] == a[i + 1];
      } else if i >= |a| {
        assert m[i] == b[i - |a|] && m[i + 1] == b[i + 1 - |a|];
      } else {
        assert m[i] == a[|a| - 1] && m[i + 1] == b[0];
      }
    }
  }

  lemma NoIBeforeSpaceAppend(a: string, b: string)
    requires NoIBeforeSpace(a) && NoIBeforeSpace(b)
    requires a != [] && b != [] ==> b[0] != ' ' || (a[|a| - 1] != 'i' && a[|a| - 1] != 'I')
    ensures NoIBeforeSpace(a + b)
  {
    var m := a + b;
    forall i | 0 <= i < |m| - 1 && m[i + 1] == ' ' ensures m[i] != 'i' && m[i] != 'I' {
      if i + 1 < |a| {
        assert m[i] == a[i] && m[i + 1] == a[i + 1];
      } else if i >= |a| {
        assert m[i] == b[i - |a|] && m[i + 1] == b[i + 1 - |a|];
      } else {
        assert m[i] == a[|a| - 1] && m[i + 1] == b[0];
      }
    }
  }

  lemma ReadPropertiesPrefixQuiet()
    ensures NoIBeforeSpace(ReadPropertiesPrefix) && NoSpaceBeforeL(ReadPropertiesPrefix)
  {
  }

  lemma ReadKeyPathSuffixQuiet()
    ensures NoIBeforeSpace(ReadKeyPathSuffix) && NoSpaceBeforeL(ReadKeyPathSuffix)
  {
  }

  /** The TypeError messages of unreadable tool arguments have no `i`
      before a space and no space before an `l`. */
  lemma ArgumentsMessagesQuiet()
    ensures NoIBeforeSpace(NullArgumentsMessage) && NoSpaceBeforeL(NullArgumentsMessage)
    ensures NoIBeforeSpace(UndefinedArgumentsMessage) && NoSpaceBeforeL(UndefinedArgumentsMessage)
  {
    var pre, post := ReadPropertiesPrefix, ReadKeyPathSuffix;
    ReadPropertiesPrefixQuiet();
    ReadKeyPathSuffixQuiet();
    var w1, w2 := "null", "undefined";
    assert NoIBeforeSpace(w1) && NoSpaceBeforeL(w1);
    assert NoIBeforeSpace(w2) && NoSpaceBeforeL(w2);
    NoIBeforeSpaceAppend(pre, w1);
    NoSpaceBeforeLAppend(pre, w1);
    NoIBeforeSpaceAppend(pre + w1, post);
    NoSpaceBeforeLAppend(pre + w1, post);
    NoIBeforeSpaceAppend(pre, w2);
    NoSpaceBeforeLAppend(pre, w2);
    NoIBeforeSpaceAppend(pre + w2, post);
    NoSpaceBeforeLAppend(pre + w2, post);
  }

  /** The answer text or the thrown error of a stage that makes no further
      request. */
  function Outcome(next: Next): Result<string, ErrorValue>
    requires !next.FollowUp?
  {
    if next.Answer? then Ok(next.text) else Err(next.error)
  }
}
