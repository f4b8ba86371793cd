/** The values exchanged with the upstream chat-completion service, shared by
    the deployed endpoint (functions/api/chat.ts) and the browser client
    (services/groqService.ts). The HTTP call itself is not modelled: each call
    is an outcome supplied by the caller of the model. */
module Upstream {
  import opened Wrappers
  import opened Profile

  /** A thrown value: an object with or without a `message` property (for
      `Error` objects, its text), or a value that is not an object at all. */
  datatype ErrorValue = NonObject | ErrorObject(message: Option<string>)

  /** `new Error(message)`. */
  function Error(message: string): ErrorValue {
    ErrorObject(Some(message))
  }

  /** A tool call as the model emits it: `id`, `function.name` (absent when
      the call has no function name) and `function.arguments`, where an empty
      string also stands for absent arguments. */
  datatype ToolCall = ToolCall(id: string, name: Option<string>, arguments: string)

  /** `choices[0].message` of a completion; `content` is absent for `null`
      or a missing message. */
  datatype Completion = Completion(content: Option<string>, toolCalls: seq<ToolCall>)

  /** What one upstream call gives: a completion, or the error it throws. */
  type CallOutcome = Result<Completion, ErrorValue>

  datatype Role = User | Assistant

  /** The three fixed system prompts, whose texts are not modelled. */
  datatype Prompt = ClassifierPrompt | PersonalPrompt | GeneralPrompt

  /** One entry of a tool result's `results` array: the key path and what
      the profile lookup gave for it. */
  datatype ResultEntry = ResultEntry(keyPath: string, lookup: Lookup)

  /** A message of a request; a tool message carries its `results` in place
      of their JSON text. */
  datatype ChatMessage =
    | SystemMessage(prompt: Prompt)
    | Turn(role: Role, content: string)
    | AssistantReply(reply: Completion)
    | ToolMessage(toolCallId: string, name: string, results: seq<ResultEntry>)

  /** No tools attached, the profile tool at the model's discretion
      (`"auto"`), or the profile tool forced. */
  datatype ToolChoice = NoTools | AutoTool | ForcedTool

  /** A request body: the messages, the tool setting and whether the
      classifier's `is_personal` JSON schema is demanded. */
  datatype CompletionRequest = CompletionRequest(messages: seq<ChatMessage>, toolChoice: ToolChoice, classifierSchema: bool)

  /** The fixed answer for every question the profile cannot answer. */
  const MissingInfoResponse: string := "Unfortunately, I do not have that information with me right now :("
}
