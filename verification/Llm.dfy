/** Chat messages and the model behind them. Replies are arbitrary: the n-th invocation
    is answered by the n-th entry of a script about which nothing is assumed. */
module Llm {
  import opened Prelude
  import opened Errors
  import opened Json

  datatype ToolCall = ToolCall(name: string, args: Args, id: string)

  datatype Usage = Usage(input: nat, output: nat)

  datatype AiMessage = AiMessage(toolCalls: seq<ToolCall>, content: string, usage: Option<Usage>)

  datatype Message =
    | Human(text: string)
    | System(text: string)
    | Ai(message: AiMessage)
    | ToolReply(callId: string, content: string)

  /** An invocation answers or raises. */
  datatype Reply = Answered(message: AiMessage) | Failed(exc: Exc)

  class LlmClient {
    const script: nat -> Reply
    /** The message list of every invocation so far. */
    var prompts: seq<seq<Message>>

    constructor (script: nat -> Reply)
      ensures this.script == script && prompts == []
    {
      this.script := script;
      prompts := [];
    }

    method Invoke(messages: seq<Message>) returns (r: Reply)
      modifies this
      ensures prompts == old(prompts) + [messages] && r == script(|old(prompts)|)
    {
      r := script(|prompts|);
      prompts := prompts + [messages];
    }
  }
}
