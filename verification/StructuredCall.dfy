/** The structured-output wrapper (llm/structured_output.py): ask, extract, validate
    against the schema, and ask again with a correction. */
module StructuredCall {
  import opened Prelude
  import opened Errors
  import opened Json
  import opened Llm

  /** The requested tool, the JSON extraction from prose, and the schema with its
      validator, which returns an error text for a value it rejects. */
  datatype Format = Format(toolName: string, supportsFc: bool, schemaText: string,
                           extract: string -> Option<Json>, validate: Json -> Option<string>)

  datatype Outcome = Parsed(value: Json) | NoValidOutput(lastError: string) | Propagated(exc: Exc)

  /** Arguments of the first call of the requested tool. */
  function FirstArgs(calls: seq<ToolCall>, toolName: string): Option<Json> {
    if calls == [] then None
    else if calls[0].name == toolName then Some(JObj(calls[0].args))
    else FirstArgs(calls[1..], toolName)
  }

  function Candidate(f: Format, m: AiMessage): Option<Json> {
    var fromTool := if f.supportsFc then FirstArgs(m.toolCalls, f.toolName) else None;
    if fromTool.Some? then fromTool else if m.content == "" then None else f.extract(m.content)
  }

  /** The value an answer provides, or why it is rejected. */
  function Judge(f: Format, m: AiMessage): Result<Json, string> {
    match Candidate(f, m)
    case None => Err("no candidate JSON found")
    case Some(v) =>
      match f.validate(v)
      case None => Ok(v)
      case Some(e) => Err("schema invalid: " + e)
  }

  const SCHEMA_INTRO := "Reply with ONLY a single JSON object that conforms to this JSON Schema. "
                        + "Do not include prose, markdown, or code fences.\n\nSchema:\n"
  const REJECTED := "Your previous reply was rejected "
  const ONLY_JSON := ". Reply with ONLY a JSON object that conforms to the schema."

  function FallbackPrompt(f: Format): Message {
    System(SCHEMA_INTRO + f.schemaText)
  }

  function Correction(lastError: string): Message {
    Human(REJECTED + ("(" + lastError + ")") + ONLY_JSON)
  }

  function FirstPrompt(f: Format, messages: seq<Message>): seq<Message> {
    if f.supportsFc then messages else [FallbackPrompt(f)] + messages
  }

  function RetryPrompt(f: Format, messages: seq<Message>, lastError: string): seq<Message> {
    [FallbackPrompt(f)] + messages + [Correction(lastError)]
  }

  ghost predicate Rejects(f: Format, r: Reply, error: string) {
    r.Answered? && Judge(f, r.message) == Err(error)
  }

  /** Attempts 0..n-1 were answered and rejected, each retry quoting the rejection just
      before it and no earlier one. */
  ghost predicate RejectedSoFar(f: Format, messages: seq<Message>, script: nat -> Reply, prompts: seq<seq<Message>>,
                                start: nat, n: nat)
    requires start + n <= |prompts|
  {
    && (forall i :: start <= i < start + n ==> script(i).Answered? && Judge(f, script(i).message).Err?)
    && (forall i :: start <= i < start + n ==> prompts[i] == PromptAt(f, messages, script, start, i))
  }

  /** The messages sent at invocation `i` of a call that began at `start`. */
  ghost function PromptAt(f: Format, messages: seq<Message>, script: nat -> Reply, start: nat, i: nat): seq<Message> {
    if i <= start then FirstPrompt(f, messages)
    else
      match script(i - 1)
      case Answered(m) => RetryPrompt(f, messages, match Judge(f, m) case Err(e) => e case Ok(_) => "")
      case Failed(_) => []
  }

  /** How replies `i`, `i + 1`, ... settle a call with `left` retries to go, and the first
      reply not consumed. */
  function Settle(f: Format, script: nat -> Reply, i: nat, left: nat): (r: (Outcome, nat))
    ensures i < r.1 <= i + left + 1
    decreases left
  {
    match script(i)
    case Failed(exc) => (Propagated(exc), i + 1)
    case Answered(m) =>
      match Judge(f, m)
      case Ok(v) => (Parsed(v), i + 1)
      case Err(e) => if left == 0 then (NoValidOutput(e), i + 1) else Settle(f, script, i + 1, left - 1)
  }

  /** At most 1 + maxRetries invocations, of which all but the last were answered and
      rejected; the last decides the outcome. */
  method Invoke(llm: LlmClient, messages: seq<Message>, f: Format, maxRetries: nat) returns (r: Outcome)
    modifies llm
    ensures (r, |llm.prompts|) == Settle(f, llm.script, |old(llm.prompts)|, maxRetries)
    ensures var start, n := |old(llm.prompts)|, |llm.prompts| - |old(llm.prompts)|;
            && 1 <= n <= maxRetries + 1
            && old(llm.prompts) <= llm.prompts
            && RejectedSoFar(f, messages, llm.script, llm.prompts, start, n - 1)
            && llm.prompts[start + n - 1] == PromptAt(f, messages, llm.script, start, start + n - 1)
            && var last := llm.script(start + n - 1);
               match r
               case Parsed(v) => last.Answered? && Judge(f, last.message) == Ok(v)
               case Propagated(exc) => last == Failed(exc)
               case NoValidOutput(e) => n == maxRetries + 1 && Rejects(f, last, e)
  {
    hide FirstPrompt, RetryPrompt, Judge;
    ghost var start := |llm.prompts|;
    var attemptMessages := FirstPrompt(f, messages);
    var lastError := "no candidate JSON found";
    for attempt := 0 to maxRetries + 1
      invariant |llm.prompts| == start + attempt && old(llm.prompts) <= llm.prompts
      invariant RejectedSoFar(f, messages, llm.script, llm.prompts, start, attempt)
      invariant attempt <= maxRetries ==>
        Settle(f, llm.script, start + attempt, maxRetries - attempt) == Settle(f, llm.script, start, maxRetries)
      invariant attempt == maxRetries + 1 ==>
                  Settle(f, llm.script, start, maxRetries) == (NoValidOutput(lastError), start + attempt)
      invariant attempt > 0 ==> Rejects(f, llm.script(start + attempt - 1), lastError)
      invariant attempt <= maxRetries ==> attemptMessages == PromptAt(f, messages, llm.script, start, start + attempt)
    {
      var reply := llm.Invoke(attemptMessages);
      if reply.Failed? { return Propagated(reply.exc); }
      var verdict := Judge(f, reply.message);
      if verdict.Ok? { return Parsed(verdict.value); }
      lastError := verdict.error;
      if attempt < maxRetries {
        attemptMessages := RetryPrompt(f, messages, lastError);
      }
    }
    r := NoValidOutput(lastError);
  }

  // ---- What an answer is worth --------------------------------------------

  /** Call `k` is the first of the requested tool. */
  ghost predicate FirstCall(calls: seq<ToolCall>, toolName: string, k: nat) {
    k < |calls| && calls[k].name == toolName && forall j :: 0 <= j < k ==> calls[j].name != toolName
  }

  lemma {:induction false} FirstArgsAreThose(calls: seq<ToolCall>, toolName: string)
    ensures match FirstArgs(calls, toolName)
            case Some(v) => exists k: nat :: FirstCall(calls, toolName, k) && v == JObj(calls[k].args)
            case None => forall j :: 0 <= j < |calls| ==> calls[j].name != toolName
    decreases |calls|
  {
    if calls != [] {
      if calls[0].name == toolName {
        assert FirstCall(calls, toolName, 0);
      } else {
        FirstArgsAreThose(calls[1..], toolName);
        if FirstArgs(calls[1..], toolName).Some? {
          var k: nat :| FirstCall(calls[1..], toolName, k)
              && FirstArgs(calls[1..], toolName) == Some(JObj(calls[1..][k].args));
          assert forall j :: 1 <= j < k + 1 ==> calls[j] == calls[1..][j - 1];
          assert FirstCall(calls, toolName, k + 1);
        } else {
          assert forall j :: 1 <= j < |calls| ==> calls[j] == calls[1..][j - 1];
        }
      }
    }
  }

  /** The value an answer offers: the arguments of the first call of the tool where tools
      are supported, and else what the extraction finds in its text. */
  ghost predicate Offers(f: Format, m: AiMessage, v: Json) {
    || (f.supportsFc && exists k: nat :: FirstCall(m.toolCalls, f.toolName, k) && v == JObj(m.toolCalls[k].args))
    || ((!f.supportsFc || forall j :: 0 <= j < |m.toolCalls| ==> m.toolCalls[j].name != f.toolName)
        && m.content != "" && f.extract(m.content) == Some(v))
  }

  /** An answer is worth exactly the value it offers, provided the schema takes it. */
  lemma JudgesByTheSchema(f: Format, m: AiMessage, v: Json)
    ensures Judge(f, m) == Ok(v) <==> Offers(f, m, v) && f.validate(v).None?
    ensures Offers(f, m, v) && f.validate(v).Some? ==> Judge(f, m) == Err("schema invalid: " + f.validate(v).value)
  {
    hide FirstArgs;
    FirstArgsAreThose(m.toolCalls, f.toolName);
    FirstCallIsOne(m.toolCalls, f.toolName);
  }

  lemma FirstCallIsOne(calls: seq<ToolCall>, toolName: string)
    ensures forall k: nat, l: nat :: FirstCall(calls, toolName, k) && FirstCall(calls, toolName, l) ==> k == l
  {
  }

  /** The messages of the caller are sent every time; a first system message carries the
      schema on every retry, and from the start where tools are not supported; a retry
      ends in a message that quotes the last rejection. */
  lemma PromptsCarryTheMessages(f: Format, messages: seq<Message>, lastError: string)
    ensures f.supportsFc ==> FirstPrompt(f, messages) == messages
    ensures !f.supportsFc ==> |FirstPrompt(f, messages)| == |messages| + 1 && FirstPrompt(f, messages)[1..] == messages
                              && ShowsSchema(f, FirstPrompt(f, messages)[0])
    ensures var p, n := RetryPrompt(f, messages, lastError), |messages|;
            && |p| == n + 2 && p[1..n + 1] == messages && ShowsSchema(f, p[0])
            && p[n + 1].Human? && Contains(p[n + 1].text, "(" + lastError + ")")
  {
    hide SCHEMA_INTRO, REJECTED, ONLY_JSON;
    InTheMiddle(SCHEMA_INTRO, f.schemaText, "");
    assert SCHEMA_INTRO + f.schemaText + "" == SCHEMA_INTRO + f.schemaText;
    InTheMiddle(REJECTED, "(" + lastError + ")", ONLY_JSON);
  }

  lemma InTheMiddle(a: string, b: string, c: string)
    ensures Contains(a + b + c, b)
  {
    assert (a + b + c)[|a|..] == b + c;
  }

  ghost predicate ShowsSchema(f: Format, m: Message) {
    m.System? && Contains(m.text, f.schemaText)
  }
}
