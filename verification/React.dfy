/** One section of Researcher-Wide (agents/researcher_wide.py, _react_one_section): a
    tool-calling conversation of at most eight turns. */
module React {
  import opened Prelude
  import opened Roles
  import opened Errors
  import opened Json
  import opened Schemas
  import opened Budget
  import opened Llm
  import opened ToolGateway
  import opened Trust
  import Decimal

  const MAX_TURNS := 8
  const ARXIV_SEARCH := "arxiv_search"
  const S2_LOOKUP := "s2_lookup"
  const WEB_SEARCH := "web_search"
  const SUBMIT := "submit_results"

  /** The paper ids in the output of arxiv_search, s2_lookup and web_search. */
  datatype SearchOutput = Papers(ids: seq<string>) | Paper(id: Option<string>) | Results(ids: seq<string>)

  /** What the node is built with: the schemas, versions and implementations of the
      tools, the parsers of a submission, and how outputs and errors are put in words. */
  datatype Kit = Kit(codec: Codec, contract: string -> Contract<SearchOutput>, version: string -> string,
                     impl: string -> Impl, show: SearchOutput -> string, errorText: CallError -> string,
                     parseSubmission: Args -> Result<WideOutput, string>, parseContent: string -> Option<WideOutput>)

  /** The transaction time, outside state and tie order met by each gateway call. */
  datatype Moment = Moment(now: real, tick: nat, tie: nat -> int)

  class World {
    const moments: nat -> Moment
    var used: nat

    constructor (moments: nat -> Moment)
      ensures this.moments == moments
    { this.moments := moments; used := 0; }

    method Next() returns (m: Moment)
      modifies this
      ensures m == moments(old(used)) && used == old(used) + 1
    {
      m := moments(used);
      used := used + 1;
    }
  }

  // ---- Tools --------------------------------------------------------------

  function WidePolicy(kit: Kit, name: string): Policy<SearchOutput> {
    if name == SUBMIT then Policy(name, "0.1.0", {ResearcherWide}, kit.contract(name), None, false, TrustedInternal)
    else
      Policy(name, kit.version(name), if name == S2_LOOKUP then {ResearcherWide, ResearcherDeep} else {ResearcherWide},
             kit.contract(name), Some(3600), true, if name == WEB_SEARCH then UntrustedContent else TrustedInternal)
  }

  function WidePolicies(kit: Kit): (m: map<string, Policy<SearchOutput>>)
    ensures forall name :: name in m ==> m[name].name == name
  {
    map[ARXIV_SEARCH := WidePolicy(kit, ARXIV_SEARCH), S2_LOOKUP := WidePolicy(kit, S2_LOOKUP),
        WEB_SEARCH := WidePolicy(kit, WEB_SEARCH), SUBMIT := WidePolicy(kit, SUBMIT)]
  }

  function WideImpls(kit: Kit): (m: map<string, Impl>)
    ensures m.Keys == WidePolicies(kit).Keys
  {
    map[ARXIV_SEARCH := kit.impl(ARXIV_SEARCH), S2_LOOKUP := kit.impl(S2_LOOKUP),
        WEB_SEARCH := kit.impl(WEB_SEARCH), SUBMIT := kit.impl(SUBMIT)]
  }

  method RegisterWideTools(gateway: ToolGateway<SearchOutput>, kit: Kit)
    requires gateway.Valid() && gateway.policies == map[] && gateway.impls == map[]
    modifies gateway
    ensures gateway.Valid() && gateway.policies == WidePolicies(kit) && gateway.impls == WideImpls(kit)
  {
    hide WidePolicy, ARXIV_SEARCH, S2_LOOKUP, WEB_SEARCH, SUBMIT;
    PolicyBearsName(kit, ARXIV_SEARCH);
    PolicyBearsName(kit, S2_LOOKUP);
    PolicyBearsName(kit, WEB_SEARCH);
    PolicyBearsName(kit, SUBMIT);
    gateway.Register(WidePolicy(kit, ARXIV_SEARCH), kit.impl(ARXIV_SEARCH));
    gateway.Register(WidePolicy(kit, S2_LOOKUP), kit.impl(S2_LOOKUP));
    gateway.Register(WidePolicy(kit, WEB_SEARCH), kit.impl(WEB_SEARCH));
    gateway.Register(WidePolicy(kit, SUBMIT), kit.impl(SUBMIT));
  }

  lemma PolicyBearsName(kit: Kit, name: string)
    ensures WidePolicy(kit, name).name == name
  {
  }

  /** _extract_paper_ids_from_tool_result; None is the ValueError for an unknown tool. */
  function PaperIds(tool: string, out: SearchOutput): Option<set<string>> {
    if tool == ARXIV_SEARCH then
      Some(if out.Papers? then set p | p in out.ids && p != "" else {})
    else if tool == S2_LOOKUP then
      Some(if out.Paper? && out.id.Some? && out.id.value != "" then {out.id.value} else {})
    else if tool == WEB_SEARCH then
      Some(if out.Results? then set p | p in out.ids && p != "" else {})
    else None
  }

  /** The id occurs in the output, in the form the tool's outputs have. */
  ghost predicate Lists(tool: string, out: SearchOutput, id: string) {
    match out
    case Papers(ids) => tool == "arxiv_search" && id in ids
    case Paper(found) => tool == "s2_lookup" && found == Some(id)
    case Results(ids) => tool == "web_search" && id in ids
  }

  /** The ids extracted are exactly the non-empty ones listed, and only the three search
      tools have any extraction. */
  lemma PaperIdsAreThoseListed(tool: string, out: SearchOutput)
    ensures PaperIds(tool, out).Some? <==> tool in {"arxiv_search", "s2_lookup", "web_search"}
    ensures PaperIds(tool, out).Some? ==>
              forall id :: id in PaperIds(tool, out).value <==> id != "" && Lists(tool, out, id)
  {
  }

  lemma ToolNamesDiffer()
    ensures ARXIV_SEARCH != S2_LOOKUP && ARXIV_SEARCH != WEB_SEARCH && ARXIV_SEARCH != SUBMIT
    ensures S2_LOOKUP != WEB_SEARCH && S2_LOOKUP != SUBMIT && WEB_SEARCH != SUBMIT
  {
    assert ARXIV_SEARCH[0] == 'a' && S2_LOOKUP[0] == 's' && WEB_SEARCH[0] == 'w' && SUBMIT[0] == 's';
    assert S2_LOOKUP[1] == '2' && SUBMIT[1] == 'u';
  }

  /** One tool of Wide: who may call it, whether and for how long it is cached, and whether
      its output is trusted. */
  lemma WideTool(kit: Kit, name: string)
    requires name in {ARXIV_SEARCH, S2_LOOKUP, WEB_SEARCH, SUBMIT}
    ensures name in WidePolicies(kit) && WideImpls(kit)[name] == kit.impl(name)
    ensures var p := WidePolicies(kit)[name];
            && ResearcherWide in p.allowedRoles && (ResearcherDeep in p.allowedRoles <==> name == S2_LOOKUP)
            && p.allowedRoles <= {ResearcherWide, ResearcherDeep} && p.contract == kit.contract(name)
            && (p.Cached() <==> name != SUBMIT) && (p.Cached() ==> p.ttl == Some(3600))
            && (p.trust == UntrustedContent <==> name == WEB_SEARCH)
  {
    hide ARXIV_SEARCH, S2_LOOKUP, WEB_SEARCH, SUBMIT;
    ToolNamesDiffer();
  }

  /** There are no other tools. */
  lemma WideToolsAreFour(kit: Kit)
    ensures WidePolicies(kit).Keys == {"arxiv_search", "s2_lookup", "web_search", "submit_results"}
    ensures WideImpls(kit).Keys == WidePolicies(kit).Keys
  {
    hide WidePolicy;
  }

  // ---- The conversation ---------------------------------------------------

  const MISMATCH_GOT := "submit_results section_id mismatch: got '"
  const MISMATCH_EXPECTED := "', expected '"
  const MISMATCH_AGAIN := "'. Re-call submit_results with section_id='"

  function MismatchText(got: string, expected: string): string {
    MISMATCH_GOT + got + MISMATCH_EXPECTED + expected + MISMATCH_AGAIN + expected + "'."
  }

  /** A submission is accepted, or answered with what is wrong with it. */
  function SubmitVerdict(kit: Kit, sectionId: string, args: Args): Result<WideOutput, string> {
    match kit.parseSubmission(args)
    case Err(e) => Err("submit_results invalid: " + e)
    case Ok(out) => if out.sectionId == sectionId then Ok(out) else Err(MismatchText(out.sectionId, sectionId))
  }

  /** _try_parse_final_output_from_content: empty content never parses. */
  function ParseContent(kit: Kit, content: string): Option<WideOutput> {
    if content == "" then None else kit.parseContent(content)
  }

  /** Accepted is exactly a submission that parses and names the section; one that names
      another is told both names, and one that does not parse is told why. */
  lemma SubmissionIsAcceptedExactlyWhen(kit: Kit, sectionId: string, args: Args, out: WideOutput)
    ensures SubmitVerdict(kit, sectionId, args) == Ok(out) <==>
            kit.parseSubmission(args) == Ok(out) && out.sectionId == sectionId
    ensures kit.parseSubmission(args).Err? ==>
              SubmitVerdict(kit, sectionId, args) == Err("submit_results invalid: " + kit.parseSubmission(args).error)
    ensures kit.parseSubmission(args).Ok? && kit.parseSubmission(args).value.sectionId != sectionId ==>
              && SubmitVerdict(kit, sectionId, args).Err?
              && MISMATCH_GOT + kit.parseSubmission(args).value.sectionId + MISMATCH_EXPECTED + sectionId
                 <= SubmitVerdict(kit, sectionId, args).error
  {
    if kit.parseSubmission(args).Ok? {
      hide MismatchText, MISMATCH_GOT, MISMATCH_EXPECTED;
      MismatchNamesBoth(kit.parseSubmission(args).value.sectionId, sectionId);
    }
  }

  lemma MismatchNamesBoth(got: string, expected: string)
    ensures MISMATCH_GOT + got + MISMATCH_EXPECTED + expected <= MismatchText(got, expected)
  {
    hide MISMATCH_GOT, MISMATCH_EXPECTED, MISMATCH_AGAIN;
  }

  /** Content is read as a submission exactly if it is not empty and parses as one. */
  lemma ContentIsAcceptedExactlyWhen(kit: Kit, content: string, out: WideOutput)
    ensures ParseContent(kit, content) == Some(out) <==> content != "" && kit.parseContent(content) == Some(out)
  {
  }

  predicate WrongSection(kit: Kit, sectionId: string, args: Args) {
    kit.parseSubmission(args).Ok? && kit.parseSubmission(args).value.sectionId != sectionId
  }

  /** The answer to one tool call: feedback on a submission, or what the gateway said. */
  datatype Answer =
    | Feedback(text: string)
    | Dispatched(query: Query, reply: Result<ToolResult<SearchOutput>, CallError>)

  /** What tool calls meet: the tool log, and the moments still to come. */
  datatype Scene = Scene(rows: seq<Row>, moments: nat -> Moment, used: nat)

  ghost function SceneOf(table: Table, world: World): Scene
    reads table, world
  {
    Scene(table.rows, world.moments, world.used)
  }

  /** Argument names that collide with the parameters of `call` itself. */
  predicate Clashes(args: Args) {
    "self" in args || "role" in args || "tool_name" in args
  }

  /** A call of a fresh gateway for the run; colliding argument names are a TypeError
      before the gateway sees anything. */
  function GatewayCall(kit: Kit, runId: string, rows: seq<Row>, q: Query): Effect<SearchOutput> {
    if Clashes(q.args) then Effect(None, Err(ArgumentClash))
    else Respond(kit.codec, WidePolicies(kit), WideImpls(kit), runId, rows, q, true)
  }

  function QueryAt(call: ToolCall, m: Moment): Query {
    Query(ResearcherWide, call.name, call.args, m.now, m.tick, m.tie)
  }

  /** The call made now is the query, and this is the reply to it. */
  ghost predicate FromGateway(kit: Kit, call: ToolCall, reply: Result<ToolResult<SearchOutput>, CallError>,
                              runId: string, scene: Scene, q: Query)
  {
    && q.role == ResearcherWide && q.tool == call.name && q.args == call.args
    && Moment(q.now, q.tick, q.tie) == scene.moments(scene.used)
    && reply == GatewayCall(kit, runId, scene.rows, q).result
  }

  /** The answer to a call that meets the tools as given. */
  ghost predicate AnswerOk(kit: Kit, runId: string, scene: Scene, sectionId: string, call: ToolCall, a: Answer) {
    match a
    case Feedback(text) => call.name == SUBMIT && SubmitVerdict(kit, sectionId, call.args) == Err(text)
    case Dispatched(q, reply) => call.name != SUBMIT && FromGateway(kit, call, reply, runId, scene, q)
  }

  /** What a call of the gateway leaves: at most one more row, and one moment less. */
  ghost function SceneAfterQuery(kit: Kit, runId: string, scene: Scene, q: Query): Scene {
    var rows := match GatewayCall(kit, runId, scene.rows, q).logged
                case Some((row, _)) => scene.rows + [row]
                case None => scene.rows;
    Scene(rows, scene.moments, scene.used + 1)
  }

  /** What the answers given so far in a turn leave. */
  ghost function SceneAfter(kit: Kit, runId: string, scene: Scene, answers: seq<Answer>): Scene {
    if answers == [] then scene
    else
      var n := |answers| - 1;
      var before := SceneAfter(kit, runId, scene, answers[..n]);
      if answers[n].Dispatched? then SceneAfterQuery(kit, runId, before, answers[n].query) else before
  }

  /** The tool message for an answer. Output of an untrusted tool is wrapped. */
  function Render(kit: Kit, sectionId: string, turn: nat, call: ToolCall, a: Answer): string {
    match a
    case Feedback(text) => text
    case Dispatched(_, Err(e)) => "tool error: " + kit.errorText(e)
    case Dispatched(_, Ok(r)) =>
      if r.trust == UntrustedContent
      then WrapUntrusted(kit.show(r.output), call.name, "E-wide-" + sectionId + "-T" + Decimal.Text(turn))
      else kit.show(r.output)
  }

  function Replies(kit: Kit, sectionId: string, turn: nat, calls: seq<ToolCall>,
                   answers: seq<Answer>): (r: seq<Message>)
    requires |answers| <= |calls|
    ensures |r| == |answers|
    ensures forall j :: 0 <= j < |r| ==>
              r[j] == ToolReply(calls[j].id, Render(kit, sectionId, turn, calls[j], answers[j]))
  {
    seq(|answers|, j requires 0 <= j < |answers| =>
      ToolReply(calls[j].id, Render(kit, sectionId, turn, calls[j], answers[j])))
  }

  /** The ids in one answer. */
  function IdsFrom(call: ToolCall, a: Answer): set<string> {
    match a
    case Dispatched(_, Ok(r)) => (match PaperIds(call.name, r.output) case Some(ids) => ids case None => {})
    case _ => {}
  }

  /** The ids found by the dispatched calls of a turn. */
  function FoundIn(calls: seq<ToolCall>, answers: seq<Answer>): set<string>
    requires |answers| <= |calls|
  {
    if answers == [] then {}
    else
      var n := |answers| - 1;
      FoundIn(calls, answers[..n]) + IdsFrom(calls[n], answers[n])
  }

  ghost predicate MismatchIn(kit: Kit, sectionId: string, calls: seq<ToolCall>, n: nat)
    requires n <= |calls|
  {
    exists j :: 0 <= j < n && calls[j].name == SUBMIT
                && kit.parseSubmission(calls[j].args).Ok?
                  && kit.parseSubmission(calls[j].args).value.sectionId != sectionId
  }

  /** One turn: the model's message and the answers given to its calls. */
  datatype Turn = Turn(message: AiMessage, answers: seq<Answer>)

  ghost predicate TurnOk(kit: Kit, runId: string, scene: Scene, sectionId: string, t: Turn) {
    && |t.answers| <= |t.message.toolCalls|
    && forall j :: 0 <= j < |t.answers| ==>
         AnswerOk(kit, runId, SceneAfter(kit, runId, scene, t.answers[..j]), sectionId, t.message.toolCalls[j],
                  t.answers[j])
  }

  /** What the given turns leave. */
  ghost function SceneAfterTurns(kit: Kit, runId: string, scene: Scene, turns: seq<Turn>): Scene {
    if turns == [] then scene
    else SceneAfter(kit, runId, SceneAfterTurns(kit, runId, scene, turns[..|turns| - 1]), turns[|turns| - 1].answers)
  }

  ghost predicate Complete(t: Turn) {
    t.message.toolCalls != [] && |t.answers| == |t.message.toolCalls|
  }

  /** No turn has more answers than calls. */
  ghost predicate Sized(turns: seq<Turn>) {
    forall k :: 0 <= k < |turns| ==> |turns[k].answers| <= |turns[k].message.toolCalls|
  }

  /** The history the model sees after the given turns; turns are numbered from 1. */
  ghost function Transcript(kit: Kit, sectionId: string, user: string, turns: seq<Turn>): seq<Message>
    requires Sized(turns)
  {
    if turns == [] then [Human(user)]
    else
      var n := |turns| - 1;
      Transcript(kit, sectionId, user, turns[..n]) + [Ai(turns[n].message)]
      + Replies(kit, sectionId, n + 1, turns[n].message.toolCalls, turns[n].answers)
  }

  ghost function Seen(turns: seq<Turn>): set<string>
    requires Sized(turns)
  {
    if turns == [] then {}
    else
      var n := |turns| - 1;
      Seen(turns[..n]) + FoundIn(turns[n].message.toolCalls, turns[n].answers)
  }

  ghost function InputTokens(turns: seq<Turn>): nat {
    if turns == [] then 0
    else
      var n := |turns| - 1;
      InputTokens(turns[..n]) + match turns[n].message.usage case Some(u) => u.input case None => 0
  }

  ghost function OutputTokens(turns: seq<Turn>): nat {
    if turns == [] then 0
    else
      var n := |turns| - 1;
      OutputTokens(turns[..n]) + match turns[n].message.usage case Some(u) => u.output case None => 0
  }

  lemma OutputGrows(turns: seq<Turn>, t: Turn)
    ensures OutputTokens(turns + [t])
            == OutputTokens(turns) + match t.message.usage case Some(u) => u.output case None => 0
    ensures InputTokens(turns + [t])
            == InputTokens(turns) + match t.message.usage case Some(u) => u.input case None => 0
  {
    assert (turns + [t])[..|turns|] == turns;
  }

  ghost predicate AnyMismatch(kit: Kit, sectionId: string, turns: seq<Turn>)
    requires Sized(turns)
  {
    exists k :: 0 <= k < |turns| && MismatchIn(kit, sectionId, turns[k].message.toolCalls, |turns[k].answers|)
  }

  /** The pair the original returns, with the ids seen; exactly one of the two is set. */
  datatype Outcome = Outcome(output: Option<WideOutput>, category: Option<ErrorCategory>, seen: set<string>)

  const MAX_TOKENS := 24000

  /** Every call of the last turn was answered, so the conversation would have gone on. */
  ghost predicate LastComplete(turns: seq<Turn>) {
    turns == [] || Complete(turns[|turns| - 1])
  }

  /** How the conversation ended. */
  ghost predicate EndsWith(kit: Kit, sectionId: string, turns: seq<Turn>, r: Outcome)
    requires Sized(turns)
  {
    match (r.output, r.category)
    case (Some(out), None) =>
      && turns != [] && out.sectionId == sectionId
      && var t := turns[|turns| - 1];
         if t.message.toolCalls == [] then ParseContent(kit, t.message.content) == Some(out)
         else
           && |t.answers| < |t.message.toolCalls| && t.message.toolCalls[|t.answers|].name == SUBMIT
           && SubmitVerdict(kit, sectionId, t.message.toolCalls[|t.answers|].args) == Ok(out)
    case (None, Some(c)) =>
      || (|turns| < 8 && LastComplete(turns) && InputTokens(turns) > 24000 && c == ContextOverflow)
      || (|turns| == 8 && LastComplete(turns)
          && c == if AnyMismatch(kit, sectionId, turns) then SchemaInvalid else ContextOverflow)
      || (turns != [] && turns[|turns| - 1].message.toolCalls == []
          && match ParseContent(kit, turns[|turns| - 1].message.content)
             case None => c == ContextOverflow
             case Some(out) => out.sectionId != sectionId && c == SchemaInvalid)
    case _ => false
  }

  /** Exactly one of output and category is set, and an output is for the right section. */
  lemma EndShape(kit: Kit, sectionId: string, turns: seq<Turn>, r: Outcome)
    requires Sized(turns) && EndsWith(kit, sectionId, turns, r)
    ensures r.output.Some? <==> r.category.None?
    ensures r.output.Some? ==> r.output.value.sectionId == sectionId
  {
  }

  /** What a conversation starts from: its first invocation is number `start`, and it
      meets the tools as `scene`. */
  datatype Talk = Talk(kit: Kit, runId: string, sectionId: string, user: string, script: nat -> Reply, start: nat,
                       scene: Scene)

  ghost function SceneAt(talk: Talk, turns: seq<Turn>): Scene {
    SceneAfterTurns(talk.kit, talk.runId, talk.scene, turns)
  }

  /** The turn after those done: who was asked what, that the invocation was within
      budget, and that each tool answer is the gateway's at that moment, over the log as it then stood. */
  ghost predicate TurnAt(talk: Talk, prompts: seq<seq<Message>>, done: seq<Turn>, t: Turn) {
    && Sized(done) && talk.start + |done| < |prompts|
    && TurnOk(talk.kit, talk.runId, SceneAt(talk, done), talk.sectionId, t)
    && talk.script(talk.start + |done|) == Answered(t.message)
    && prompts[talk.start + |done|] == Transcript(talk.kit, talk.sectionId, talk.user, done)
    && InputTokens(done) <= 24000
  }

  /** All turns but perhaps the last are complete. */
  ghost predicate Conversation(talk: Talk, prompts: seq<seq<Message>>, turns: seq<Turn>) {
    && Sized(turns) && talk.start + |turns| <= |prompts|
    && (forall k :: 0 <= k < |turns| - 1 ==> Complete(turns[k]))
    && (forall k :: 0 <= k < |turns| ==> TurnAt(talk, prompts, turns[..k], turns[k]))
  }

  lemma TurnStays(talk: Talk, prompts: seq<seq<Message>>, more: seq<seq<Message>>, done: seq<Turn>, t: Turn)
    requires TurnAt(talk, prompts, done, t) && prompts <= more
    ensures TurnAt(talk, more, done, t)
  {
    hide TurnOk, SceneAt, Transcript, InputTokens;
  }

  lemma TurnFits(talk: Talk, prompts: seq<seq<Message>>, done: seq<Turn>, t: Turn)
    requires TurnAt(talk, prompts, done, t)
    ensures |t.answers| <= |t.message.toolCalls|
  {
    hide AnswerOk, SceneAfter;
  }

  lemma ExtendConversation(talk: Talk, prompts: seq<seq<Message>>, more: seq<seq<Message>>, turns: seq<Turn>, t: Turn)
    requires Conversation(talk, prompts, turns) && prompts <= more && talk.start + |turns| < |more|
    requires forall k :: 0 <= k < |turns| ==> Complete(turns[k])
    requires TurnAt(talk, more, turns, t)
    ensures Conversation(talk, more, turns + [t])
  {
    hide TurnAt, Complete;
    var all := turns + [t];
    TurnFits(talk, more, turns, t);
    forall k | 0 <= k < |all| ensures TurnAt(talk, more, all[..k], all[k]) {
      if k < |turns| {
        assert all[..k] == turns[..k] && all[k] == turns[k];
        TurnStays(talk, prompts, more, turns[..k], turns[k]);
      } else {
        assert all[..k] == turns;
      }
    }
  }

  /** What has been collected from the answers given so far in a turn. */
  ghost predicate Tally(talk: Talk, scene: Scene, turn: nat, calls: seq<ToolCall>, answers: seq<Answer>,
                        replies: seq<Message>, found: set<string>, mismatch: bool)
  {
    && |answers| <= |calls|
    && (forall j :: 0 <= j < |answers| ==>
          AnswerOk(talk.kit, talk.runId, SceneAfter(talk.kit, talk.runId, scene, answers[..j]), talk.sectionId,
                   calls[j], answers[j]))
    && replies == Replies(talk.kit, talk.sectionId, turn, calls, answers)
    && found == FoundIn(calls, answers)
    && (mismatch <==> MismatchIn(talk.kit, talk.sectionId, calls, |answers|))
  }

  lemma TallyGrows(talk: Talk, scene: Scene, turn: nat, calls: seq<ToolCall>, answers: seq<Answer>,
                   replies: seq<Message>, found: set<string>, mismatch: bool, a: Answer)
    requires |answers| < |calls| && Tally(talk, scene, turn, calls, answers, replies, found, mismatch)
    requires AnswerOk(talk.kit, talk.runId, SceneAfter(talk.kit, talk.runId, scene, answers), talk.sectionId,
                      calls[|answers|], a)
    ensures var call := calls[|answers|];
            Tally(talk, scene, turn, calls, answers + [a],
                  replies + [ToolReply(call.id, Render(talk.kit, talk.sectionId, turn, call, a))],
                      found + IdsFrom(call, a),
                  mismatch || (call.name == SUBMIT && WrongSection(talk.kit, talk.sectionId, call.args)))
  {
    hide AnswerOk, Render, IdsFrom, SceneAfter;
    var all := answers + [a];
    assert all[..|answers|] == answers;
    forall j | 0 <= j < |all|
      ensures AnswerOk(talk.kit, talk.runId, SceneAfter(talk.kit, talk.runId, scene, all[..j]), talk.sectionId,
                       calls[j], all[j])
    {
      if j < |answers| { assert all[..j] == answers[..j]; }
    }
  }

  lemma SceneGrows(kit: Kit, runId: string, scene: Scene, answers: seq<Answer>, a: Answer)
    ensures SceneAfter(kit, runId, scene, answers + [a]) ==
            var before := SceneAfter(kit, runId, scene, answers);
            if a.Dispatched? then SceneAfterQuery(kit, runId, before, a.query) else before
  {
    hide SceneAfterQuery;
    assert (answers + [a])[..|answers|] == answers;
  }

  /** Answers the calls of one turn in order, up to an accepted submission. */
  method AnswerCalls(ghost talk: Talk, kit: Kit, sectionId: string, runId: string, table: Table, world: World,
                     turn: nat, calls: seq<ToolCall>)
    returns (accepted: Option<WideOutput>, replies: seq<Message>, found: set<string>, mismatch: bool,
             ghost answers: seq<Answer>)
    requires talk.kit == kit && talk.sectionId == sectionId && talk.runId == runId
    modifies table, world
    ensures Tally(talk, old(SceneOf(table, world)), turn, calls, answers, replies, found, mismatch)
    ensures SceneOf(table, world) == SceneAfter(kit, runId, old(SceneOf(table, world)), answers)
    ensures match accepted
            case None => |answers| == |calls|
            case Some(out) => |answers| < |calls| && calls[|answers|].name == SUBMIT
                              && SubmitVerdict(kit, sectionId, calls[|answers|].args) == Ok(out)
  {
    hide FromGateway, Render, SubmitVerdict, Replies, FoundIn, MismatchIn, WrongSection, PaperIds, Tally,
         GatewayCall, SceneAfter, SceneAfterQuery;
    replies, found, mismatch, answers := [], {}, false, [];
    NothingTallied(talk, SceneOf(table, world), turn, calls);
    for i := 0 to |calls|
      invariant |answers| == i
      invariant Tally(talk, old(SceneOf(table, world)), turn, calls, answers, replies, found, mismatch)
      invariant SceneOf(table, world) == SceneAfter(kit, runId, old(SceneOf(table, world)), answers)
    {
      var call := calls[i];
      var answer: Answer;
      ghost var seenBefore, mismatchBefore := found, mismatch;
      if call.name == SUBMIT {
        match SubmitVerdict(kit, sectionId, call.args) {
          case Ok(out) => return Some(out), replies, found, mismatch, answers;
          case Err(text) =>
            if WrongSection(kit, sectionId, call.args) { mismatch := true; }
            answer := Feedback(text);
        }
      } else {
        var reply, ids, q := Dispatch(kit, runId, table, world, call);
        found := found + ids;
        answer := Dispatched(q, reply);
      }
      assert found == seenBefore + IdsFrom(call, answer);
      TallyGrows(talk, old(SceneOf(table, world)), turn, calls, answers, replies, seenBefore, mismatchBefore, answer);
      SceneGrows(kit, runId, old(SceneOf(table, world)), answers, answer);
      answers := answers + [answer];
      replies := replies + [ToolReply(call.id, Render(kit, sectionId, turn, call, answer))];
    }
    accepted := None;
  }

  lemma NothingTallied(talk: Talk, scene: Scene, turn: nat, calls: seq<ToolCall>)
    ensures Tally(talk, scene, turn, calls, [], [], {}, false) && SceneAfter(talk.kit, talk.runId, scene, []) == scene
  {
  }

  /** One call through a fresh gateway. The result of a successful call always has its
      ids extracted: a name outside the three search tools never gets that far. */
  method Dispatch(kit: Kit, runId: string, table: Table, world: World, call: ToolCall)
    returns (reply: Result<ToolResult<SearchOutput>, CallError>, ids: set<string>, q: Query)
    requires call.name != SUBMIT
    modifies table, world
    ensures FromGateway(kit, call, reply, runId, old(SceneOf(table, world)), q)
    ensures SceneOf(table, world) == SceneAfterQuery(kit, runId, old(SceneOf(table, world)), q)
    ensures reply.Ok? ==> PaperIds(call.name, reply.value.output) == Some(ids)
    ensures reply.Err? ==> ids == {}
  {
    hide Respond, WidePolicies, WideImpls, PaperIds, Clashes;
    ghost var scene := SceneOf(table, world);
    var gateway := new ToolGateway<SearchOutput>(kit.codec, table, runId);
    RegisterWideTools(gateway, kit);
    var m := world.Next();
    q := QueryAt(call, m);
    if Clashes(q.args) {
      reply := Err(ArgumentClash);
    } else {
      reply := gateway.Call(q);
    }
    assert FromGateway(kit, call, reply, runId, scene, q);
    ids := {};
    if reply.Ok? {
      OnlySearchToolsSucceed(kit, call, reply, runId, scene, q);
      var extracted := PaperIds(call.name, reply.value.output);
      ids := extracted.value;
    }
  }

  /** The TypeError is the answer exactly if an argument bears one of the three names, and
      then the tool log stays as it was. */
  lemma ClashExactlyWhen(kit: Kit, call: ToolCall, reply: Result<ToolResult<SearchOutput>, CallError>,
                         runId: string, scene: Scene, q: Query)
    requires FromGateway(kit, call, reply, runId, scene, q)
    ensures reply == Err(ArgumentClash) <==> "self" in call.args || "role" in call.args || "tool_name" in call.args
    ensures reply == Err(ArgumentClash) ==> SceneAfterQuery(kit, runId, scene, q).rows == scene.rows
  {
    hide Latest, InputHash, WidePolicies, WideImpls;
  }

  lemma OnlySearchToolsSucceed(kit: Kit, call: ToolCall, reply: Result<ToolResult<SearchOutput>, CallError>,
                               runId: string, scene: Scene, q: Query)
    requires FromGateway(kit, call, reply, runId, scene, q) && reply.Ok? && call.name != SUBMIT
    ensures PaperIds(call.name, reply.value.output).Some?
    ensures reply.value.trust == if call.name == WEB_SEARCH then UntrustedContent else TrustedInternal
  {
    hide Latest, InputHash, TruncationMarker;
    assert call.name in WidePolicies(kit);
  }

  /** The loop's variables, and the state around it, after the given complete turns. */
  ghost predicate Going(talk: Talk, prompts: seq<seq<Message>>, scene: Scene, turns: seq<Turn>,
                        messages: seq<Message>, total: int, seen: set<string>, mismatch: bool)
  {
    && Conversation(talk, prompts, turns) && |prompts| == talk.start + |turns|
    && (forall k :: 0 <= k < |turns| ==> Complete(turns[k]))
    && scene == SceneAt(talk, turns)
    && messages == Transcript(talk.kit, talk.sectionId, talk.user, turns) && total == InputTokens(turns)
    && seen == Seen(turns) && (mismatch <==> AnyMismatch(talk.kit, talk.sectionId, turns))
  }

  lemma NothingSaid(talk: Talk, prompts: seq<seq<Message>>)
    requires talk.start == |prompts|
    ensures Going(talk, prompts, talk.scene, [], [Human(talk.user)], 0, {}, false)
    ensures InputTokens([]) == 0 && OutputTokens([]) == 0
  {
  }

  function InputOf(m: AiMessage): nat {
    match m.usage case Some(u) => u.input case None => 0
  }

  /** A turn taken: its answer, and the calls answered. */
  lemma TurnTaken(talk: Talk, prompts: seq<seq<Message>>, scene: Scene, turns: seq<Turn>, messages: seq<Message>,
                  total: int, seen: set<string>, mismatch: bool, more: seq<seq<Message>>, m: AiMessage,
                  answers: seq<Answer>, replies: seq<Message>, found: set<string>, mismatchHere: bool)
    requires Going(talk, prompts, scene, turns, messages, total, seen, mismatch) && total <= MAX_TOKENS
    requires more == prompts + [messages] && talk.script(|prompts|) == Answered(m)
    requires Tally(talk, scene, |turns| + 1, m.toolCalls, answers, replies, found, mismatchHere)
    ensures var all, after := turns + [Turn(m, answers)], SceneAfter(talk.kit, talk.runId, scene, answers);
            && Conversation(talk, more, all) && |more| == talk.start + |all|
            && after == SceneAt(talk, all) && seen + found == Seen(all)
            && (Complete(all[|turns|]) ==>
                  Going(talk, more, after, all, messages + [Ai(m)] + replies, total + InputOf(m), seen + found,
                        mismatch || mismatchHere))
  {
    hide Conversation, Tally, AnswerOk, SceneAfter, FoundIn, MismatchIn, Replies;
    var t := Turn(m, answers);
    var all := turns + [t];
    assert all[..|turns|] == turns;
    TurnFromTally(talk, scene, |turns| + 1, m, answers, replies, found, mismatchHere);
    ConversationIsSized(talk, prompts, turns);
    ExtendConversation(talk, prompts, more, turns, t);
    ConversationIsSized(talk, more, all);
    MismatchGrows(talk.kit, talk.sectionId, turns, t);
  }

  lemma MismatchGrows(kit: Kit, sectionId: string, turns: seq<Turn>, t: Turn)
    requires Sized(turns) && Sized(turns + [t])
    ensures |t.answers| <= |t.message.toolCalls|
    ensures AnyMismatch(kit, sectionId, turns + [t]) <==>
            AnyMismatch(kit, sectionId, turns) || MismatchIn(kit, sectionId, t.message.toolCalls, |t.answers|)
  {
    hide MismatchIn;
    var all := turns + [t];
    assert all[|turns|] == t;
    if AnyMismatch(kit, sectionId, turns) {
      var k :| 0 <= k < |turns| && MismatchIn(kit, sectionId, turns[k].message.toolCalls, |turns[k].answers|);
      assert MismatchIn(kit, sectionId, all[k].message.toolCalls, |all[k].answers|);
    }
  }

  lemma TurnFromTally(talk: Talk, scene: Scene, turn: nat, m: AiMessage, answers: seq<Answer>,
                      replies: seq<Message>, found: set<string>, mismatch: bool)
    requires Tally(talk, scene, turn, m.toolCalls, answers, replies, found, mismatch)
    ensures TurnOk(talk.kit, talk.runId, scene, talk.sectionId, Turn(m, answers))
    ensures replies == Replies(talk.kit, talk.sectionId, turn, m.toolCalls, answers)
            && found == FoundIn(m.toolCalls, answers)
    ensures mismatch <==> MismatchIn(talk.kit, talk.sectionId, m.toolCalls, |answers|)
  {
    hide AnswerOk, Replies, FoundIn, MismatchIn, SceneAfter;
  }

  lemma ConversationIsSized(talk: Talk, prompts: seq<seq<Message>>, turns: seq<Turn>)
    requires Conversation(talk, prompts, turns)
    ensures Sized(turns) && talk.start + |turns| <= |prompts|
  {
    hide TurnAt, Complete;
  }

  lemma ConversationKeepsItsPrompts(talk: Talk, prompts: seq<seq<Message>>, more: seq<seq<Message>>, turns: seq<Turn>)
    requires prompts <= more && Conversation(talk, prompts, turns)
    ensures Conversation(talk, more, turns)
  {
    hide TurnAt, Complete;
    forall k | 0 <= k < |turns| ensures TurnAt(talk, more, turns[..k], turns[k]) {
      TurnStays(talk, prompts, more, turns[..k], turns[k]);
    }
  }

  /** What every exit of the loop promises. */
  ghost predicate Ended(talk: Talk, prompts: seq<seq<Message>>, scene: Scene, turns: seq<Turn>, o: Outcome) {
    && Conversation(talk, prompts, turns) && |prompts| == talk.start + |turns| && scene == SceneAt(talk, turns)
    && o.seen == Seen(turns) && EndsWith(talk.kit, talk.sectionId, turns, o)
  }

  lemma EndsOverBudget(talk: Talk, prompts: seq<seq<Message>>, scene: Scene, turns: seq<Turn>,
                       messages: seq<Message>, total: int, seen: set<string>, mismatch: bool)
    requires Going(talk, prompts, scene, turns, messages, total, seen, mismatch) && total > MAX_TOKENS
             && |turns| < MAX_TURNS
    ensures Ended(talk, prompts, scene, turns, Outcome(None, Some(ContextOverflow), seen))
  {
    hide InputTokens, Complete, Conversation;
    ConversationIsSized(talk, prompts, turns);
  }

  /** What a reply without tool calls leads to. */
  function FromContent(kit: Kit, sectionId: string, content: string, seen: set<string>): Outcome {
    match ParseContent(kit, content)
    case Some(out) =>
      if out.sectionId == sectionId then Outcome(Some(out), None, seen) else Outcome(None, Some(SchemaInvalid), seen)
    case None => Outcome(None, Some(ContextOverflow), seen)
  }

  lemma EndsInContent(kit: Kit, sectionId: string, turns: seq<Turn>, seen: set<string>)
    requires Sized(turns) && turns != [] && turns[|turns| - 1].message.toolCalls == []
    ensures EndsWith(kit, sectionId, turns, FromContent(kit, sectionId, turns[|turns| - 1].message.content, seen))
  {
  }

  lemma EndsAccepted(kit: Kit, sectionId: string, turns: seq<Turn>, out: WideOutput, seen: set<string>)
    requires Sized(turns) && turns != []
    requires var t := turns[|turns| - 1];
             && |t.answers| < |t.message.toolCalls| && t.message.toolCalls[|t.answers|].name == SUBMIT
             && SubmitVerdict(kit, sectionId, t.message.toolCalls[|t.answers|].args) == Ok(out)
    ensures EndsWith(kit, sectionId, turns, Outcome(Some(out), None, seen))
  {
    AcceptedSection(kit, sectionId, turns[|turns| - 1].message.toolCalls[|turns[|turns| - 1].answers|].args);
  }

  lemma EndsAtCap(talk: Talk, prompts: seq<seq<Message>>, scene: Scene, turns: seq<Turn>, messages: seq<Message>,
                  total: int, seen: set<string>, mismatch: bool)
    requires Going(talk, prompts, scene, turns, messages, total, seen, mismatch) && |turns| == MAX_TURNS
    ensures Ended(talk, prompts, scene, turns,
                  Outcome(None, Some(if mismatch then SchemaInvalid else ContextOverflow), seen))
  {
    hide InputTokens, Complete, AnyMismatch, Conversation;
    ConversationIsSized(talk, prompts, turns);
  }

  /** `cut` turns were completed when the model raised. */
  ghost predicate CutShort(talk: Talk, prompts: seq<seq<Message>>, cut: seq<Turn>, exc: Exc) {
    && Conversation(talk, prompts, cut) && |prompts| == talk.start + |cut| + 1
    && |cut| < 8 && InputTokens(cut) <= 24000
    && (forall k :: 0 <= k < |cut| ==> Complete(cut[k]))
    && prompts[|prompts| - 1] == Transcript(talk.kit, talk.sectionId, talk.user, cut)
    && talk.script(|prompts| - 1) == Failed(exc)
  }

  lemma RaisedHere(talk: Talk, prompts: seq<seq<Message>>, scene: Scene, turns: seq<Turn>, messages: seq<Message>,
                   total: int, seen: set<string>, mismatch: bool, exc: Exc)
    requires Going(talk, prompts, scene, turns, messages, total, seen, mismatch) && total <= MAX_TOKENS
             && |turns| < MAX_TURNS
    requires talk.script(|prompts|) == Failed(exc)
    ensures CutShort(talk, prompts + [messages], turns, exc)
  {
    hide Conversation;
    ConversationKeepsItsPrompts(talk, prompts, prompts + [messages], turns);
    ConversationIsSized(talk, prompts, turns);
  }

  /** The conversation stopped because the recorded input was over the budget. */
  ghost predicate OverBudget(turns: seq<Turn>) {
    |turns| < 8 && LastComplete(turns) && InputTokens(turns) > 24000
  }

  /** The usage with the replies' tokens recorded. */
  ghost function Recorded(u: RoleUsage, turns: seq<Turn>): RoleUsage {
    RoleUsage(u.inputTokens + InputTokens(turns), u.outputTokens + OutputTokens(turns), u.overflows)
  }

  /** What the conversation makes of the usage of its role. */
  ghost function UsageAfter(u: RoleUsage, turns: seq<Turn>): RoleUsage {
    Recorded(u, turns).(overflows := u.overflows + if OverBudget(turns) then 1 else 0)
  }

  lemma NothingRecorded(u: RoleUsage)
    ensures Recorded(u, []) == u
  {
  }

  function UsageOfReply(m: AiMessage): Usage {
    match m.usage case Some(used) => used case None => Usage(0, 0)
  }

  lemma RecordedGrows(u: RoleUsage, turns: seq<Turn>, m: AiMessage, answers: seq<Answer>)
    ensures var before, used := Recorded(u, turns), UsageOfReply(m);
            Recorded(u, turns + [Turn(m, answers)])
            == before.(inputTokens := before.inputTokens + used.input,
                       outputTokens := before.outputTokens + used.output)
  {
    hide InputTokens, OutputTokens;
    OutputGrows(turns, Turn(m, answers));
  }

  /** Records a reply's usage, if it reports any. */
  method RecordReply(budget: BudgetManager, m: AiMessage) returns (input: nat)
    modifies budget
    ensures input == InputOf(m)
    ensures var before, used := old(budget.UsageOf(ResearcherWide)), UsageOfReply(m);
            budget.UsageOf(ResearcherWide)
            == before.(inputTokens := before.inputTokens + used.input,
                       outputTokens := before.outputTokens + used.output)
    ensures forall role :: role != ResearcherWide ==> budget.UsageOf(role) == old(budget.UsageOf(role))
  {
    input := 0;
    if m.usage.Some? {
      input := m.usage.value.input;
      budget.RecordUsage(ResearcherWide, m.usage.value.input, m.usage.value.output);
    }
  }

  /** An exit that is not over the budget. */
  lemma NotOverBudget(turns: seq<Turn>, u: RoleUsage)
    requires |turns| >= 8 || InputTokens(turns) <= 24000 || (turns != [] && !Complete(turns[|turns| - 1]))
    ensures UsageAfter(u, turns) == Recorded(u, turns)
  {
    hide InputTokens, OutputTokens;
  }

  lemma IsOverBudget(talk: Talk, prompts: seq<seq<Message>>, scene: Scene, turns: seq<Turn>, messages: seq<Message>,
                     total: int, seen: set<string>, mismatch: bool, u: RoleUsage)
    requires Going(talk, prompts, scene, turns, messages, total, seen, mismatch) && total > 24000 && |turns| < 8
    ensures UsageAfter(u, turns) == Recorded(u, turns).(overflows := Recorded(u, turns).overflows + 1)
  {
    hide InputTokens, OutputTokens, Conversation, Complete;
  }

  lemma CutIsWithinBudget(talk: Talk, prompts: seq<seq<Message>>, cut: seq<Turn>, exc: Exc, u: RoleUsage)
    requires CutShort(talk, prompts, cut, exc)
    ensures UsageAfter(u, cut) == Recorded(u, cut)
  {
    hide InputTokens, OutputTokens, Conversation, Complete;
    NotOverBudget(cut, u);
  }

  method ReactOneSection(kit: Kit, section: PlannerSection, user: string, runId: string,
                         llm: LlmClient, budget: BudgetManager, table: Table, world: World)
    returns (r: Result<Outcome, Exc>, ghost turns: seq<Turn>)
    modifies llm, budget, table, world
    ensures old(llm.prompts) <= llm.prompts
    ensures var talk :=
              Talk(kit, runId, section.sectionId, user, llm.script, |old(llm.prompts)|, old(SceneOf(table, world)));
            && |turns| <= 8 && SceneOf(table, world) == SceneAt(talk, turns)
            && match r
               case Ok(o) =>
                 && Conversation(talk, llm.prompts, turns) && |llm.prompts| == talk.start + |turns|
                 && o.seen == Seen(turns) && EndsWith(kit, section.sectionId, turns, o)
               case Err(exc) => CutShort(talk, llm.prompts, turns, exc)
    ensures budget.UsageOf(ResearcherWide) == UsageAfter(old(budget.UsageOf(ResearcherWide)), turns)
    ensures forall role :: role != ResearcherWide ==> budget.UsageOf(role) == old(budget.UsageOf(role))
  {
    hide Tally, Transcript, InputTokens, Recorded, UsageAfter, UsageOfReply, InputOf, Seen, AnyMismatch,
         Conversation, EndsWith, ParseContent, Going, SceneAt, SceneAfter, SubmitVerdict, CutShort;
    var sectionId := section.sectionId;
    ghost var talk := Talk(kit, runId, sectionId, user, llm.script, |llm.prompts|, SceneOf(table, world));
    var messages := [Human(user)];
    var totalInput, seen, hadMismatch := 0, {}, false;
    turns := [];
    ghost var usage := budget.UsageOf(ResearcherWide);
    NothingSaid(talk, llm.prompts);
    NothingRecorded(usage);
    for turn := 1 to MAX_TURNS + 1
      invariant |turns| == turn - 1 && old(llm.prompts) <= llm.prompts
      invariant Going(talk, llm.prompts, SceneOf(table, world), turns, messages, totalInput, seen, hadMismatch)
      invariant budget.UsageOf(ResearcherWide) == Recorded(usage, turns)
      invariant forall role :: role != ResearcherWide ==> budget.UsageOf(role) == old(budget.UsageOf(role))
    {
      var spec := budget.Check(ResearcherWide, totalInput);
      if spec.None? {
        IsOverBudget(talk, llm.prompts, SceneOf(table, world), turns, messages, totalInput, seen, hadMismatch, usage);
        EndsOverBudget(talk, llm.prompts, SceneOf(table, world), turns, messages, totalInput, seen, hadMismatch);
        r := Ok(Outcome(None, Some(ContextOverflow), seen));
        return;
      }
      ghost var prompts, scene, total := llm.prompts, SceneOf(table, world), totalInput;
      var reply := llm.Invoke(messages);
      if reply.Failed? {
        StartIsKept(talk, prompts, scene, turns, messages, total, seen, hadMismatch);
        RaisedHere(talk, prompts, scene, turns, messages, total, seen, hadMismatch, reply.exc);
        CutIsWithinBudget(talk, llm.prompts, turns, reply.exc, usage);
        r := Err(reply.exc);
        return;
      }
      var response := reply.message;
      var input := RecordReply(budget, response);
      totalInput := totalInput + input;
      var accepted, replies, found, mismatch, answers :=
        AnswerCalls(talk, kit, sectionId, runId, table, world, turn, response.toolCalls);
      TurnTaken(talk, prompts, scene, turns, messages, total, seen, hadMismatch, llm.prompts, response, answers,
                replies, found, mismatch);
      RecordedGrows(usage, turns, response, answers);
      turns := turns + [Turn(response, answers)];
      seen := seen + found;
      if response.toolCalls == [] {
        ConversationIsSized(talk, llm.prompts, turns);
        NotOverBudget(turns, usage);
        EndsInContent(kit, sectionId, turns, seen);
        var parsed := ParseContent(kit, response.content);
        if parsed.Some? && parsed.value.sectionId == sectionId {
          r := Ok(Outcome(parsed, None, seen));
          return;
        }
        r := Ok(Outcome(None, Some(if parsed.Some? then SchemaInvalid else ContextOverflow), seen));
        return;
      }
      if accepted.Some? {
        ConversationIsSized(talk, llm.prompts, turns);
        NotOverBudget(turns, usage);
        EndsAccepted(kit, sectionId, turns, accepted.value, seen);
        r := Ok(Outcome(accepted, None, seen));
        return;
      }
      hadMismatch := hadMismatch || mismatch;
      messages := messages + [Ai(response)] + replies;
    }
    NotOverBudget(turns, usage);
    EndsAtCap(talk, llm.prompts, SceneOf(table, world), turns, messages, totalInput, seen, hadMismatch);
    r := Ok(Outcome(None, Some(if hadMismatch then SchemaInvalid else ContextOverflow), seen));
  }

  lemma StartIsKept(talk: Talk, prompts: seq<seq<Message>>, scene: Scene, turns: seq<Turn>, messages: seq<Message>,
                    total: int, seen: set<string>, mismatch: bool)
    requires Going(talk, prompts, scene, turns, messages, total, seen, mismatch)
    ensures scene == SceneAt(talk, turns)
  {
    hide Conversation;
    ConversationIsSized(talk, prompts, turns);
  }

  lemma AcceptedSection(kit: Kit, sectionId: string, args: Args)
    ensures SubmitVerdict(kit, sectionId, args).Ok? ==> SubmitVerdict(kit, sectionId, args).value.sectionId == sectionId
  {
  }

  // ---- The protocol -------------------------------------------------------

  /** One tool message per call, in order and with the call's id. */
  ghost predicate AnswersTo(calls: seq<ToolCall>, replies: seq<Message>) {
    |replies| == |calls| && forall j :: 0 <= j < |calls| ==> replies[j].ToolReply? && replies[j].callId == calls[j].id
  }

  /** Model messages with tool calls, each followed by exactly its tool messages. */
  ghost predicate Blocks(messages: seq<Message>)
    decreases |messages|
  {
    messages == [] ||
    (&& messages[0].Ai?
     && var calls := messages[0].message.toolCalls;
        && calls != [] && |messages| > |calls|
        && AnswersTo(calls, messages[1..1 + |calls|])
        && Blocks(messages[1 + |calls|..]))
  }

  lemma {:induction false} BlocksAppend(messages: seq<Message>, m: AiMessage, replies: seq<Message>)
    requires Blocks(messages) && m.toolCalls != [] && AnswersTo(m.toolCalls, replies)
    ensures Blocks(messages + [Ai(m)] + replies)
    decreases |messages|
  {
    hide AnswersTo;
    var all := messages + [Ai(m)] + replies;
    var n := if messages == [] then |replies| else |messages[0].message.toolCalls|;
    AnswersCount(m.toolCalls, replies);
    if messages == [] {
      assert all[1..1 + n] == replies && all[1 + n..] == [];
    } else {
      assert all[1..1 + n] == messages[1..1 + n];
      assert all[1 + n..] == messages[1 + n..] + [Ai(m)] + replies;
      BlocksAppend(messages[1 + n..], m, replies);
    }
  }

  lemma AnswersCount(calls: seq<ToolCall>, replies: seq<Message>)
    requires AnswersTo(calls, replies)
    ensures |replies| == |calls|
  {
  }

  lemma {:induction false} TranscriptAlternates(kit: Kit, sectionId: string, user: string, turns: seq<Turn>)
    requires Sized(turns) && forall k :: 0 <= k < |turns| ==> Complete(turns[k])
    ensures var t := Transcript(kit, sectionId, user, turns); t != [] && t[0] == Human(user) && Blocks(t[1..])
  {
    hide Render, Blocks;
    if turns == [] {
      assert Blocks([]) by { NoBlocks(); }
      assert [Human(user)][1..] == [];
    } else {
      var n := |turns| - 1;
      TranscriptAlternates(kit, sectionId, user, turns[..n]);
      var before := Transcript(kit, sectionId, user, turns[..n]);
      var m := turns[n].message;
      var replies := Replies(kit, sectionId, n + 1, m.toolCalls, turns[n].answers);
      BlocksAppend(before[1..], m, replies);
      assert (before + [Ai(m)] + replies)[1..] == before[1..] + [Ai(m)] + replies;
    }
  }

  lemma NoBlocks()
    ensures Blocks([])
  {
  }

  /** At every invocation the history is the user message and then such blocks, and it
      is the previous history with the reply to it and the tool answers appended. */
  lemma EveryPromptFollowsTheProtocol(talk: Talk, prompts: seq<seq<Message>>, turns: seq<Turn>, k: nat)
    requires Conversation(talk, prompts, turns) && k < |turns|
    ensures var prompt := prompts[talk.start + k];
            && prompt != [] && prompt[0] == Human(talk.user) && Blocks(prompt[1..])
            && (k > 0 ==> prompts[talk.start + k - 1] < prompt
                          && prompt[|prompts[talk.start + k - 1]|] == Ai(MessageAt(talk.script, talk.start + k - 1)))
  {
    hide TurnOk, Blocks, SceneAt, InputTokens;
    assert TurnAt(talk, prompts, turns[..k], turns[k]);
    TranscriptAlternates(talk.kit, talk.sectionId, talk.user, turns[..k]);
    if k > 0 {
      assert TurnAt(talk, prompts, turns[..k - 1], turns[k - 1]);
      assert turns[..k][..k - 1] == turns[..k - 1];
    }
  }

  /** So is the history at the invocation that raised. */
  lemma LastPromptFollowsTheProtocol(talk: Talk, prompts: seq<seq<Message>>, cut: seq<Turn>, exc: Exc)
    requires CutShort(talk, prompts, cut, exc)
    ensures var n := |prompts| - 1;
            && n >= 0 && prompts[n] != [] && prompts[n][0] == Human(talk.user) && Blocks(prompts[n][1..])
            && (cut != [] ==> n > 0 && prompts[n - 1] < prompts[n]
                              && prompts[n][|prompts[n - 1]|] == Ai(MessageAt(talk.script, n - 1)))
  {
    hide TurnOk, Blocks, SceneAt, InputTokens;
    TranscriptAlternates(talk.kit, talk.sectionId, talk.user, cut);
    if cut != [] {
      var k := |cut| - 1;
      assert TurnAt(talk, prompts, cut[..k], cut[k]);
    }
  }

  ghost function MessageAt(script: nat -> Reply, i: nat): AiMessage {
    match script(i) case Answered(m) => m case Failed(_) => AiMessage([], "", None)
  }

  /** The id is in the result of a tool call of the conversation. */
  ghost predicate HasReturned(turns: seq<Turn>, id: string) {
    exists k, j :: 0 <= k < |turns| && 0 <= j < |turns[k].answers| && j < |turns[k].message.toolCalls|
                   && id in IdsFrom(turns[k].message.toolCalls[j], turns[k].answers[j])
  }

  lemma {:induction false} FoundWasReturned(calls: seq<ToolCall>, answers: seq<Answer>, id: string) returns (j: nat)
    requires |answers| <= |calls| && id in FoundIn(calls, answers)
    ensures j < |answers| && id in IdsFrom(calls[j], answers[j])
  {
    hide IdsFrom;
    var n := |answers| - 1;
    if id in IdsFrom(calls[n], answers[n]) { j := n; } else { j := FoundWasReturned(calls, answers[..n], id); }
  }

  /** The ids seen are exactly those in the results of successful calls. */
  lemma {:induction false} SeenWasReturned(turns: seq<Turn>, id: string)
    requires Sized(turns)
    ensures id in Seen(turns) <==> HasReturned(turns, id)
  {
    hide IdsFrom, FoundIn;
    if turns != [] {
      var n := |turns| - 1;
      var t := turns[n];
      SeenWasReturned(turns[..n], id);
      if id in FoundIn(t.message.toolCalls, t.answers) {
        var j := FoundWasReturned(t.message.toolCalls, t.answers, id);
        assert id in IdsFrom(turns[n].message.toolCalls[j], turns[n].answers[j]);
      } else if id in Seen(turns) {
        var k, j :| 0 <= k < n && 0 <= j < |turns[..n][k].answers| && j < |turns[..n][k].message.toolCalls|
                    && id in IdsFrom(turns[..n][k].message.toolCalls[j], turns[..n][k].answers[j]);
        assert id in IdsFrom(turns[k].message.toolCalls[j], turns[k].answers[j]);
      }
      if HasReturned(turns, id) {
        var k, j :| 0 <= k < |turns| && 0 <= j < |turns[k].answers| && j < |turns[k].message.toolCalls|
                    && id in IdsFrom(turns[k].message.toolCalls[j], turns[k].answers[j]);
        if k < n {
          assert turns[..n][k] == turns[k];
        } else {
          ReturnedIsFound(t.message.toolCalls, t.answers, j, id);
        }
      }
    }
  }

  lemma {:induction false} ReturnedIsFound(calls: seq<ToolCall>, answers: seq<Answer>, j: nat, id: string)
    requires j < |answers| <= |calls| && id in IdsFrom(calls[j], answers[j])
    ensures id in FoundIn(calls, answers)
  {
    hide IdsFrom;
    if j < |answers| - 1 { ReturnedIsFound(calls, answers[..|answers| - 1], j, id); }
  }

  /** Text from the open web reaches the model only wrapped, whatever the gateway's table
      held, and unwrapping by the turn's id gives the text back. */
  lemma WebResultsAreWrapped(kit: Kit, runId: string, scene: Scene, sectionId: string, turn: nat, call: ToolCall,
                             a: Answer)
    requires AnswerOk(kit, runId, scene, sectionId, call, a) && a.Dispatched? && a.reply.Ok?
    ensures var id, text := "E-wide-" + sectionId + "-T" + Decimal.Text(turn), Render(kit, sectionId, turn, call, a);
            && (call.name == "web_search" ==>
                  && text == WrapUntrusted(kit.show(a.reply.value.output), call.name, id)
                  && ExtractUntrusted(text, id) == Some(kit.show(a.reply.value.output)))
            && (call.name != "web_search" ==> text == kit.show(a.reply.value.output))
  {
    hide Respond, WidePolicies, WideImpls, WrapUntrusted, ExtractUntrusted, Render;
    OnlySearchToolsSucceed(kit, call, a.reply, runId, scene, a.query);
    var id, content := "E-wide-" + sectionId + "-T" + Decimal.Text(turn), kit.show(a.reply.value.output);
    OnePack(content, call.name, id);
    RenderedByTrust(kit, sectionId, turn, call, a.query, a.reply.value);
  }

  /** Errors and feedback reach the model as their text. */
  lemma ErrorsAreTold(kit: Kit, sectionId: string, turn: nat, call: ToolCall, a: Answer)
    ensures match a
            case Feedback(text) => Render(kit, sectionId, turn, call, a) == text
            case Dispatched(_, reply) =>
              reply.Err? ==> Render(kit, sectionId, turn, call, a) == "tool error: " + kit.errorText(reply.error)
  {
  }

  lemma RenderedByTrust(kit: Kit, sectionId: string, turn: nat, call: ToolCall, q: Query, r: ToolResult<SearchOutput>)
    ensures Render(kit, sectionId, turn, call, Dispatched(q, Ok(r)))
         == if r.trust == UntrustedContent
            then WrapUntrusted(kit.show(r.output), call.name, "E-wide-" + sectionId + "-T" + Decimal.Text(turn))
            else kit.show(r.output)
  {
  }

  lemma OnePack(content: string, tool: string, id: string)
    ensures ExtractUntrusted(WrapUntrusted(content, tool, id), id) == Some(content)
  {
    hide WrapUntrusted, ExtractUntrusted;
    ExtractStep("", Pack(content, tool, id), "", id);
    assert "" + WrapUntrusted(content, tool, id) + "" == WrapUntrusted(content, tool, id);
  }
}
